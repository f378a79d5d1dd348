# A verified model of the beatmap queue service

The service takes requests for beatmaps into queues, checks them against the queues' rules in an API
process and a daemon, archives beatmaps as content-addressed snapshots, and searches over all of it.
This project models the parts whose correctness does not show in any single function, and proves it for
every input, every run or every interleaving.

| Modules | What they model |
|---|---|
| `SchemaExpansion`, `ExpansionMeaning`, `OpenApiSpec`, `ExpansionLimits`, `IncludeDefaults` | the rewriter that inlines `*Shallow` references of the OpenAPI document from a table it overwrites while reading it, and the reader of its include schemas |
| `RequestProtocol`, `RequestRuns`, `RequestSteps`, `RequestVerdicts`, `RequestSolo`, `RequestCollision`, `RuleSnapshot` | submitting a request: POST, PATCH and DELETE handlers, daemon workers with retries, validators and the start-up cleanup, interleaved at every await |
| `Json`, `StableSort`, `ConfigNormalization`, `RuleTable`, `RuleLaws`, `RuleStore` | JSON text, the canonical form of rule configurations, and the rule table with its operations |
| `LockProtocol`, `RateLimit`, `AuthLimiter` | the timed Redis primitives: token lock, fixed-window limiter, lockout |
| `BeatmapArchive`, `ArchiveLaws`, `AuditBuffer`, `SessionScopes`, `SessionLaws` | snapshots, the audit buffer and its flushes, nested sessions |
| `FilterCompiler`, `SearchQuery`, `QueryCodec`, `CoveragePlanner` | filters and search terms compiled to queries, the query codec, the greedy fetch loop |
| `Options`, `Sequences` | shared helpers |

Code that works on one object in place is a class (`Document`, `RuleCrud`, `Gate`, `Limiter`, `Manager`,
`Buffer`, `Context`), and its loops are methods proved against the functions that the theorems are about.
Code that several actors run at once is a state machine with a program counter per actor; a run is any
sequence of events, and an event that is not enabled changes nothing. What the functions compute is pinned by
laws that do not name them: `ExpansionMeaning`, `RequestSteps`, `RequestSolo`, `RuleLaws`, `ArchiveLaws` and
`SessionLaws` hold nothing else.

`dafny verify dfyconfig.toml` checks everything.

## Where the code falls short of what it seems to promise

- Expansion depends on the visiting order when a shallow reference that leads nowhere has the title of an
  inline object as its base, when a reference leads to a component that is not an object, or when a base still
  ends in the suffix. For every vocabulary of such titles, all documents over it are independent of the order if
  and only if none of this can happen (`ExpansionLimits.IndependentExactly`). The document under
  api/v1/spec/schemas has none of these titles, and its three components that are not titled by their key
  (`Rule`, `HealthResponse`, `HealthErrorResponse`) are named by no reference.
- The keys of handler tasks and of validation tasks are 63-bit hashes in one namespace, so they can meet. Rows
  are unique whatever the keys are (`RequestRuns.RowsAlwaysUnique`). A row's user is one who submitted its
  beatmapset in every run in which no submission has the key of a dispatched validation
  (`RequestRuns.RunIsSafe`), and for given key functions in all runs if and only if the keys never meet
  (`RequestCollision.SafeExactlyWhenDisjoint`).
- An update that stores an accepted empty version compares the version it replaces, and so creates a
  duplicate exactly in the case `RuleTable.UnseenClash`.
- The rate limiter counts per clock minute whatever `window_size` says, and enforces its limit per minute
  if and only if `window_size` is at least 60 (`RateLimit.EnforcedExactly`).
- The lockout counts failures in the hour that the first of them opens, not in any sliding hour
  (`AuthLimiter.SlidingHourNotEnforced`), and ends half a second early, because TTL is rounded to the nearest
  second (`AuthLimiter.LockedOutExactly`).
- An archive run fails exactly when the combined checksum is known and some beatmap is not
  (`BeatmapArchive.MissingExactly`). That takes two payloads with one digest, or checksums of different lengths
  (`BeatmapArchive.MixedLengthsCollide`).
- Audit events are all accounted for if and only if those that cancelled flushes lost are those that were put
  back although a commit, reported as failed, had persisted them (`AuditBuffer.AccountedExactly`). Distinct events
  read in order at every moment if and only if every commit took the oldest flush in flight, every failure the
  newest, and none was misreported or cancelled (`AuditBuffer.AlwaysInOrderExactly`).
- The codec appends two characters too many when the byte count leaves 2 modulo three, which only a lenient
  decoder accepts (`QueryCodec.RepaddingIsStandardExactly`).
- `all_covered` overlooks empty dictionaries and values of no known kind, which stay urgent
  (`CoveragePlanner.UncountedExactly`).

## Model

| member | source | states |
|---|---|---|
| `SchemaExpansion.RoomShrinks` | app/spec/shallow.py:53-66 | pushing a component's title that is not on the stack leaves fewer table names off the stack; with node size this is the measure by which expansion ends |
| `SchemaExpansion.EnterComponent` | app/spec/shallow.py:53-109 | entering a component through a half-overwritten table under any stack gives what entering the original component through the original table gives |
| `SchemaExpansion.SameProperty` | app/spec/shallow.py:84-145 | resolving any original node against a half-overwritten table equals resolving it against the original one |
| `SchemaExpansion.AgainProperty` | app/spec/shallow.py:84-145 | expanding an expanded node again, under a larger stack with the same innermost title and a half-overwritten table, equals expanding the original node under that stack |
| `SchemaExpansion.VisitPartial` | app/spec/shallow.py:147-152 | at every point of the loop the next name gets the expansion that the original table prescribes |
| `SchemaExpansion.LoopExpandsAtOnce` | app/spec/shallow.py:147-152 | the in-place loop, in any order and with repetitions, computes the table in which every listed component is expanded against the original and all others are left alone |
| `SchemaExpansion.Confluence` | app/spec/shallow.py:53-152 | two orders over the same names end in the same table, for documents in which every component that a reference names or the loop lists is titled by its key |
| `SchemaExpansion.TidyProperty` | app/spec/shallow.py:84-145 | among the objects reached through properties, items and branches of what a property resolves to, none has a shallow title, a title that repeats on its path or one that is on the stack |
| `SchemaExpansion.ExpansionIsTidy` | app/spec/shallow.py:53-145 | among the objects reached through properties, items and branches of an expanded object component, none has a shallow title or a title already met on its path |
| `SchemaExpansion.DroppedExactly` | app/spec/shallow.py:84-117 | a property vanishes if and only if it is, or is an array of, a cyclic reference outside an include or a shallow reference that leads nowhere |
| `SchemaExpansion.KeptProperties` | app/spec/shallow.py:68-80 | all other properties are kept, under their names and in their order |
| `SchemaExpansion.ReferenceIsInlined` | app/spec/shallow.py:84-109 | a reference off the stack becomes its component: same title and kind, and exactly the properties that are not dropped |
| `ExpansionMeaning.ResolvesExactly` | app/spec/shallow.py:84-145 | for every node, stack and table in which references name components titled by their key: a property resolves to a node if and only if it is not dropped and the node is what the property becomes: a cycle inside an include the disabled boolean, an object its component's title and kind with the kept properties one level down, an array its items, a union its booleans as they are and its other branches in place, disabled or gone when they are dropped |
| `ExpansionMeaning.ExpandsExactly` | app/spec/shallow.py:53-82 | the table entry stored for a listed component is the only node with its title, its kind and, in order, what its kept properties become |
| `OpenApiSpec.Document.PopulateShallowRefs` | app/spec/shallow.py:147-154 | the in-place loop over an arbitrary order leaves the table expanded at once, and every affected parameter with the expansion of its component; what an expansion is, for every property, item and branch, is said by `ExpansionMeaning` |
| `OpenApiSpec.Document.PropagateToParameters` | app/spec/shallow.py:178-208 | exactly the parameters whose title is listed and stored take the stored schema; the others are unchanged |
| `ExpansionLimits.OrderMattersWhenNotIdempotent` | app/spec/shallow.py:84-152 | for every chain of two listed components, two orders of the listed names differ as soon as expanding a held node again changes it |
| `ExpansionLimits.OtherKindMatters` | app/spec/shallow.py:105-120 | for every name that may belong to a component of another kind than object, a document on which two orders of the listed names differ |
| `ExpansionLimits.StackedSuffixMatters` | app/spec/shallow.py:89-103 | for every base that still ends in the suffix, a document on which two orders of the listed names differ |
| `ExpansionLimits.AmbiguityMatters` | app/spec/shallow.py:89-109 | for every title that is both inline and the base of a dangling reference, a document on which two orders of the listed names differ |
| `ExpansionLimits.IndependentExactly` | app/spec/shallow.py:84-152 | for every vocabulary, all documents over it come out the same in every order of the listed names if and only if references lead to objects, no base keeps the suffix and no dangling base is an inline title |
| `IncludeDefaults.TidyDefaults` | api/utils.py:208-245 | on a tidy schema the defaults reader never raises its unresolved error, and succeeds if and only if every object it enters has properties |
| `IncludeDefaults.ExpandedNeverUnresolved` | api/utils.py:208-245 | the same for every expanded include component |
| `IncludeDefaults.ReadsExactly` | api/utils.py:208-245 | the reader returns a tree if and only if it is the one the schema says: in order, a flag with its default for every boolean, a group for every choice, enabled as the first boolean branch says and with the tree of the first object branch, and nothing else |
| `RequestProtocol.StateGrows` | api/v1/requests/__init__.py:97-175 | recording a justified event keeps the invariant of every actor, task and row |
| `RequestProtocol.PostKeeps` | api/v1/requests/__init__.py:91-175 | every step of a POST, gates, task check, reservation, store, publish and rollback, keeps the invariant |
| `RequestProtocol.InsertKeeps` | app/database/crud/c.py:177-241 | inserting a row for a vouched task and a free pair keeps rows unique and vouched for |
| `RequestProtocol.DispatchKeeps` | app/daemon/services/queue_request_handler.py:105-117 | storing a validation task over whatever its key holds forges no handler task, as long as no submission has that key |
| `RequestProtocol.SnapshotKeeps` | app/daemon/services/queue_request_handler.py:119-133 | taking a snapshot for a row created in the queue records exactly the rules active in the table of that moment |
| `RequestProtocol.WorkerKeeps` | app/daemon/services/queue_request_handler.py:42-103 | every step of a worker, including failures and retries, keeps the invariant |
| `RequestProtocol.MarkTask` | app/daemon/services/decorators.py:22-49 | marking a task completed or failed, even one that was deleted meanwhile, forges no task |
| `RequestProtocol.MarkKeeps` | api/v1/requests/__init__.py:223-246 | a change of a row's status, by a validator or a PATCH, keeps the invariant |
| `RequestProtocol.ValidateKeeps` | app/daemon/services/rule_validation.py:108-134 | a validation that runs applies the rules of its dispatch, whatever the rule table holds by then |
| `RequestProtocol.ValidatorKeeps` | app/daemon/services/rule_validation.py:60-172 | every step of a validator keeps the invariant; which verdict leads where is `RequestSteps.VerdictIs` |
| `RequestProtocol.DeleteKeeps` | api/v1/requests/__init__.py:250-274 | every step of a DELETE keeps the invariant |
| `RequestProtocol.CleanupKeeps` | app/bootstrap.py:175-204 | every step of the start-up cleanup keeps the invariant |
| `RequestProtocol.StepKeeps` | app/daemon/services/queue_request_handler.py:42-133 | every event of every actor keeps the invariant, as long as no submission so far has the key of a validation dispatched so far |
| `RequestRuns.RunIsSafe` | api/v1/requests/__init__.py:97-175 | in every interleaving in which no submission has the key of a dispatched validation, and however many actors a published message starts: at most one row per queue and beatmapset; every row existing or ever created was preceded by one POST that passed the open-queue, user, absence, status and phase-1 checks for that pair and user; every dispatch was for a row created before, in its queue, and took the rules active as of the latest rule edit; every validation applied exactly the tier-3 rules of an earlier dispatch for its row |
| `RequestRuns.RunIsSafeUnlessKeysMeet` | app/redis/models/queue_request_handler_task.py:20-28 | the same safety whenever no POST of the run has the key of a row id that the run assigned |
| `RequestRuns.StepAdvances` | app/database/crud/c.py:177-241 | whatever the keys, every event keeps rows unique, row ids in order of creation and phase-1 entries tied to their POST, and forgets nothing recorded |
| `RequestRuns.RowsAlwaysUnique` | alembic/versions/4f8e2a1c9d30_initial_schema.py:489 | in every interleaving, whatever the keys, at most one row per queue and beatmapset |
| `RequestSteps.VerdictIs` | app/daemon/services/rule_validation.py:121-165 | a validator that ran logs the rules it applied and its verdict, and goes on to reject the row if and only if there was some tier-3 rule and the verdict is against the row |
| `RequestSteps.RejectIs` | app/daemon/services/rule_validation.py:163-172 | the write of a rejection marks exactly that row and is logged |
| `RequestSteps.StepFollows` | app/daemon/services/queue_request_handler.py:42-133 | whatever the keys, exactly which rows an event of any actor adds, changes and removes: a worker's insert adds the pair's row, not rejected, a DELETE removes its own, a validator's write or a PATCH sets the status, and every other row stays field by field; and whatever the event logs was so in the state it was taken in |
| `RequestSteps.EntriesWereSo` | api/v1/requests/__init__.py:97-147 | every entry in the log of every run was so at some step of it: the queue was open, the user was one the caller may submit for, no row had the pair, the status was none of the four, the rules were the active ones |
| `RequestVerdicts.RejectedExactly` | app/daemon/services/rule_validation.py:108-172 | in every run, whatever the keys, a row is rejected if and only if the last write of its status said so, and every such write by a validator came after it ran some tier-3 rule on that row with a verdict against it |
| `RequestVerdicts.RejectedOnlyByVerdict` | app/daemon/services/rule_validation.py:163-172 | in every run, a row that no PATCH set to rejected is rejected only after such a verdict |
| `RequestVerdicts.VerdictIsWritten` | app/daemon/services/rule_validation.py:121-172 | two steps after a verdict, the row is rejected if and only if the verdict was against it under some tier-3 rule |
| `RequestVerdicts.RejectionStands` | api/v1/requests/__init__.py:223-246 | over every run a rejected row stays rejected until a PATCH changes its status or it is deleted, and its id is not used again |
| `RequestSolo.PostAlone` | api/v1/requests/__init__.py:91-175 | a POST that nothing disturbs is queued if and only if the queue is open, the caller may submit for the user named, the status is none of the four, no row has the pair and no task but a failed whole one is stored; queued, it leaves exactly the fresh task of that pair and user, published; turned down, it leaves no trace |
| `RequestSolo.WorkerAlone` | app/daemon/services/queue_request_handler.py:42-133 | a worker that nothing disturbs finds or creates the pair's row, stores and publishes its validation with the rules active now, completes its own task and touches no other |
| `RequestSolo.BrokenTaskFails` | app/daemon/services/queue_request_handler.py:58-70 | a task without its three ids is marked failed and not tried again |
| `RequestSolo.ErrorEnds` | app/daemon/services/decorators.py:22-49 | after an error other than a timeout a worker marks its task failed and gives up at once |
| `RequestSolo.TimeoutsEnd` | app/daemon/services/decorators.py:22-49 | a worker that only meets timeouts marks its task failed and gives up after its fifth attempt |
| `RequestSolo.ValidatorAlone` | app/daemon/services/rule_validation.py:62-172 | a validator that nothing disturbs rejects its row if and only if the verdict is against it under some tier-3 rule, changes no other row and completes its task |
| `RequestSolo.SubmissionRunsThrough` | api/v1/requests/__init__.py:91-175 | an admissible submission that nothing disturbs, run through POST, worker and validator, ends as one new row for that queue, beatmapset and user, rejected if and only if the queue had an active tier-3 rule and the verdict is against it |
| `RequestSolo.DeleteAlone` | api/v1/requests/__init__.py:250-274 | a DELETE that nothing disturbs removes its row and the two task hashes that the row stands for, and nothing else |
| `RequestSolo.CleanupAlone` | app/bootstrap.py:175-204 | the start-up cleanup that nothing disturbs drops exactly the listed tasks that were neither completed nor failed |
| `RequestCollision.Round` | api/v1/requests/__init__.py:250-274 | a submission whose row is deleted before its validation is dispatched leaves nothing stored and a worker about to dispatch |
| `RequestCollision.Forges` | app/daemon/services/queue_request_handler.py:58-117 | when the two keys collide, a run ends with a row whose user never submitted its beatmapset |
| `RequestCollision.CollisionIsUnsafe` | app/daemon/services/queue_request_handler.py:58-117 | any collision, for whatever row id, makes some run unsafe |
| `RequestCollision.SafeExactlyWhenDisjoint` | app/daemon/services/queue_request_handler.py:58-117 | every run from every start is safe if and only if no handler task shares its key with a validation task |
| `RuleSnapshot.SnapshotRoundTrip` | app/daemon/services/rule_validation.py:183-210 | restoring a snapshot gives back every rule as the runners read it; an empty snapshot is never taken for a missing one |
| `RuleSnapshot.RuleSetFixedAtDispatch` | app/daemon/services/queue_request_handler.py:119-133 | after any sequence of rule edits, validation applies exactly the tier-3 rules active at dispatch |
| `RuleSnapshot.SnapshotKeepsRules` | app/daemon/services/rule_validation.py:199-210 | a restored snapshot has the dispatched rules one by one, in order, each with its id, type, version, activity and, when it is an object, its configuration |
| `RuleSnapshot.NoSnapshotIsLive` | app/daemon/services/rule_validation.py:183-197 | a task without a snapshot is judged by the rules active when it runs |
| `RuleSnapshot.ActiveRulesJoin` | app/database/crud/rules.py:61-70 | the active rules of a queue are picked one by one, in the order of the table |
| `RuleSnapshot.TierThreeJoins` | app/daemon/services/rule_validation.py:131-134 | the tier-3 rules are picked one by one, in order, by the tier of their type |
| `RuleSnapshot.ActiveRules` | app/daemon/services/queue_request_handler.py:119-133 | the rules of the queue that are active, all of them and no others |
| `Json.LoadsDumps` | app/database/crud/rules.py:50 | reading printed JSON gives back the same tree |
| `Json.PrintInjective` | app/database/crud/rules.py:50 | different trees print differently |
| `StableSort.SortedUnique` | app/database/crud/rules.py:43-48 | a list has one sorted arrangement when the key tells its elements apart |
| `StableSort.SortForgetsOrder` | app/database/crud/rules.py:43-48 | two lists sort alike if and only if they are rearrangements of each other |
| `ConfigNormalization.SortNormalises` | app/database/crud/rules.py:39-48 | the sorted tree is valid JSON with sorted keys at every depth |
| `ConfigNormalization.SortKeysIdle` | app/database/crud/rules.py:46-50 | sorting keys again while printing changes nothing |
| `ConfigNormalization.SortedIffSame` | app/database/crud/rules.py:39-48 | two configs sort to the same tree if and only if they are equal up to key order and list reordering at every depth |
| `ConfigNormalization.NormalizeIsCanonical` | app/database/crud/rules.py:33-50 | two configs get the same string if and only if they are equal up to key order and list reordering at every depth |
| `RuleTable.CreateKeeps` | app/database/crud/rules.py:231-269 | creation keeps the table free of duplicates and unsupported versions |
| `RuleTable.ScanFindsDuplicates` | app/database/crud/rules.py:93-104 | an accepted replacement list has supported versions and no two rules of one type with equal normalised configs |
| `RuleTable.ReplaceKeeps` | app/database/crud/rules.py:89-131 | replacement keeps the table free of duplicates and unsupported versions |
| `RuleTable.UpdateKeepsExactly` | app/database/crud/rules.py:134-213 | an accepted update keeps the invariant if and only if it does not store an empty version over a twin; any other outcome changes nothing |
| `RuleTable.DeleteKeeps` | app/database/crud/rules.py:272-291 | deletion keeps the invariant |
| `RuleTable.RunKeeps` | app/database/crud/rules.py:73-291 | every one-at-a-time run of create, replace, update and delete with non-empty versions keeps the invariant |
| `RuleTable.NoEquivalentRules` | app/database/crud/rules.py:73-291 | after every such run no queue holds two rules of one type and version whose configs differ only in order |
| `RuleTable.EmptyVersionDuplicates` | app/database/crud/rules.py:134-213 | a table and an update with an empty version after which two rules coincide |
| `RuleLaws.CreateExactly` | app/database/crud/rules.py:231-269 | creation refuses an unsupported version, then a row of the queue with that type and version and an equivalent config, and otherwise appends exactly the submitted row, with `{}`, `1.0`, active and public where the submission is silent; a refusal changes nothing |
| `RuleLaws.ReplaceExactly` | app/database/crud/rules.py:72-131 | a replacement is refused at the first rule with an unsupported version or a type and config that an earlier one has, and changes nothing; else the queue's rows are the submitted ones, in order and field by field, and every other queue's rows are those of before, in order |
| `RuleLaws.UpdateExactly` | app/database/crud/rules.py:133-213 | an update is refused for a field that may not change, a row that is not there, an invalid config, an unsupported version or a clash, in this order; accepted, it changes exactly the given fields of exactly that row |
| `RuleLaws.DeleteExactly` | app/database/crud/rules.py:271-302 | a deletion removes exactly the row with that id in that queue, or finds none and changes nothing |
| `RuleStore.RuleCrud.IsTaken` | app/database/crud/rules.py:246-256 | the loop over a queue's rules finds a fingerprint if and only if another rule of the queue has it |
| `RuleStore.RuleCrud.Create` | app/database/crud/rules.py:231-269 | new table and outcome are those of the specified creation (`RuleLaws.CreateExactly`), and a table that satisfies the invariant still does |
| `RuleStore.RuleCrud.ScanList` | app/database/crud/rules.py:93-104 | the loop over the submitted rules ends as the specified scan |
| `RuleStore.RuleCrud.Replace` | app/database/crud/rules.py:72-131 | new table and outcome are those of the specified replacement, whose effect on every queue is `RuleLaws.ReplaceExactly`, and the invariant is kept |
| `RuleStore.RuleCrud.Update` | app/database/crud/rules.py:134-213 | new table and outcome are those of the specified update (`RuleLaws.UpdateExactly`) |
| `RuleStore.RuleCrud.Delete` | app/database/crud/rules.py:272-291 | new table and outcome are those of the specified deletion (`RuleLaws.DeleteExactly`), and the invariant is kept |
| `LockProtocol.RunKeeps` | app/redis/rc.py:104-156 | every timed run, with lease, timeout and interval chosen by each client, keeps tokens distinct, the key owned by whoever is protected, and attempts paced |
| `LockProtocol.MutualExclusion` | app/redis/rc.py:133-156 | in every timed run at most one client is inside with an unexpired lease |
| `LockProtocol.ReleaseSparesSuccessor` | app/redis/rc.py:146-156 | a release, however late, leaves another client's lock and lease as they were, and the holder's own release frees the key |
| `LockProtocol.AttemptsBounded` | app/redis/rc.py:133-145 | an acquisition makes at most floor(timeout / retry_interval) + 2 attempts |
| `LockProtocol.GetsInExactly` | app/redis/rc.py:137-139 | a due attempt gets in if and only if no lease is running, then holding the key under its token for its own time; otherwise key and clients stay |
| `LockProtocol.FreeLockIsTaken` | app/redis/rc.py:133-156 | when no lease is running, a client that comes is inside at once with its own token and time, and when it leaves in time the key is free again |
| `LockProtocol.NobodyGivesUpEarly` | app/redis/rc.py:135-144 | in every run a client that gave up did so after its deadline |
| `LockProtocol.WaitsForExpiry` | app/redis/rc.py:137-144 | a client that waits behind a lease nobody gives back gets in at its first attempt after the lease has run out, if and only if its clock was within the timeout one pause before; otherwise it gives up |
| `RateLimit.OutlivesWindow` | app/redis/decorators.py:121-130 | with windows of at least 60 seconds a counter outlives its minute |
| `RateLimit.RetriesLater` | app/redis/decorators.py:132-150 | a blocked call retries in a strictly later minute |
| `RateLimit.MinuteBounded` | app/redis/decorators.py:121-150 | in each minute exactly the first `limit_per_window` calls get through |
| `RateLimit.AdmittedExactly` | app/redis/decorators.py:121-150 | a call gets through if and only if there is no limit or fewer calls than the limit reached the gate in its minute before |
| `RateLimit.DelayExactly` | app/redis/decorators.py:122-146 | a blocked call retries after the end of the window and within a second of it |
| `RateLimit.SpanBounded` | app/redis/decorators.py:121-150 | at most twice the limit gets through in any 60-second span |
| `RateLimit.EnforcedExactly` | app/redis/decorators.py:121-150 | no run exceeds the limit in a minute if and only if the window size is at least 60 |
| `RateLimit.Gate.Call` | app/redis/decorators.py:98-150 | the counter update and the verdict are those of the specified run, and the retry time lies past the window by at most a second |
| `AuthLimiter.AdmittedExactly` | app/security/auth_rate_limit.py:25-46 | a check passes if and only if the address is not locked out and fewer than ten of its checks in that minute bucket got past the lockout before |
| `AuthLimiter.TenPerMinute` | app/security/auth_rate_limit.py:25-46 | over every run an address is let through exactly its first ten times per minute bucket, lockouts aside |
| `AuthLimiter.NeverLocked` | app/security/auth_rate_limit.py:30-58 | an address none of whose failures set the lockout is not locked out |
| `AuthLimiter.CounterFollows` | app/security/auth_rate_limit.py:48-62 | within the hour a failure opens, and until a success, the counter has counted exactly the failures since |
| `AuthLimiter.LocksExactly` | app/security/auth_rate_limit.py:48-58 | every failure falls into an hour that some failure opened, with no success since, and sets the lockout if and only if it is the twentieth of that hour or a later one |
| `AuthLimiter.FailureHasOpener` | app/security/auth_rate_limit.py:48-62 | every failure falls into an hour that some failure opened, with no success between |
| `AuthLimiter.RefusedForAnHour` | app/security/auth_rate_limit.py:25-58 | once locked out, every check in the next 3600 seconds but for the last half is refused, whatever happens in between |
| `AuthLimiter.LockedOutExactly` | app/security/auth_rate_limit.py:30-34 | after the last lockout was set, it holds if and only if at least half a second of its 3600 is left |
| `AuthLimiter.TwentyFailuresLockOut` | app/security/auth_rate_limit.py:25-62 | twenty failures within an hour of the first, with no success between, refuse every check in the hour that follows but for its last half second |
| `AuthLimiter.QuietHourOpens` | app/security/auth_rate_limit.py:48-58 | a failure with no other in the hour before it opens the count |
| `AuthLimiter.SlidingHourNotEnforced` | app/security/auth_rate_limit.py:48-58 | a run with twenty failures within a minute after which the next check is still allowed |
| `AuthLimiter.Limiter.CheckRequest` | app/security/auth_rate_limit.py:25-46 | state and verdict are those of the specification; the wait it announces ends the lockout, or reaches the next bucket |
| `AuthLimiter.Limiter.RecordFailure` | app/security/auth_rate_limit.py:48-58 | the counters and the lockout are those of the specification |
| `AuthLimiter.Limiter.RecordSuccess` | app/security/auth_rate_limit.py:60-62 | the failure counter is removed and nothing else |
| `BeatmapArchive.SnapshotsExactlyNew` | app/beatmaps/manager.py:231-268 | snapshotting reuses what is stored, creates exactly the missing checksums, each once, and links every beatmap in order |
| `BeatmapArchive.UpdatesExactlyStored` | app/beatmaps/manager.py:303-344 | the update path fails if and only if some beatmap has no snapshot, and changes no checksum |
| `ArchiveLaws.SnapshotExtends` | app/beatmaps/manager.py:248-266 | snapshotting leaves the old rows as they were, and each new one carries the beatmap and the info of the first payload entry with its checksum |
| `ArchiveLaws.UpdateRewrites` | app/beatmaps/manager.py:311-344 | after a successful update each row whose checksum the payload has carries the info of the last such entry, and nothing else changes |
| `ArchiveLaws.ArchiveWrites` | app/beatmaps/manager.py:179-301 | a run on a new combined checksum appends one set row, with the payload's beatmapset and info and linked to its beatmaps in order, and the missing beatmap rows; a run on a known one gives its set row the payload's info and the beatmap rows theirs; all else stays |
| `BeatmapArchive.MissingExactly` | app/beatmaps/manager.py:179-193 | an archive run looks up a missing snapshot if and only if the combined checksum is known and some beatmap's is not |
| `BeatmapArchive.RunKeeps` | app/beatmaps/manager.py:151-344 | over every sequence of archive runs: one snapshot per checksum, one set snapshot per combined checksum, and each links exactly the beatmaps its checksum was built from |
| `BeatmapArchive.KnownSetKnowsBeatmaps` | app/utils.py:33-39 | when a combined checksum is known, so is every checksum that went into it, unless the two texts behind it collide |
| `BeatmapArchive.NeverMissing` | app/beatmaps/manager.py:179-344 | when no two payloads of a sequence of runs share a digest and checksums have one length, none of its runs looks up a missing snapshot |
| `BeatmapArchive.MixedLengthsCollide` | app/utils.py:33-39 | two payloads with checksums of different lengths, the second of which fails to archive |
| `BeatmapArchive.Manager.TakeSnapshots` | app/beatmaps/manager.py:231-268 | rows, links and changelog are those of the specification |
| `BeatmapArchive.Manager.ApplyUpdates` | app/beatmaps/manager.py:303-344 | the updated rows, or the failure, are those of the specified update (`ArchiveLaws.UpdateRewrites`) |
| `BeatmapArchive.Manager.ArchiveSet` | app/beatmaps/manager.py:151-202 | one run ends as specified (`ArchiveLaws.ArchiveWrites`), a failure changes nothing, and the invariant is kept |
| `FilterCompiler.CompilesExactly` | app/database/crud/r.py:518-572 | compilation succeeds if and only if every name and operator of the tree is known at its place |
| `FilterCompiler.FiltersMean` | app/database/crud/r.py:518-572 | the compiled conditions hold of a row if and only if direct interpretation of the tree accepts it, through `any` and `has` at every depth |
| `FilterCompiler.CompilationPreservesMeaning` | app/database/crud/r.py:518-572 | for every filter tree that compiles, a row of the filtered class is kept exactly when the tree accepts it, with all nested conditions on a list met by one and the same child |
| `FilterCompiler.PlainValueIsEquality` | app/database/crud/r.py:534-537 | where the operator `eq` compares for equality, a plain value keeps exactly the rows that have it |
| `FilterCompiler.FirstErrorReported` | app/database/crud/r.py:526-566 | a tree is rejected with a reason if and only if that is the fault of its first entry at fault, in depth: an unknown operator, a relationship that is not given a dictionary, or a name that is neither |
| `FilterCompiler.ParseFilters` | app/database/crud/r.py:518-572 | the recursive loop that appends to a list computes the specified conditions or error |
| `FilterCompiler.ParseOperators` | app/database/crud/r.py:518-572 | the loop over the operators of one column computes the specified conditions or error |
| `SearchQuery.PlanPairsExactly` | app/database/ctes/search_terms_filtered.py:123-258 | the joins of a scope and category pair a root with a row if and only if the row belongs to the root along the scope's relationships |
| `SearchQuery.StmtMeans` | app/database/ctes/search_terms_filtered.py:96-258 | a statement returns a root if and only if some row of the category belonging to it has a field like the term |
| `SearchQuery.TermMeans` | app/database/ctes/search_terms_filtered.py:52-75 | a term's union returns a root if and only if the term meets some weighted field of the scope |
| `SearchQuery.QueryMeans` | app/database/ctes/search_terms_filtered.py:46-93 | for distinct terms and at least one weighted field, the query returns exactly the roots for which every term meets some weighted field along the scope's join path |
| `SearchQuery.Categories` | app/search/mappings.py:115-121 | the categories of a scope are exactly those that have a join path |
| `SearchQuery.FailsExactly` | app/database/ctes/search_terms_filtered.py:52-80 | the factory fails if and only if there is no term or no field of the scope has a weight |
| `SearchQuery.SearchFinds` | app/database/ctes/search_terms_filtered.py:24-93 | for distinct terms, the query returns exactly the roots for which every term is met by some weighted field of some row that belongs to the root |
| `SearchQuery.PlainSubstring` | app/database/ctes/search_terms_filtered.py:96-121 | LIKE on a term without wildcards matches exactly the texts that contain it |
| `SearchQuery.PlainTermMeets` | app/database/ctes/search_terms_filtered.py:49-71 | for a term without wildcards, LIKE asks that the field contains the term, and ILIKE that its folding contains the term's folding, for every folding that keeps the special characters and makes no others special |
| `SearchQuery.BuildQuery` | app/database/ctes/search_terms_filtered.py:46-93 | the nested loops, which rebuild a term's union for every category, assemble the specified query or fail as it does |
| `SearchQuery.AddTerm` | app/database/ctes/search_terms_filtered.py:52-75 | one turn of the term loop stores the union over all categories and touches no other term |
| `QueryCodec.BodyShape` | app/search/compression.py:37-38 | the encoding without its padding contains no `=` and has a length of 0, 2 or 3 modulo four |
| `QueryCodec.StripLeavesBody` | app/search/compression.py:38 | stripping removes exactly the padding |
| `QueryCodec.DecodeBody` | app/search/compression.py:67-68 | decoding gives the bytes back as soon as enough padding follows, however much more there is |
| `QueryCodec.CodecRoundTrip` | app/search/compression.py:37-68 | stripping, re-padding by `len % 4` and decoding give every byte string back |
| `QueryCodec.BodySpells` | app/search/compression.py:37 | the encoding's characters, read as digits of the URL-safe alphabet (section 5 of RFC 4648), spell the number that the bytes spell, followed by the zero bits that fill the last character |
| `QueryCodec.RepaddingIsStandardExactly` | app/search/compression.py:67 | the re-padded text is the standard one (sections 3.2 and 4 of RFC 4648) if and only if the byte count does not leave 2 modulo three |
| `QueryCodec.QueryRoundTrip` | app/search/compression.py:31-71 | with a lossless compressor, decompress undoes compress for every byte string |
| `QueryCodec.JsonRoundTrip` | app/search/compression.py:31-74 | a tree printed, compressed, decompressed and parsed comes back as it went in |
| `AuditBuffer.RunConserves` | app/observability/audit.py:59-84 | in every interleaving the logged and the repeated events are, as a multiset, the persisted, buffered, in-flight and cancelled ones |
| `AuditBuffer.AccountedExactly` | app/observability/audit.py:59-84 | in every interleaving, each logged event is persisted, buffered or in flight, as often as it was logged, if and only if cancelled flushes lost just what misreported commits put back; so, without misreported commits, if and only if no flush in flight was cancelled, and conversely |
| `AuditBuffer.NeverMissing` | app/observability/audit.py:64-84 | without cancellations each logged event is persisted, buffered or in flight at least as often as it was logged |
| `AuditBuffer.MisreportRepeats` | app/observability/audit.py:81-84 | a run in which a commit reported as failed leaves its event both persisted and buffered |
| `AuditBuffer.OrderKept` | app/observability/audit.py:64-84 | however many flushes overlap, while commits take the oldest flight and failures the newest, what is persisted, in flight and buffered reads as the log |
| `AuditBuffer.StepKeepsOrderExactly` | app/observability/audit.py:64-84 | with distinct events, a step keeps the order if and only if it commits the oldest flight, fails the newest without having persisted it, or ends none |
| `AuditBuffer.AlwaysInOrderExactly` | app/observability/audit.py:59-84 | with distinct events, a run reads in order at every moment if and only if every one of its steps is of that kind |
| `AuditBuffer.SerialIsOrderly` | app/observability/audit.py:64-84 | a run with at most one flush in flight, no cancellation and no misreported commit is such a run |
| `AuditBuffer.CancellationLoses` | app/observability/audit.py:73-84 | a run in which a cancelled flush loses an event |
| `AuditBuffer.OverlapReorders` | app/observability/audit.py:73-84 | a run in which two overlapping flushes persist events out of order |
| `AuditBuffer.FlushesAtFifty` | app/observability/audit.py:59-61 | the fiftieth event of the buffer, and no earlier one, starts a flush of all of them |
| `AuditBuffer.FlushPersistsAll` | app/observability/audit.py:64-81 | a flush whose flights commit leaves everything persisted in the order in which it stood, and nothing waiting |
| `AuditBuffer.Buffer.Append` | app/observability/audit.py:59-61 | the new contents are those of a log step, and the batch to flush is the full buffer |
| `AuditBuffer.Buffer.Swap` | app/observability/audit.py:64-71 | the buffer is emptied into the batch, or nothing happens when it is empty |
| `AuditBuffer.Buffer.Settle` | app/observability/audit.py:73-84 | a batch is persisted, put back in front of the buffer, or both when the commit took effect and then raised |
| `SessionScopes.SessionsAreBracketed` | app/database/crud/decorators.py:68-96 | for every tree of calls each session opened is ended exactly once and none is used after its end |
| `SessionScopes.CallEndsOnce` | app/database/crud/decorators.py:68-96 | a call, with all it nests, ends exactly the sessions it opened, once each |
| `SessionScopes.CallIsLocal` | app/database/crud/decorators.py:68-96 | a call mentions only sessions of the calls around it and those opened within it, and ends only the latter |
| `SessionLaws.SessionIsExactly` | app/database/crud/decorators.py:68-84 | a call uses the session it is handed, else that of the innermost call around it, and is refused if and only if that session autoflushes although the call does not allow it |
| `SessionLaws.OutermostOpens` | app/database/crud/decorators.py:86-96 | outside any call, a call opens a session with the flag it asks for and ends it last, committed if it returns and rolled back if it raises |
| `SessionLaws.RaisesExactly` | app/database/crud/decorators.py:68-96 | a call raises if and only if it is refused, its body raises without catching, or the commit of its own session fails |
| `SessionLaws.BodyJoins` | app/database/crud/decorators.py:71-96 | the actions of a body run one after the other, up to the first that raises |
| `SessionLaws.OneSession` | app/database/crud/decorators.py:78-96 | however deep calls nest, when none is handed a session the outermost opens the only one, all others use it, and it ends with the outermost |
| `SessionLaws.HandsPast` | app/database/crud/decorators.py:68-79 | a body can hand on the session of a call further out, past one that was given another |
| `SessionScopes.Context.Execute` | app/database/crud/decorators.py:68-96 | the wrapper over the context variable uses the session passed, be it made elsewhere or that of any enclosing call, else the enclosing one, else a fresh one; it restores the variable on return and on error, and ends a fresh session by commit or rollback as its last act |
| `SessionScopes.Context.RunBody` | app/database/crud/decorators.py:68-96 | a body runs its calls in order up to the first exception it does not catch |
| `CoveragePlanner.UrgentExactly` | app/fixtures/search_coverage.py:128-185 | a bucket is urgent if and only if it is not covered |
| `CoveragePlanner.PriorityExactly` | app/fixtures/search_coverage.py:214-233 | an action has a positive priority if and only if it has a cost and fills some bucket that is not covered |
| `CoveragePlanner.PriorityIs` | app/fixtures/search_coverage.py:156-233 | priority times cost is the sum over the affected buckets that are not covered of the rarity, twice that where nothing was found, and ten times more where the rarity is at least 2 |
| `CoveragePlanner.CheaperFirst` | app/fixtures/search_coverage.py:214-233 | of two actions with the same buckets still to fill, a greedy fetch never runs the costlier one |
| `CoveragePlanner.UncountedExactly` | app/fixtures/search_coverage.py:187-212 | nothing of a bucket counts as uncovered if and only if it is covered, an empty dictionary or of no known kind, and the latter two are urgent |
| `CoveragePlanner.AllCoveredExactly` | app/fixtures/search_coverage.py:187-238 | the two counters are zero if and only if every bucket, or every rare one, is covered or overlooked |
| `CoveragePlanner.Reheap` | app/fixtures/search_coverage.py:592-604 | the heap holds exactly the actions worth running, at their current priorities, whose value is `CoveragePlanner.PriorityIs` |
| `CoveragePlanner.AdaptiveLoop` | app/fixtures/search_coverage.py:606-661 | whatever the fetches return, each one is an action whose uncovered buckets are worth most per call on what the one before left, calls stay below the budget plus the largest cost, and the loop stops early only when every bucket of every action with a cost is covered or all buckets are covered or overlooked |
| `CoveragePlanner.ForceRare` | app/fixtures/search_coverage.py:663-682 | the forced fetches stay within the budget and end only when no rare entry is uncovered or the budget is spent |
| `CoveragePlanner.AdaptiveFetch` | app/fixtures/search_coverage.py:575-682 | the whole function ends, every fetch of its main loop was worth most per call, it spends at most the budget plus the largest cost minus one, and leaves rare buckets uncovered only when the budget is spent or it has no users action |

## Left out

- SchemaExpansion: a reference to a component whose title is not its key is outside; an untitled one could send the rewriter into endless recursion.
- SchemaExpansion.ExpansionIsTidy: speaks of object components and object nodes; the code never looks at the titles of arrays and unions, nor into properties they may carry.
- RequestProtocol: phase-1 checks, reservations, the osu! API and the archive step are arbitrary answers; row ids count from 0; of a status only whether it is REJECTED is kept, and a PATCH is one instant; events and notifications are not modelled; a lost message is one that starts no actor.
- RequestProtocol: the validation key of the API process may differ from the daemon's, since the two compute a string hash each in its own process.
- RequestProtocol: `_resolve_or_create` on flat data only; several new nested objects in one call are not modelled.
- RequestProtocol: nothing is claimed about two POSTs both being accepted, which the separate existence check and store allow.
- RuleTable: operations run one at a time; no table constraint backs the duplicate check, so concurrent edits are outside.
- RuleTable.NoEquivalentRules: asks that the two configurations be valid trees (distinct keys, characters that are not lone surrogates).
- Json: numbers are the tokens they print as; lone surrogates and values that `default=str` would convert are outside.
- LockProtocol: a client's SET and its clock reading are one instant; `ProfileFetcher`, which takes the key before entering the lock, is not modelled.
- RateLimit: INCR, EXPIRE and the clock reading are one instant; the `min_interval` gate is not modelled.
- AuthLimiter: each call is one instant, to the millisecond.
- BeatmapArchive: populating users, tags and downloads, and the metadata updates beyond one value per row; snapshot numbers are not modelled.
- BeatmapArchive.NeverMissing: needs checksums of one length, as MD5 checksums have, besides payloads that do not collide.
- SearchQuery: repeated terms, scored statements, ordering and pagination; a beatmapset's description is read as a field of its row.
- FilterCompiler: the database operators are given by what they mean on values; the prefix used in error messages is dropped.
- QueryCodec: Brotli is any lossless pair, and the decoder is the lenient one of the standard library, which ignores excess padding.
- AuditBuffer: the record fields and the shared database connection; a flush cancelled after its commit took effect ends as one that committed.
- SessionScopes: streaming sessions and explicit resolvers.
- CoveragePlanner: the concrete fetchers, logging and wasted-call counts; `heappop` may return any entry of the highest priority, where the library's choice among equal ones is fixed; arithmetic is exact.
- IncludeDefaults: merging client overrides and formatting the tree afterwards.
- The search cache, which does not agree with an uncached search in general, and `parse_sql_values`.
- HTTP, OAuth, encryption, metrics, the command line, file downloads and queue visibility.
