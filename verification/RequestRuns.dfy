/** What holds over every run of the request protocol (api/v1/requests/__init__.py:91-274,
    app/daemon/services/queue_request_handler.py, app/daemon/services/rule_validation.py): rows are
    unique whatever the keys are, and vouched for as long as the keys of the run do not meet. */
module RequestRuns {
  import opened Options
  import RuleTable
  import opened RuleSnapshot
  import opened RequestProtocol

  // ---------------------------------------------------------------- numbering

  /** Submissions that passed phase 1 were made by a POST handler, and rows are numbered in order of
      creation; this, and the uniqueness of rows, holds whatever the keys are. */
  ghost predicate Numbered(s: State) {
    RowsNumbered(s.rows, s.nextRow) && LogNumbered(s.log, s.posts, s.nextRow) && WorkersNumbered(s.workers, s.nextRow)
  }

  ghost predicate RowsNumbered(rows: map<nat, Row>, nextRow: nat) {
    UniqueRows(rows) && forall id <- rows :: id < nextRow
  }

  ghost predicate LogNumbered(log: seq<Entry>, posts: map<int, Post>, nextRow: nat) {
    forall e <- log :: Known(e, posts, nextRow)
  }

  predicate Known(e: Entry, posts: map<int, Post>, nextRow: nat) {
    && (e.Phase1Passed? ==>
          e.post in posts && posts[e.post].queue == e.queue && posts[e.post].beatmapset == e.beatmapset)
    && (e.Dispatched? ==> e.row < nextRow)
  }

  ghost predicate WorkersNumbered(workers: map<int, Worker>, nextRow: nat) {
    forall id <- workers :: RowKnown(workers[id].pc, nextRow)
  }

  predicate RowKnown(pc: WorkerPc, nextRow: nat) { pc.Snapshotting? || pc.StoringTask? ==> pc.row < nextRow }

  /** A step that keeps the numbering and forgets nothing. */
  ghost predicate Advances(s: State, s': State) { Numbered(s') && s.log <= s'.log }

  lemma PostMoveAdvances(s: State, id: int, p: Post, pc: PostPc)
    requires Numbered(s) && id in s.posts && s.posts[id] == p
    ensures Advances(s, At(s, id, p, pc))
  {
  }

  lemma PostLogAdvances(s: State, id: int, p: Post, e: Entry, pc: PostPc)
    requires Numbered(s) && id in s.posts && s.posts[id] == p && Known(e, s.posts, s.nextRow)
    ensures Advances(s, At(Logged(s, e), id, p, pc))
  {
  }

  lemma {:induction false} PostGateAdvances(k: Config, s: State, id: int, p: Post, answer: Answer, status: string)
    requires Numbered(s) && id in s.posts && s.posts[id] == p
    requires p.pc.Begin? || p.pc.QueueRead? || p.pc.UserResolved? || p.pc.RowAbsent? || p.pc.StatusChecked?
    ensures Advances(s, PostStep(k, s, id, p, answer, status))
  {
    PostMoveAdvances(s, id, p, Refused);
    match p.pc
    case Begin =>
      if p.queue in s.queues && s.queues[p.queue].isOpen {
        PostLogAdvances(s, id, p, OpenSeen(id, p.queue), QueueRead(s.queues[p.queue].enforceUserMatch));
      }
    case QueueRead(enforced) =>
      if p.caller.Some? {
        var caller := p.caller.value;
        var admin := caller in s.admins;
        var user := if !admin && enforced then caller else OrCaller(p.submitted, caller);
        PostLogAdvances(s, id, p, UserSeen(id, caller, user, admin, enforced), UserResolved(user));
      }
    case UserResolved(user) =>
      PostLogAdvances(s, id, p, NoRowSeen(id, p.queue, p.beatmapset), RowAbsent(user));
    case RowAbsent(user) =>
      PostLogAdvances(s, id, p, StatusSeen(id, p.beatmapset, status), StatusChecked(user));
    case StatusChecked(user) =>
      PostLogAdvances(s, id, p, Phase1Passed(id, p.queue, p.beatmapset, user), Eligible(user));
  }

  lemma {:induction false} PostTaskAdvances(k: Config, s: State, id: int, p: Post, answer: Answer, status: string)
    requires Numbered(s) && id in s.posts && s.posts[id] == p
    requires p.pc.Eligible? || p.pc.TaskExists? || p.pc.TaskFailed? || p.pc.TaskClear?
    ensures Advances(s, PostStep(k, s, id, p, answer, status))
  {
    match p.pc
    case Eligible(user) =>
      var found := k.handler(p.queue, p.beatmapset) in s.tasks;
      PostMoveAdvances(s, id, p, if found then TaskExists(user) else TaskClear(user));
    case TaskExists(user) =>
      var h := Hash(s, k.handler(p.queue, p.beatmapset));
      PostMoveAdvances(s, id, p, if HandlerBody(h).Some? && h.failed then TaskFailed(user) else Refused);
    case TaskFailed(user) =>
      PostMoveAdvances(s.(tasks := s.tasks - {k.handler(p.queue, p.beatmapset)}), id, p, TaskClear(user));
    case TaskClear(user) => PostMoveAdvances(s, id, p, if answer == Fine then Reserved(user) else Refused);
  }

  lemma {:induction false} PostStoreAdvances(k: Config, s: State, id: int, p: Post, answer: Answer, status: string)
    requires Numbered(s) && id in s.posts && s.posts[id] == p && (p.pc.Reserved? || p.pc.Stored?)
    ensures Advances(s, PostStep(k, s, id, p, answer, status))
  {
    if answer != Fine {
      PostMoveAdvances(s, id, p, RollingBack);
    } else if p.pc.Reserved? {
      var key := k.handler(p.queue, p.beatmapset);
      var h := Hash(s, key).(queue := Some(p.queue), beatmapset := Some(p.beatmapset), user := Some(p.pc.user),
                             completed := false, failed := false);
      PostMoveAdvances(s.(tasks := s.tasks[key := h]), id, p, Stored(p.pc.user));
    } else {
      PostMoveAdvances(s.(channel := s.channel + {k.handler(p.queue, p.beatmapset)}), id, p, Queued);
    }
  }

  lemma {:induction false} PostAdvances(k: Config, s: State, id: int, p: Post, answer: Answer, status: string)
    requires Numbered(s) && id in s.posts && s.posts[id] == p
    ensures Advances(s, PostStep(k, s, id, p, answer, status))
  {
    match p.pc
    case Eligible(_) => PostTaskAdvances(k, s, id, p, answer, status);
    case TaskExists(_) => PostTaskAdvances(k, s, id, p, answer, status);
    case TaskFailed(_) => PostTaskAdvances(k, s, id, p, answer, status);
    case TaskClear(_) => PostTaskAdvances(k, s, id, p, answer, status);
    case Reserved(_) => PostStoreAdvances(k, s, id, p, answer, status);
    case Stored(_) => PostStoreAdvances(k, s, id, p, answer, status);
    case RollingBack => PostMoveAdvances(s, id, p, Refused);
    case Queued =>
    case Refused =>
    case _ => PostGateAdvances(k, s, id, p, answer, status);
  }

  lemma WorkerMoveAdvances(s: State, id: int, w: Worker, pc: WorkerPc)
    requires Numbered(s) && RowKnown(pc, s.nextRow)
    ensures Advances(s, WorkerAt(s, id, w, pc))
  {
  }

  lemma LogAdvances(s: State, e: Entry)
    requires Numbered(s) && Known(e, s.posts, s.nextRow)
    ensures Advances(s, Logged(s, e))
  {
  }

  lemma InsertAdvances(s: State, body: Body)
    requires Numbered(s) && !PairTaken(s.rows, body.queue, body.beatmapset)
    ensures Numbered(s.(rows := s.rows[s.nextRow := Row(body.queue, body.beatmapset, body.user, false)],
                        nextRow := s.nextRow + 1))
  {
    forall e | e in s.log ensures Known(e, s.posts, s.nextRow + 1) {
      assert Known(e, s.posts, s.nextRow);
    }
  }

  lemma {:induction false} WorkerCreateAdvances(k: Config, s: State, id: int, w: Worker, body: Body, answer: Answer)
    requires Numbered(s) && w.pc == Inserting(body)
    ensures Advances(s, WorkerStep(k, s, id, w, answer))
  {
    if answer != Fine || PairTaken(s.rows, body.queue, body.beatmapset) {
      WorkerMoveAdvances(s, id, w, FailedAt(answer));
    } else {
      var row := s.nextRow;
      var s' := s.(rows := s.rows[row := Row(body.queue, body.beatmapset, body.user, false)], nextRow := row + 1);
      var e := Created(row, body.queue, body.beatmapset, body.user);
      InsertAdvances(s, body);
      LogAdvances(s', e);
      WorkerMoveAdvances(Logged(s', e), id, w, Snapshotting(body, row));
    }
  }

  lemma {:induction false} WorkerFindAdvances(k: Config, s: State, id: int, w: Worker)
    requires Numbered(s) && (w.pc.Reading? || w.pc.Archiving? || w.pc.LookingUp?)
    ensures Advances(s, WorkerStep(k, s, id, w, Fine))
  {
    match w.pc
    case Reading =>
      var body := HandlerBody(Hash(s, w.key));
      WorkerMoveAdvances(s, id, w, if body.Some? then Archiving(body.value) else Failing(false));
    case Archiving(body) => WorkerMoveAdvances(s, id, w, LookingUp(body));
    case LookingUp(body) =>
      if PairTaken(s.rows, body.queue, body.beatmapset) {
        WorkerMoveAdvances(s, id, w, Snapshotting(body, RowOf(s.rows, body.queue, body.beatmapset)));
      } else {
        WorkerMoveAdvances(s, id, w, Inserting(body));
      }
  }

  lemma {:induction false} WorkerDispatchAdvances(k: Config, s: State, id: int, w: Worker)
    requires Numbered(s) && RowKnown(w.pc, s.nextRow) && (w.pc.Snapshotting? || w.pc.StoringTask?)
    ensures Advances(s, WorkerStep(k, s, id, w, Fine))
  {
    match w.pc
    case Snapshotting(body, row) =>
      var rules := ActiveRules(s.rules.rules, body.queue);
      LogAdvances(s, Dispatched(row, body.queue, rules));
      WorkerMoveAdvances(Logged(s, Dispatched(row, body.queue, rules)), id, w, StoringTask(body, row, Snapshot(rules)));
    case StoringTask(body, row, text) =>
      var key := k.validation(row);
      var h := Hash(s, key).(queue := Some(body.queue), beatmapset := Some(body.beatmapset), request := Some(row),
                             snapshot := Some(text), completed := false, failed := false);
      WorkerMoveAdvances(s.(tasks := s.tasks[key := h]), id, w, Publishing(body, row));
  }

  lemma {:induction false} WorkerEndAdvances(k: Config, s: State, id: int, w: Worker)
    requires Numbered(s) && (w.pc.Publishing? || w.pc.Completing?)
    ensures Advances(s, WorkerStep(k, s, id, w, Fine))
  {
    match w.pc
    case Publishing(_, row) =>
      WorkerMoveAdvances(s.(validations := s.validations + {k.validation(row)}), id, w, Completing);
    case Completing =>
      WorkerMoveAdvances(s.(tasks := s.tasks[w.key := Hash(s, w.key).(completed := true)]), id, w, Finished);
  }

  lemma {:induction false} WorkerFailAdvances(s: State, id: int, w: Worker, retryable: bool)
    requires Numbered(s)
    ensures Advances(s, WorkerFail(s, id, w, retryable))
  {
    assert !AfterFailure(w, retryable).pc.Snapshotting? && !AfterFailure(w, retryable).pc.StoringTask?;
  }

  lemma {:induction false} WorkerAdvances(k: Config, s: State, id: int, w: Worker, answer: Answer)
    requires Numbered(s) && RowKnown(w.pc, s.nextRow)
    ensures Advances(s, WorkerStep(k, s, id, w, answer))
  {
    if w.pc.Failing? {
      WorkerFailAdvances(s, id, w, w.pc.retryable);
    } else if w.pc.Finished? {
    } else if answer != Fine {
      WorkerMoveAdvances(s, id, w, FailedAt(answer));
    } else if w.pc.Inserting? {
      WorkerCreateAdvances(k, s, id, w, w.pc.body, answer);
    } else if w.pc.Snapshotting? || w.pc.StoringTask? {
      WorkerDispatchAdvances(k, s, id, w);
    } else if w.pc.Publishing? || w.pc.Completing? {
      WorkerEndAdvances(k, s, id, w);
    } else {
      WorkerFindAdvances(k, s, id, w);
    }
  }

  lemma ValidatorMoveAdvances(s: State, id: int, v: Validator, pc: ValidatorPc)
    requires Numbered(s)
    ensures Advances(s, ValidatorAt(s, id, v, pc))
  {
  }

  lemma RowsMarked(rows: map<nat, Row>, nextRow: nat, id: nat, rejected: bool)
    requires RowsNumbered(rows, nextRow) && id in rows
    ensures RowsNumbered(rows[id := rows[id].(rejected := rejected)], nextRow)
  {
  }

  lemma MarkAdvances(s: State, row: nat, rejected: bool, e: Entry)
    requires Numbered(s) && row in s.rows && (e.Rejected? || e.Patched?)
    ensures Advances(s, Logged(Marked(s, row, rejected), e))
  {
    RowsMarked(s.rows, s.nextRow, row, rejected);
    LogAdvances(Marked(s, row, rejected), e);
  }

  lemma {:induction false} ValidatorRunAdvances(k: Config, s: State, id: int, v: Validator, rejects: bool)
    requires Numbered(s) && v.pc.VRunning?
    ensures Advances(s, ValidatorStep(k, s, id, v, Fine, rejects))
  {
    var request := v.pc.request;
    if request !in s.rows {
      ValidatorMoveAdvances(s, id, v, VCompleting);
    } else {
      var applied := Phase2Rules(v.pc.text, s.rules, v.pc.queue, k.tier);
      LogAdvances(s, Validated(request, applied, rejects));
      ValidatorMoveAdvances(Logged(s, Validated(request, applied, rejects)), id, v,
                            if applied.None? then VFailing(false)
                            else if rejects && applied.value != [] then VRejecting(request) else VCompleting);
    }
  }

  lemma {:induction false} ValidatorEndAdvances(k: Config, s: State, id: int, v: Validator, rejects: bool)
    requires Numbered(s) && (v.pc.VRejecting? || v.pc.VCompleting?)
    ensures Advances(s, ValidatorStep(k, s, id, v, Fine, rejects))
  {
    if v.pc.VCompleting? {
      ValidatorMoveAdvances(s.(tasks := s.tasks[v.key := Hash(s, v.key).(completed := true)]), id, v, VFinished);
    } else if v.pc.request in s.rows {
      MarkAdvances(s, v.pc.request, true, Rejected(v.pc.request));
      ValidatorMoveAdvances(Logged(Marked(s, v.pc.request, true), Rejected(v.pc.request)), id, v, VCompleting);
    } else {
      ValidatorMoveAdvances(s, id, v, VFailedAt(Fine));
    }
  }

  lemma {:induction false} ValidatorFailAdvances(s: State, id: int, v: Validator, retryable: bool)
    requires Numbered(s)
    ensures Advances(s, ValidatorFail(s, id, v, retryable))
  {
  }

  lemma {:induction false} ValidatorReadAdvances(k: Config, s: State, id: int, v: Validator, rejects: bool)
    requires Numbered(s) && v.pc.VReading?
    ensures Advances(s, ValidatorStep(k, s, id, v, Fine, rejects))
  {
    var h := Hash(s, v.key);
    if h.request.None? || h.queue.None? || h.beatmapset.None? {
      ValidatorMoveAdvances(s, id, v, VFailing(false));
    } else {
      ValidatorMoveAdvances(s, id, v, VRunning(h.request.value, h.queue.value, h.snapshot.GetOr("")));
    }
  }

  lemma {:induction false} ValidatorErrAdvances(k: Config, s: State, id: int, v: Validator, answer: Answer,
                                                rejects: bool)
    requires Numbered(s) && answer != Fine && !v.pc.VFailing? && !v.pc.VFinished?
    ensures Advances(s, ValidatorStep(k, s, id, v, answer, rejects))
  {
    ValidatorMoveAdvances(s, id, v, VFailedAt(answer));
  }

  lemma {:induction false} ValidatorAdvances(k: Config, s: State, id: int, v: Validator, answer: Answer, rejects: bool)
    requires Numbered(s)
    ensures Advances(s, ValidatorStep(k, s, id, v, answer, rejects))
  {
    match v.pc
    case VFailing(retryable) => ValidatorFailAdvances(s, id, v, retryable);
    case VFinished =>
    case VReading =>
      if answer == Fine { ValidatorReadAdvances(k, s, id, v, rejects); }
      else { ValidatorErrAdvances(k, s, id, v, answer, rejects); }
    case VRunning(_, _, _) =>
      if answer == Fine { ValidatorRunAdvances(k, s, id, v, rejects); }
      else { ValidatorErrAdvances(k, s, id, v, answer, rejects); }
    case _ =>
      if answer == Fine { ValidatorEndAdvances(k, s, id, v, rejects); }
      else { ValidatorErrAdvances(k, s, id, v, answer, rejects); }
  }

  lemma DropNumbered(rows: map<nat, Row>, nextRow: nat, id: int)
    requires RowsNumbered(rows, nextRow)
    ensures RowsNumbered(rows - {id}, nextRow)
  {
  }

  lemma {:induction false} DeleteAdvances(k: Config, s: State, id: int, d: Deleter)
    requires Numbered(s)
    ensures Advances(s, DeleteStep(k, s, id, d))
  {
    match d.pc
    case DReading =>
    case DHandler(_) =>
    case DValidation =>
    case DRow => DropNumbered(s.rows, s.nextRow, d.request);
    case DFinished =>
  }

  lemma StartPostAdvances(s: State, id: int, p: Post)
    requires Numbered(s) && id !in s.posts
    ensures Advances(s, s.(posts := s.posts[id := p]))
  {
    forall x | x in s.log ensures Known(x, s.posts[id := p], s.nextRow) { assert Known(x, s.posts, s.nextRow); }
  }

  lemma {:induction false} CleanupAdvances(s: State, id: int, c: Cleaner)
    requires Numbered(s)
    ensures Advances(s, CleanupStep(s, id, c))
  {
    if c.stale.Some? {
    } else if c.remaining == [] {
    } else {
    }
  }

  lemma {:induction false} StartAdvances(s: State, e: Event)
    requires Numbered(s) && (e.StartPost? || e.StartWorker? || e.StartValidator?)
    ensures Advances(s, Surroundings(s, e))
  {
    match e
    case StartPost(id, caller, submitted, queue, beatmapset) =>
      if id !in s.posts { StartPostAdvances(s, id, Post(caller, submitted, queue, beatmapset, Begin)); }
    case StartWorker(id, key) =>
      if id !in s.workers && key in s.channel {
        WorkerMoveAdvances(s, id, Worker(key, 1, Reading), Reading);
      }
    case StartValidator(id, key) =>
      if id !in s.validators && key in s.validations {
        ValidatorMoveAdvances(s, id, Validator(key, 1, VReading), VReading);
      }
  }

  lemma {:induction false} EditAdvances(s: State, rules: RuleTable.Table)
    requires Numbered(s)
    ensures Advances(s, Logged(s.(rules := rules), RulesEdited(rules)))
  {
    LogAdvances(s.(rules := rules), RulesEdited(rules));
  }

  lemma {:induction false} WriteAdvances(s: State, e: Event)
    requires Numbered(s) && (e.EditRules? || e.PatchRow?)
    ensures Advances(s, Surroundings(s, e))
  {
    match e
    case EditRules(rules) => if ValidConfigs(rules.rules) { EditAdvances(s, rules); }
    case PatchRow(row, rejected) => if row in s.rows { MarkAdvances(s, row, rejected, Patched(row, rejected)); }
  }

  lemma {:induction false} SurroundingsAdvance(s: State, e: Event)
    requires Numbered(s)
    ensures Advances(s, Surroundings(s, e))
  {
    match e
    case StartPost(_, _, _, _, _) => StartAdvances(s, e);
    case StartWorker(_, _) => StartAdvances(s, e);
    case StartValidator(_, _) => StartAdvances(s, e);
    case StartDelete(id, _) => if id in s.deleters { assert Surroundings(s, e) == s; }
    case StartCleanup(id, _) => if id in s.cleaners { assert Surroundings(s, e) == s; }
    case SetQueue(_, _) =>
    case SetAdmins(_) =>
    case EditRules(_) => WriteAdvances(s, e);
    case PatchRow(_, _) => WriteAdvances(s, e);
    case _ =>
  }

  lemma {:induction false} PostEventAdvances(k: Config, s: State, e: Event)
    requires Numbered(s) && e.StepPost?
    ensures Advances(s, Step(k, s, e))
  {
    if e.id in s.posts { PostAdvances(k, s, e.id, s.posts[e.id], e.answer, e.status); }
  }

  lemma {:induction false} WorkerEventAdvances(k: Config, s: State, e: Event)
    requires Numbered(s) && e.StepWorker?
    ensures Advances(s, Step(k, s, e))
  {
    if e.id in s.workers { WorkerAdvances(k, s, e.id, s.workers[e.id], e.answer); }
  }

  lemma {:induction false} ValidatorEventAdvances(k: Config, s: State, e: Event)
    requires Numbered(s) && e.StepValidator?
    ensures Advances(s, Step(k, s, e))
  {
    if e.id in s.validators { ValidatorAdvances(k, s, e.id, s.validators[e.id], e.answer, e.rejects); }
  }

  lemma {:induction false} RemovalEventAdvances(k: Config, s: State, e: Event)
    requires Numbered(s) && (e.StepDelete? || e.StepCleanup?)
    ensures Advances(s, Step(k, s, e))
  {
    match e
    case StepDelete(id) => if id in s.deleters { DeleteAdvances(k, s, id, s.deleters[id]); }
    case StepCleanup(id) => if id in s.cleaners { CleanupAdvances(s, id, s.cleaners[id]); }
  }

  lemma {:induction false} StepAdvances(k: Config, s: State, e: Event)
    requires Numbered(s)
    ensures Advances(s, Step(k, s, e))
  {
    match e
    case StepPost(_, _, _) => PostEventAdvances(k, s, e);
    case StepWorker(_, _) => WorkerEventAdvances(k, s, e);
    case StepValidator(_, _, _) => ValidatorEventAdvances(k, s, e);
    case StepDelete(_) => RemovalEventAdvances(k, s, e);
    case StepCleanup(_) => RemovalEventAdvances(k, s, e);
    case _ => SurroundingsAdvance(s, e);
  }

  // ---------------------------------------------------------------- every run

  /** In every run, whatever the keys: at most one row per queue and beatmapset. */
  lemma {:induction false} RowsAlwaysUnique(k: Config, queues: map<int, Queue>, admins: set<int>,
                                            rules: RuleTable.Table, events: seq<Event>)
    ensures var s := Run(k, Initial(queues, admins, rules), events); UniqueRows(s.rows) && Numbered(s)
  {
    if events != [] {
      RowsAlwaysUnique(k, queues, admins, rules, events[..|events| - 1]);
      StepAdvances(k, Run(k, Initial(queues, admins, rules), events[..|events| - 1]), events[|events| - 1]);
    }
  }

  lemma ApartBefore(k: Config, before: seq<Entry>, after: seq<Entry>)
    requires before <= after && Apart(k, after)
    ensures Apart(k, before)
  {
    forall e | e in before ensures e in after {
      var i :| 0 <= i < |before| && before[i] == e;
      assert after[i] == e;
    }
  }

  /** Safety of every run in which no submission's key meets that of a dispatched validation: at most
      one row per queue and beatmapset; each row that exists or ever existed was vouched for by an
      earlier POST with that row's user; each dispatch was for a row created before, in its queue, and
      took the rules active as of the latest edit; and each validation applied exactly the tier-3 rules
      of an earlier dispatch for its row. */
  lemma {:induction false} RunIsSafe(k: Config, queues: map<int, Queue>, admins: set<int>, rules: RuleTable.Table,
                                     events: seq<Event>)
    requires ValidConfigs(rules.rules) && Apart(k, Run(k, Initial(queues, admins, rules), events).log)
    ensures var s := Run(k, Initial(queues, admins, rules), events);
            && UniqueRows(s.rows)
            && (forall id <- s.rows :: Vouched(s.log, s.rows[id].queue, s.rows[id].beatmapset, s.rows[id].user))
            && Justified(k, s.log)
            && Invariant(k, s)
  {
    if events == [] {
      assert [] + [RulesEdited(rules)] == [RulesEdited(rules)];
      CurrentNow([], rules);
    } else {
      var before := Run(k, Initial(queues, admins, rules), events[..|events| - 1]);
      RowsAlwaysUnique(k, queues, admins, rules, events[..|events| - 1]);
      StepAdvances(k, before, events[|events| - 1]);
      ApartBefore(k, before.log, Step(k, before, events[|events| - 1]).log);
      RunIsSafe(k, queues, admins, rules, events[..|events| - 1]);
      StepKeeps(k, before, events[|events| - 1]);
    }
  }

  /** The keys of the POSTs made so far and of the rows created so far do not meet. */
  ghost predicate KeysApart(k: Config, s: State) {
    forall id <- s.posts, row: nat ::
      row < s.nextRow ==> k.handler(s.posts[id].queue, s.posts[id].beatmapset) != k.validation(row)
  }

  /** The same safety, under a condition on the submissions and the row ids of the run alone. */
  lemma RunIsSafeUnlessKeysMeet(k: Config, queues: map<int, Queue>, admins: set<int>, rules: RuleTable.Table,
                                events: seq<Event>)
    requires ValidConfigs(rules.rules) && KeysApart(k, Run(k, Initial(queues, admins, rules), events))
    ensures var s := Run(k, Initial(queues, admins, rules), events);
            && Apart(k, s.log) && UniqueRows(s.rows)
            && (forall id <- s.rows :: Vouched(s.log, s.rows[id].queue, s.rows[id].beatmapset, s.rows[id].user))
            && Justified(k, s.log)
  {
    RowsAlwaysUnique(k, queues, admins, rules, events);
    NumberedIsApart(k, Run(k, Initial(queues, admins, rules), events));
    RunIsSafe(k, queues, admins, rules, events);
  }

  lemma NumberedIsApart(k: Config, s: State)
    requires Numbered(s) && KeysApart(k, s)
    ensures Apart(k, s.log)
  {
    forall e, f | e in s.log && f in s.log && e.Phase1Passed? && f.Dispatched?
      ensures k.handler(e.queue, e.beatmapset) != k.validation(f.row)
    {
      assert Known(e, s.posts, s.nextRow) && Known(f, s.posts, s.nextRow);
    }
  }

  /** Keys that never meet meet in no run. */
  lemma DisjointIsApart(k: Config, log: seq<Entry>)
    requires Disjoint(k)
    ensures Apart(k, log)
  {
  }
}
