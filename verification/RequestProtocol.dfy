/** Submitting a request to a queue: POST handlers, daemon workers, validators, DELETE handlers and
    the start-up cleanup, interleaved at every await over a Redis task hash per job, two pub/sub
    channels and a table with a unique key.

    api/v1/requests/__init__.py:91-274, app/daemon/services/queue_request_handler.py,
    app/daemon/services/rule_validation.py, app/daemon/services/decorators.py:22-49,
    app/database/crud/c.py:177-241, app/bootstrap.py:175-204.

    An event names the actor that takes its next step and what the outside world answers to it;
    an event that is not enabled changes nothing. */
module RequestProtocol {
  import opened Options
  import Json
  import RuleTable
  import opened RuleSnapshot

  // ---------------------------------------------------------------- shared state

  /** The Redis keys of the two kinds of task, and the tier of a rule type. The keys are hashes in one
      namespace; the API process may compute another validation key than the daemon does. */
  datatype Config = Config(handler: (int, int) -> int, validation: int -> int, apiValidation: int -> int,
                           tier: string -> int)

  /** No handler task ever shares its key with a validation task. */
  ghost predicate Disjoint(k: Config) {
    forall q, b, row: nat :: k.handler(q, b) != k.validation(row)
  }

  /** A Redis hash, field by field. HSET with a mapping overwrites the fields it lists. */
  datatype TaskHash = TaskHash(queue: Option<int>, beatmapset: Option<int>, user: Option<int>,
                               request: Option<int>, snapshot: Option<string>, completed: bool, failed: bool)

  const NO_TASK := TaskHash(None, None, None, None, None, false, false)

  datatype Queue = Queue(isOpen: bool, enforceUserMatch: bool)

  datatype Row = Row(queue: int, beatmapset: int, user: int, rejected: bool)

  const RANKED: set<string> := {"ranked", "approved", "qualified", "loved"}

  // ---------------------------------------------------------------- actors

  datatype PostPc =
    | Begin
    | QueueRead(enforced: bool)
    | UserResolved(user: int)
    | RowAbsent(user: int)
    | StatusChecked(user: int)
    | Eligible(user: int)      // phase 1 passed; the task hash is looked at next
    | TaskExists(user: int)
    | TaskFailed(user: int)
    | TaskClear(user: int)
    | Reserved(user: int)
    | Stored(user: int)
    | RollingBack
    | Queued
    | Refused

  datatype Post = Post(caller: Option<int>, submitted: Option<int>, queue: int, beatmapset: int, pc: PostPc)

  datatype Body = Body(queue: int, beatmapset: int, user: int)

  const MAX_ATTEMPTS := 5

  datatype WorkerPc =
    | Reading
    | Archiving(body: Body)
    | LookingUp(body: Body)
    | Inserting(body: Body)
    | Snapshotting(body: Body, row: nat)
    | StoringTask(body: Body, row: nat, text: string)
    | Publishing(body: Body, row: nat)
    | Completing
    | Failing(retryable: bool)
    | Finished

  datatype Worker = Worker(key: int, attempt: nat, pc: WorkerPc)

  datatype ValidatorPc =
    | VReading
    | VRunning(request: int, queue: int, text: string)
    | VRejecting(request: int)
    | VCompleting
    | VFailing(retryable: bool)
    | VFinished

  datatype Validator = Validator(key: int, attempt: nat, pc: ValidatorPc)

  datatype DeletePc = DReading | DHandler(row: Row) | DValidation | DRow | DFinished

  datatype Deleter = Deleter(request: int, pc: DeletePc)

  datatype Cleaner = Cleaner(remaining: seq<int>, stale: Option<int>)

  /** What has happened, in order. */
  datatype Entry =
    | RulesEdited(rules: RuleTable.Table)
    | OpenSeen(post: int, queue: int)
    | UserSeen(post: int, caller: int, user: int, admin: bool, enforced: bool)
    | NoRowSeen(post: int, queue: int, beatmapset: int)
    | StatusSeen(post: int, beatmapset: int, status: string)
    | Phase1Passed(post: int, queue: int, beatmapset: int, user: int)
    | Created(row: nat, queue: int, beatmapset: int, user: int)
    | Dispatched(row: nat, queue: int, active: seq<RuleTable.Rule>)
    | Validated(row: nat, applied: Option<seq<RuleView>>, rejects: bool)
    | Rejected(row: nat)
    | Patched(row: nat, rejected: bool)

  datatype State = State(
    queues: map<int, Queue>, admins: set<int>, rules: RuleTable.Table,
    rows: map<nat, Row>, nextRow: nat,
    tasks: map<int, TaskHash>, channel: set<int>, validations: set<int>,
    posts: map<int, Post>, workers: map<int, Worker>, validators: map<int, Validator>,
    deleters: map<int, Deleter>, cleaners: map<int, Cleaner>,
    log: seq<Entry>)

  function Initial(queues: map<int, Queue>, admins: set<int>, rules: RuleTable.Table): State {
    State(queues, admins, rules, map[], 0, map[], {}, {}, map[], map[], map[], map[], map[],
          [RulesEdited(rules)])
  }

  /** How an awaited call ends. */
  datatype Answer = Fine | Timeout | Error

  datatype Event =
    | StartPost(id: int, caller: Option<int>, submitted: Option<int>, queue: int, beatmapset: int)
    | StepPost(id: int, answer: Answer, status: string)
    | StartWorker(id: int, key: int)
    | StepWorker(id: int, answer: Answer)
    | StartValidator(id: int, key: int)
    | StepValidator(id: int, answer: Answer, rejects: bool)
    | StartDelete(id: int, request: int)
    | StepDelete(id: int)
    | StartCleanup(id: int, keys: seq<int>)
    | StepCleanup(id: int)
    | SetQueue(id: int, info: Queue)
    | SetAdmins(admins: set<int>)
    | EditRules(rules: RuleTable.Table)
    | PatchRow(row: nat, rejected: bool)

  function Hash(s: State, key: int): TaskHash {
    if key in s.tasks then s.tasks[key] else NO_TASK
  }

  predicate PairTaken(rows: map<nat, Row>, queue: int, beatmapset: int) {
    exists id <- rows :: rows[id].queue == queue && rows[id].beatmapset == beatmapset
  }

  /** `QueueRequestHandlerTask.deserialize`: fails unless the three ids are there. */
  function HandlerBody(h: TaskHash): Option<Body> {
    if h.queue.Some? && h.beatmapset.Some? && h.user.Some? then
      Some(Body(h.queue.value, h.beatmapset.value, h.user.value))
    else None
  }

  // ---------------------------------------------------------------- POST

  function At(s: State, id: int, p: Post, pc: PostPc): State {
    s.(posts := s.posts[id := p.(pc := pc)])
  }

  function Logged(s: State, e: Entry): State { s.(log := s.log + [e]) }

  /** `user_id or caller`: a missing or zero id stands for the caller. */
  function OrCaller(submitted: Option<int>, caller: int): int {
    if submitted.Some? && submitted.value != 0 then submitted.value else caller
  }

  function PostStep(k: Config, s: State, id: int, p: Post, answer: Answer, status: string): State {
    match p.pc
    case Begin =>
      if p.queue !in s.queues || !s.queues[p.queue].isOpen then At(s, id, p, Refused)
      else At(Logged(s, OpenSeen(id, p.queue)), id, p, QueueRead(s.queues[p.queue].enforceUserMatch))
    case QueueRead(enforced) =>
      if p.caller.None? then At(s, id, p, Refused)
      else
        var caller := p.caller.value;
        var admin := caller in s.admins;
        if !admin && enforced && p.submitted.Some? && p.submitted.value != caller then At(s, id, p, Refused)
        else
          var user := if !admin && enforced then caller else OrCaller(p.submitted, caller);
          At(Logged(s, UserSeen(id, caller, user, admin, enforced)), id, p, UserResolved(user))
    case UserResolved(user) =>
      if PairTaken(s.rows, p.queue, p.beatmapset) then At(s, id, p, Refused)
      else At(Logged(s, NoRowSeen(id, p.queue, p.beatmapset)), id, p, RowAbsent(user))
    case RowAbsent(user) =>
      if answer != Fine || status in RANKED then At(s, id, p, Refused)
      else At(Logged(s, StatusSeen(id, p.beatmapset, status)), id, p, StatusChecked(user))
    case StatusChecked(user) =>
      if answer != Fine then At(s, id, p, Refused)
      else At(Logged(s, Phase1Passed(id, p.queue, p.beatmapset, user)), id, p, Eligible(user))
    case Eligible(user) =>
      At(s, id, p, if k.handler(p.queue, p.beatmapset) in s.tasks then TaskExists(user) else TaskClear(user))
    case TaskExists(user) =>
      var h := Hash(s, k.handler(p.queue, p.beatmapset));
      At(s, id, p, if HandlerBody(h).Some? && h.failed then TaskFailed(user) else Refused)
    case TaskFailed(user) =>
      At(s.(tasks := s.tasks - {k.handler(p.queue, p.beatmapset)}), id, p, TaskClear(user))
    case TaskClear(user) =>
      At(s, id, p, if answer == Fine then Reserved(user) else Refused)
    case Reserved(user) =>
      if answer != Fine then At(s, id, p, RollingBack)
      else
        var key := k.handler(p.queue, p.beatmapset);
        var h := Hash(s, key).(queue := Some(p.queue), beatmapset := Some(p.beatmapset), user := Some(user),
                               completed := false, failed := false);
        At(s.(tasks := s.tasks[key := h]), id, p, Stored(user))
    case Stored(user) =>
      if answer != Fine then At(s, id, p, RollingBack)
      else At(s.(channel := s.channel + {k.handler(p.queue, p.beatmapset)}), id, p, Queued)
    case RollingBack => At(s, id, p, Refused)
    case Queued => s
    case Refused => s
  }

  // ---------------------------------------------------------------- the queue request handler

  function WorkerAt(s: State, id: int, w: Worker, pc: WorkerPc): State {
    s.(workers := s.workers[id := w.(pc := pc)])
  }

  function FailedAt(answer: Answer): WorkerPc { Failing(answer == Timeout) }

  ghost function WorkerStep(k: Config, s: State, id: int, w: Worker, answer: Answer): State {
    match w.pc
    case Reading =>
      var body := HandlerBody(Hash(s, w.key));
      if answer != Fine then WorkerAt(s, id, w, FailedAt(answer))
      else if body.None? then WorkerAt(s, id, w, Failing(false))
      else WorkerAt(s, id, w, Archiving(body.value))
    case Archiving(body) =>
      WorkerAt(s, id, w, if answer == Fine then LookingUp(body) else FailedAt(answer))
    case LookingUp(body) =>
      if answer != Fine then WorkerAt(s, id, w, FailedAt(answer))
      else if PairTaken(s.rows, body.queue, body.beatmapset) then
        WorkerAt(s, id, w, Snapshotting(body, RowOf(s.rows, body.queue, body.beatmapset)))
      else WorkerAt(s, id, w, Inserting(body))
    case Inserting(body) =>
      // the unique key refuses a second row for the pair
      if answer != Fine || PairTaken(s.rows, body.queue, body.beatmapset) then WorkerAt(s, id, w, FailedAt(answer))
      else
        var row := s.nextRow;
        var s' := s.(rows := s.rows[row := Row(body.queue, body.beatmapset, body.user, false)], nextRow := row + 1);
        WorkerAt(Logged(s', Created(row, body.queue, body.beatmapset, body.user)), id, w, Snapshotting(body, row))
    case Snapshotting(body, row) =>
      if answer != Fine then WorkerAt(s, id, w, FailedAt(answer))
      else
        var rules := ActiveRules(s.rules.rules, body.queue);
        WorkerAt(Logged(s, Dispatched(row, body.queue, rules)), id, w, StoringTask(body, row, Snapshot(rules)))
    case StoringTask(body, row, text) =>
      if answer != Fine then WorkerAt(s, id, w, FailedAt(answer))
      else
        var key := k.validation(row);
        var h := Hash(s, key).(queue := Some(body.queue), beatmapset := Some(body.beatmapset), request := Some(row),
                               snapshot := Some(text), completed := false, failed := false);
        WorkerAt(s.(tasks := s.tasks[key := h]), id, w, Publishing(body, row))
    case Publishing(body, row) =>
      if answer != Fine then WorkerAt(s, id, w, FailedAt(answer))
      else WorkerAt(s.(validations := s.validations + {k.validation(row)}), id, w, Completing)
    case Completing =>
      if answer != Fine then WorkerAt(s, id, w, FailedAt(answer))
      else WorkerAt(s.(tasks := s.tasks[w.key := Hash(s, w.key).(completed := true)]), id, w, Finished)
    case Failing(retryable) => WorkerFail(s, id, w, retryable)
    case Finished => s
  }

  /** The task is marked as failed before the retry wrapper sees the exception. */
  function WorkerFail(s: State, id: int, w: Worker, retryable: bool): State {
    s.(tasks := s.tasks[w.key := Hash(s, w.key).(failed := true)],
       workers := s.workers[id := AfterFailure(w, retryable)])
  }

  function AfterFailure(w: Worker, retryable: bool): Worker {
    if retryable && w.attempt < MAX_ATTEMPTS then w.(attempt := w.attempt + 1, pc := Reading) else w.(pc := Finished)
  }

  ghost function RowOf(rows: map<nat, Row>, queue: int, beatmapset: int): (id: nat)
    requires PairTaken(rows, queue, beatmapset)
    ensures id in rows && rows[id].queue == queue && rows[id].beatmapset == beatmapset
  {
    var id :| id in rows && rows[id].queue == queue && rows[id].beatmapset == beatmapset;
    id
  }

  // ---------------------------------------------------------------- the rule validation service

  function ValidatorAt(s: State, id: int, v: Validator, pc: ValidatorPc): State {
    s.(validators := s.validators[id := v.(pc := pc)])
  }

  /** The row's status becomes REJECTED, or something else. */
  function Marked(s: State, row: nat, rejected: bool): State
    requires row in s.rows
  {
    s.(rows := s.rows[row := s.rows[row].(rejected := rejected)])
  }

  function VFailedAt(answer: Answer): ValidatorPc { VFailing(answer == Timeout) }

  function ValidatorStep(k: Config, s: State, id: int, v: Validator, answer: Answer, rejects: bool): State {
    match v.pc
    case VReading =>
      var h := Hash(s, v.key);
      if answer != Fine then ValidatorAt(s, id, v, VFailedAt(answer))
      else if h.request.None? || h.queue.None? || h.beatmapset.None? then ValidatorAt(s, id, v, VFailing(false))
      else ValidatorAt(s, id, v, VRunning(h.request.value, h.queue.value, h.snapshot.GetOr("")))
    case VRunning(request, queue, text) =>
      if answer != Fine then ValidatorAt(s, id, v, VFailedAt(answer))
      else if request !in s.rows then ValidatorAt(s, id, v, VCompleting)
      else
        var applied := Phase2Rules(text, s.rules, queue, k.tier);
        var next := if applied.None? then VFailing(false)
                    else if rejects && applied.value != [] then VRejecting(request) else VCompleting;
        ValidatorAt(Logged(s, Validated(request, applied, rejects)), id, v, next)
    case VRejecting(request) =>
      if answer != Fine || request !in s.rows then ValidatorAt(s, id, v, VFailedAt(answer))
      else ValidatorAt(Logged(Marked(s, request, true), Rejected(request)), id, v, VCompleting)
    case VCompleting =>
      if answer != Fine then ValidatorAt(s, id, v, VFailedAt(answer))
      else ValidatorAt(s.(tasks := s.tasks[v.key := Hash(s, v.key).(completed := true)]), id, v, VFinished)
    case VFailing(retryable) => ValidatorFail(s, id, v, retryable)
    case VFinished => s
  }

  function ValidatorFail(s: State, id: int, v: Validator, retryable: bool): State {
    s.(tasks := s.tasks[v.key := Hash(s, v.key).(failed := true)],
       validators := s.validators[id := AfterVFailure(v, retryable)])
  }

  function AfterVFailure(v: Validator, retryable: bool): Validator {
    if retryable && v.attempt < MAX_ATTEMPTS then v.(attempt := v.attempt + 1, pc := VReading) else v.(pc := VFinished)
  }

  // ---------------------------------------------------------------- DELETE and the start-up cleanup

  function DeleteStep(k: Config, s: State, id: int, d: Deleter): State {
    match d.pc
    case DReading =>
      s.(deleters := s.deleters[id := d.(pc := if d.request in s.rows then DHandler(s.rows[d.request]) else DFinished)])
    case DHandler(row) =>
      s.(tasks := s.tasks - {k.handler(row.queue, row.beatmapset)}, deleters := s.deleters[id := d.(pc := DValidation)])
    case DValidation =>
      s.(tasks := s.tasks - {k.apiValidation(d.request)}, deleters := s.deleters[id := d.(pc := DRow)])
    case DRow =>
      s.(rows := s.rows - {d.request}, deleters := s.deleters[id := d.(pc := DFinished)])
    case DFinished => s
  }

  /** Reading a task and deleting it are two awaits. */
  function CleanupStep(s: State, id: int, c: Cleaner): State {
    if c.stale.Some? then
      s.(tasks := s.tasks - {c.stale.value}, cleaners := s.cleaners[id := c.(stale := None)])
    else if c.remaining == [] then s
    else
      var h := Hash(s, c.remaining[0]);
      s.(cleaners := s.cleaners[id := Cleaner(c.remaining[1..],
           if !h.completed && !h.failed then Some(c.remaining[0]) else None)])
  }

  // ---------------------------------------------------------------- runs

  predicate ValidConfigs(rules: seq<RuleTable.Rule>) { forall r <- rules :: Json.Valid(r.config) }

  ghost function Step(k: Config, s: State, e: Event): State {
    match e
    case StepPost(id, answer, status) =>
      if id in s.posts then PostStep(k, s, id, s.posts[id], answer, status) else s
    case StepWorker(id, answer) =>
      if id in s.workers then WorkerStep(k, s, id, s.workers[id], answer) else s
    case StepValidator(id, answer, rejects) =>
      if id in s.validators then ValidatorStep(k, s, id, s.validators[id], answer, rejects) else s
    case StepDelete(id) =>
      if id in s.deleters then DeleteStep(k, s, id, s.deleters[id]) else s
    case StepCleanup(id) =>
      if id in s.cleaners then CleanupStep(s, id, s.cleaners[id]) else s
    case _ => Surroundings(s, e)
  }

  /** New actors, and what goes on around the protocol. A published message may start any number of
      actors, one for each subscriber, or none. */
  function Surroundings(s: State, e: Event): State {
    match e
    case StartPost(id, caller, submitted, queue, beatmapset) =>
      if id in s.posts then s else s.(posts := s.posts[id := Post(caller, submitted, queue, beatmapset, Begin)])
    case StartWorker(id, key) =>
      if id in s.workers || key !in s.channel then s
      else s.(workers := s.workers[id := Worker(key, 1, Reading)])
    case StartValidator(id, key) =>
      if id in s.validators || key !in s.validations then s
      else s.(validators := s.validators[id := Validator(key, 1, VReading)])
    case StartDelete(id, request) =>
      if id in s.deleters then s else s.(deleters := s.deleters[id := Deleter(request, DReading)])
    case StartCleanup(id, keys) =>
      if id in s.cleaners then s else s.(cleaners := s.cleaners[id := Cleaner(keys, None)])
    case SetQueue(id, info) => s.(queues := s.queues[id := info])
    case SetAdmins(admins) => s.(admins := admins)
    case EditRules(rules) =>
      if ValidConfigs(rules.rules) then Logged(s.(rules := rules), RulesEdited(rules)) else s
    case PatchRow(row, rejected) =>
      if row in s.rows then Logged(Marked(s, row, rejected), Patched(row, rejected)) else s
    case _ => s
  }

  ghost function Run(k: Config, s: State, events: seq<Event>): State {
    if events == [] then s else Step(k, Run(k, s, events[..|events| - 1]), events[|events| - 1])
  }

  // ---------------------------------------------------------------- what the log proves

  predicate Opened(log: seq<Entry>, id: int, queue: int) { OpenSeen(id, queue) in log }

  /** The user was resolved for this handler, and is the caller wherever the queue enforces that. */
  ghost predicate Resolved(log: seq<Entry>, id: int, queue: int, user: int) {
    && Opened(log, id, queue)
    && exists c, a, e :: UserSeen(id, c, user, a, e) in log && (e && !a ==> user == c)
  }

  ghost predicate Absent(log: seq<Entry>, id: int, queue: int, beatmapset: int, user: int) {
    Resolved(log, id, queue, user) && NoRowSeen(id, queue, beatmapset) in log
  }

  ghost predicate Checked(log: seq<Entry>, id: int, queue: int, beatmapset: int, user: int) {
    Absent(log, id, queue, beatmapset, user) && exists st :: StatusSeen(id, beatmapset, st) in log && st !in RANKED
  }

  /** One POST passed every gate for this pair and this user. */
  ghost predicate Cleared(log: seq<Entry>, id: int, queue: int, beatmapset: int, user: int) {
    Checked(log, id, queue, beatmapset, user) && Phase1Passed(id, queue, beatmapset, user) in log
  }

  ghost predicate Vouched(log: seq<Entry>, queue: int, beatmapset: int, user: int) {
    exists id :: Cleared(log, id, queue, beatmapset, user)
  }

  /** The snapshot text is that of the rules active when this row's validation was dispatched. */
  ghost predicate Carried(log: seq<Entry>, row: int, queue: int, text: string) {
    row >= 0 && exists rules :: Dispatched(row, queue, rules) in log && text == Snapshot(rules) && ValidConfigs(rules)
  }

  /** No submission that passed phase 1 so far has the key of a validation dispatched so far. */
  ghost predicate Apart(k: Config, log: seq<Entry>) {
    forall e <- log, f <- log ::
      e.Phase1Passed? && f.Dispatched? ==> k.handler(e.queue, e.beatmapset) != k.validation(f.row)
  }

  /** The latest edit left this rule table. */
  predicate Current(log: seq<Entry>, rules: RuleTable.Table) {
    exists n :: 0 <= n < |log| && log[n] == RulesEdited(rules) && NoEditAfter(log, n)
  }

  predicate NoEditAfter(log: seq<Entry>, n: nat) { forall m :: n < m < |log| ==> !log[m].RulesEdited? }

  /** The row was created in this queue. */
  ghost predicate MadeIn(log: seq<Entry>, row: nat, queue: int) { exists b, u :: Created(row, queue, b, u) in log }

  /** Every row ever created was vouched for before; every dispatch was for a row created before, in
      its queue, and took the rules active in the table of that moment; and every validation applied
      exactly the tier-3 rules of an earlier dispatch for that row. */
  ghost predicate Justified(k: Config, log: seq<Entry>) {
    forall i: nat :: i < |log| ==> JustifiedAt(k, log, i)
  }

  ghost predicate JustifiedAt(k: Config, log: seq<Entry>, i: nat)
    requires i < |log|
  {
    JustifiedEntry(k, log[..i], log[i])
  }

  ghost predicate JustifiedEntry(k: Config, before: seq<Entry>, e: Entry) {
    match e
    case Created(_, queue, beatmapset, user) => Vouched(before, queue, beatmapset, user)
    case Dispatched(row, queue, active) =>
      && MadeIn(before, row, queue)
      && exists table :: Current(before, table) && active == ActiveRules(table.rules, queue)
    case Validated(row, applied, _) =>
      exists queue, rules :: Dispatched(row, queue, rules) in before && applied == Some(TierThree(Views(rules), k.tier))
    case _ => true
  }

  // ---------------------------------------------------------------- the invariant, part by part

  /** At most one row per queue and beatmapset. */
  ghost predicate UniqueRows(rows: map<nat, Row>) {
    forall a <- rows, b <- rows :: rows[a].queue == rows[b].queue && rows[a].beatmapset == rows[b].beatmapset ==> a == b
  }

  ghost predicate RowOk(log: seq<Entry>, id: nat, row: Row) {
    Vouched(log, row.queue, row.beatmapset, row.user) && MadeIn(log, id, row.queue)
  }

  ghost predicate RowsOk(log: seq<Entry>, rows: map<nat, Row>, nextRow: nat) {
    && UniqueRows(rows)
    && forall id <- rows :: id < nextRow && RowOk(log, id, rows[id])
  }

  /** A hash with a user is a handler task at its own key, and one with a request is a validation
      task at its own key. */
  ghost predicate TaskOk(k: Config, log: seq<Entry>, key: int, h: TaskHash) {
    && (h.user.Some? ==>
          && h.queue.Some? && h.beatmapset.Some? && key == k.handler(h.queue.value, h.beatmapset.value)
          && Vouched(log, h.queue.value, h.beatmapset.value, h.user.value))
    && (h.request.Some? ==>
          && h.queue.Some? && h.snapshot.Some? && h.request.value >= 0 && key == k.validation(h.request.value)
          && Carried(log, h.request.value, h.queue.value, h.snapshot.value))
  }

  ghost predicate TasksOk(k: Config, log: seq<Entry>, tasks: map<int, TaskHash>) {
    forall key <- tasks :: TaskOk(k, log, key, tasks[key])
  }

  ghost predicate PostOk(log: seq<Entry>, id: int, p: Post) {
    match p.pc
    case QueueRead(_) => Opened(log, id, p.queue)
    case UserResolved(user) => Resolved(log, id, p.queue, user)
    case RowAbsent(user) => Absent(log, id, p.queue, p.beatmapset, user)
    case StatusChecked(user) => Checked(log, id, p.queue, p.beatmapset, user)
    case Eligible(user) => Cleared(log, id, p.queue, p.beatmapset, user)
    case TaskExists(user) => Cleared(log, id, p.queue, p.beatmapset, user)
    case TaskFailed(user) => Cleared(log, id, p.queue, p.beatmapset, user)
    case TaskClear(user) => Cleared(log, id, p.queue, p.beatmapset, user)
    case Reserved(user) => Cleared(log, id, p.queue, p.beatmapset, user)
    case Stored(user) => Cleared(log, id, p.queue, p.beatmapset, user)
    case _ => true
  }

  ghost predicate BodyOk(log: seq<Entry>, body: Body) { Vouched(log, body.queue, body.beatmapset, body.user) }

  ghost predicate WorkerOk(log: seq<Entry>, w: Worker) {
    match w.pc
    case Archiving(body) => BodyOk(log, body)
    case LookingUp(body) => BodyOk(log, body)
    case Inserting(body) => BodyOk(log, body)
    case Snapshotting(body, row) => MadeIn(log, row, body.queue)
    case StoringTask(body, row, text) => Carried(log, row, body.queue, text)
    case _ => true
  }

  ghost predicate ValidatorOk(log: seq<Entry>, v: Validator) {
    v.pc.VRunning? ==> Carried(log, v.pc.request, v.pc.queue, v.pc.text)
  }

  ghost predicate ActorsOk(log: seq<Entry>, posts: map<int, Post>, workers: map<int, Worker>,
                           validators: map<int, Validator>) {
    && (forall id <- posts :: PostOk(log, id, posts[id]))
    && (forall id <- workers :: WorkerOk(log, workers[id]))
    && (forall id <- validators :: ValidatorOk(log, validators[id]))
  }

  ghost predicate Backed(k: Config, s: State) {
    && RowsOk(s.log, s.rows, s.nextRow)
    && TasksOk(k, s.log, s.tasks)
    && ActorsOk(s.log, s.posts, s.workers, s.validators)
    && Justified(k, s.log)
  }

  ghost predicate Invariant(k: Config, s: State) {
    Backed(k, s) && ValidConfigs(s.rules.rules) && Current(s.log, s.rules)
  }

  // ---------------------------------------------------------------- the log only grows

  lemma VouchedGrows(log: seq<Entry>, e: Entry, queue: int, beatmapset: int, user: int)
    requires Vouched(log, queue, beatmapset, user)
    ensures Vouched(log + [e], queue, beatmapset, user)
  {
    var id :| Cleared(log, id, queue, beatmapset, user);
    ClearedGrows(log, e, id, queue, beatmapset, user);
  }

  lemma ClearedGrows(log: seq<Entry>, e: Entry, id: int, queue: int, beatmapset: int, user: int)
    ensures Resolved(log, id, queue, user) ==> Resolved(log + [e], id, queue, user)
    ensures Checked(log, id, queue, beatmapset, user) ==> Checked(log + [e], id, queue, beatmapset, user)
    ensures Cleared(log, id, queue, beatmapset, user) ==> Cleared(log + [e], id, queue, beatmapset, user)
  {
    if Resolved(log, id, queue, user) {
      var c, a, f :| UserSeen(id, c, user, a, f) in log && (f && !a ==> user == c);
      assert UserSeen(id, c, user, a, f) in log + [e];
    }
    if Checked(log, id, queue, beatmapset, user) {
      var st :| StatusSeen(id, beatmapset, st) in log && st !in RANKED;
      assert StatusSeen(id, beatmapset, st) in log + [e];
    }
  }

  lemma CarriedGrows(log: seq<Entry>, e: Entry, row: int, queue: int, text: string)
    requires Carried(log, row, queue, text)
    ensures Carried(log + [e], row, queue, text)
  {
    var rules :| Dispatched(row, queue, rules) in log && text == Snapshot(rules) && ValidConfigs(rules);
    assert Dispatched(row, queue, rules) in log + [e];
  }

  lemma MadeGrows(log: seq<Entry>, e: Entry, row: nat, queue: int)
    requires MadeIn(log, row, queue)
    ensures MadeIn(log + [e], row, queue)
  {
    var b, u :| Created(row, queue, b, u) in log;
    assert Created(row, queue, b, u) in log + [e];
  }

  lemma CurrentStays(log: seq<Entry>, e: Entry, rules: RuleTable.Table)
    requires !e.RulesEdited? && Current(log, rules)
    ensures Current(log + [e], rules)
  {
    var n :| 0 <= n < |log| && log[n] == RulesEdited(rules) && NoEditAfter(log, n);
    assert (log + [e])[n] == RulesEdited(rules) && NoEditAfter(log + [e], n);
  }

  lemma CurrentNow(log: seq<Entry>, rules: RuleTable.Table)
    ensures Current(log + [RulesEdited(rules)], rules)
  {
    var after := log + [RulesEdited(rules)];
    assert after[|log|] == RulesEdited(rules) && NoEditAfter(after, |log|);
  }

  lemma StateGrows(k: Config, s: State, e: Entry)
    requires Invariant(k, s) && JustifiedEntry(k, s.log, e) && !e.RulesEdited?
    ensures Invariant(k, Logged(s, e))
  {
    BackingGrows(k, s, e);
    CurrentStays(s.log, e, s.rules);
  }

  lemma BackingGrows(k: Config, s: State, e: Entry)
    requires Backed(k, s) && JustifiedEntry(k, s.log, e)
    ensures Backed(k, Logged(s, e))
  {
    var log := s.log + [e];
    forall id | id in s.rows ensures RowOk(log, id, s.rows[id]) {
      VouchedGrows(s.log, e, s.rows[id].queue, s.rows[id].beatmapset, s.rows[id].user);
      MadeGrows(s.log, e, id, s.rows[id].queue);
    }
    forall key | key in s.tasks ensures TaskOk(k, log, key, s.tasks[key]) {
      var h := s.tasks[key];
      if h.user.Some? { VouchedGrows(s.log, e, h.queue.value, h.beatmapset.value, h.user.value); }
      if h.request.Some? { CarriedGrows(s.log, e, h.request.value, h.queue.value, h.snapshot.value); }
    }
    forall id | id in s.posts ensures PostOk(log, id, s.posts[id]) {
      PostGrows(s.log, e, id, s.posts[id]);
    }
    forall id | id in s.workers ensures WorkerOk(log, s.workers[id]) {
      WorkerGrows(s.log, e, s.workers[id]);
    }
    forall id | id in s.validators ensures ValidatorOk(log, s.validators[id]) {
      var v := s.validators[id];
      if v.pc.VRunning? { CarriedGrows(s.log, e, v.pc.request, v.pc.queue, v.pc.text); }
    }
    forall i: nat | i < |log| ensures JustifiedAt(k, log, i) {
      if i < |s.log| {
        assert JustifiedAt(k, s.log, i);
        assert log[..i] == s.log[..i];
      } else {
        assert log[..i] == s.log;
      }
    }
  }

  lemma PostGrows(log: seq<Entry>, e: Entry, id: int, p: Post)
    requires PostOk(log, id, p)
    ensures PostOk(log + [e], id, p)
  {
    match p.pc
    case UserResolved(user) => ClearedGrows(log, e, id, p.queue, p.beatmapset, user);
    case RowAbsent(user) => ClearedGrows(log, e, id, p.queue, p.beatmapset, user);
    case StatusChecked(user) => ClearedGrows(log, e, id, p.queue, p.beatmapset, user);
    case Eligible(user) => ClearedGrows(log, e, id, p.queue, p.beatmapset, user);
    case TaskExists(user) => ClearedGrows(log, e, id, p.queue, p.beatmapset, user);
    case TaskFailed(user) => ClearedGrows(log, e, id, p.queue, p.beatmapset, user);
    case TaskClear(user) => ClearedGrows(log, e, id, p.queue, p.beatmapset, user);
    case Reserved(user) => ClearedGrows(log, e, id, p.queue, p.beatmapset, user);
    case Stored(user) => ClearedGrows(log, e, id, p.queue, p.beatmapset, user);
    case _ =>
  }

  lemma WorkerGrows(log: seq<Entry>, e: Entry, w: Worker)
    requires WorkerOk(log, w)
    ensures WorkerOk(log + [e], w)
  {
    match w.pc
    case Archiving(body) => VouchedGrows(log, e, body.queue, body.beatmapset, body.user);
    case LookingUp(body) => VouchedGrows(log, e, body.queue, body.beatmapset, body.user);
    case Inserting(body) => VouchedGrows(log, e, body.queue, body.beatmapset, body.user);
    case Snapshotting(body, row) => MadeGrows(log, e, row, body.queue);
    case StoringTask(body, row, text) => CarriedGrows(log, e, row, body.queue, text);
    case _ =>
  }

  // ---------------------------------------------------------------- every step keeps the invariant

  lemma PutPost(k: Config, s: State, id: int, p: Post)
    requires Invariant(k, s) && PostOk(s.log, id, p)
    ensures Invariant(k, s.(posts := s.posts[id := p]))
  {
  }

  lemma PutWorker(k: Config, s: State, id: int, w: Worker)
    requires Invariant(k, s) && WorkerOk(s.log, w)
    ensures Invariant(k, s.(workers := s.workers[id := w]))
  {
  }

  lemma PutValidator(k: Config, s: State, id: int, v: Validator)
    requires Invariant(k, s) && ValidatorOk(s.log, v)
    ensures Invariant(k, s.(validators := s.validators[id := v]))
  {
  }

  lemma PutTask(k: Config, s: State, key: int, h: TaskHash)
    requires Invariant(k, s) && TaskOk(k, s.log, key, h)
    ensures Invariant(k, s.(tasks := s.tasks[key := h]))
  {
  }

  /** Marking a task as failed or completed, even one that is gone, forges no record. */
  lemma MarkTask(k: Config, s: State, key: int, completed: bool, failed: bool)
    requires Invariant(k, s)
    ensures Invariant(k, s.(tasks := s.tasks[key := Hash(s, key).(completed := completed)]))
    ensures Invariant(k, s.(tasks := s.tasks[key := Hash(s, key).(failed := failed)]))
  {
    PutTask(k, s, key, Hash(s, key).(completed := completed));
    PutTask(k, s, key, Hash(s, key).(failed := failed));
  }

  lemma DropTask(k: Config, s: State, key: int)
    requires Invariant(k, s)
    ensures Invariant(k, s.(tasks := s.tasks - {key}))
  {
  }

  lemma PostMoves(k: Config, s: State, id: int, p: Post, pc: PostPc)
    requires Invariant(k, s) && PostOk(s.log, id, p.(pc := pc))
    ensures Invariant(k, At(s, id, p, pc))
  {
    PutPost(k, s, id, p.(pc := pc));
  }

  lemma PostLogs(k: Config, s: State, id: int, p: Post, e: Entry, pc: PostPc)
    requires Invariant(k, s) && JustifiedEntry(k, s.log, e) && !e.RulesEdited? && PostOk(s.log + [e], id, p.(pc := pc))
    ensures Invariant(k, At(Logged(s, e), id, p, pc))
  {
    StateGrows(k, s, e);
    PutPost(k, Logged(s, e), id, p.(pc := pc));
  }

  lemma ResolvedNow(log: seq<Entry>, id: int, queue: int, caller: int, user: int, admin: bool, enforced: bool)
    requires Opened(log, id, queue) && (enforced && !admin ==> user == caller)
    ensures Resolved(log + [UserSeen(id, caller, user, admin, enforced)], id, queue, user)
  {
    var e := UserSeen(id, caller, user, admin, enforced);
    assert e in log + [e];
  }

  lemma UserResolvedKeeps(k: Config, s: State, id: int, p: Post, user: int)
    requires Invariant(k, s) && PostOk(s.log, id, p) && p.pc == UserResolved(user)
    ensures Invariant(k, At(Logged(s, NoRowSeen(id, p.queue, p.beatmapset)), id, p, RowAbsent(user)))
  {
    var e := NoRowSeen(id, p.queue, p.beatmapset);
    ClearedGrows(s.log, e, id, p.queue, p.beatmapset, user);
    assert e in s.log + [e];
    PostLogs(k, s, id, p, e, RowAbsent(user));
  }

  lemma RowAbsentKeeps(k: Config, s: State, id: int, p: Post, user: int, status: string)
    requires Invariant(k, s) && PostOk(s.log, id, p) && p.pc == RowAbsent(user) && status !in RANKED
    ensures Invariant(k, At(Logged(s, StatusSeen(id, p.beatmapset, status)), id, p, StatusChecked(user)))
  {
    var e := StatusSeen(id, p.beatmapset, status);
    ClearedGrows(s.log, e, id, p.queue, p.beatmapset, user);
    assert e in s.log + [e];
    assert Absent(s.log + [e], id, p.queue, p.beatmapset, user);
    PostLogs(k, s, id, p, e, StatusChecked(user));
  }

  lemma StatusCheckedKeeps(k: Config, s: State, id: int, p: Post, user: int)
    requires Invariant(k, s) && PostOk(s.log, id, p) && p.pc == StatusChecked(user)
    ensures Invariant(k, At(Logged(s, Phase1Passed(id, p.queue, p.beatmapset, user)), id, p, Eligible(user)))
  {
    var e := Phase1Passed(id, p.queue, p.beatmapset, user);
    ClearedGrows(s.log, e, id, p.queue, p.beatmapset, user);
    assert e in s.log + [e];
    PostLogs(k, s, id, p, e, Eligible(user));
  }

  lemma NoRequestThere(k: Config, s: State, id: int, queue: int, beatmapset: int, user: int)
    requires Apart(k, s.log) && TasksOk(k, s.log, s.tasks) && Cleared(s.log, id, queue, beatmapset, user)
    ensures Hash(s, k.handler(queue, beatmapset)).request.None?
  {
  }

  lemma NoUserThere(k: Config, s: State, row: nat, queue: int, text: string)
    requires Apart(k, s.log) && TasksOk(k, s.log, s.tasks) && Carried(s.log, row, queue, text)
    ensures Hash(s, k.validation(row)).user.None?
  {
  }

  lemma StoreKeeps(k: Config, s: State, id: int, p: Post, user: int)
    requires Apart(k, s.log) && Invariant(k, s) && PostOk(s.log, id, p) && p.pc == Reserved(user)
    ensures var key := k.handler(p.queue, p.beatmapset);
            var h := Hash(s, key).(queue := Some(p.queue), beatmapset := Some(p.beatmapset), user := Some(user),
                                   completed := false, failed := false);
            Invariant(k, At(s.(tasks := s.tasks[key := h]), id, p, Stored(user)))
  {
    var key := k.handler(p.queue, p.beatmapset);
    var h := Hash(s, key).(queue := Some(p.queue), beatmapset := Some(p.beatmapset), user := Some(user),
                           completed := false, failed := false);
    assert Vouched(s.log, p.queue, p.beatmapset, user);
    NoRequestThere(k, s, id, p.queue, p.beatmapset, user);
    PutTask(k, s, key, h);
    PostMoves(k, s.(tasks := s.tasks[key := h]), id, p, Stored(user));
  }

  lemma PostBegins(k: Config, s: State, id: int, p: Post, answer: Answer, status: string)
    requires Invariant(k, s) && PostOk(s.log, id, p) && p.pc.Begin?
    ensures Invariant(k, PostStep(k, s, id, p, answer, status))
  {
    if p.queue !in s.queues || !s.queues[p.queue].isOpen {
      PostMoves(k, s, id, p, Refused);
    } else {
      var e := OpenSeen(id, p.queue);
      assert e in s.log + [e];
      PostLogs(k, s, id, p, e, QueueRead(s.queues[p.queue].enforceUserMatch));
    }
  }

  lemma PostResolves(k: Config, s: State, id: int, p: Post, answer: Answer, status: string)
    requires Invariant(k, s) && PostOk(s.log, id, p) && p.pc.QueueRead?
    ensures Invariant(k, PostStep(k, s, id, p, answer, status))
  {
    if p.caller.None? {
      PostMoves(k, s, id, p, Refused);
    } else {
      var caller, enforced := p.caller.value, p.pc.enforced;
      var admin := caller in s.admins;
      if !admin && enforced && p.submitted.Some? && p.submitted.value != caller {
        PostMoves(k, s, id, p, Refused);
      } else {
        var user := if !admin && enforced then caller else OrCaller(p.submitted, caller);
        ResolvedNow(s.log, id, p.queue, caller, user, admin, enforced);
        PostLogs(k, s, id, p, UserSeen(id, caller, user, admin, enforced), UserResolved(user));
      }
    }
  }

  lemma PostGates(k: Config, s: State, id: int, p: Post, answer: Answer, status: string)
    requires Invariant(k, s) && PostOk(s.log, id, p) && (p.pc.UserResolved? || p.pc.RowAbsent? || p.pc.StatusChecked?)
    ensures Invariant(k, PostStep(k, s, id, p, answer, status))
  {
    match p.pc
    case UserResolved(user) =>
      if PairTaken(s.rows, p.queue, p.beatmapset) { PostMoves(k, s, id, p, Refused); }
      else { UserResolvedKeeps(k, s, id, p, user); }
    case RowAbsent(user) =>
      if answer != Fine || status in RANKED { PostMoves(k, s, id, p, Refused); }
      else { RowAbsentKeeps(k, s, id, p, user, status); }
    case StatusChecked(user) =>
      if answer != Fine { PostMoves(k, s, id, p, Refused); }
      else { StatusCheckedKeeps(k, s, id, p, user); }
  }

  lemma PostInspects(k: Config, s: State, id: int, p: Post, answer: Answer, status: string)
    requires Invariant(k, s) && PostOk(s.log, id, p)
             && (p.pc.Eligible? || p.pc.TaskExists? || p.pc.TaskFailed? || p.pc.TaskClear?)
    ensures Invariant(k, PostStep(k, s, id, p, answer, status))
  {
    match p.pc
    case Eligible(user) =>
      PostMoves(k, s, id, p, if k.handler(p.queue, p.beatmapset) in s.tasks then TaskExists(user) else TaskClear(user));
    case TaskExists(user) =>
      var h := Hash(s, k.handler(p.queue, p.beatmapset));
      PostMoves(k, s, id, p, if HandlerBody(h).Some? && h.failed then TaskFailed(user) else Refused);
    case TaskFailed(user) =>
      DropTask(k, s, k.handler(p.queue, p.beatmapset));
      PostMoves(k, s.(tasks := s.tasks - {k.handler(p.queue, p.beatmapset)}), id, p, TaskClear(user));
    case TaskClear(user) => PostMoves(k, s, id, p, if answer == Fine then Reserved(user) else Refused);
  }

  lemma PostStores(k: Config, s: State, id: int, p: Post, answer: Answer, status: string)
    requires Apart(k, s.log) && Invariant(k, s) && PostOk(s.log, id, p) && (p.pc.Reserved? || p.pc.Stored?)
    ensures Invariant(k, PostStep(k, s, id, p, answer, status))
  {
    if answer != Fine {
      PostMoves(k, s, id, p, RollingBack);
    } else if p.pc.Reserved? {
      StoreKeeps(k, s, id, p, p.pc.user);
    } else {
      PostMoves(k, s.(channel := s.channel + {k.handler(p.queue, p.beatmapset)}), id, p, Queued);
    }
  }

  lemma PostKeeps(k: Config, s: State, id: int, p: Post, answer: Answer, status: string)
    requires Apart(k, s.log) && Invariant(k, s) && PostOk(s.log, id, p)
    ensures Invariant(k, PostStep(k, s, id, p, answer, status))
  {
    match p.pc
    case Begin => PostBegins(k, s, id, p, answer, status);
    case QueueRead(_) => PostResolves(k, s, id, p, answer, status);
    case UserResolved(_) => PostGates(k, s, id, p, answer, status);
    case RowAbsent(_) => PostGates(k, s, id, p, answer, status);
    case StatusChecked(_) => PostGates(k, s, id, p, answer, status);
    case Eligible(_) => PostInspects(k, s, id, p, answer, status);
    case TaskExists(_) => PostInspects(k, s, id, p, answer, status);
    case TaskFailed(_) => PostInspects(k, s, id, p, answer, status);
    case TaskClear(_) => PostInspects(k, s, id, p, answer, status);
    case Reserved(_) => PostStores(k, s, id, p, answer, status);
    case Stored(_) => PostStores(k, s, id, p, answer, status);
    case RollingBack => PostMoves(k, s, id, p, Refused);
    case _ =>
  }

  lemma WorkerMoves(k: Config, s: State, id: int, w: Worker, pc: WorkerPc)
    requires Invariant(k, s) && WorkerOk(s.log, w.(pc := pc))
    ensures Invariant(k, WorkerAt(s, id, w, pc))
  {
    PutWorker(k, s, id, w.(pc := pc));
  }

  lemma ReadKeeps(k: Config, s: State, id: int, w: Worker)
    requires Invariant(k, s) && HandlerBody(Hash(s, w.key)).Some?
    ensures Invariant(k, WorkerAt(s, id, w, Archiving(HandlerBody(Hash(s, w.key)).value)))
  {
    assert TaskOk(k, s.log, w.key, s.tasks[w.key]);
    WorkerMoves(k, s, id, w, Archiving(HandlerBody(Hash(s, w.key)).value));
  }

  lemma InsertKeeps(k: Config, s: State, id: int, w: Worker, body: Body)
    requires Invariant(k, s) && BodyOk(s.log, body) && !PairTaken(s.rows, body.queue, body.beatmapset)
    ensures var row := Row(body.queue, body.beatmapset, body.user, false);
            var s' := s.(rows := s.rows[s.nextRow := row], nextRow := s.nextRow + 1);
            Invariant(k, WorkerAt(Logged(s', Created(s.nextRow, body.queue, body.beatmapset, body.user)), id, w,
                                  Snapshotting(body, s.nextRow)))
  {
    var e := Created(s.nextRow, body.queue, body.beatmapset, body.user);
    var u := Logged(s, e);
    StateGrows(k, s, e);
    assert e in u.log;
    VouchedGrows(s.log, e, body.queue, body.beatmapset, body.user);
    RowAdded(u.log, s.rows, s.nextRow, body);
    var rows := s.rows[s.nextRow := Row(body.queue, body.beatmapset, body.user, false)];
    WorkerMoves(k, u.(rows := rows, nextRow := s.nextRow + 1), id, w, Snapshotting(body, s.nextRow));
  }

  lemma RowAdded(log: seq<Entry>, rows: map<nat, Row>, nextRow: nat, body: Body)
    requires RowsOk(log, rows, nextRow) && BodyOk(log, body) && !PairTaken(rows, body.queue, body.beatmapset)
    requires MadeIn(log, nextRow, body.queue)
    ensures RowsOk(log, rows[nextRow := Row(body.queue, body.beatmapset, body.user, false)], nextRow + 1)
  {
  }

  lemma SnapshotKeeps(k: Config, s: State, id: int, w: Worker, body: Body, row: nat)
    requires Invariant(k, s) && MadeIn(s.log, row, body.queue)
    ensures var rules := ActiveRules(s.rules.rules, body.queue);
            Invariant(k, WorkerAt(Logged(s, Dispatched(row, body.queue, rules)), id, w,
                                  StoringTask(body, row, Snapshot(rules))))
  {
    var rules := ActiveRules(s.rules.rules, body.queue);
    var e := Dispatched(row, body.queue, rules);
    StateGrows(k, s, e);
    CarriedNow(s.log, row, body.queue, rules);
    WorkerMoves(k, Logged(s, e), id, w, StoringTask(body, row, Snapshot(rules)));
  }

  lemma CarriedNow(log: seq<Entry>, row: nat, queue: int, rules: seq<RuleTable.Rule>)
    requires ValidConfigs(rules)
    ensures Carried(log + [Dispatched(row, queue, rules)], row, queue, Snapshot(rules))
  {
    assert Dispatched(row, queue, rules) in log + [Dispatched(row, queue, rules)];
  }

  lemma DispatchKeeps(k: Config, s: State, id: int, w: Worker, body: Body, row: nat, text: string)
    requires Apart(k, s.log) && Invariant(k, s) && Carried(s.log, row, body.queue, text)
    ensures var key := k.validation(row);
            var h := Hash(s, key).(queue := Some(body.queue), beatmapset := Some(body.beatmapset), request := Some(row),
                                   snapshot := Some(text), completed := false, failed := false);
            Invariant(k, WorkerAt(s.(tasks := s.tasks[key := h]), id, w, Publishing(body, row)))
  {
    var key := k.validation(row);
    var h := Hash(s, key).(queue := Some(body.queue), beatmapset := Some(body.beatmapset), request := Some(row),
                           snapshot := Some(text), completed := false, failed := false);
    NoUserThere(k, s, row, body.queue, text);
    PutTask(k, s, key, h);
    WorkerMoves(k, s.(tasks := s.tasks[key := h]), id, w, Publishing(body, row));
  }

  lemma FailKeeps(k: Config, s: State, id: int, w: Worker, retryable: bool)
    requires Invariant(k, s)
    ensures Invariant(k, WorkerFail(s, id, w, retryable))
  {
    MarkTask(k, s, w.key, true, true);
    PutWorker(k, s.(tasks := s.tasks[w.key := Hash(s, w.key).(failed := true)]), id, AfterFailure(w, retryable));
  }

  lemma WorkerFinds(k: Config, s: State, id: int, w: Worker, answer: Answer)
    requires Invariant(k, s) && WorkerOk(s.log, w) && answer == Fine
             && (w.pc.Reading? || w.pc.Archiving? || w.pc.LookingUp?)
    ensures Invariant(k, WorkerStep(k, s, id, w, answer))
  {
    match w.pc
    case Reading =>
      if HandlerBody(Hash(s, w.key)).Some? {
        ReadKeeps(k, s, id, w);
      } else {
        WorkerMoves(k, s, id, w, Failing(false));
      }
    case Archiving(body) => WorkerMoves(k, s, id, w, LookingUp(body));
    case LookingUp(body) =>
      if PairTaken(s.rows, body.queue, body.beatmapset) {
        WorkerMoves(k, s, id, w, Snapshotting(body, RowOf(s.rows, body.queue, body.beatmapset)));
      } else {
        WorkerMoves(k, s, id, w, Inserting(body));
      }
  }

  lemma WorkerDispatches(k: Config, s: State, id: int, w: Worker, answer: Answer)
    requires Apart(k, s.log) && Invariant(k, s) && WorkerOk(s.log, w) && answer == Fine
             && (w.pc.Inserting? || w.pc.Snapshotting? || w.pc.StoringTask? || w.pc.Publishing?)
    ensures Invariant(k, WorkerStep(k, s, id, w, answer))
  {
    match w.pc
    case Inserting(body) =>
      if PairTaken(s.rows, body.queue, body.beatmapset) { WorkerMoves(k, s, id, w, FailedAt(answer)); }
      else { InsertKeeps(k, s, id, w, body); }
    case Snapshotting(body, row) => SnapshotKeeps(k, s, id, w, body, row);
    case StoringTask(body, row, text) => DispatchKeeps(k, s, id, w, body, row, text);
    case Publishing(body, row) =>
      WorkerMoves(k, s.(validations := s.validations + {k.validation(row)}), id, w, Completing);
  }

  lemma WorkerKeeps(k: Config, s: State, id: int, w: Worker, answer: Answer)
    requires Apart(k, s.log) && Invariant(k, s) && WorkerOk(s.log, w)
    ensures Invariant(k, WorkerStep(k, s, id, w, answer))
  {
    if w.pc.Failing? {
      FailKeeps(k, s, id, w, w.pc.retryable);
    } else if w.pc.Finished? {
    } else if answer != Fine {
      WorkerMoves(k, s, id, w, FailedAt(answer));
    } else if w.pc.Completing? {
      MarkTask(k, s, w.key, true, true);
      WorkerMoves(k, s.(tasks := s.tasks[w.key := Hash(s, w.key).(completed := true)]), id, w, Finished);
    } else if w.pc.Reading? || w.pc.Archiving? || w.pc.LookingUp? {
      WorkerFinds(k, s, id, w, answer);
    } else {
      WorkerDispatches(k, s, id, w, answer);
    }
  }

  lemma ValidatorMoves(k: Config, s: State, id: int, v: Validator, pc: ValidatorPc)
    requires Invariant(k, s) && ValidatorOk(s.log, v.(pc := pc))
    ensures Invariant(k, ValidatorAt(s, id, v, pc))
  {
    PutValidator(k, s, id, v.(pc := pc));
  }

  /** A validation that runs applies the dispatched rules, whatever the table holds by then. */
  lemma ValidateKeeps(k: Config, s: State, id: int, v: Validator, request: int, queue: int, text: string,
                      rejects: bool, pc: ValidatorPc)
    requires Invariant(k, s) && Carried(s.log, request, queue, text) && !pc.VRunning?
    ensures var e := Validated(request, Phase2Rules(text, s.rules, queue, k.tier), rejects);
            Invariant(k, ValidatorAt(Logged(s, e), id, v, pc))
  {
    var rules :| Dispatched(request, queue, rules) in s.log && text == Snapshot(rules) && ValidConfigs(rules);
    SnapshotRoundTrip(rules);
    var e := Validated(request, Phase2Rules(text, s.rules, queue, k.tier), rejects);
    StateGrows(k, s, e);
    ValidatorMoves(k, Logged(s, e), id, v, pc);
  }

  lemma RowMarked(log: seq<Entry>, rows: map<nat, Row>, nextRow: nat, id: nat, rejected: bool)
    requires RowsOk(log, rows, nextRow) && id in rows
    ensures RowsOk(log, rows[id := rows[id].(rejected := rejected)], nextRow)
  {
    assert RowOk(log, id, rows[id]);
  }

  /** A change of a row's status, logged, keeps the invariant. */
  lemma MarkKeeps(k: Config, s: State, row: nat, rejected: bool, e: Entry)
    requires Invariant(k, s) && row in s.rows && (e.Rejected? || e.Patched?)
    ensures Invariant(k, Logged(Marked(s, row, rejected), e))
  {
    RowMarked(s.log, s.rows, s.nextRow, row, rejected);
    StateGrows(k, Marked(s, row, rejected), e);
  }

  lemma ReadTaskKeeps(k: Config, s: State, id: int, v: Validator)
    requires Invariant(k, s) && Hash(s, v.key).request.Some? && Hash(s, v.key).queue.Some?
    ensures var h := Hash(s, v.key);
            Invariant(k, ValidatorAt(s, id, v, VRunning(h.request.value, h.queue.value, h.snapshot.GetOr(""))))
  {
    var h := Hash(s, v.key);
    assert TaskOk(k, s.log, v.key, s.tasks[v.key]);
    ValidatorMoves(k, s, id, v, VRunning(h.request.value, h.queue.value, h.snapshot.GetOr("")));
  }

  lemma ValidatorRuns(k: Config, s: State, id: int, v: Validator, rejects: bool)
    requires Invariant(k, s) && ValidatorOk(s.log, v) && v.pc.VRunning?
    ensures Invariant(k, ValidatorStep(k, s, id, v, Fine, rejects))
  {
    var request, queue, text := v.pc.request, v.pc.queue, v.pc.text;
    if request !in s.rows {
      ValidatorMoves(k, s, id, v, VCompleting);
    } else {
      var applied := Phase2Rules(text, s.rules, queue, k.tier);
      ValidateKeeps(k, s, id, v, request, queue, text, rejects,
                    if applied.None? then VFailing(false)
                    else if rejects && applied.value != [] then VRejecting(request) else VCompleting);
    }
  }

  lemma ValidatorKeeps(k: Config, s: State, id: int, v: Validator, answer: Answer, rejects: bool)
    requires Invariant(k, s) && ValidatorOk(s.log, v)
    ensures Invariant(k, ValidatorStep(k, s, id, v, answer, rejects))
  {
    if v.pc.VFailing? {
      ValidatorRetries(k, s, id, v, v.pc.retryable);
    } else if v.pc.VFinished? {
    } else if answer != Fine {
      ValidatorErrs(k, s, id, v, answer, rejects);
    } else if v.pc.VReading? {
      ValidatorReads(k, s, id, v, rejects);
    } else if v.pc.VRunning? {
      ValidatorRuns(k, s, id, v, rejects);
    } else if v.pc.VRejecting? {
      ValidatorRejects(k, s, id, v, v.pc.request, rejects);
    } else {
      ValidatorCompletes(k, s, id, v, rejects);
    }
  }

  lemma ValidatorRetries(k: Config, s: State, id: int, v: Validator, retryable: bool)
    requires Invariant(k, s)
    ensures Invariant(k, ValidatorFail(s, id, v, retryable))
  {
    MarkTask(k, s, v.key, true, true);
    PutValidator(k, s.(tasks := s.tasks[v.key := Hash(s, v.key).(failed := true)]), id, AfterVFailure(v, retryable));
  }

  lemma ValidatorErrs(k: Config, s: State, id: int, v: Validator, answer: Answer, rejects: bool)
    requires Invariant(k, s) && answer != Fine && !v.pc.VFailing? && !v.pc.VFinished?
    ensures Invariant(k, ValidatorStep(k, s, id, v, answer, rejects))
  {
    ValidatorMoves(k, s, id, v, VFailedAt(answer));
  }

  lemma ValidatorReads(k: Config, s: State, id: int, v: Validator, rejects: bool)
    requires Invariant(k, s) && v.pc.VReading?
    ensures Invariant(k, ValidatorStep(k, s, id, v, Fine, rejects))
  {
    var h := Hash(s, v.key);
    if h.request.None? || h.queue.None? || h.beatmapset.None? {
      ValidatorMoves(k, s, id, v, VFailing(false));
    } else {
      ReadTaskKeeps(k, s, id, v);
    }
  }

  lemma ValidatorCompletes(k: Config, s: State, id: int, v: Validator, rejects: bool)
    requires Invariant(k, s) && v.pc.VCompleting?
    ensures Invariant(k, ValidatorStep(k, s, id, v, Fine, rejects))
  {
    MarkTask(k, s, v.key, true, true);
    ValidatorMoves(k, s.(tasks := s.tasks[v.key := Hash(s, v.key).(completed := true)]), id, v, VFinished);
  }

  lemma {:induction false} RejectKeeps(k: Config, s: State, id: int, v: Validator, request: nat)
    requires Invariant(k, s) && request in s.rows
    ensures Invariant(k, ValidatorAt(Logged(Marked(s, request, true), Rejected(request)), id, v, VCompleting))
  {
    MarkKeeps(k, s, request, true, Rejected(request));
    ValidatorMoves(k, Logged(Marked(s, request, true), Rejected(request)), id, v, VCompleting);
  }

  lemma {:induction false} ValidatorRejects(k: Config, s: State, id: int, v: Validator, request: int, rejects: bool)
    requires Invariant(k, s) && v.pc == VRejecting(request)
    ensures Invariant(k, ValidatorStep(k, s, id, v, Fine, rejects))
  {
    if request in s.rows {
      RejectKeeps(k, s, id, v, request);
    } else {
      ValidatorMoves(k, s, id, v, VFailedAt(Fine));
    }
  }

  lemma PutDeleter(k: Config, s: State, id: int, d: Deleter)
    requires Invariant(k, s)
    ensures Invariant(k, s.(deleters := s.deleters[id := d]))
  {
  }

  lemma DeleteDropsTask(k: Config, s: State, id: int, d: Deleter, key: int)
    requires Invariant(k, s)
    ensures Invariant(k, s.(tasks := s.tasks - {key}, deleters := s.deleters[id := d]))
  {
    DropTask(k, s, key);
    PutDeleter(k, s.(tasks := s.tasks - {key}), id, d);
  }

  lemma DeleteDropsRow(k: Config, s: State, id: int, d: Deleter)
    requires Invariant(k, s)
    ensures Invariant(k, s.(rows := s.rows - {d.request}, deleters := s.deleters[id := d]))
  {
    DropRow(s, d.request);
  }

  lemma DeleteKeeps(k: Config, s: State, id: int, d: Deleter)
    requires Invariant(k, s)
    ensures Invariant(k, DeleteStep(k, s, id, d))
  {
    match d.pc
    case DReading =>
      PutDeleter(k, s, id, d.(pc := if d.request in s.rows then DHandler(s.rows[d.request]) else DFinished));
    case DHandler(row) => DeleteDropsTask(k, s, id, d.(pc := DValidation), k.handler(row.queue, row.beatmapset));
    case DValidation => DeleteDropsTask(k, s, id, d.(pc := DRow), k.apiValidation(d.request));
    case DRow => DeleteDropsRow(k, s, id, d.(pc := DFinished));
    case DFinished =>
  }

  lemma DropRow(s: State, id: int)
    requires RowsOk(s.log, s.rows, s.nextRow)
    ensures RowsOk(s.log, s.rows - {id}, s.nextRow)
  {
  }

  lemma CleanupKeeps(k: Config, s: State, id: int, c: Cleaner)
    requires Invariant(k, s)
    ensures Invariant(k, CleanupStep(s, id, c))
  {
    if c.stale.Some? { DropTask(k, s, c.stale.value); }
  }

  lemma StartKeeps(k: Config, s: State, e: Event)
    requires Invariant(k, s) && (e.StartPost? || e.StartWorker? || e.StartValidator?)
    ensures Invariant(k, Surroundings(s, e))
  {
    match e
    case StartPost(id, caller, submitted, queue, beatmapset) =>
      if id !in s.posts { PutPost(k, s, id, Post(caller, submitted, queue, beatmapset, Begin)); }
    case StartWorker(id, key) =>
      if id !in s.workers && key in s.channel {
        PutWorker(k, s, id, Worker(key, 1, Reading));
      }
    case StartValidator(id, key) =>
      if id !in s.validators && key in s.validations {
        PutValidator(k, s, id, Validator(key, 1, VReading));
      }
  }

  lemma EditKeeps(k: Config, s: State, rules: RuleTable.Table)
    requires Invariant(k, s) && ValidConfigs(rules.rules)
    ensures Invariant(k, Logged(s.(rules := rules), RulesEdited(rules)))
  {
    BackingGrows(k, s.(rules := rules), RulesEdited(rules));
    CurrentNow(s.log, rules);
  }

  lemma SurroundingsKeep(k: Config, s: State, e: Event)
    requires Invariant(k, s)
    ensures Invariant(k, Surroundings(s, e))
  {
    match e
    case StartPost(_, _, _, _, _) => StartKeeps(k, s, e);
    case StartWorker(_, _) => StartKeeps(k, s, e);
    case StartValidator(_, _) => StartKeeps(k, s, e);
    case StartDelete(_, _) =>
    case StartCleanup(_, _) =>
    case SetQueue(_, _) =>
    case SetAdmins(_) =>
    case EditRules(rules) => if ValidConfigs(rules.rules) { EditKeeps(k, s, rules); }
    case PatchRow(row, rejected) => if row in s.rows { MarkKeeps(k, s, row, rejected, Patched(row, rejected)); }
    case _ =>
  }

  lemma PostEventKeeps(k: Config, s: State, e: Event)
    requires Apart(k, s.log) && Invariant(k, s) && e.StepPost?
    ensures Invariant(k, Step(k, s, e))
  {
    if e.id in s.posts { PostKeeps(k, s, e.id, s.posts[e.id], e.answer, e.status); }
  }

  lemma WorkerEventKeeps(k: Config, s: State, e: Event)
    requires Apart(k, s.log) && Invariant(k, s) && e.StepWorker?
    ensures Invariant(k, Step(k, s, e))
  {
    if e.id in s.workers { WorkerKeeps(k, s, e.id, s.workers[e.id], e.answer); }
  }

  lemma ValidatorEventKeeps(k: Config, s: State, e: Event)
    requires Invariant(k, s) && e.StepValidator?
    ensures Invariant(k, Step(k, s, e))
  {
    if e.id in s.validators { ValidatorKeeps(k, s, e.id, s.validators[e.id], e.answer, e.rejects); }
  }

  lemma RemovalEventKeeps(k: Config, s: State, e: Event)
    requires Invariant(k, s) && (e.StepDelete? || e.StepCleanup?)
    ensures Invariant(k, Step(k, s, e))
  {
    match e
    case StepDelete(id) => if id in s.deleters { DeleteKeeps(k, s, id, s.deleters[id]); }
    case StepCleanup(id) => if id in s.cleaners { CleanupKeeps(k, s, id, s.cleaners[id]); }
  }

  lemma StepKeeps(k: Config, s: State, e: Event)
    requires Apart(k, s.log) && Invariant(k, s)
    ensures Invariant(k, Step(k, s, e))
  {
    match e
    case StepPost(_, _, _) => PostEventKeeps(k, s, e);
    case StepWorker(_, _) => WorkerEventKeeps(k, s, e);
    case StepValidator(_, _, _) => ValidatorEventKeeps(k, s, e);
    case StepDelete(_) => RemovalEventKeeps(k, s, e);
    case StepCleanup(_) => RemovalEventKeeps(k, s, e);
    case _ => SurroundingsKeep(k, s, e);
  }
}
