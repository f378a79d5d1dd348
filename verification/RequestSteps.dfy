/** What one step of the request protocol may change and log, said of the state it was taken in
    (api/v1/requests/__init__.py:91-274, app/daemon/services/queue_request_handler.py:42-133,
    app/daemon/services/rule_validation.py:62-172). */
module RequestSteps {
  import opened Options
  import RuleTable
  import opened RuleSnapshot
  import opened RequestProtocol

  // ---------------------------------------------------------------- the rows

  /** A validator writes its rejection, or a manager sets the status. */
  predicate Marks(s: State, e: Event, row: int, rejected: bool) {
    || (rejected && e.StepValidator? && e.answer == Fine && e.id in s.validators
        && s.validators[e.id].pc == VRejecting(row))
    || (row >= 0 && e == PatchRow(row, rejected))
  }

  /** A worker inserts the row of its task. */
  predicate Inserts(s: State, e: Event, body: Body) {
    && e.StepWorker? && e.answer == Fine && e.id in s.workers && s.workers[e.id].pc == Inserting(body)
    && forall r <- s.rows :: s.rows[r].queue != body.queue || s.rows[r].beatmapset != body.beatmapset
  }

  /** A DELETE handler removes its row. */
  predicate Removes(s: State, e: Event, row: int) {
    e.StepDelete? && e.id in s.deleters && s.deleters[e.id] == Deleter(row, DRow)
  }

  /** The rows that were there before: one leaves exactly when a DELETE removes it, and of those that
      stay only the status changes, and only when it is written. */
  ghost predicate OldRows(s: State, e: Event, s': State) {
    forall id <- s.rows ::
      && (id in s'.rows <==> !Removes(s, e, id))
      && (id in s'.rows ==>
            && (Marks(s, e, id, true) ==> s'.rows[id] == s.rows[id].(rejected := true))
            && (Marks(s, e, id, false) ==> s'.rows[id] == s.rows[id].(rejected := false))
            && (!Marks(s, e, id, true) && !Marks(s, e, id, false) ==> s'.rows[id] == s.rows[id]))
  }

  /** The rows that were not: one appears exactly when a worker inserts it, and is not rejected. */
  ghost predicate NewRows(s: State, e: Event, s': State) {
    && (forall id <- s'.rows :: id !in s.rows ==> id == s.nextRow && exists body :: Inserts(s, e, body))
    && (forall body :: Inserts(s, e, body) ==>
          && s.nextRow in s'.rows && s'.nextRow == s.nextRow + 1
          && s'.rows[s.nextRow] == Row(body.queue, body.beatmapset, body.user, false))
    && ((forall body :: !Inserts(s, e, body)) ==> s'.nextRow == s.nextRow)
  }

  /** Row ids are handed out once. */
  predicate Fresh(s: State) { forall id <- s.rows :: id < s.nextRow }

  // ---------------------------------------------------------------- the log

  /** What the entry says was so when the step was taken. */
  ghost predicate Truthful(k: Config, s: State, e: Event, x: Entry, s': State) {
    match x
    case RulesEdited(rules) => e == EditRules(rules)
    case OpenSeen(id, _) => OfPost(s, e, id) && PostSaw(s, id, s.posts[id], e.answer, e.status, x, s')
    case UserSeen(id, _, _, _, _) => OfPost(s, e, id) && PostSaw(s, id, s.posts[id], e.answer, e.status, x, s')
    case NoRowSeen(id, _, _) => OfPost(s, e, id) && PostSaw(s, id, s.posts[id], e.answer, e.status, x, s')
    case StatusSeen(id, _, _) => OfPost(s, e, id) && PostSaw(s, id, s.posts[id], e.answer, e.status, x, s')
    case Phase1Passed(id, _, _, _) => OfPost(s, e, id) && PostSaw(s, id, s.posts[id], e.answer, e.status, x, s')
    case Created(row, queue, beatmapset, user) => row == s.nextRow && Inserts(s, e, Body(queue, beatmapset, user))
    case Dispatched(row, queue, active) =>
      && e.StepWorker? && e.id in s.workers && WorkerTook(s, s.workers[e.id], e.answer, row, queue, active)
    case Validated(row, applied, rejects) =>
      && e.StepValidator? && e.answer == Fine && rejects == e.rejects && e.id in s.validators
      && ValidatorRan(k, s, s.validators[e.id], row, applied)
    case Rejected(row) => row in s.rows && !e.PatchRow? && Marks(s, e, row, true)
    case Patched(row, rejected) => row in s.rows && e == PatchRow(row, rejected)
  }

  predicate OfPost(s: State, e: Event, id: int) { e.StepPost? && e.id == id && id in s.posts }

  /** What a POST handler saw: an open queue, a user it may submit for, no row for the pair, a status
      that is none of the four, and a phase 1 that ended well. */
  predicate PostSaw(s: State, id: int, p: Post, answer: Answer, status: string, x: Entry, s': State) {
    match x
    case OpenSeen(_, queue) =>
      && queue == p.queue && queue in s.queues && s.queues[queue].isOpen
      && id in s'.posts && s'.posts[id].pc == QueueRead(s.queues[queue].enforceUserMatch)
    case UserSeen(_, caller, user, admin, enforced) =>
      && p.caller == Some(caller) && p.pc == QueueRead(enforced) && (admin <==> caller in s.admins)
      && (enforced && !admin ==> user == caller && p.submitted in {None, Some(caller)})
      && (!enforced || admin ==> if p.submitted in {None, Some(0)} then user == caller else p.submitted == Some(user))
    case NoRowSeen(_, queue, beatmapset) =>
      && queue == p.queue && beatmapset == p.beatmapset
      && forall r <- s.rows :: s.rows[r].queue != queue || s.rows[r].beatmapset != beatmapset
    case StatusSeen(_, beatmapset, seen) =>
      && beatmapset == p.beatmapset && answer == Fine && seen == status
      && status != "ranked" && status != "approved" && status != "qualified" && status != "loved"
    case Phase1Passed(_, queue, beatmapset, user) =>
      queue == p.queue && beatmapset == p.beatmapset && p.pc == StatusChecked(user) && answer == Fine
    case _ => false
  }

  /** The worker took the queue's active rules, no others, as the table had them. */
  predicate WorkerTook(s: State, w: Worker, answer: Answer, row: nat, queue: int, active: seq<RuleTable.Rule>) {
    && w.pc.Snapshotting? && w.pc.row == row && w.pc.body.queue == queue && answer == Fine
    && (forall r <- active :: r in s.rules.rules && r.queue == queue && r.isActive)
    && (forall r <- s.rules.rules :: r.queue == queue && r.isActive ==> r in active)
  }

  /** The row was there, and the rules are those of the snapshot that the validator carries. */
  predicate ValidatorRan(k: Config, s: State, v: Validator, row: nat, applied: Option<seq<RuleView>>) {
    && row in s.rows && v.pc.VRunning? && v.pc.request == row
    && applied == Phase2Rules(v.pc.text, s.rules, v.pc.queue, k.tier)
  }

  ghost predicate LogFollows(k: Config, s: State, e: Event, s': State) {
    s'.log == s.log || exists x :: s'.log == s.log + [x] && Truthful(k, s, e, x, s')
  }

  /** A status that is written is logged. */
  ghost predicate MarksLogged(s: State, e: Event, s': State) {
    forall row <- s.rows, rejected :: Marks(s, e, row, rejected) ==>
      s'.log == s.log + [if e.PatchRow? then Patched(row, rejected) else Rejected(row)]
  }

  /** No validator has come to reject a row. */
  predicate NoneRejects(s: State, s': State) {
    forall id <- s'.validators :: s'.validators[id].pc.VRejecting? ==>
      id in s.validators && s'.validators[id] == s.validators[id]
  }

  /** A validator comes to reject a row only by running some tier-3 rule on it, with a verdict against it. */
  ghost predicate RejectsByVerdict(s: State, s': State) {
    forall id <- s'.validators :: s'.validators[id].pc.VRejecting? ==>
      || (id in s.validators && s'.validators[id] == s.validators[id])
      || RanAgainst(s, s'.validators[id].pc.request, s')
  }

  ghost predicate RanAgainst(s: State, row: int, s': State) {
    row >= 0 && exists rules :: rules != [] && s'.log == s.log + [Validated(row, Some(rules), true)]
  }

  ghost predicate Follows(k: Config, s: State, e: Event, s': State) {
    OldRows(s, e, s') && NewRows(s, e, s') && Fresh(s') && LogFollows(k, s, e, s')
    && MarksLogged(s, e, s') && RejectsByVerdict(s, s')
  }

  // ---------------------------------------------------------------- one actor at a time

  /** The rows stay, and what a POST handler logs is what it saw. */
  ghost predicate PostQuiet(s: State, id: int, p: Post, answer: Answer, status: string, s': State) {
    && s'.rows == s.rows && s'.nextRow == s.nextRow && NoneRejects(s, s')
    && (s'.log == s.log || exists x :: PostNotes(s, id, p, answer, status, x, s'))
  }

  ghost predicate PostNotes(s: State, id: int, p: Post, answer: Answer, status: string, x: Entry, s': State) {
    s'.log == s.log + [x] && PostEntry(x, id) && PostSaw(s, id, p, answer, status, x, s')
  }

  predicate PostEntry(x: Entry, id: int) {
    (x.OpenSeen? || x.UserSeen? || x.NoRowSeen? || x.StatusSeen? || x.Phase1Passed?) && x.post == id
  }

  lemma PostMoves(s: State, id: int, p: Post, answer: Answer, status: string, tasks: map<int, TaskHash>,
                  channel: set<int>, pc: PostPc)
    ensures PostQuiet(s, id, p, answer, status, At(s.(tasks := tasks, channel := channel), id, p, pc))
  {
  }

  lemma PostLogs(s: State, id: int, p: Post, answer: Answer, status: string, x: Entry, pc: PostPc)
    requires PostEntry(x, id) && PostSaw(s, id, p, answer, status, x, At(Logged(s, x), id, p, pc))
    ensures PostQuiet(s, id, p, answer, status, At(Logged(s, x), id, p, pc))
  {
    assert PostNotes(s, id, p, answer, status, x, At(Logged(s, x), id, p, pc));
  }

  lemma {:induction false} PostBegins(k: Config, s: State, id: int, p: Post, answer: Answer, status: string)
    requires p.pc.Begin? || p.pc.QueueRead?
    ensures PostQuiet(s, id, p, answer, status, PostStep(k, s, id, p, answer, status))
  {
    PostMoves(s, id, p, answer, status, s.tasks, s.channel, Refused);
    if p.pc.Begin? {
      if p.queue in s.queues && s.queues[p.queue].isOpen {
        PostLogs(s, id, p, answer, status, OpenSeen(id, p.queue), QueueRead(s.queues[p.queue].enforceUserMatch));
      }
    } else if p.caller.Some? {
      UserIsSeen(k, s, id, p, answer, status, p.caller.value, p.pc.enforced);
    }
  }

  lemma {:induction false} UserIsSeen(k: Config, s: State, id: int, p: Post, answer: Answer, status: string,
                                      caller: int,
                                      enforced: bool)
    requires p.pc == QueueRead(enforced) && p.caller == Some(caller)
    ensures PostQuiet(s, id, p, answer, status, PostStep(k, s, id, p, answer, status))
  {
    var admin := caller in s.admins;
    if !admin && enforced && p.submitted.Some? && p.submitted.value != caller {
      PostMoves(s, id, p, answer, status, s.tasks, s.channel, Refused);
    } else {
      var user := if !admin && enforced then caller else OrCaller(p.submitted, caller);
      PostLogs(s, id, p, answer, status, UserSeen(id, caller, user, admin, enforced), UserResolved(user));
    }
  }

  lemma {:induction false} PostChecks(k: Config, s: State, id: int, p: Post, answer: Answer, status: string)
    requires p.pc.UserResolved? || p.pc.RowAbsent? || p.pc.StatusChecked?
    ensures PostQuiet(s, id, p, answer, status, PostStep(k, s, id, p, answer, status))
  {
    PostMoves(s, id, p, answer, status, s.tasks, s.channel, Refused);
    match p.pc
    case UserResolved(user) =>
      if !PairTaken(s.rows, p.queue, p.beatmapset) {
        PostLogs(s, id, p, answer, status, NoRowSeen(id, p.queue, p.beatmapset), RowAbsent(user));
      }
    case RowAbsent(user) =>
      if answer == Fine && status !in RANKED {
        PostLogs(s, id, p, answer, status, StatusSeen(id, p.beatmapset, status), StatusChecked(user));
      }
    case StatusChecked(user) =>
      if answer == Fine {
        PostLogs(s, id, p, answer, status, Phase1Passed(id, p.queue, p.beatmapset, user), Eligible(user));
      }
  }

  lemma {:induction false} PostInspects(k: Config, s: State, id: int, p: Post, answer: Answer, status: string)
    requires p.pc.Eligible? || p.pc.TaskExists? || p.pc.TaskFailed? || p.pc.TaskClear?
    ensures PostQuiet(s, id, p, answer, status, PostStep(k, s, id, p, answer, status))
  {
    var key := k.handler(p.queue, p.beatmapset);
    match p.pc
    case Eligible(user) =>
      PostMoves(s, id, p, answer, status, s.tasks, s.channel, if key in s.tasks then TaskExists(user)
          else TaskClear(user));
    case TaskExists(user) =>
      var again := HandlerBody(Hash(s, key)).Some? && Hash(s, key).failed;
      PostMoves(s, id, p, answer, status, s.tasks, s.channel, if again then TaskFailed(user) else Refused);
    case TaskFailed(user) => PostMoves(s, id, p, answer, status, s.tasks - {key}, s.channel, TaskClear(user));
    case TaskClear(user) =>
      PostMoves(s, id, p, answer, status, s.tasks, s.channel, if answer == Fine then Reserved(user) else Refused);
  }

  lemma {:induction false} PostStores(k: Config, s: State, id: int, p: Post, answer: Answer, status: string)
    requires p.pc.Reserved? || p.pc.Stored? || p.pc.RollingBack? || p.pc.Queued? || p.pc.Refused?
    ensures PostQuiet(s, id, p, answer, status, PostStep(k, s, id, p, answer, status))
  {
    var key := k.handler(p.queue, p.beatmapset);
    match p.pc
    case Reserved(user) =>
      if answer != Fine { PostMoves(s, id, p, answer, status, s.tasks, s.channel, RollingBack); }
      else {
        var h := Hash(s, key).(queue := Some(p.queue), beatmapset := Some(p.beatmapset), user := Some(user),
                               completed := false, failed := false);
        PostMoves(s, id, p, answer, status, s.tasks[key := h], s.channel, Stored(user));
      }
    case Stored(user) =>
      if answer != Fine { PostMoves(s, id, p, answer, status, s.tasks, s.channel, RollingBack); }
      else { PostMoves(s, id, p, answer, status, s.tasks, s.channel + {key}, Queued); }
    case RollingBack => PostMoves(s, id, p, answer, status, s.tasks, s.channel, Refused);
    case _ =>
  }

  /** Neither the rows nor the log change. */
  ghost predicate Silent(s: State, s': State) {
    s'.rows == s.rows && s'.nextRow == s.nextRow && s'.log == s.log && NoneRejects(s, s')
  }

  /** The rows stay, and one entry is logged. */
  ghost predicate Notes(s: State, x: Entry, s': State) {
    s'.rows == s.rows && s'.nextRow == s.nextRow && s'.log == s.log + [x]
  }

  ghost predicate RowsUntouched(s: State, e: Event) {
    && (forall body :: !Inserts(s, e, body))
    && forall row <- s.rows :: !Removes(s, e, row) && !Marks(s, e, row, true) && !Marks(s, e, row, false)
  }

  lemma {:induction false} SilentFollows(k: Config, s: State, e: Event, s': State)
    requires Fresh(s) && Silent(s, s') && RowsUntouched(s, e)
    ensures Follows(k, s, e, s')
  {
  }

  lemma {:induction false} NotesFollows(k: Config, s: State, e: Event, x: Entry, s': State)
    requires Fresh(s) && Notes(s, x, s') && RowsUntouched(s, e) && Truthful(k, s, e, x, s') && RejectsByVerdict(s, s')
    ensures Follows(k, s, e, s')
  {
  }

  lemma WorkerMoves(s: State, id: int, w: Worker, tasks: map<int, TaskHash>, validations: set<int>, pc: WorkerPc)
    ensures Silent(s, WorkerAt(s.(tasks := tasks, validations := validations), id, w, pc))
  {
  }

  lemma {:induction false} WorkerErrs(k: Config, s: State, id: int, w: Worker, answer: Answer)
    requires answer != Fine && !w.pc.Failing? && !w.pc.Finished?
    ensures Silent(s, WorkerStep(k, s, id, w, answer))
  {
    WorkerMoves(s, id, w, s.tasks, s.validations, FailedAt(answer));
  }

  lemma {:induction false} WorkerLooks(k: Config, s: State, id: int, w: Worker)
    requires w.pc.Reading? || w.pc.Archiving? || w.pc.LookingUp?
    ensures Silent(s, WorkerStep(k, s, id, w, Fine))
  {
    match w.pc
    case Reading =>
      var body := HandlerBody(Hash(s, w.key));
      WorkerMoves(s, id, w, s.tasks, s.validations, if body.Some? then Archiving(body.value) else Failing(false));
    case Archiving(body) => WorkerMoves(s, id, w, s.tasks, s.validations, LookingUp(body));
    case LookingUp(body) =>
      if PairTaken(s.rows, body.queue, body.beatmapset) {
        WorkerMoves(s, id, w, s.tasks, s.validations, Snapshotting(body, RowOf(s.rows, body.queue, body.beatmapset)));
      } else {
        WorkerMoves(s, id, w, s.tasks, s.validations, Inserting(body));
      }
  }

  lemma {:induction false} WorkerSends(k: Config, s: State, id: int, w: Worker)
    requires w.pc.StoringTask? || w.pc.Publishing? || w.pc.Completing?
    ensures Silent(s, WorkerStep(k, s, id, w, Fine))
  {
    match w.pc
    case StoringTask(body, row, text) =>
      var key := k.validation(row);
      var h := Hash(s, key).(queue := Some(body.queue), beatmapset := Some(body.beatmapset), request := Some(row),
                             snapshot := Some(text), completed := false, failed := false);
      WorkerMoves(s, id, w, s.tasks[key := h], s.validations, Publishing(body, row));
    case Publishing(body, row) => WorkerMoves(s, id, w, s.tasks, s.validations + {k.validation(row)}, Completing);
    case Completing =>
      WorkerMoves(s, id, w, s.tasks[w.key := Hash(s, w.key).(completed := true)], s.validations, Finished);
  }

  lemma {:induction false} WorkerEnds(k: Config, s: State, id: int, w: Worker, answer: Answer)
    requires w.pc.Failing? || w.pc.Finished?
    ensures Silent(s, WorkerStep(k, s, id, w, answer))
  {
    match w.pc
    case Failing(retryable) => assert WorkerStep(k, s, id, w, answer) == WorkerFail(s, id, w, retryable);
    case Finished =>
  }

  lemma {:induction false} WorkerInserts(k: Config, s: State, e: Event, w: Worker, body: Body)
    requires Fresh(s) && e.StepWorker? && e.id in s.workers && w == s.workers[e.id] && w.pc == Inserting(body)
    ensures Follows(k, s, e, WorkerStep(k, s, e.id, w, e.answer))
  {
    if e.answer != Fine || PairTaken(s.rows, body.queue, body.beatmapset) {
      WorkerMoves(s, e.id, w, s.tasks, s.validations, FailedAt(e.answer));
      SilentFollows(k, s, e, WorkerStep(k, s, e.id, w, e.answer));
    } else {
      InsertIs(k, s, e.id, w, body);
      InsertFollows(k, s, e, body, WorkerStep(k, s, e.id, w, e.answer));
    }
  }

  lemma {:induction false} InsertIs(k: Config, s: State, id: int, w: Worker, body: Body)
    requires w.pc == Inserting(body) && !PairTaken(s.rows, body.queue, body.beatmapset)
    ensures var s' := WorkerStep(k, s, id, w, Fine);
            && s'.rows == s.rows[s.nextRow := Row(body.queue, body.beatmapset, body.user, false)]
            && s'.nextRow == s.nextRow + 1
            && s'.log == s.log + [Created(s.nextRow, body.queue, body.beatmapset, body.user)] && NoneRejects(s, s')
  {
  }

  lemma {:induction false} InsertFollows(k: Config, s: State, e: Event, body: Body, s': State)
    requires Fresh(s) && Inserts(s, e, body)
    requires s'.rows == s.rows[s.nextRow := Row(body.queue, body.beatmapset, body.user, false)]
    requires s'.nextRow == s.nextRow + 1
             && s'.log == s.log + [Created(s.nextRow, body.queue, body.beatmapset, body.user)]
    requires NoneRejects(s, s')
    ensures Follows(k, s, e, s')
  {
    assert Truthful(k, s, e, Created(s.nextRow, body.queue, body.beatmapset, body.user), s');
  }

  lemma {:induction false} WorkerSnapshots(k: Config, s: State, e: Event, w: Worker, body: Body, row: nat)
    requires Fresh(s) && e.StepWorker? && e.id in s.workers && w == s.workers[e.id] && w.pc == Snapshotting(body, row)
    ensures Follows(k, s, e, WorkerStep(k, s, e.id, w, e.answer))
  {
    if e.answer != Fine {
      WorkerErrs(k, s, e.id, w, e.answer);
      SilentFollows(k, s, e, WorkerStep(k, s, e.id, w, e.answer));
    } else {
      SnapshotIs(k, s, e.id, w, body, row);
      var x := Dispatched(row, body.queue, ActiveRules(s.rules.rules, body.queue));
      NotesFollows(k, s, e, x, WorkerStep(k, s, e.id, w, Fine));
    }
  }

  lemma {:induction false} SnapshotIs(k: Config, s: State, id: int, w: Worker, body: Body, row: nat)
    requires w.pc == Snapshotting(body, row)
    ensures Notes(s, Dispatched(row, body.queue, ActiveRules(s.rules.rules, body.queue)), WorkerStep(k, s, id, w, Fine))
    ensures NoneRejects(s, WorkerStep(k, s, id, w, Fine))
  {
  }

  lemma {:induction false} WorkerFollows(k: Config, s: State, e: Event)
    requires Fresh(s) && e.StepWorker? && e.id in s.workers
    ensures Follows(k, s, e, WorkerStep(k, s, e.id, s.workers[e.id], e.answer))
  {
    var w := s.workers[e.id];
    if w.pc.Inserting? {
      WorkerInserts(k, s, e, w, w.pc.body);
    } else if w.pc.Snapshotting? {
      WorkerSnapshots(k, s, e, w, w.pc.body, w.pc.row);
    } else {
      WorkerSilent(k, s, e.id, w, e.answer);
      SilentFollows(k, s, e, WorkerStep(k, s, e.id, w, e.answer));
    }
  }

  lemma {:induction false} WorkerSilent(k: Config, s: State, id: int, w: Worker, answer: Answer)
    requires !w.pc.Inserting? && !w.pc.Snapshotting?
    ensures Silent(s, WorkerStep(k, s, id, w, answer))
  {
    if w.pc.Failing? || w.pc.Finished? { WorkerEnds(k, s, id, w, answer); }
    else if answer != Fine { WorkerErrs(k, s, id, w, answer); }
    else if w.pc.Reading? || w.pc.Archiving? || w.pc.LookingUp? { WorkerLooks(k, s, id, w); }
    else { WorkerSends(k, s, id, w); }
  }

  lemma {:induction false} PostFollows(k: Config, s: State, e: Event)
    requires Fresh(s) && e.StepPost? && e.id in s.posts
    ensures Follows(k, s, e, PostStep(k, s, e.id, s.posts[e.id], e.answer, e.status))
  {
    var p, id := s.posts[e.id], e.id;
    if p.pc.Begin? || p.pc.QueueRead? {
      PostBegins(k, s, id, p, e.answer, e.status);
    } else if p.pc.UserResolved? || p.pc.RowAbsent? || p.pc.StatusChecked? {
      PostChecks(k, s, id, p, e.answer, e.status);
    } else if p.pc.Eligible? || p.pc.TaskExists? || p.pc.TaskFailed? || p.pc.TaskClear? {
      PostInspects(k, s, id, p, e.answer, e.status);
    } else {
      PostStores(k, s, id, p, e.answer, e.status);
    }
    QuietFollows(k, s, e, PostStep(k, s, id, p, e.answer, e.status));
  }

  lemma {:induction false} QuietFollows(k: Config, s: State, e: Event, s': State)
    requires Fresh(s) && e.StepPost? && e.id in s.posts
    requires PostQuiet(s, e.id, s.posts[e.id], e.answer, e.status, s')
    ensures Follows(k, s, e, s')
  {
    if s'.log == s.log {
      SilentFollows(k, s, e, s');
    } else {
      var x :| PostNotes(s, e.id, s.posts[e.id], e.answer, e.status, x, s');
      NotesFollows(k, s, e, x, s');
    }
  }

  lemma {:induction false} ValidatorErrs(k: Config, s: State, id: int, v: Validator, answer: Answer, rejects: bool)
    requires answer != Fine && !v.pc.VFailing? && !v.pc.VFinished?
    ensures Silent(s, ValidatorStep(k, s, id, v, answer, rejects))
  {
    assert ValidatorStep(k, s, id, v, answer, rejects) == ValidatorAt(s, id, v, VFailedAt(answer));
  }

  lemma {:induction false} ValidatorReads(k: Config, s: State, id: int, v: Validator, rejects: bool)
    requires v.pc.VReading?
    ensures Silent(s, ValidatorStep(k, s, id, v, Fine, rejects))
  {
    var h := Hash(s, v.key);
    ValidatorMoves(s, id, v, if h.request.None? || h.queue.None? || h.beatmapset.None? then VFailing(false)
                             else VRunning(h.request.value, h.queue.value, h.snapshot.GetOr("")));
  }

  lemma ValidatorMoves(s: State, id: int, v: Validator, pc: ValidatorPc)
    requires !pc.VRejecting?
    ensures Silent(s, ValidatorAt(s, id, v, pc))
  {
  }

  lemma {:induction false} ValidatorEnds(k: Config, s: State, id: int, v: Validator, answer: Answer, rejects: bool)
    requires (v.pc.VCompleting? && answer == Fine) || v.pc.VFailing? || v.pc.VFinished?
    ensures Silent(s, ValidatorStep(k, s, id, v, answer, rejects))
  {
    match v.pc
    case VCompleting =>
      assert ValidatorStep(k, s, id, v, answer, rejects)
          == ValidatorAt(s.(tasks := s.tasks[v.key := Hash(s, v.key).(completed := true)]), id, v, VFinished);
    case VFailing(retryable) =>
      assert ValidatorStep(k, s, id, v, answer, rejects) == ValidatorFail(s, id, v, retryable);
    case VFinished =>
  }

  lemma {:induction false} ValidatorRuns(k: Config, s: State, e: Event, v: Validator)
    requires Fresh(s) && e.StepValidator? && e.id in s.validators && v == s.validators[e.id]
    requires v.pc.VRunning? && e.answer == Fine
    ensures Follows(k, s, e, ValidatorStep(k, s, e.id, v, Fine, e.rejects))
  {
    var row := v.pc.request;
    if row !in s.rows {
      ValidatorMoves(s, e.id, v, VCompleting);
      SilentFollows(k, s, e, ValidatorStep(k, s, e.id, v, Fine, e.rejects));
    } else {
      VerdictIs(k, s, e.id, v, row, e.rejects);
      var x := Validated(row, Phase2Rules(v.pc.text, s.rules, v.pc.queue, k.tier), e.rejects);
      NotesFollows(k, s, e, x, ValidatorStep(k, s, e.id, v, Fine, e.rejects));
    }
  }

  /** A validator that ran logs its verdict, and rejects the row exactly when the verdict on some
      tier-3 rule is against it. */
  lemma {:induction false} VerdictIs(k: Config, s: State, id: int, v: Validator, row: nat, rejects: bool)
    requires v.pc.VRunning? && v.pc.request == row && row in s.rows
    ensures var rules, s' := Phase2Rules(v.pc.text, s.rules, v.pc.queue, k.tier),
            ValidatorStep(k, s, id, v, Fine, rejects);
            && Notes(s, Validated(row, rules, rejects), s')
            && s'.validators == s.validators[id := s'.validators[id]]
            && (s'.validators[id].pc == VRejecting(row) <==> rules.Some? && rules.value != [] && rejects)
            && (s'.validators[id].pc == VCompleting <==> rules.Some? && (rules.value == [] || !rejects))
            && (s'.validators[id].pc == VFailing(false) <==> rules.None?)
  {
    var rules := Phase2Rules(v.pc.text, s.rules, v.pc.queue, k.tier);
    assert ValidatorStep(k, s, id, v, Fine, rejects) ==
           ValidatorAt(Logged(s, Validated(row, rules, rejects)), id, v,
             if rules.None? then VFailing(false) else if rejects
                 && rules.value != [] then VRejecting(row) else VCompleting);
  }

  lemma {:induction false} ValidatorMarks(k: Config, s: State, e: Event, v: Validator, row: int)
    requires Fresh(s) && e.StepValidator? && e.id in s.validators && v == s.validators[e.id]
    requires v.pc == VRejecting(row) && e.answer == Fine
    ensures Follows(k, s, e, ValidatorStep(k, s, e.id, v, Fine, e.rejects))
  {
    if row !in s.rows {
      ValidatorMoves(s, e.id, v, VFailedAt(Fine));
      forall r | r in s.rows ensures !Marks(s, e, r, true) { assert r != row; }
      SilentFollows(k, s, e, ValidatorStep(k, s, e.id, v, Fine, e.rejects));
    } else {
      RejectIs(k, s, e.id, v, row, e.rejects);
      MarkFollows(k, s, e, row, true, Rejected(row), ValidatorStep(k, s, e.id, v, Fine, e.rejects));
    }
  }

  lemma {:induction false} RejectIs(k: Config, s: State, id: int, v: Validator, row: nat, rejects: bool)
    requires v.pc == VRejecting(row) && row in s.rows
    ensures var s' := ValidatorStep(k, s, id, v, Fine, rejects);
            && s'.rows == s.rows[row := s.rows[row].(rejected := true)] && s'.nextRow == s.nextRow
            && s'.log == s.log + [Rejected(row)] && NoneRejects(s, s')
            && id in s'.validators && s'.validators[id].pc == VCompleting
  {
    assert ValidatorStep(k, s, id, v, Fine, rejects)
        == ValidatorAt(Logged(Marked(s, row, true), Rejected(row)), id, v, VCompleting);
  }

  lemma {:induction false} MarkFollows(k: Config, s: State, e: Event, row: nat, rejected: bool, x: Entry, s': State)
    requires Fresh(s) && row in s.rows && Marks(s, e, row, rejected) && Truthful(k, s, e, x, s')
    requires s'.rows == s.rows[row := s.rows[row].(rejected := rejected)] && s'.nextRow == s.nextRow
             && NoneRejects(s, s')
    requires s'.log == s.log + [x] && x == if e.PatchRow? then Patched(row, rejected) else Rejected(row)
    ensures Follows(k, s, e, s')
  {
  }

  lemma {:induction false} ValidatorFollows(k: Config, s: State, e: Event)
    requires Fresh(s) && e.StepValidator? && e.id in s.validators
    ensures Follows(k, s, e, ValidatorStep(k, s, e.id, s.validators[e.id], e.answer, e.rejects))
  {
    var v := s.validators[e.id];
    if e.answer == Fine && v.pc.VRunning? { ValidatorRuns(k, s, e, v); }
    else if e.answer == Fine && v.pc.VRejecting? { ValidatorMarks(k, s, e, v, v.pc.request); }
    else {
      if e.answer == Fine && v.pc.VReading? { ValidatorReads(k, s, e.id, v, e.rejects); }
      else if v.pc.VFailing? || v.pc.VFinished? || e.answer == Fine {
        ValidatorEnds(k, s, e.id, v, e.answer, e.rejects);
      } else { ValidatorErrs(k, s, e.id, v, e.answer, e.rejects); }
      SilentFollows(k, s, e, ValidatorStep(k, s, e.id, v, e.answer, e.rejects));
    }
  }

  lemma {:induction false} DeleteFollows(k: Config, s: State, e: Event)
    requires Fresh(s) && e.StepDelete? && e.id in s.deleters
    ensures Follows(k, s, e, DeleteStep(k, s, e.id, s.deleters[e.id]))
  {
    var d := s.deleters[e.id];
    if d.pc.DRow? {
      DropFollows(k, s, e, d.request, DeleteStep(k, s, e.id, d));
    } else {
      DeleteSilent(k, s, e.id, d);
      SilentFollows(k, s, e, DeleteStep(k, s, e.id, d));
    }
  }

  lemma {:induction false} DeleteSilent(k: Config, s: State, id: int, d: Deleter)
    requires !d.pc.DRow?
    ensures Silent(s, DeleteStep(k, s, id, d))
  {
    match d.pc
    case DReading =>
    case DHandler(_) =>
    case DValidation =>
    case DFinished =>
  }

  lemma {:induction false} DropFollows(k: Config, s: State, e: Event, row: int, s': State)
    requires Fresh(s) && Removes(s, e, row) && s'.rows == s.rows - {row} && s'.nextRow == s.nextRow && s'.log == s.log
    requires NoneRejects(s, s')
    ensures Follows(k, s, e, s')
  {
  }

  lemma {:induction false} PatchFollows(k: Config, s: State, e: Event)
    requires Fresh(s) && e.PatchRow?
    ensures Follows(k, s, e, Surroundings(s, e))
  {
    if e.row in s.rows {
      assert Surroundings(s, e) == Logged(Marked(s, e.row, e.rejected), Patched(e.row, e.rejected));
      MarkFollows(k, s, e, e.row, e.rejected, Patched(e.row, e.rejected), Surroundings(s, e));
    } else {
      SilentFollows(k, s, e, s);
    }
  }

  lemma {:induction false} EditFollows(k: Config, s: State, e: Event)
    requires Fresh(s) && e.EditRules?
    ensures Follows(k, s, e, Surroundings(s, e))
  {
    if ValidConfigs(e.rules.rules) {
      assert Surroundings(s, e) == Logged(s.(rules := e.rules), RulesEdited(e.rules));
      NotesFollows(k, s, e, RulesEdited(e.rules), Surroundings(s, e));
    } else {
      SilentFollows(k, s, e, s);
    }
  }

  lemma {:induction false} CleanupFollows(k: Config, s: State, e: Event)
    requires Fresh(s) && e.StepCleanup? && e.id in s.cleaners
    ensures Follows(k, s, e, CleanupStep(s, e.id, s.cleaners[e.id]))
  {
    CleanupSilent(s, e.id, s.cleaners[e.id]);
    SilentFollows(k, s, e, CleanupStep(s, e.id, s.cleaners[e.id]));
  }

  lemma {:induction false} CleanupSilent(s: State, id: int, c: Cleaner)
    ensures Silent(s, CleanupStep(s, id, c))
  {
    if c.stale.Some? {
    } else if c.remaining == [] {
    } else {
    }
  }

  lemma {:induction false} StartSilent(s: State, e: Event)
    requires !e.PatchRow? && !e.EditRules?
    ensures Silent(s, Surroundings(s, e))
  {
    if e.StartValidator? {
      assert Surroundings(s, e) in {s, s.(validators := s.validators[e.id := Validator(e.key, 1, VReading)])};
    } else if e.StartWorker? {
      assert Surroundings(s, e) in {s, s.(workers := s.workers[e.id := Worker(e.key, 1, Reading)])};
    }
  }

  lemma {:induction false} StartFollows(k: Config, s: State, e: Event)
    requires Fresh(s) && (e.StartPost? || e.StartWorker? || e.StartValidator? || e.StartDelete? || e.StartCleanup?
                          || e.SetQueue? || e.SetAdmins?)
    ensures Follows(k, s, e, Surroundings(s, e))
  {
    StartSilent(s, e);
    SilentFollows(k, s, e, Surroundings(s, e));
  }

  lemma {:induction false} SurroundingsFollow(k: Config, s: State, e: Event)
    requires Fresh(s) && !e.StepPost? && !e.StepWorker? && !e.StepValidator? && !e.StepDelete? && !e.StepCleanup?
    ensures Follows(k, s, e, Surroundings(s, e))
  {
    if e.PatchRow? {
      PatchFollows(k, s, e);
    } else if e.EditRules? {
      EditFollows(k, s, e);
    } else {
      StartFollows(k, s, e);
    }
  }

  /** An actor that is not there does nothing. */
  lemma {:induction false} IdleFollows(k: Config, s: State, e: Event)
    requires Fresh(s) && RowsUntouched(s, e)
    ensures Follows(k, s, e, s)
  {
    SilentFollows(k, s, e, s);
  }

  /** Exactly which rows a step adds, changes and removes, and how; and what it logs was so. */
  lemma {:induction false} StepFollows(k: Config, s: State, e: Event)
    requires Fresh(s)
    ensures Follows(k, s, e, Step(k, s, e))
  {
    match e
    case StepPost(id, _, _) => if id in s.posts { PostFollows(k, s, e); } else { IdleFollows(k, s, e); }
    case StepWorker(id, _) => if id in s.workers { WorkerFollows(k, s, e); } else { IdleFollows(k, s, e); }
    case StepValidator(id, _, _) => if id in s.validators { ValidatorFollows(k, s, e); } else { IdleFollows(k, s, e); }
    case StepDelete(id) => if id in s.deleters { DeleteFollows(k, s, e); } else { IdleFollows(k, s, e); }
    case StepCleanup(id) => if id in s.cleaners { CleanupFollows(k, s, e); } else { IdleFollows(k, s, e); }
    case _ => SurroundingsFollow(k, s, e);
  }

  // ---------------------------------------------------------------- every run

  ghost predicate WasSo(k: Config, start: State, events: seq<Event>, m: nat, x: Entry)
    requires m < |events|
  {
    Truthful(k, Run(k, start, events[..m]), events[m], x, Run(k, start, events[..m + 1]))
  }

  /** Whatever is in the log of a run was so at some step of it, apart from what was there before. */
  lemma {:induction false} EntriesWereSo(k: Config, start: State, events: seq<Event>, i: nat)
    requires Fresh(start) && |start.log| <= i < |Run(k, start, events).log|
    ensures exists m: nat :: m < |events| && WasSo(k, start, events, m, Run(k, start, events).log[i])
  {
    var front, last := events[..|events| - 1], events[|events| - 1];
    var s := Run(k, start, front);
    StaysFresh(k, start, front);
    LogExtends(k, s, last);
    if i < |s.log| {
      EntriesWereSo(k, start, front, i);
      var m: nat :| m < |front| && WasSo(k, start, front, m, s.log[i]);
      SoInFront(k, start, events, m, s.log[i]);
    } else {
      NewestIsSo(k, s, last, i);
      SoAtLast(k, start, events, Run(k, start, events).log[i]);
    }
  }

  lemma {:induction false} LogExtends(k: Config, s: State, e: Event)
    requires Fresh(s)
    ensures s.log <= Step(k, s, e).log
  {
    StepFollows(k, s, e);
  }

  lemma {:induction false} NewestIsSo(k: Config, s: State, e: Event, i: nat)
    requires Fresh(s) && |s.log| <= i < |Step(k, s, e).log|
    ensures Truthful(k, s, e, Step(k, s, e).log[i], Step(k, s, e))
  {
    StepFollows(k, s, e);
    var s' := Step(k, s, e);
    var x :| s'.log == s.log + [x] && Truthful(k, s, e, x, s');
    assert s'.log[i] == x;
  }

  lemma {:induction false} SoAtLast(k: Config, start: State, events: seq<Event>, x: Entry)
    requires events != []
    requires Truthful(k, Run(k, start, events[..|events| - 1]), events[|events| - 1], x, Run(k, start, events))
    ensures WasSo(k, start, events, |events| - 1, x)
  {
    assert events[..|events| - 1 + 1] == events;
  }

  lemma {:induction false} SoInFront(k: Config, start: State, events: seq<Event>, m: nat, x: Entry)
    requires events != [] && m < |events| - 1 && WasSo(k, start, events[..|events| - 1], m, x)
    ensures WasSo(k, start, events, m, x)
  {
    assert events[..|events| - 1][..m] == events[..m] && events[..|events| - 1][..m + 1] == events[..m + 1];
  }

  lemma {:induction false} StaysFresh(k: Config, start: State, events: seq<Event>)
    requires Fresh(start)
    ensures Fresh(Run(k, start, events))
  {
    if events != [] {
      StaysFresh(k, start, events[..|events| - 1]);
      StepFollows(k, Run(k, start, events[..|events| - 1]), events[|events| - 1]);
    }
  }
}
