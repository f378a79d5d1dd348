/** What each actor of the request protocol does when nothing comes in between, up to a submission that
    runs through to the end (api/v1/requests/__init__.py:91-274,
    app/daemon/services/queue_request_handler.py:42-133, app/daemon/services/rule_validation.py:62-172,
    app/daemon/services/decorators.py:22-49, app/bootstrap.py:175-204). */
module RequestSolo {
  import opened Options
  import RuleTable
  import opened RuleSnapshot
  import opened RequestProtocol

  /** The same event, `n` times. */
  ghost function Alone(k: Config, s: State, e: Event, n: nat): State
    decreases n
  {
    if n == 0 then s else Alone(k, Step(k, s, e), e, n - 1)
  }

  lemma {:induction false} AloneEnds(k: Config, s: State, e: Event, n: nat)
    requires Step(k, s, e) == s
    ensures Alone(k, s, e, n) == s
  {
    if n > 0 { AloneEnds(k, s, e, n - 1); }
  }

  // ---------------------------------------------------------------- POST

  /** What a POST handler never touches. */
  ghost predicate SameElsewhere(s: State, s': State) {
    && s'.queues == s.queues && s'.admins == s.admins && s'.rules == s.rules
    && s'.rows == s.rows && s'.nextRow == s.nextRow && s'.validations == s.validations
    && s'.workers == s.workers && s'.validators == s.validators
    && s'.deleters == s.deleters && s'.cleaners == s.cleaners
  }

  /** The submission is queued: its task is stored, without a trace of an earlier one, and published. */
  ghost predicate Accepts(k: Config, s: State, id: int, p: Post, user: int, s': State) {
    var key := k.handler(p.queue, p.beatmapset);
    && s'.posts == s.posts[id := p.(pc := Queued)]
    && s'.tasks == s.tasks[key := TaskHash(Some(p.queue), Some(p.beatmapset), Some(user), None, None, false, false)]
    && s'.channel == s.channel + {key}
    && SameElsewhere(s, s')
  }

  /** The submission is turned down, and nothing is left of it. */
  ghost predicate Refuses(s: State, id: int, p: Post, s': State) {
    && s'.posts == s.posts[id := p.(pc := Refused)] && s'.tasks == s.tasks && s'.channel == s.channel
    && SameElsewhere(s, s')
  }

  lemma {:induction false} AcceptsFrom(k: Config, s: State, id: int, p: Post, pc: PostPc, t: State, user: int,
                                       s': State)
    requires t.posts == s.posts[id := p.(pc := pc)] && t.channel == s.channel && SameElsewhere(s, t)
    requires t.tasks == s.tasks || t.tasks == s.tasks - {k.handler(p.queue, p.beatmapset)}
    requires Accepts(k, t, id, p.(pc := pc), user, s')
    ensures Accepts(k, s, id, p, user, s')
  {
  }

  lemma {:induction false} RefusesFrom(s: State, id: int, p: Post, pc: PostPc, t: State, s': State)
    requires t.posts == s.posts[id := p.(pc := pc)] && t.channel == s.channel && SameElsewhere(s, t)
             && t.tasks == s.tasks
    requires Refuses(t, id, p.(pc := pc), s')
    ensures Refuses(s, id, p, s')
  {
  }

  lemma {:induction false} FromStored(k: Config, s: State, id: int, p: Post, user: int, status: string, n: nat)
    requires id in s.posts && s.posts[id] == p && p.pc == Stored(user) && n >= 1
    requires k.handler(p.queue, p.beatmapset) in s.tasks
             && s.tasks[k.handler(p.queue, p.beatmapset)]
             == TaskHash(Some(p.queue), Some(p.beatmapset), Some(user), None, None, false, false)
    ensures Accepts(k, s, id, p, user, Alone(k, s, StepPost(id, Fine, status), n))
  {
    var e := StepPost(id, Fine, status);
    var t := At(s.(channel := s.channel + {k.handler(p.queue, p.beatmapset)}), id, p, Queued);
    assert Step(k, s, e) == t;
    AloneEnds(k, t, e, n - 1);
  }

  lemma {:induction false} FromReserved(k: Config, s: State, id: int, p: Post, user: int, status: string, n: nat)
    requires id in s.posts && s.posts[id] == p && p.pc == Reserved(user) && n >= 2
    requires k.handler(p.queue, p.beatmapset) !in s.tasks
    ensures Accepts(k, s, id, p, user, Alone(k, s, StepPost(id, Fine, status), n))
  {
    var e, key := StepPost(id, Fine, status), k.handler(p.queue, p.beatmapset);
    var h := TaskHash(Some(p.queue), Some(p.beatmapset), Some(user), None, None, false, false);
    var t := At(s.(tasks := s.tasks[key := h]), id, p, Stored(user));
    assert Step(k, s, e) == t;
    FromStored(k, t, id, t.posts[id], user, status, n - 1);
  }

  lemma {:induction false} FromClear(k: Config, s: State, id: int, p: Post, user: int, status: string, n: nat)
    requires id in s.posts && s.posts[id] == p && p.pc == TaskClear(user) && n >= 3
    requires k.handler(p.queue, p.beatmapset) !in s.tasks
    ensures Accepts(k, s, id, p, user, Alone(k, s, StepPost(id, Fine, status), n))
  {
    var e := StepPost(id, Fine, status);
    var t := At(s, id, p, Reserved(user));
    assert Step(k, s, e) == t;
    FromReserved(k, t, id, t.posts[id], user, status, n - 1);
    AcceptsFrom(k, s, id, p, Reserved(user), t, user, Alone(k, t, e, n - 1));
  }

  lemma {:induction false} FromFailed(k: Config, s: State, id: int, p: Post, user: int, status: string, n: nat)
    requires id in s.posts && s.posts[id] == p && p.pc == TaskFailed(user) && n >= 4
    ensures Accepts(k, s, id, p, user, Alone(k, s, StepPost(id, Fine, status), n))
  {
    var e := StepPost(id, Fine, status);
    var t := At(s.(tasks := s.tasks - {k.handler(p.queue, p.beatmapset)}), id, p, TaskClear(user));
    assert Step(k, s, e) == t;
    FromClear(k, t, id, t.posts[id], user, status, n - 1);
    AcceptsFrom(k, s, id, p, TaskClear(user), t, user, Alone(k, t, e, n - 1));
  }

  lemma {:induction false} IsRefused(k: Config, s: State, id: int, p: Post, status: string, n: nat)
    requires id in s.posts && s.posts[id] == p && n >= 1
    requires PostStep(k, s, id, p, Fine, status) == At(s, id, p, Refused)
    ensures Refuses(s, id, p, Alone(k, s, StepPost(id, Fine, status), n))
  {
    var t := At(s, id, p, Refused);
    assert Step(k, s, StepPost(id, Fine, status)) == t;
    AloneEnds(k, t, StepPost(id, Fine, status), n - 1);
  }

  /** There is no task for the pair, or a whole one that failed. */
  predicate Retriable(tasks: map<int, TaskHash>, key: int) {
    key in tasks ==> tasks[key].queue.Some? && tasks[key].beatmapset.Some? && tasks[key].user.Some? && tasks[key].failed
  }

  /** Queued or turned down. */
  ghost predicate Ends(k: Config, s: State, id: int, p: Post, user: int, accepted: bool, s': State) {
    if accepted then Accepts(k, s, id, p, user, s') else Refuses(s, id, p, s')
  }

  lemma {:induction false} EndsFrom(k: Config, s: State, id: int, p: Post, pc: PostPc, t: State, user: int,
                                    accepted: bool, s': State)
    requires t.posts == s.posts[id := p.(pc := pc)] && t.channel == s.channel && SameElsewhere(s, t)
             && t.tasks == s.tasks
    requires Ends(k, t, id, p.(pc := pc), user, accepted, s')
    ensures Ends(k, s, id, p, user, accepted, s')
  {
    if accepted { AcceptsFrom(k, s, id, p, pc, t, user, s'); } else { RefusesFrom(s, id, p, pc, t, s'); }
  }

  lemma {:induction false} FromExists(k: Config, s: State, id: int, p: Post, user: int, status: string, n: nat)
    requires id in s.posts && s.posts[id] == p && p.pc == TaskExists(user) && n >= 5
    requires k.handler(p.queue, p.beatmapset) in s.tasks
    ensures Ends(k, s, id, p, user, Retriable(s.tasks, k.handler(p.queue, p.beatmapset)),
                 Alone(k, s, StepPost(id, Fine, status), n))
  {
    if Retriable(s.tasks, k.handler(p.queue, p.beatmapset)) {
      var t := At(s, id, p, TaskFailed(user));
      assert Step(k, s, StepPost(id, Fine, status)) == t;
      FromFailed(k, t, id, t.posts[id], user, status, n - 1);
      AcceptsFrom(k, s, id, p, TaskFailed(user), t, user, Alone(k, t, StepPost(id, Fine, status), n - 1));
    } else {
      IsRefused(k, s, id, p, status, n);
    }
  }

  lemma {:induction false} FromEligible(k: Config, s: State, id: int, p: Post, user: int, status: string, n: nat)
    requires id in s.posts && s.posts[id] == p && p.pc == Eligible(user) && n >= 6
    ensures Ends(k, s, id, p, user, Retriable(s.tasks, k.handler(p.queue, p.beatmapset)),
                 Alone(k, s, StepPost(id, Fine, status), n))
  {
    var e, found := StepPost(id, Fine, status), k.handler(p.queue, p.beatmapset) in s.tasks;
    var pc := if found then TaskExists(user) else TaskClear(user);
    var t := At(s, id, p, pc);
    assert Step(k, s, e) == t;
    if found {
      FromExists(k, t, id, t.posts[id], user, status, n - 1);
    } else {
      FromClear(k, t, id, t.posts[id], user, status, n - 1);
    }
    EndsFrom(k, s, id, p, pc, t, user, Retriable(s.tasks, k.handler(p.queue, p.beatmapset)), Alone(k, t, e, n - 1));
  }

  /** The gates from the existence check on. */
  predicate PairClear(k: Config, s: State, p: Post) {
    && (forall r <- s.rows :: s.rows[r].queue != p.queue || s.rows[r].beatmapset != p.beatmapset)
    && Retriable(s.tasks, k.handler(p.queue, p.beatmapset))
  }

  predicate NotRanked(status: string) {
    status != "ranked" && status != "approved" && status != "qualified" && status != "loved"
  }

  lemma {:induction false} FromStatusChecked(k: Config, s: State, id: int, p: Post, user: int, status: string, n: nat)
    requires id in s.posts && s.posts[id] == p && p.pc == StatusChecked(user) && n >= 7
    ensures Ends(k, s, id, p, user, Retriable(s.tasks, k.handler(p.queue, p.beatmapset)),
                 Alone(k, s, StepPost(id, Fine, status), n))
  {
    var e := StepPost(id, Fine, status);
    var t := At(Logged(s, Phase1Passed(id, p.queue, p.beatmapset, user)), id, p, Eligible(user));
    assert Step(k, s, e) == t;
    FromEligible(k, t, id, t.posts[id], user, status, n - 1);
    EndsFrom(k, s, id, p, Eligible(user), t, user, Retriable(s.tasks, k.handler(p.queue, p.beatmapset)),
             Alone(k, t, e, n - 1));
  }

  lemma {:induction false} FromRowAbsent(k: Config, s: State, id: int, p: Post, user: int, status: string, n: nat)
    requires id in s.posts && s.posts[id] == p && p.pc == RowAbsent(user) && n >= 8
    ensures Ends(k, s, id, p, user, NotRanked(status) && Retriable(s.tasks, k.handler(p.queue, p.beatmapset)),
                 Alone(k, s, StepPost(id, Fine, status), n))
  {
    var e := StepPost(id, Fine, status);
    if NotRanked(status) {
      var t := At(Logged(s, StatusSeen(id, p.beatmapset, status)), id, p, StatusChecked(user));
      assert Step(k, s, e) == t;
      FromStatusChecked(k, t, id, t.posts[id], user, status, n - 1);
      EndsFrom(k, s, id, p, StatusChecked(user), t, user, Retriable(s.tasks, k.handler(p.queue, p.beatmapset)),
               Alone(k, t, e, n - 1));
    } else {
      IsRefused(k, s, id, p, status, n);
    }
  }

  lemma {:induction false} FromUser(k: Config, s: State, id: int, p: Post, user: int, status: string, n: nat)
    requires id in s.posts && s.posts[id] == p && p.pc == UserResolved(user) && n >= 9
    ensures Ends(k, s, id, p, user, NotRanked(status) && PairClear(k, s, p),
                 Alone(k, s, StepPost(id, Fine, status), n))
  {
    var e := StepPost(id, Fine, status);
    if PairTaken(s.rows, p.queue, p.beatmapset) {
      IsRefused(k, s, id, p, status, n);
    } else {
      var t := At(Logged(s, NoRowSeen(id, p.queue, p.beatmapset)), id, p, RowAbsent(user));
      assert Step(k, s, e) == t;
      FromRowAbsent(k, t, id, t.posts[id], user, status, n - 1);
      EndsFrom(k, s, id, p, RowAbsent(user), t, user, NotRanked(status) && PairClear(k, s, p), Alone(k, t, e, n - 1));
    }
  }

  /** Whom the request is for: an admin, and anyone in a queue that does not insist, may name a user
      and stands in for nobody named; else it is the caller, who may name nobody else. */
  function Submitter(s: State, p: Post, enforced: bool): Option<int> {
    if p.caller.None? then None
    else
      var caller := p.caller.value;
      if caller in s.admins || !enforced then
        match p.submitted
        case None => Some(caller)
        case Some(user) => if user == 0 then Some(caller) else Some(user)
      else if p.submitted.Some? && p.submitted.value != caller then None
      else Some(caller)
  }

  lemma {:induction false} FromQueueRead(k: Config, s: State, id: int, p: Post, enforced: bool, status: string, n: nat)
    requires id in s.posts && s.posts[id] == p && p.pc == QueueRead(enforced) && n >= 10
    ensures Ends(k, s, id, p, Submitter(s, p, enforced).GetOr(0),
                 Submitter(s, p, enforced).Some? && NotRanked(status) && PairClear(k, s, p),
                 Alone(k, s, StepPost(id, Fine, status), n))
  {
    match Submitter(s, p, enforced)
    case None => IsRefused(k, s, id, p, status, n);
    case Some(user) =>
      var e, caller := StepPost(id, Fine, status), p.caller.value;
      var t := At(Logged(s, UserSeen(id, caller, user, caller in s.admins, enforced)), id, p, UserResolved(user));
      assert Step(k, s, e) == t;
      FromUser(k, t, id, t.posts[id], user, status, n - 1);
      EndsFrom(k, s, id, p, UserResolved(user), t, user, NotRanked(status)
          && PairClear(k, s, p), Alone(k, t, e, n - 1));
  }

  lemma {:induction false} FromOpen(k: Config, s: State, id: int, p: Post, enforced: bool, status: string, n: nat)
    requires id in s.posts && s.posts[id] == p && p.pc == Begin && n >= 11
    requires p.queue in s.queues && s.queues[p.queue] == Queue(true, enforced)
    ensures Ends(k, s, id, p, Submitter(s, p, enforced).GetOr(0),
                 Submitter(s, p, enforced).Some? && NotRanked(status) && PairClear(k, s, p),
                 Alone(k, s, StepPost(id, Fine, status), n))
  {
    var e, t := StepPost(id, Fine, status), At(Logged(s, OpenSeen(id, p.queue)), id, p, QueueRead(enforced));
    assert Step(k, s, e) == t;
    FromQueueRead(k, t, id, t.posts[id], enforced, status, n - 1);
    EndsFrom(k, s, id, p, QueueRead(enforced), t, Submitter(s, p, enforced).GetOr(0),
             Submitter(s, p, enforced).Some? && NotRanked(status) && PairClear(k, s, p), Alone(k, t, e, n - 1));
  }

  /** Everything that must hold for a submission to be queued. */
  predicate Admissible(k: Config, s: State, p: Post, status: string) {
    && p.queue in s.queues && s.queues[p.queue].isOpen
    && Submitter(s, p, s.queues[p.queue].enforceUserMatch).Some?
    && NotRanked(status) && PairClear(k, s, p)
  }

  /** Left alone, a POST handler whose awaited calls succeed queues its submission exactly when it is
      admissible, and turns it down without a trace otherwise. */
  lemma {:induction false} PostAlone(k: Config, s: State, id: int, p: Post, status: string, n: nat)
    requires id in s.posts && s.posts[id] == p && p.pc == Begin && n >= 11
    ensures if Admissible(k, s, p, status)
            then Accepts(k, s, id, p, Submitter(s, p, s.queues[p.queue].enforceUserMatch).value,
                         Alone(k, s, StepPost(id, Fine, status), n))
            else Refuses(s, id, p, Alone(k, s, StepPost(id, Fine, status), n))
  {
    if p.queue in s.queues && s.queues[p.queue].isOpen {
      FromOpen(k, s, id, p, s.queues[p.queue].enforceUserMatch, status, n);
    } else {
      IsRefused(k, s, id, p, status, n);
    }
  }

  // ---------------------------------------------------------------- the worker

  /** What neither a worker nor a validator touches. */
  ghost predicate SameAround(s: State, s': State) {
    && s'.queues == s.queues && s'.admins == s.admins && s'.rules == s.rules && s'.channel == s.channel
    && s'.posts == s.posts && s'.deleters == s.deleters && s'.cleaners == s.cleaners
  }

  /** The validation of the row is dispatched with the rules active now, and the task is completed. */
  ghost predicate Dispatches(k: Config, s: State, id: int, w: Worker, body: Body, row: nat, s': State) {
    var vkey := k.validation(row);
    && (vkey != w.key ==>
          && vkey in s'.tasks && w.key in s'.tasks && s'.tasks[w.key] == Hash(s, w.key).(completed := true)
          && s'.tasks[vkey] == TaskHash(Some(body.queue), Some(body.beatmapset), Hash(s, vkey).user, Some(row),
                                        Some(Snapshot(ActiveRules(s.rules.rules, body.queue))), false, false))
    && (forall x <- s.tasks :: x != w.key && x != vkey ==> x in s'.tasks && s'.tasks[x] == s.tasks[x])
    && s'.validations == s.validations + {vkey} && s'.workers == s.workers[id := w.(pc := Finished)]
    && s'.rows == s.rows && s'.nextRow == s.nextRow && SameAround(s, s') && s'.validators == s.validators
  }

  lemma {:induction false} FromCompleting(k: Config, s: State, id: int, w: Worker, n: nat)
    requires id in s.workers && s.workers[id] == w && w.pc == Completing && n >= 1
    ensures Alone(k, s, StepWorker(id, Fine), n)
         == WorkerAt(s.(tasks := s.tasks[w.key := Hash(s, w.key).(completed := true)]), id, w, Finished)
  {
    var t := WorkerAt(s.(tasks := s.tasks[w.key := Hash(s, w.key).(completed := true)]), id, w, Finished);
    assert Step(k, s, StepWorker(id, Fine)) == t;
    AloneEnds(k, t, StepWorker(id, Fine), n - 1);
  }

  lemma {:induction false} FromPublishing(k: Config, s: State, id: int, w: Worker, body: Body, row: nat, n: nat)
    requires id in s.workers && s.workers[id] == w && w.pc == Publishing(body, row) && n >= 2
    ensures Alone(k, s, StepWorker(id, Fine), n)
         == WorkerAt(s.(validations := s.validations + {k.validation(row)},
                        tasks := s.tasks[w.key := Hash(s, w.key).(completed := true)]), id, w, Finished)
  {
    var e := StepWorker(id, Fine);
    var t := WorkerAt(s.(validations := s.validations + {k.validation(row)}), id, w, Completing);
    assert Step(k, s, e) == t;
    FromCompleting(k, t, id, t.workers[id], n - 1);
  }

  lemma {:induction false} TaskStored(k: Config, s: State, id: int, w: Worker, body: Body, row: nat, text: string)
    requires id in s.workers && s.workers[id] == w && w.pc == StoringTask(body, row, text)
    ensures Step(k, s, StepWorker(id, Fine))
         == WorkerAt(s.(tasks := s.tasks[k.validation(row) :=
                          Hash(s, k.validation(row)).(queue := Some(body.queue), beatmapset := Some(body.beatmapset),
                                                      request := Some(row), snapshot := Some(text),
                                                      completed := false, failed := false)]),
                     id, w, Publishing(body, row))
  {
  }

  lemma {:induction false} FromStoring(k: Config, s: State, id: int, w: Worker, body: Body, row: nat, n: nat)
    requires id in s.workers && s.workers[id] == w && n >= 3
    requires w.pc == StoringTask(body, row, Snapshot(ActiveRules(s.rules.rules, body.queue)))
    ensures Dispatches(k, s, id, w, body, row, Alone(k, s, StepWorker(id, Fine), n))
  {
    TaskStored(k, s, id, w, body, row, w.pc.text);
    AfterStored(k, s, id, w, body, row, Step(k, s, StepWorker(id, Fine)), n - 1);
  }

  lemma {:induction false} AfterStored(k: Config, s: State, id: int, w: Worker, body: Body, row: nat, t: State, n: nat)
    requires n >= 2 && t.workers == s.workers[id := w.(pc := Publishing(body, row))]
    requires t.tasks == s.tasks[k.validation(row) :=
                          TaskHash(Some(body.queue), Some(body.beatmapset), Hash(s, k.validation(row)).user, Some(row),
                                   Some(Snapshot(ActiveRules(s.rules.rules, body.queue))), false, false)]
    requires SameAround(s, t) && t.rows == s.rows && t.nextRow == s.nextRow
             && t.validations == s.validations && t.validators == s.validators
    ensures Dispatches(k, s, id, w, body, row, Alone(k, t, StepWorker(id, Fine), n))
  {
    FromPublishing(k, t, id, t.workers[id], body, row, n);
  }

  lemma {:induction false} FromSnapshotting(k: Config, s: State, id: int, w: Worker, body: Body, row: nat, n: nat)
    requires id in s.workers && s.workers[id] == w && n >= 4 && w.pc == Snapshotting(body, row)
    ensures Dispatches(k, s, id, w, body, row, Alone(k, s, StepWorker(id, Fine), n))
  {
    var e, rules := StepWorker(id, Fine), ActiveRules(s.rules.rules, body.queue);
    var t := WorkerAt(Logged(s, Dispatched(row, body.queue, rules)), id, w, StoringTask(body, row, Snapshot(rules)));
    assert Step(k, s, e) == t;
    FromStoring(k, t, id, t.workers[id], body, row, n - 1);
    DispatchesFrom(k, s, id, w, body, row, t, Alone(k, t, e, n - 1));
  }

  lemma {:induction false} DispatchesFrom(k: Config, s: State, id: int, w: Worker, body: Body, row: nat, t: State,
                                          s': State)
    requires id in t.workers && t.workers == s.workers[id := t.workers[id]] && t.workers[id].key == w.key
             && t.workers[id].attempt == w.attempt
    requires SameAround(s, t) && t.rows == s.rows && t.nextRow == s.nextRow && t.tasks == s.tasks
             && t.validations == s.validations && t.validators == s.validators
    requires Dispatches(k, t, id, t.workers[id], body, row, s')
    ensures Dispatches(k, s, id, w, body, row, s')
  {
  }

  /** The row of the body, with the next free id. */
  function WithRow(s: State, body: Body): State {
    s.(rows := s.rows[s.nextRow := Row(body.queue, body.beatmapset, body.user, false)], nextRow := s.nextRow + 1)
  }

  predicate IsRowOf(rows: map<nat, Row>, row: nat, body: Body) {
    row in rows && rows[row].queue == body.queue && rows[row].beatmapset == body.beatmapset
  }

  /** The pair's row is there, created if need be, and its validation is dispatched. */
  ghost predicate Handles(k: Config, s: State, id: int, w: Worker, body: Body, s': State) {
    if exists row :: IsRowOf(s.rows, row, body)
    then exists row :: IsRowOf(s.rows, row, body) && Dispatches(k, s, id, w, body, row, s')
    else Dispatches(k, WithRow(s, body), id, w, body, s.nextRow, s')
  }

  lemma {:induction false} FromInserting(k: Config, s: State, id: int, w: Worker, body: Body, n: nat)
    requires id in s.workers && s.workers[id] == w && n >= 5 && w.pc == Inserting(body)
    requires !PairTaken(s.rows, body.queue, body.beatmapset)
    ensures Dispatches(k, WithRow(s, body), id, w, body, s.nextRow, Alone(k, s, StepWorker(id, Fine), n))
  {
    var e, x := StepWorker(id, Fine), Created(s.nextRow, body.queue, body.beatmapset, body.user);
    var t := WorkerAt(Logged(WithRow(s, body), x), id, w, Snapshotting(body, s.nextRow));
    assert Step(k, s, e) == t;
    FromSnapshotting(k, t, id, t.workers[id], body, s.nextRow, n - 1);
    DispatchesFrom(k, WithRow(s, body), id, w, body, s.nextRow, t, Alone(k, t, e, n - 1));
  }

  lemma {:induction false} RowThere(rows: map<nat, Row>, body: Body)
    ensures PairTaken(rows, body.queue, body.beatmapset) <==> exists row :: IsRowOf(rows, row, body)
  {
    if PairTaken(rows, body.queue, body.beatmapset) {
      assert IsRowOf(rows, RowOf(rows, body.queue, body.beatmapset), body);
    }
  }

  lemma {:induction false} FromLookingUp(k: Config, s: State, id: int, w: Worker, body: Body, n: nat)
    requires id in s.workers && s.workers[id] == w && n >= 6 && w.pc == LookingUp(body)
    ensures Handles(k, s, id, w, body, Alone(k, s, StepWorker(id, Fine), n))
  {
    RowThere(s.rows, body);
    if PairTaken(s.rows, body.queue, body.beatmapset) {
      FromFound(k, s, id, w, body, RowOf(s.rows, body.queue, body.beatmapset), n);
    } else {
      FromMissing(k, s, id, w, body, n);
    }
  }

  lemma {:induction false} FromFound(k: Config, s: State, id: int, w: Worker, body: Body, row: nat, n: nat)
    requires id in s.workers && s.workers[id] == w && n >= 5 && w.pc == LookingUp(body)
    requires PairTaken(s.rows, body.queue, body.beatmapset) && row == RowOf(s.rows, body.queue, body.beatmapset)
    ensures IsRowOf(s.rows, row, body) && Dispatches(k, s, id, w, body, row, Alone(k, s, StepWorker(id, Fine), n))
  {
    var e, t := StepWorker(id, Fine), WorkerAt(s, id, w, Snapshotting(body, row));
    assert Step(k, s, e) == t;
    FromSnapshotting(k, t, id, t.workers[id], body, row, n - 1);
    DispatchesFrom(k, s, id, w, body, row, t, Alone(k, t, e, n - 1));
  }

  lemma {:induction false} FromMissing(k: Config, s: State, id: int, w: Worker, body: Body, n: nat)
    requires id in s.workers && s.workers[id] == w && n >= 6 && w.pc == LookingUp(body)
    requires !PairTaken(s.rows, body.queue, body.beatmapset)
    ensures Dispatches(k, WithRow(s, body), id, w, body, s.nextRow, Alone(k, s, StepWorker(id, Fine), n))
  {
    var e, t := StepWorker(id, Fine), WorkerAt(s, id, w, Inserting(body));
    assert Step(k, s, e) == t;
    FromInserting(k, t, id, t.workers[id], body, n - 1);
    DispatchesFrom(k, WithRow(s, body), id, w, body, s.nextRow, WithRow(t, body), Alone(k, t, e, n - 1));
  }

  lemma {:induction false} HandlesFrom(k: Config, s: State, id: int, w: Worker, body: Body, pc: WorkerPc, s': State)
    requires Handles(k, WorkerAt(s, id, w, pc), id, w.(pc := pc), body, s')
    ensures Handles(k, s, id, w, body, s')
  {
    var t := WorkerAt(s, id, w, pc);
    if row :| IsRowOf(s.rows, row, body) {
      var r :| IsRowOf(t.rows, r, body) && Dispatches(k, t, id, w.(pc := pc), body, r, s');
      DispatchesFrom(k, s, id, w, body, r, t, s');
    } else {
      DispatchesFrom(k, WithRow(s, body), id, w, body, s.nextRow, WithRow(t, body), s');
    }
  }

  /** Left alone, a worker whose awaited calls succeed handles its task to the end. */
  lemma {:induction false} WorkerAlone(k: Config, s: State, id: int, w: Worker, body: Body, n: nat)
    requires id in s.workers && s.workers[id] == w && n >= 8 && w.pc == Reading && w.key in s.tasks
    requires s.tasks[w.key].queue == Some(body.queue) && s.tasks[w.key].beatmapset == Some(body.beatmapset)
             && s.tasks[w.key].user == Some(body.user)
    ensures Handles(k, s, id, w, body, Alone(k, s, StepWorker(id, Fine), n))
  {
    var e := StepWorker(id, Fine);
    var t, u := WorkerAt(s, id, w, Archiving(body)), WorkerAt(s, id, w, LookingUp(body));
    assert Step(k, s, e) == t;
    assert Step(k, t, e) == u;
    assert Alone(k, s, e, n) == Alone(k, t, e, n - 1) == Alone(k, u, e, n - 2);
    FromLookingUp(k, u, id, u.workers[id], body, n - 2);
    HandlesFrom(k, s, id, w, body, LookingUp(body), Alone(k, u, e, n - 2));
  }

  /** The task is marked as failed, and the worker gives up at this attempt. */
  ghost predicate GivesUp(s: State, id: int, w: Worker, attempt: nat, s': State) {
    s' == s.(tasks := s.tasks[w.key := Hash(s, w.key).(failed := true)],
             workers := s.workers[id := w.(attempt := attempt, pc := Finished)])
  }

  /** A task without its three ids is not handled, and not tried again. */
  lemma {:induction false} BrokenTaskFails(k: Config, s: State, id: int, w: Worker, n: nat)
    requires id in s.workers && s.workers[id] == w && n >= 2 && w.pc == Reading
    requires w.key !in s.tasks || s.tasks[w.key].queue.None? || s.tasks[w.key].beatmapset.None?
             || s.tasks[w.key].user.None?
    ensures GivesUp(s, id, w, w.attempt, Alone(k, s, StepWorker(id, Fine), n))
  {
    FailsOnce(k, s, id, w, Fine, false, n);
  }

  lemma {:induction false} FailsOnce(k: Config, s: State, id: int, w: Worker, answer: Answer, retryable: bool, n: nat)
    requires id in s.workers && s.workers[id] == w && n >= 2 && !(retryable && w.attempt < MAX_ATTEMPTS)
    requires WorkerStep(k, s, id, w, answer) == WorkerAt(s, id, w, Failing(retryable))
    ensures GivesUp(s, id, w, w.attempt, Alone(k, s, StepWorker(id, answer), n))
  {
    FailsNext(k, s, id, w, answer, retryable, Step(k, s, StepWorker(id, answer)), n - 1);
  }

  lemma {:induction false} FailsNext(k: Config, s: State, id: int, w: Worker, answer: Answer, retryable: bool, t: State,
                                     n: nat)
    requires n >= 1 && !(retryable && w.attempt < MAX_ATTEMPTS) && t == WorkerAt(s, id, w, Failing(retryable))
    ensures GivesUp(s, id, w, w.attempt, Alone(k, t, StepWorker(id, answer), n))
  {
    FromFailing(k, t, id, t.workers[id], answer, retryable, n);
  }

  lemma {:induction false} FromFailing(k: Config, s: State, id: int, w: Worker, answer: Answer, retryable: bool, n: nat)
    requires id in s.workers && s.workers[id] == w && n >= 1 && !(retryable && w.attempt < MAX_ATTEMPTS)
    requires w.pc == Failing(retryable)
    ensures GivesUp(s, id, w, w.attempt, Alone(k, s, StepWorker(id, answer), n))
  {
    var e, t := StepWorker(id, answer), WorkerFail(s, id, w, retryable);
    assert Step(k, s, e) == t;
    AloneEnds(k, t, e, n - 1);
  }

  /** Only a timeout is worth another attempt: after any other error the worker gives up at once. */
  lemma {:induction false} ErrorEnds(k: Config, s: State, id: int, w: Worker, n: nat)
    requires id in s.workers && s.workers[id] == w && n >= 2 && !w.pc.Failing? && !w.pc.Finished?
    ensures GivesUp(s, id, w, w.attempt, Alone(k, s, StepWorker(id, Error), n))
  {
    FailsOnce(k, s, id, w, Error, false, n);
  }

  /** A worker that only meets timeouts gives up after its fifth attempt. */
  lemma {:induction false} TimeoutsEnd(k: Config, s: State, id: int, w: Worker, n: nat)
    requires id in s.workers && s.workers[id] == w && !w.pc.Failing? && !w.pc.Finished?
    requires w.attempt <= 5 && n >= 2 * (6 - w.attempt)
    ensures GivesUp(s, id, w, 5, Alone(k, s, StepWorker(id, Timeout), n))
    decreases 5 - w.attempt
  {
    var e, t := StepWorker(id, Timeout), WorkerAt(s, id, w, Failing(true));
    if w.attempt == 5 {
      FailsOnce(k, s, id, w, Timeout, true, n);
    } else {
      assert Step(k, s, e) == t;
      var u := WorkerFail(t, id, t.workers[id], true);
      assert Step(k, t, e) == u;
      assert Alone(k, s, e, n) == Alone(k, t, e, n - 1) == Alone(k, u, e, n - 2);
      TimeoutsEnd(k, u, id, u.workers[id], n - 2);
    }
  }

  // ---------------------------------------------------------------- the validator

  /** The task is completed, and the row is rejected or left as it was. */
  ghost predicate Judges(s: State, id: int, v: Validator, row: nat, rejects: bool, s': State) {
    && s'.tasks == s.tasks[v.key := Hash(s, v.key).(completed := true)]
    && s'.rows.Keys == s.rows.Keys && s'.nextRow == s.nextRow
    && (forall r <- s.rows :: s'.rows[r] == if r == row && rejects then s.rows[r].(rejected := true) else s.rows[r])
    && s'.validators == s.validators[id := v.(pc := VFinished)] && s'.workers == s.workers
    && s'.validations == s.validations && SameAround(s, s')
  }

  lemma {:induction false} FromVCompleting(k: Config, s: State, id: int, v: Validator, rejects: bool, n: nat)
    requires id in s.validators && s.validators[id] == v && v.pc == VCompleting && n >= 1
    ensures Alone(k, s, StepValidator(id, Fine, rejects), n)
         == ValidatorAt(s.(tasks := s.tasks[v.key := Hash(s, v.key).(completed := true)]), id, v, VFinished)
  {
    var t := ValidatorAt(s.(tasks := s.tasks[v.key := Hash(s, v.key).(completed := true)]), id, v, VFinished);
    assert Step(k, s, StepValidator(id, Fine, rejects)) == t;
    AloneEnds(k, t, StepValidator(id, Fine, rejects), n - 1);
  }

  lemma {:induction false} FromVRejecting(k: Config, s: State, id: int, v: Validator, row: nat, rejects: bool, n: nat)
    requires id in s.validators && s.validators[id] == v && v.pc == VRejecting(row) && row in s.rows && n >= 2
    ensures Judges(s, id, v, row, true, Alone(k, s, StepValidator(id, Fine, rejects), n))
  {
    var e, t := StepValidator(id, Fine, rejects),
        ValidatorAt(Logged(Marked(s, row, true), Rejected(row)), id, v, VCompleting);
    assert Step(k, s, e) == t;
    FromVCompleting(k, t, id, t.validators[id], rejects, n - 1);
  }

  /** Left alone, a validator whose awaited calls succeed rejects the row exactly when its verdict is
      against it and the rules have a tier-3 rule among them, and completes its task. */
  lemma {:induction false} ValidatorAlone(k: Config, s: State, id: int, v: Validator, row: nat, rules: seq<RuleView>,
                                          rejects: bool, n: nat)
    requires id in s.validators && s.validators[id] == v && v.pc == VReading && n >= 4 && row in s.rows
    requires v.key in s.tasks && s.tasks[v.key].request == Some(row)
    requires s.tasks[v.key].queue.Some? && s.tasks[v.key].beatmapset.Some?
    requires Phase2Rules(s.tasks[v.key].snapshot.GetOr(""), s.rules, s.tasks[v.key].queue.value, k.tier) == Some(rules)
    ensures Judges(s, id, v, row, rejects && rules != [], Alone(k, s, StepValidator(id, Fine, rejects), n))
  {
    var e, h := StepValidator(id, Fine, rejects), s.tasks[v.key];
    var t := ValidatorAt(s, id, v, VRunning(row, h.queue.value, h.snapshot.GetOr("")));
    assert Step(k, s, e) == t;
    FromVRunning(k, t, id, t.validators[id], row, rules, rejects, n - 1);
    JudgesFrom(s, id, v, row, rejects && rules != [], t, Alone(k, t, e, n - 1));
  }

  lemma {:induction false} Acquits(k: Config, s: State, id: int, v: Validator, row: nat, rejects: bool, n: nat)
    requires id in s.validators && s.validators[id] == v && v.pc == VCompleting && n >= 1
    ensures Judges(s, id, v, row, false, Alone(k, s, StepValidator(id, Fine, rejects), n))
  {
    FromVCompleting(k, s, id, v, rejects, n);
  }

  lemma {:induction false} VerdictTaken(k: Config, s: State, id: int, v: Validator, row: nat, rules: seq<RuleView>,
                                        rejects: bool)
    requires id in s.validators && s.validators[id] == v && row in s.rows
    requires v.pc.VRunning? && v.pc.request == row && Phase2Rules(v.pc.text, s.rules, v.pc.queue, k.tier) == Some(rules)
    ensures Step(k, s, StepValidator(id, Fine, rejects))
         == ValidatorAt(Logged(s, Validated(row, Some(rules), rejects)), id, v,
                        if rejects && rules != [] then VRejecting(row) else VCompleting)
  {
  }

  lemma {:induction false} FromVRunning(k: Config, s: State, id: int, v: Validator, row: nat, rules: seq<RuleView>,
                                        rejects: bool, n: nat)
    requires id in s.validators && s.validators[id] == v && n >= 3 && row in s.rows
    requires v.pc.VRunning? && v.pc.request == row && Phase2Rules(v.pc.text, s.rules, v.pc.queue, k.tier) == Some(rules)
    ensures Judges(s, id, v, row, rejects && rules != [], Alone(k, s, StepValidator(id, Fine, rejects), n))
  {
    VerdictTaken(k, s, id, v, row, rules, rejects);
    var e := StepValidator(id, Fine, rejects);
    var t := Step(k, s, e);
    AfterVerdict(k, s, id, v, row, rejects, rejects && rules != [], t, n - 1);
  }

  lemma {:induction false} AfterVerdict(k: Config, s: State, id: int, v: Validator, row: nat, rejects: bool,
                                        convicts: bool, t: State, n: nat)
    requires id in s.validators && s.validators[id] == v && n >= 2 && row in s.rows
    requires t.validators == s.validators[id := v.(pc := if convicts then VRejecting(row) else VCompleting)]
    requires SameAround(s, t) && t.rows == s.rows && t.nextRow == s.nextRow && t.tasks == s.tasks
             && t.validations == s.validations && t.workers == s.workers
    ensures Judges(s, id, v, row, convicts, Alone(k, t, StepValidator(id, Fine, rejects), n))
  {
    if convicts {
      FromVRejecting(k, t, id, t.validators[id], row, rejects, n);
    } else {
      Acquits(k, t, id, t.validators[id], row, rejects, n);
    }
    JudgesFrom(s, id, v, row, convicts, t, Alone(k, t, StepValidator(id, Fine, rejects), n));
  }

  lemma {:induction false} JudgesFrom(s: State, id: int, v: Validator, row: nat, rejects: bool, t: State, s': State)
    requires id in t.validators && t.validators == s.validators[id := t.validators[id]] && t.validators[id].key == v.key
             && t.validators[id].attempt == v.attempt
    requires SameAround(s, t) && t.rows == s.rows && t.nextRow == s.nextRow && t.tasks == s.tasks
             && t.validations == s.validations && t.workers == s.workers
    requires Judges(t, id, t.validators[id], row, rejects, s')
    ensures Judges(s, id, v, row, rejects, s')
  {
  }

  // ---------------------------------------------------------------- a submission that runs through

  function Times(e: Event, n: nat): seq<Event>
    decreases n
  {
    if n == 0 then [] else Times(e, n - 1) + [e]
  }

  lemma {:induction false} AloneBack(k: Config, s: State, e: Event, n: nat)
    requires n > 0
    ensures Alone(k, s, e, n) == Step(k, Alone(k, s, e, n - 1), e)
    decreases n
  {
    if n > 1 { AloneBack(k, Step(k, s, e), e, n - 1); }
  }

  lemma {:induction false} RunTimes(k: Config, s: State, events: seq<Event>, e: Event, n: nat, t: State)
    requires n > 0 && Run(k, s, events + Times(e, n - 1)) == t
    ensures Run(k, s, events + Times(e, n)) == Step(k, t, e)
  {
    assert events + Times(e, n) == (events + Times(e, n - 1)) + [e];
    RunOne(k, s, events + Times(e, n - 1), e);
  }

  lemma {:induction false} AloneIsRun(k: Config, s: State, events: seq<Event>, e: Event, n: nat)
    ensures Run(k, s, events + Times(e, n)) == Alone(k, Run(k, s, events), e, n)
  {
    AloneIsRunFrom(k, s, events, e, n, Run(k, s, events));
  }

  lemma {:induction false} AloneIsRunFrom(k: Config, s: State, events: seq<Event>, e: Event, n: nat, t: State)
    requires Run(k, s, events) == t
    ensures Run(k, s, events + Times(e, n)) == Alone(k, t, e, n)
    decreases n
  {
    if n == 0 {
      assert events + Times(e, 0) == events;
    } else {
      AloneIsRunFrom(k, s, events, e, n - 1, t);
      AloneBack(k, t, e, n);
      RunTimes(k, s, events, e, n, Alone(k, t, e, n - 1));
    }
  }

  lemma {:induction false} RunOne(k: Config, s: State, events: seq<Event>, e: Event)
    ensures Run(k, s, events + [e]) == Step(k, Run(k, s, events), e)
  {
    assert (events + [e])[..|events|] == events;
  }

  /** The queue has an active rule of tier 3. */
  predicate HasTierThree(k: Config, rules: seq<RuleTable.Rule>, queue: int) {
    exists r <- rules :: r.queue == queue && r.isActive && k.tier(r.kind) == 3
  }

  lemma {:induction false} TierThreeExactly(k: Config, rules: seq<RuleTable.Rule>, queue: int)
    ensures TierThree(Views(ActiveRules(rules, queue)), k.tier) != [] <==> HasTierThree(k, rules, queue)
  {
    var active := ActiveRules(rules, queue);
    SomeTierThree(k, active);
    if r :| r in rules && r.queue == queue && r.isActive && k.tier(r.kind) == 3 { assert r in active; }
  }

  lemma {:induction false} SomeTierThree(k: Config, rules: seq<RuleTable.Rule>)
    ensures TierThree(Views(rules), k.tier) != [] <==> exists r <- rules :: k.tier(r.kind) == 3
  {
    if rules != [] {
      HeadAndTail(rules);
      assert Views(rules)[1..] == Views(rules[1..]) && rules == [rules[0]] + rules[1..];
      SomeTierThree(k, rules[1..]);
    }
  }

  ghost function AfterPost(k: Config, s: State, id: int, p: Post, status: string): State {
    Alone(k, Step(k, s, StartPost(id, p.caller, p.submitted, p.queue, p.beatmapset)), StepPost(id, Fine, status), 11)
  }

  ghost function AfterWorker(k: Config, s: State, id: int, key: int): State {
    Alone(k, Step(k, s, StartWorker(id, key)), StepWorker(id, Fine), 8)
  }

  ghost function AfterValidator(k: Config, s: State, id: int, key: int, rejects: bool): State {
    Alone(k, Step(k, s, StartValidator(id, key)), StepValidator(id, Fine, rejects), 4)
  }

  /** The task that a queued submission leaves. */
  function QueuedTask(body: Body): TaskHash {
    TaskHash(Some(body.queue), Some(body.beatmapset), Some(body.user), None, None, false, false)
  }

  lemma {:induction false} StartIs(k: Config, s: State, id: int, p: Post)
    requires id !in s.posts && p.pc == Begin
    ensures Step(k, s, StartPost(id, p.caller, p.submitted, p.queue, p.beatmapset)) == s.(posts := s.posts[id := p])
  {
  }

  lemma {:induction false} SubmissionStored(k: Config, s: State, id: int, p: Post, status: string, user: int)
    requires id !in s.posts && p.pc == Begin && Admissible(k, s, p, status)
    requires Submitter(s, p, s.queues[p.queue].enforceUserMatch) == Some(user)
    ensures var key, s' := k.handler(p.queue, p.beatmapset), AfterPost(k, s, id, p, status);
            && SameElsewhere(s, s') && key in s'.channel
            && key in s'.tasks && s'.tasks[key] == QueuedTask(Body(p.queue, p.beatmapset, user))
  {
    var t := s.(posts := s.posts[id := p]);
    StartIs(k, s, id, p);
    assert Admissible(k, t, p, status) && Submitter(t, p, s.queues[p.queue].enforceUserMatch) == Some(user);
    PostAlone(k, t, id, p, status, 11);
  }

  lemma {:induction false} SubmissionHandled(k: Config, s: State, id: int, key: int, body: Body)
    requires id !in s.workers && key in s.channel && key in s.tasks && key != k.validation(s.nextRow)
    requires s.tasks[key] == QueuedTask(body)
    requires forall r <- s.rows :: s.rows[r].queue != body.queue || s.rows[r].beatmapset != body.beatmapset
    ensures var vkey, s' := k.validation(s.nextRow), AfterWorker(k, s, id, key);
            && s'.rows == s.rows[s.nextRow := Row(body.queue, body.beatmapset, body.user, false)]
            && s'.validators == s.validators && vkey in s'.validations && vkey in s'.tasks
            && IsDispatched(s'.tasks[vkey], body, s.nextRow, ActiveRules(s.rules.rules, body.queue))
  {
    var t := s.(workers := s.workers[id := Worker(key, 1, Reading)]);
    assert Step(k, s, StartWorker(id, key)) == t;
    WorkerAlone(k, t, id, Worker(key, 1, Reading), body, 8);
  }

  /** The task of a validation with these rules. */
  predicate IsDispatched(h: TaskHash, body: Body, row: nat, rules: seq<RuleTable.Rule>) {
    h.request == Some(row) && h.queue == Some(body.queue) && h.beatmapset == Some(body.beatmapset)
    && h.snapshot == Some(Snapshot(rules))
  }

  lemma {:induction false} SubmissionJudged(k: Config, s: State, id: int, key: int, row: nat, body: Body,
                                            rules: seq<RuleTable.Rule>, rejects: bool)
    requires id !in s.validators && key in s.validations && key in s.tasks && row in s.rows && ValidConfigs(rules)
    requires !s.rows[row].rejected && IsDispatched(s.tasks[key], body, row, rules)
    ensures AfterValidator(k, s, id, key, rejects).rows
         == s.rows[row := s.rows[row].(rejected := rejects && TierThree(Views(rules), k.tier) != [])]
  {
    var t := s.(validators := s.validators[id := Validator(key, 1, VReading)]);
    assert Step(k, s, StartValidator(id, key)) == t;
    SnapshotRoundTrip(rules);
    ValidatorAlone(k, t, id, Validator(key, 1, VReading), row, TierThree(Views(rules), k.tier), rejects, 4);
  }

  /** A submission, then its task, then its validation, each left alone. */
  function Script(k: Config, id: int, p: Post, status: string, worker: int, validator: int, row: nat, rejects: bool)
    : seq<Event>
  {
    [StartPost(id, p.caller, p.submitted, p.queue, p.beatmapset)] + Times(StepPost(id, Fine, status), 11)
    + [StartWorker(worker, k.handler(p.queue, p.beatmapset))] + Times(StepWorker(worker, Fine), 8)
    + [StartValidator(validator, k.validation(row))] + Times(StepValidator(validator, Fine, rejects), 4)
  }

  lemma {:induction false} ScriptRuns(k: Config, s: State, id: int, p: Post, status: string, worker: int,
                                      validator: int, row: nat, rejects: bool)
    ensures Run(k, s, Script(k, id, p, status, worker, validator, row, rejects))
         == AfterValidator(k, AfterWorker(k, AfterPost(k, s, id, p, status), worker, k.handler(p.queue, p.beatmapset)),
                           validator, k.validation(row), rejects)
  {
    var a := [StartPost(id, p.caller, p.submitted, p.queue, p.beatmapset)];
    assert [] + a == a;
    RunOne(k, s, [], a[0]);
    AloneIsRun(k, s, a, StepPost(id, Fine, status), 11);
    var b := a + Times(StepPost(id, Fine, status), 11);
    var w := StartWorker(worker, k.handler(p.queue, p.beatmapset));
    RunOne(k, s, b, w);
    AloneIsRun(k, s, b + [w], StepWorker(worker, Fine), 8);
    var c := b + [w] + Times(StepWorker(worker, Fine), 8);
    var v := StartValidator(validator, k.validation(row));
    RunOne(k, s, c, v);
    AloneIsRun(k, s, c + [v], StepValidator(validator, Fine, rejects), 4);
  }

  /** A stored task becomes a row with a verdict. */
  lemma {:induction false} StoredRunsThrough(k: Config, s: State, key: int, body: Body, worker: int, validator: int,
                                             rejects: bool)
    requires worker !in s.workers && validator !in s.validators && ValidConfigs(s.rules.rules)
    requires key in s.channel && key in s.tasks && s.tasks[key] == QueuedTask(body) && key != k.validation(s.nextRow)
    requires forall r <- s.rows :: s.rows[r].queue != body.queue || s.rows[r].beatmapset != body.beatmapset
    ensures AfterValidator(k, AfterWorker(k, s, worker, key), validator, k.validation(s.nextRow), rejects).rows
         == s.rows[s.nextRow := Row(body.queue, body.beatmapset, body.user,
                                    rejects && HasTierThree(k, s.rules.rules, body.queue))]
  {
    SubmissionHandled(k, s, worker, key, body);
    HandledRunsThrough(k, s, AfterWorker(k, s, worker, key), body, validator, rejects);
  }

  lemma {:induction false} HandledRunsThrough(k: Config, s: State, t: State, body: Body, validator: int, rejects: bool)
    requires validator !in t.validators && ValidConfigs(s.rules.rules)
    requires t.rows == s.rows[s.nextRow := Row(body.queue, body.beatmapset, body.user, false)]
    requires k.validation(s.nextRow) in t.validations && k.validation(s.nextRow) in t.tasks
    requires IsDispatched(t.tasks[k.validation(s.nextRow)], body, s.nextRow, ActiveRules(s.rules.rules, body.queue))
    ensures AfterValidator(k, t, validator, k.validation(s.nextRow), rejects).rows
         == s.rows[s.nextRow := Row(body.queue, body.beatmapset, body.user,
                                    rejects && HasTierThree(k, s.rules.rules, body.queue))]
  {
    SubmissionJudged(k, t, validator, k.validation(s.nextRow), s.nextRow, body, ActiveRules(s.rules.rules, body.queue),
                     rejects);
    TierThreeExactly(k, s.rules.rules, body.queue);
  }

  /** An admissible submission that nothing disturbs ends as one new row, for that queue, beatmapset and
      user, which is rejected exactly when the queue had an active tier-3 rule and the verdict is
      against it. */
  lemma {:induction false} SubmissionRunsThrough(k: Config, s: State, id: int, p: Post, status: string, user: int,
                                                 worker: int, validator: int, rejects: bool)
    requires id !in s.posts && worker !in s.workers && validator !in s.validators && p.pc == Begin
    requires ValidConfigs(s.rules.rules) && k.handler(p.queue, p.beatmapset) != k.validation(s.nextRow)
    requires Admissible(k, s, p, status) && Submitter(s, p, s.queues[p.queue].enforceUserMatch) == Some(user)
    ensures Run(k, s, Script(k, id, p, status, worker, validator, s.nextRow, rejects)).rows
         == s.rows[s.nextRow := Row(p.queue, p.beatmapset, user,
                                    rejects && HasTierThree(k, s.rules.rules, p.queue))]
  {
    ScriptRuns(k, s, id, p, status, worker, validator, s.nextRow, rejects);
    SubmissionStored(k, s, id, p, status, user);
    var s1 := AfterPost(k, s, id, p, status);
    StoredRunsThrough(k, s1, k.handler(p.queue, p.beatmapset), Body(p.queue, p.beatmapset, user), worker, validator,
                      rejects);
  }

  // ---------------------------------------------------------------- DELETE and the clean-up

  /** Left alone, a DELETE handler removes its row and the two task hashes that the row stands for. */
  lemma {:induction false} DeleteAlone(k: Config, s: State, id: int, row: nat, n: nat)
    requires id in s.deleters && s.deleters[id] == Deleter(row, DReading) && row in s.rows && n >= 4
    ensures Alone(k, s, StepDelete(id), n)
         == s.(tasks := s.tasks - {k.handler(s.rows[row].queue, s.rows[row].beatmapset), k.apiValidation(row)},
               rows := s.rows - {row}, deleters := s.deleters[id := Deleter(row, DFinished)])
  {
    var e, key := StepDelete(id), k.handler(s.rows[row].queue, s.rows[row].beatmapset);
    var a := s.(deleters := s.deleters[id := Deleter(row, DHandler(s.rows[row]))]);
    var b := s.(tasks := s.tasks - {key}, deleters := s.deleters[id := Deleter(row, DValidation)]);
    assert Step(k, s, e) == a;
    assert Step(k, a, e) == b;
    assert Alone(k, s, e, n) == Alone(k, a, e, n - 1) == Alone(k, b, e, n - 2);
    FromDValidation(k, b, id, row, n - 2);
    assert s.tasks - {key} - {k.apiValidation(row)} == s.tasks - {key, k.apiValidation(row)};
  }

  lemma {:induction false} FromDValidation(k: Config, s: State, id: int, row: nat, n: nat)
    requires id in s.deleters && s.deleters[id] == Deleter(row, DValidation) && n >= 2
    ensures Alone(k, s, StepDelete(id), n)
         == s.(tasks := s.tasks - {k.apiValidation(row)}, rows := s.rows - {row},
               deleters := s.deleters[id := Deleter(row, DFinished)])
  {
    var e := StepDelete(id);
    var a := s.(tasks := s.tasks - {k.apiValidation(row)}, deleters := s.deleters[id := Deleter(row, DRow)]);
    var b := a.(rows := a.rows - {row}, deleters := a.deleters[id := Deleter(row, DFinished)]);
    assert Step(k, s, e) == a;
    assert Step(k, a, e) == b;
    assert Alone(k, s, e, n) == Alone(k, a, e, n - 1) == Alone(k, b, e, n - 2);
    AloneEnds(k, b, e, n - 2);
  }

  /** Tasks that were neither completed nor failed, among these keys. */
  function Stale(tasks: map<int, TaskHash>, keys: seq<int>): set<int> {
    set key | key in keys && key in tasks && !tasks[key].completed && !tasks[key].failed
  }

  /** The clean-up is through, and the stale tasks are gone. */
  ghost function Swept(s: State, id: int, keys: seq<int>): State {
    s.(tasks := s.tasks - Stale(s.tasks, keys), cleaners := s.cleaners[id := Cleaner([], None)])
  }

  /** The clean-up has gone past one task, which stays or is gone. */
  function Passed(s: State, id: int, gone: set<int>, rest: seq<int>): State {
    s.(tasks := s.tasks - gone, cleaners := s.cleaners[id := Cleaner(rest, None)])
  }

  predicate IsStale(s: State, key: int) { !Hash(s, key).completed && !Hash(s, key).failed }

  /** Left alone, the clean-up drops exactly the tasks it found neither completed nor failed. */
  lemma {:induction false} CleanupAlone(k: Config, s: State, id: int, keys: seq<int>, n: nat)
    requires id in s.cleaners && s.cleaners[id] == Cleaner(keys, None) && n >= 2 * |keys|
    ensures Alone(k, s, StepCleanup(id), n) == Swept(s, id, keys)
    decreases |keys|
  {
    if keys == [] {
      assert s.tasks - {} == s.tasks;
      AloneEnds(k, s, StepCleanup(id), n);
    } else {
      var key, rest := keys[0], keys[1..];
      assert keys == [key] + rest;
      var gone := if IsStale(s, key) then {key} else {};
      CleanupPasses(k, s, id, key, rest, n);
      CleanupAlone(k, Passed(s, id, gone, rest), id, rest, if IsStale(s, key) then n - 2 else n - 1);
      SweptFrom(s, id, key, rest);
    }
  }

  lemma {:induction false} CleanupPasses(k: Config, s: State, id: int, key: int, rest: seq<int>, n: nat)
    requires id in s.cleaners && s.cleaners[id] == Cleaner([key] + rest, None) && n >= 2
    ensures Alone(k, s, StepCleanup(id), n)
         == if IsStale(s, key) then Alone(k, Passed(s, id, {key}, rest), StepCleanup(id), n - 2)
            else Alone(k, Passed(s, id, {}, rest), StepCleanup(id), n - 1)
  {
    var e := StepCleanup(id);
    assert ([key] + rest)[1..] == rest;
    if IsStale(s, key) {
      var a := s.(cleaners := s.cleaners[id := Cleaner(rest, Some(key))]);
      assert Step(k, s, e) == a;
      assert Step(k, a, e) == Passed(s, id, {key}, rest);
    } else {
      assert s.tasks - {} == s.tasks;
      assert Step(k, s, e) == Passed(s, id, {}, rest);
    }
  }

  lemma {:induction false} SweptFrom(s: State, id: int, key: int, rest: seq<int>)
    ensures Swept(Passed(s, id, if IsStale(s, key) then {key} else {}, rest), id, rest) == Swept(s, id, [key] + rest)
  {
    var gone := if IsStale(s, key) then {key} else {};
    StaleHead(s.tasks, key, rest, gone);
    assert s.cleaners[id := Cleaner(rest, None)][id := Cleaner([], None)] == s.cleaners[id := Cleaner([], None)];
  }

  lemma StaleHead(tasks: map<int, TaskHash>, key: int, rest: seq<int>, gone: set<int>)
    requires gone == if key in tasks && (tasks[key].completed || tasks[key].failed) then {} else {key}
    ensures tasks - gone - Stale(tasks - gone, rest) == tasks - Stale(tasks, [key] + rest)
  {
  }
}
