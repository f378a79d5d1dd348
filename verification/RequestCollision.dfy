/** Why the two kinds of task must never share a Redis key (app/daemon/services/queue_request_handler.py:58-103):
    for every pair of key functions that collide on some row, a run ends with a row whose user never
    submitted its beatmapset. */
module RequestCollision {
  import opened Options
  import RuleTable
  import opened RuleSnapshot
  import opened RequestProtocol
  import RequestRuns

  // ---------------------------------------------------------------- reachable states

  /** Every step from a state of `r` stays in `r`. */
  ghost predicate Closed(k: Config, r: iset<State>) { forall t, e :: t in r ==> Step(k, t, e) in r }

  lemma {:induction false} Stays(k: Config, r: iset<State>, t: State, e: Event)
    requires Closed(k, r) && t in r
    ensures Step(k, t, e) in r
  {
  }

  /** The events that this run uses, one by one. */
  lemma {:induction false} StartsPost(k: Config, r: iset<State>, t: State, id: int, user: int, q: int, b: int)
    requires Closed(k, r) && t in r && id !in t.posts
    ensures t.(posts := t.posts[id := Post(Some(user), None, q, b, Begin)]) in r
  {
    Stays(k, r, t, StartPost(id, Some(user), None, q, b));
  }

  lemma {:induction false} StepsPost(k: Config, r: iset<State>, t: State, id: int)
    requires Closed(k, r) && t in r && id in t.posts
    ensures PostStep(k, t, id, t.posts[id], Fine, "pending") in r
  {
    Stays(k, r, t, StepPost(id, Fine, "pending"));
  }

  lemma {:induction false} StartsWorker(k: Config, r: iset<State>, t: State, id: int, key: int)
    requires Closed(k, r) && t in r && id !in t.workers && key in t.channel
    ensures t.(workers := t.workers[id := Worker(key, 1, Reading)]) in r
  {
    Stays(k, r, t, StartWorker(id, key));
  }

  lemma {:induction false} StepsWorker(k: Config, r: iset<State>, t: State, id: int)
    requires Closed(k, r) && t in r && id in t.workers
    ensures WorkerStep(k, t, id, t.workers[id], Fine) in r
  {
    Stays(k, r, t, StepWorker(id, Fine));
  }

  lemma {:induction false} StartsDelete(k: Config, r: iset<State>, t: State, id: int, row: nat)
    requires Closed(k, r) && t in r && id !in t.deleters
    ensures t.(deleters := t.deleters[id := Deleter(row, DReading)]) in r
  {
    Stays(k, r, t, StartDelete(id, row));
  }

  lemma {:induction false} StepsDelete(k: Config, r: iset<State>, t: State, id: int)
    requires Closed(k, r) && t in r && id in t.deleters
    ensures DeleteStep(k, t, id, t.deleters[id]) in r
  {
    Stays(k, r, t, StepDelete(id));
  }

  // ---------------------------------------------------------------- a POST that goes through

  /** `t` with a handler at `pc` and these entries logged. */
  function PostAt(t: State, id: int, q: int, b: int, user: int, pc: PostPc, entries: seq<Entry>): State {
    t.(posts := t.posts[id := Post(Some(user), None, q, b, pc)], log := t.log + entries)
  }

  function Gates(id: int, q: int, b: int, user: int): seq<Entry> {
    [OpenSeen(id, q), UserSeen(id, user, user, false, false), NoRowSeen(id, q, b), StatusSeen(id, b, "pending"),
     Phase1Passed(id, q, b, user)]
  }

  function Submission(q: int, b: int, user: int): TaskHash {
    NO_TASK.(queue := Some(q), beatmapset := Some(b), user := Some(user))
  }

  function Posted(k: Config, t: State, id: int, q: int, b: int, user: int): State {
    var key := k.handler(q, b);
    PostAt(t, id, q, b, user, Queued, Gates(id, q, b, user)).(
      tasks := t.tasks[key := Submission(q, b, user)], channel := t.channel + {key})
  }

  /** Nothing stands in the way of a submission. */
  ghost predicate Free(k: Config, t: State, id: int, q: int, b: int) {
    && id !in t.posts && t.admins == {} && q in t.queues && t.queues[q] == Queue(true, false)
    && !PairTaken(t.rows, q, b) && k.handler(q, b) !in t.tasks
  }

  /** One step of a handler that only moves on and logs. */
  lemma {:induction false} PostAdvances(k: Config, r: iset<State>, t: State, id: int, q: int, b: int, user: int,
                     pc: PostPc, entries: seq<Entry>, pc': PostPc, more: seq<Entry>)
    requires Closed(k, r) && PostAt(t, id, q, b, user, pc, entries) in r
    requires var u := PostAt(t, id, q, b, user, pc, entries);
             PostStep(k, u, id, Post(Some(user), None, q, b, pc), Fine, "pending")
             == u.(posts := u.posts[id := Post(Some(user), None, q, b, pc')], log := u.log + more)
    ensures PostAt(t, id, q, b, user, pc', entries + more) in r
  {
    var u := PostAt(t, id, q, b, user, pc, entries);
    assert u.posts[id] == Post(Some(user), None, q, b, pc);
    StepsPost(k, r, u, id);
    PostMovesOn(t, id, q, b, user, pc, entries, pc', more);
  }

  lemma {:induction false} PostMovesOn(t: State, id: int, q: int, b: int, user: int,
                                       pc: PostPc, entries: seq<Entry>, pc': PostPc, more: seq<Entry>)
    ensures var u := PostAt(t, id, q, b, user, pc, entries);
            u.(posts := u.posts[id := Post(Some(user), None, q, b, pc')], log := u.log + more)
            == PostAt(t, id, q, b, user, pc', entries + more)
  {
    var u, p := PostAt(t, id, q, b, user, pc, entries), Post(Some(user), None, q, b, pc');
    assert u.posts[id := p] == t.posts[id := p];
    assert u.log + more == t.log + (entries + more);
  }

  lemma {:induction false} PostResolvesUser(k: Config, r: iset<State>, t: State, id: int, q: int, b: int, user: int)
    requires Closed(k, r) && t in r && Free(k, t, id, q, b)
    ensures PostAt(t, id, q, b, user, UserResolved(user), Gates(id, q, b, user)[..2]) in r
  {
    var gates := Gates(id, q, b, user);
    StartsPost(k, r, t, id, user, q, b);
    assert t.log + [] == t.log;
    PostAdvances(k, r, t, id, q, b, user, Begin, [], QueueRead(false), [gates[0]]);
    PostAdvances(k, r, t, id, q, b, user, QueueRead(false), [] + [gates[0]], UserResolved(user), [gates[1]]);
    assert [] + [gates[0]] + [gates[1]] == gates[..2];
  }

  lemma {:induction false} PostChecksStatus(k: Config, r: iset<State>, t: State, id: int, q: int, b: int, user: int)
    requires Closed(k, r) && t in r && Free(k, t, id, q, b)
    ensures PostAt(t, id, q, b, user, StatusChecked(user), Gates(id, q, b, user)[..4]) in r
  {
    var gates := Gates(id, q, b, user);
    PostResolvesUser(k, r, t, id, q, b, user);
    PendingIsNotRanked();
    PostAdvances(k, r, t, id, q, b, user, UserResolved(user), gates[..2], RowAbsent(user), [gates[2]]);
    assert gates[..2] + [gates[2]] == gates[..3];
    PostAdvances(k, r, t, id, q, b, user, RowAbsent(user), gates[..3], StatusChecked(user), [gates[3]]);
    assert gates[..3] + [gates[3]] == gates[..4];
  }

  lemma {:induction false} PostReachesStore(k: Config, r: iset<State>, t: State, id: int, q: int, b: int, user: int)
    requires Closed(k, r) && t in r && Free(k, t, id, q, b)
    ensures PostAt(t, id, q, b, user, Reserved(user), Gates(id, q, b, user)) in r
  {
    var gates := Gates(id, q, b, user);
    PostChecksStatus(k, r, t, id, q, b, user);
    PostAdvances(k, r, t, id, q, b, user, StatusChecked(user), gates[..4], Eligible(user), [gates[4]]);
    assert gates[..4] + [gates[4]] == gates && gates + [] == gates;
    assert t.log + gates + [] == t.log + gates;
    PostAdvances(k, r, t, id, q, b, user, Eligible(user), gates, TaskClear(user), []);
    PostAdvances(k, r, t, id, q, b, user, TaskClear(user), gates, Reserved(user), []);
  }

  lemma {:induction false} PendingIsNotRanked()
    ensures "pending" !in RANKED
  {
    assert "pending"[0] == 'p' && "ranked"[0] == 'r' && "approved"[0] == 'a' && "qualified"[0] == 'q'
        && "loved"[0] == 'l';
  }

  function PostStored(k: Config, t: State, id: int, q: int, b: int, user: int): State {
    PostAt(t, id, q, b, user, Stored(user), Gates(id, q, b, user)).(
      tasks := t.tasks[k.handler(q, b) := Submission(q, b, user)])
  }

  lemma {:induction false} SubmissionStored(k: Config, r: iset<State>, t: State, id: int, q: int, b: int, user: int)
    requires Closed(k, r) && PostAt(t, id, q, b, user, Reserved(user), Gates(id, q, b, user)) in r
    requires k.handler(q, b) !in t.tasks
    ensures PostStored(k, t, id, q, b, user) in r
  {
    var u := PostAt(t, id, q, b, user, Reserved(user), Gates(id, q, b, user));
    StepsPost(k, r, u, id);
    var next := PostStep(k, u, id, u.posts[id], Fine, "pending");
    assert next.posts == t.posts[id := Post(Some(user), None, q, b, Stored(user))];
  }

  lemma {:induction false} SubmissionPublished(k: Config, r: iset<State>, t: State, id: int, q: int, b: int, user: int)
    requires Closed(k, r) && PostStored(k, t, id, q, b, user) in r
    ensures Posted(k, t, id, q, b, user) in r
  {
    var u := PostStored(k, t, id, q, b, user);
    StepsPost(k, r, u, id);
    var next := PostStep(k, u, id, u.posts[id], Fine, "pending");
    assert next.posts == t.posts[id := Post(Some(user), None, q, b, Queued)];
  }

  lemma {:induction false} PostRuns(k: Config, r: iset<State>, t: State, id: int, q: int, b: int, user: int)
    requires Closed(k, r) && t in r && Free(k, t, id, q, b)
    ensures Posted(k, t, id, q, b, user) in r
  {
    PostReachesStore(k, r, t, id, q, b, user);
    SubmissionStored(k, r, t, id, q, b, user);
    SubmissionPublished(k, r, t, id, q, b, user);
  }

  // ---------------------------------------------------------------- workers and DELETE

  function Inserted(t: State, id: int, key: int, body: Body): State {
    t.(workers := t.workers[id := Worker(key, 1, Snapshotting(body, t.nextRow))],
       rows := t.rows[t.nextRow := Row(body.queue, body.beatmapset, body.user, false)], nextRow := t.nextRow + 1,
       log := t.log + [Created(t.nextRow, body.queue, body.beatmapset, body.user)])
  }

  /** A worker takes a message and inserts the row its task hash reads as. */
  lemma {:induction false} WorkerInserts(k: Config, r: iset<State>, t: State, id: int, key: int, body: Body)
    requires Closed(k, r) && t in r && id !in t.workers && key in t.channel
    requires HandlerBody(Hash(t, key)) == Some(body) && !PairTaken(t.rows, body.queue, body.beatmapset)
    ensures Inserted(t, id, key, body) in r
  {
    StartsWorker(k, r, t, id, key);
    WorkerAdvances(k, r, t, id, Worker(key, 1, Reading), Archiving(body));
    WorkerAdvances(k, r, t, id, Worker(key, 1, Archiving(body)), LookingUp(body));
    WorkerAdvances(k, r, t, id, Worker(key, 1, LookingUp(body)), Inserting(body));
    RowInserted(k, r, t, t.(workers := t.workers[id := Worker(key, 1, Inserting(body))]), id, key, body);
  }

  lemma {:induction false} RowInserted(k: Config, r: iset<State>, t: State, v: State, id: int, key: int, body: Body)
    requires Closed(k, r) && v in r && !PairTaken(t.rows, body.queue, body.beatmapset)
    requires v == t.(workers := t.workers[id := Worker(key, 1, Inserting(body))])
    ensures Inserted(t, id, key, body) in r
  {
    StepsWorker(k, r, v, id);
    var done := WorkerStep(k, v, id, v.workers[id], Fine);
    assert done.workers == t.workers[id := Worker(key, 1, Snapshotting(body, t.nextRow))];
    assert done == Inserted(t, id, key, body);
  }

  lemma {:induction false} WorkerAdvances(k: Config, r: iset<State>, u: State, id: int, w: Worker, pc: WorkerPc)
    requires var v := u.(workers := u.workers[id := w]);
             Closed(k, r) && v in r && WorkerStep(k, v, id, w, Fine) == WorkerAt(v, id, w, pc)
    ensures u.(workers := u.workers[id := w.(pc := pc)]) in r
  {
    var v := u.(workers := u.workers[id := w]);
    StepsWorker(k, r, v, id);
    assert v.workers[id := w.(pc := pc)] == u.workers[id := w.(pc := pc)];
  }

  /** The hash once the validation task is stored over what is there. */
  function Merged(h: TaskHash, body: Body, row: nat, text: string): TaskHash {
    h.(queue := Some(body.queue), beatmapset := Some(body.beatmapset), request := Some(row), snapshot := Some(text),
       completed := false, failed := false)
  }

  function DispatchedBy(k: Config, t: State, id: int, key: int, body: Body, row: nat): State {
    var rules := ActiveRules(t.rules.rules, body.queue);
    var task := k.validation(row);
    t.(workers := t.workers[id := Worker(key, 1, Publishing(body, row))],
       tasks := t.tasks[task := Merged(Hash(t, task), body, row, Snapshot(rules))],
       log := t.log + [Dispatched(row, body.queue, rules)])
  }

  lemma {:induction false} DispatchReached(k: Config, r: iset<State>, t: State, id: int, key: int, body: Body,
                                            row: nat)
    requires Closed(k, r) && t in r && id in t.workers && t.workers[id] == Worker(key, 1, Snapshotting(body, row))
    ensures DispatchedBy(k, t, id, key, body, row) in r
  {
    StepsWorker(k, r, t, id);
    var u := WorkerStep(k, t, id, t.workers[id], Fine);
    StepsWorker(k, r, u, id);
    var done := WorkerStep(k, u, id, u.workers[id], Fine);
    assert done.workers == t.workers[id := Worker(key, 1, Publishing(body, row))];
    assert done == DispatchedBy(k, t, id, key, body, row);
  }

  function Deleted(k: Config, t: State, id: int, row: nat): State
    requires row in t.rows
  {
    t.(rows := t.rows - {row}, deleters := t.deleters[id := Deleter(row, DFinished)],
       tasks := t.tasks - {k.handler(t.rows[row].queue, t.rows[row].beatmapset)} - {k.apiValidation(row)})
  }

  /** Both task hashes are gone, the row is still there. */
  function TasksDropped(k: Config, t: State, id: int, row: nat): State
    requires row in t.rows
  {
    t.(deleters := t.deleters[id := Deleter(row, DRow)],
       tasks := t.tasks - {k.handler(t.rows[row].queue, t.rows[row].beatmapset)} - {k.apiValidation(row)})
  }

  lemma {:induction false} TasksAreDropped(k: Config, r: iset<State>, t: State, id: int, row: nat)
    requires Closed(k, r) && t in r && id !in t.deleters && row in t.rows
    ensures TasksDropped(k, t, id, row) in r
  {
    StartsDelete(k, r, t, id, row);
    var t1 := t.(deleters := t.deleters[id := Deleter(row, DReading)]);
    StepsDelete(k, r, t1, id);
    var t2 := DeleteStep(k, t1, id, t1.deleters[id]);
    StepsDelete(k, r, t2, id);
    var t3 := DeleteStep(k, t2, id, t2.deleters[id]);
    StepsDelete(k, r, t3, id);
    var t4 := DeleteStep(k, t3, id, t3.deleters[id]);
    assert t4.deleters == t.deleters[id := Deleter(row, DRow)];
    assert t4 == TasksDropped(k, t, id, row);
  }

  lemma {:induction false} DeleteRuns(k: Config, r: iset<State>, t: State, id: int, row: nat)
    requires Closed(k, r) && t in r && id !in t.deleters && row in t.rows
    ensures Deleted(k, t, id, row) in r
  {
    var u := TasksDropped(k, t, id, row);
    TasksAreDropped(k, r, t, id, row);
    StepsDelete(k, r, u, id);
    assert u.deleters[id := Deleter(row, DFinished)] == t.deleters[id := Deleter(row, DFinished)];
    assert DeleteStep(k, u, id, u.deleters[id]) == Deleted(k, t, id, row);
  }

  // ---------------------------------------------------------------- using up row ids

  const ALICE := 1
  const BOB := 2

  /** Nothing is stored, `n` rows have come and gone, and every submission so far was Alice's. */
  ghost predicate Clean(s: State, q1: int, q2: int, n: nat) {
    && s.rows == map[] && s.tasks == map[] && s.nextRow == n && s.admins == {}
    && q1 in s.queues && q2 in s.queues && s.queues[q1] == s.queues[q2] == Queue(true, false)
    && (forall id <- s.posts :: id < n) && (forall id <- s.workers :: id < n) && (forall id <- s.deleters :: id < n)
    && OnlyAlice(s.log)
  }

  ghost predicate OnlyAlice(log: seq<Entry>) { forall e <- log :: e.Phase1Passed? ==> e.user == ALICE }

  /** Alice submits (q2, b2), a worker inserts the row and it is deleted before its validation is dispatched. */
  lemma {:induction false} Round(k: Config, r: iset<State>, t: State, q1: int, q2: int, b2: int, n: nat)
      returns (u: State)
    requires Closed(k, r) && t in r && Clean(t, q1, q2, n)
    ensures u in r && Clean(u, q1, q2, n + 1)
    ensures n in u.workers && u.workers[n] == Worker(k.handler(q2, b2), 1, Snapshotting(Body(q2, b2, ALICE), n))
  {
    var body, key := Body(q2, b2, ALICE), k.handler(q2, b2);
    PostRuns(k, r, t, n, q2, b2, ALICE);
    var posted := Posted(k, t, n, q2, b2, ALICE);
    WorkerInserts(k, r, posted, n, key, body);
    var inserted := Inserted(posted, n, key, body);
    DeleteRuns(k, r, inserted, n, n);
    u := Deleted(k, inserted, n, n);
    LeavesClean(k, t, q1, q2, b2, n);
  }

  lemma {:induction false} LeavesClean(k: Config, t: State, q1: int, q2: int, b2: int, n: nat)
    requires Clean(t, q1, q2, n)
    ensures var inserted := Inserted(Posted(k, t, n, q2, b2, ALICE), n, k.handler(q2, b2), Body(q2, b2, ALICE));
            Clean(Deleted(k, inserted, n, n), q1, q2, n + 1)
  {
    var u := Deleted(k, Inserted(Posted(k, t, n, q2, b2, ALICE), n, k.handler(q2, b2), Body(q2, b2, ALICE)), n, n);
    assert u.rows == map[] && u.tasks == map[] && OnlyAlice(u.log);
  }

  lemma {:induction false} CleanReached(k: Config, r: iset<State>, s: State, q1: int, q2: int, b2: int, n: nat)
    returns (t: State)
    requires Closed(k, r) && s in r && Clean(s, q1, q2, 0)
    ensures t in r && Clean(t, q1, q2, n)
  {
    if n == 0 {
      t := s;
    } else {
      var u := CleanReached(k, r, s, q1, q2, b2, n - 1);
      t := Round(k, r, u, q1, q2, b2, n - 1);
    }
  }

  // ---------------------------------------------------------------- the forged row

  lemma {:induction false} NotVouched(log: seq<Entry>, q1: int, b1: int, q2: int, b2: int)
    requires (q1, b1) != (q2, b2)
    requires forall e <- log :: e.Phase1Passed? ==> e.user == ALICE || (e.queue == q1 && e.beatmapset == b1)
    ensures !Vouched(log, q2, b2, BOB)
  {
    if id :| Cleared(log, id, q2, b2, BOB) { assert Phase1Passed(id, q2, b2, BOB) in log; }
  }

  /** Bob submits (q1, b1), whose task hash takes the validation task of Alice's deleted row: read
      back, it is Alice's beatmapset with Bob's user. */
  lemma {:induction false} Forges(k: Config, r: iset<State>, t: State, q1: int, b1: int, q2: int, b2: int, n: nat)
      returns (end: State)
    requires Closed(k, r) && t in r && Clean(t, q1, q2, n) && k.handler(q1, b1) == k.validation(n)
             && (q1, b1) != (q2, b2)
    ensures end in r && n + 1 in end.rows && end.rows[n + 1] == Row(q2, b2, BOB, false)
    ensures !Vouched(end.log, q2, b2, BOB)
  {
    var key1, key2, alices, forged := k.handler(q1, b1), k.handler(q2, b2), Body(q2, b2, ALICE), Body(q2, b2, BOB);
    var gone := Round(k, r, t, q1, q2, b2, n);
    PostRuns(k, r, gone, n + 1, q1, b1, BOB);
    var posted := Posted(k, gone, n + 1, q1, b1, BOB);
    DispatchReached(k, r, posted, n, key2, alices, n);
    var dispatched := DispatchedBy(k, posted, n, key2, alices, n);
    assert HandlerBody(Hash(dispatched, key1)) == Some(forged);
    WorkerInserts(k, r, dispatched, n + 1, key1, forged);
    end := Inserted(dispatched, n + 1, key1, forged);
    NotVouched(end.log, q1, b1, q2, b2);
  }

  // ---------------------------------------------------------------- the exact condition

  /** Rows are unique, and each was vouched for. */
  ghost predicate Safe(s: State) {
    && UniqueRows(s.rows)
    && forall id <- s.rows :: Vouched(s.log, s.rows[id].queue, s.rows[id].beatmapset, s.rows[id].user)
  }

  ghost predicate AlwaysSafe(k: Config) {
    forall queues, admins, rules: RuleTable.Table, events ::
      ValidConfigs(rules.rules) ==> Safe(Run(k, Initial(queues, admins, rules), events))
  }

  ghost function Reachable(k: Config, s: State): iset<State> {
    iset t: State | Reaches(k, s, t)
  }

  ghost predicate Reaches(k: Config, s: State, t: State) { exists events :: Run(k, s, events) == t }

  lemma {:induction false} ReachableIsClosed(k: Config, s: State)
    ensures Closed(k, Reachable(k, s)) && s in Reachable(k, s)
  {
    assert Run(k, s, []) == s;
    forall t, e | t in Reachable(k, s) ensures Step(k, t, e) in Reachable(k, s) {
      var events :| Run(k, s, events) == t;
      assert (events + [e])[..|events|] == events;
      assert Run(k, s, events + [e]) == Step(k, t, e);
    }
  }

  lemma {:induction false} CollisionIsUnsafe(k: Config, q1: int, b1: int, n: nat)
    requires k.handler(q1, b1) == k.validation(n)
    ensures !AlwaysSafe(k)
  {
    var q2, b2 := q1, b1 + 1;
    var queues, rules := map[q1 := Queue(true, false)], RuleTable.Table([], 0);
    var s := Initial(queues, {}, rules);
    ReachableIsClosed(k, s);
    var t := CleanReached(k, Reachable(k, s), s, q1, q2, b2, n);
    var end := Forges(k, Reachable(k, s), t, q1, b1, q2, b2, n);
    var events :| Run(k, s, events) == end;
    assert !Safe(Run(k, Initial(queues, {}, rules), events));
  }

  /** Every run from every start is safe exactly when no handler task shares its key with the
      validation task of a row. */
  lemma {:induction false} SafeExactlyWhenDisjoint(k: Config)
    ensures AlwaysSafe(k) <==> Disjoint(k)
  {
    if Disjoint(k) {
      forall queues, admins, rules: RuleTable.Table, events | ValidConfigs(rules.rules)
        ensures Safe(Run(k, Initial(queues, admins, rules), events))
      {
        RequestRuns.DisjointIsApart(k, Run(k, Initial(queues, admins, rules), events).log);
        RequestRuns.RunIsSafe(k, queues, admins, rules, events);
      }
    } else {
      var q, b, row: nat :| k.handler(q, b) == k.validation(row);
      CollisionIsUnsafe(k, q, b, row);
    }
  }
}
