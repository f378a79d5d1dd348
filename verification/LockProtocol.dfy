/** The token lock with lease expiry (app/redis/rc.py:103-156), for any number of clients.

    A client is one use of `lock_ctx`. Time passes only in `Tick`; between any two commands of a
    client, other clients may act and time may pass. */
module LockProtocol {
  import opened Options

  /** What each use chooses for itself. */
  datatype Params = Params(expiry: real, timeout: real, retry: real)

  predicate ValidParams(c: Params) { c.expiry > 0.0 && c.timeout >= 0.0 && c.retry > 0.0 }

  /** The key as Redis holds it: whose token, and until when. */
  datatype Lease = Lease(token: int, until: real)

  datatype Phase =
    | Trying(wakeAt: real)     // next: SET key token EX expiry NX, not before wakeAt
    | Checking                 // the attempt failed; next: compare the clock with the deadline
    | Inside(until: real)      // in the body of the context manager
    | TimedOut
    | Left

  datatype Client = Client(params: Params, token: int, start: real, attempts: nat, phase: Phase)

  datatype State = State(now: real, key: Option<Lease>, clients: map<int, Client>)

  datatype Event =
    | Tick(seconds: real)
    | Enter(id: int, params: Params, token: int)
    | Attempt(id: int)
    | Check(id: int)
    | Release(id: int)

  /** An expired key is as good as none. */
  predicate Held(s: State) { s.key.Some? && s.now < s.key.value.until }

  function Put(s: State, id: int, c: Client, phase: Phase): State {
    s.(clients := s.clients[id := c.(phase := phase)])
  }

  ghost predicate FreshToken(s: State, token: int) {
    forall id <- s.clients :: s.clients[id].token != token
  }

  ghost function Step(s: State, e: Event): State {
    match e
    case Tick(seconds) => if seconds > 0.0 then s.(now := s.now + seconds) else s
    case Enter(id, params, token) =>
      if id in s.clients || !ValidParams(params) || !FreshToken(s, token) then s
      else s.(clients := s.clients[id := Client(params, token, s.now, 0, Trying(s.now))])
    case Attempt(id) =>
      if id !in s.clients || !s.clients[id].phase.Trying? || s.now < s.clients[id].phase.wakeAt then s
      else
        var c := s.clients[id].(attempts := s.clients[id].attempts + 1);
        if Held(s) then Put(s, id, c, Checking)
        else
          var until := s.now + c.params.expiry;
          Put(s.(key := Some(Lease(c.token, until))), id, c, Inside(until))
    case Check(id) =>
      if id !in s.clients || !s.clients[id].phase.Checking? then s
      else
        var c := s.clients[id];
        Put(s, id, c, if s.now > c.start + c.params.timeout then TimedOut
                      else Trying(s.now + c.params.retry))
    case Release(id) =>
      if id !in s.clients || !s.clients[id].phase.Inside? then s
      else
        var c := s.clients[id];
        var key := if Held(s) && s.key.value.token == c.token then None else s.key;
        Put(s.(key := key), id, c, Left)
  }

  ghost function Run(events: seq<Event>): State {
    if events == [] then State(0.0, None, map[])
    else Step(Run(events[..|events| - 1]), events[|events| - 1])
  }

  // ---------------------------------------------------------------- the invariant

  /** Inside, with a lease that has not run out. */
  predicate Protected(s: State, id: int) {
    id in s.clients && s.clients[id].phase.Inside? && s.now < s.clients[id].phase.until
  }

  ghost predicate DistinctTokens(s: State) {
    forall a <- s.clients, b <- s.clients :: s.clients[a].token == s.clients[b].token ==> a == b
  }

  /** The key belongs to whoever is protected. */
  ghost predicate Owned(s: State) {
    forall id :: Protected(s, id) ==> s.key == Some(Lease(s.clients[id].token, s.clients[id].phase.until))
  }

  /** How far a client that has made `attempts` attempts must have got in time. */
  predicate Paced(now: real, c: Client) {
    var p := c.params;
    var n := c.attempts;
    match c.phase
    case Trying(wakeAt) =>
      && c.start <= now && c.start + Pauses(n, p.retry) <= wakeAt
      && (n > 0 ==> Pauses(n - 1, p.retry) <= p.timeout)
    case Checking =>
      && n > 0 && c.start <= now && c.start + Pauses(n - 1, p.retry) <= now
      && (n > 1 ==> Pauses(n - 2, p.retry) <= p.timeout)
    case _ => n > 0 && (n > 1 ==> Pauses(n - 2, p.retry) <= p.timeout)
  }

  /** The time that `n` pauses take. */
  function Pauses(n: nat, retry: real): real { if n == 0 then 0.0 else Pauses(n - 1, retry) + retry }

  lemma {:induction false} PausesAddUp(n: nat, retry: real)
    ensures Pauses(n, retry) == n as real * retry
  {
    if n > 0 {
      PausesAddUp(n - 1, retry);
      assert n as real * retry == (n - 1) as real * retry + retry;
    }
  }

  ghost predicate Invariant(s: State) {
    && DistinctTokens(s) && Owned(s)
    && forall id <- s.clients :: ValidParams(s.clients[id].params) && Paced(s.now, s.clients[id])
  }

  lemma StepKeepsTokens(s: State, e: Event)
    requires DistinctTokens(s)
    ensures DistinctTokens(Step(s, e))
  {
  }

  lemma StepKeepsOwner(s: State, e: Event)
    requires DistinctTokens(s) && Owned(s)
    ensures Owned(Step(s, e))
  {
    var next := Step(s, e);
    forall id | Protected(next, id)
      ensures next.key == Some(Lease(next.clients[id].token, next.clients[id].phase.until))
    {
      if Protected(s, id) {
        assert s.key == Some(Lease(s.clients[id].token, s.clients[id].phase.until));
        assert Held(s);
      }
    }
  }

  lemma {:induction false} PacedStep(s: State, id: int, e: Event)
    requires id in s.clients && Paced(s.now, s.clients[id])
    requires e == Attempt(id) || e == Check(id) || e == Release(id)
    ensures Paced(s.now, Step(s, e).clients[id])
  {
    var before, after := s.clients[id], Step(s, e).clients[id];
    var n, retry := before.attempts, before.params.retry;
    assert n > 0 ==> Pauses(n, retry) == Pauses(n - 1, retry) + retry;
    assert after == before || after.attempts == before.attempts + if before.phase.Trying? then 1 else 0;
  }

  lemma StepKeeps(s: State, e: Event)
    requires Invariant(s)
    ensures Invariant(Step(s, e))
  {
    StepKeepsTokens(s, e);
    StepKeepsOwner(s, e);
    var next := Step(s, e);
    forall id | id in next.clients ensures Paced(next.now, next.clients[id]) {
      if id in s.clients && (e == Attempt(id) || e == Check(id) || e == Release(id)) {
        PacedStep(s, id, e);
      } else if id in s.clients {
        assert next.clients[id] == s.clients[id] && s.now <= next.now;
      }
    }
  }

  lemma {:induction false} RunKeeps(events: seq<Event>)
    ensures Invariant(Run(events))
  {
    if events != [] {
      RunKeeps(events[..|events| - 1]);
      StepKeeps(Run(events[..|events| - 1]), events[|events| - 1]);
    }
  }

  // ---------------------------------------------------------------- the theorems

  /** In every run, at most one client is inside with an unexpired lease. */
  lemma MutualExclusion(events: seq<Event>, a: int, b: int)
    requires Protected(Run(events), a) && Protected(Run(events), b)
    ensures a == b
  {
    RunKeeps(events);
  }

  /** In every run, a release, however late, leaves another client's lock and lease as they were;
      and a release by the protected client does free the key. */
  lemma ReleaseSparesSuccessor(events: seq<Event>, late: int, holder: int)
    requires Protected(Run(events), holder)
    ensures var s := Run(events);
            var next := Step(s, Release(late));
            if late == holder then next.key == None && next.clients[holder].phase == Left
            else next.key == s.key && Protected(next, holder)
  {
    RunKeeps(events);
  }

  lemma PacedIsBounded(now: real, c: Client)
    requires ValidParams(c.params) && Paced(now, c)
    ensures c.attempts <= (c.params.timeout / c.params.retry).Floor + 2
  {
    var n := if c.attempts > 1 then c.attempts - 2 else 0;
    PausesAddUp(n, c.params.retry);
    QuotientBound(n, c.params.retry, c.params.timeout);
  }

  /** In every run, an acquisition makes at most floor(timeout / retry) + 2 attempts. */
  lemma AttemptsBounded(events: seq<Event>, id: int)
    requires id in Run(events).clients
    ensures var c := Run(events).clients[id];
            c.params.retry > 0.0 && c.attempts <= (c.params.timeout / c.params.retry).Floor + 2
  {
    RunKeeps(events);
    PacedIsBounded(Run(events).now, Run(events).clients[id]);
  }

  lemma ScaleLess(a: real, b: real, r: real)
    requires a < b && r > 0.0
    ensures a * r < b * r
  {
  }

  lemma QuotientBound(n: nat, retry: real, timeout: real)
    requires retry > 0.0 && n as real * retry <= timeout
    ensures n <= (timeout / retry).Floor
  {
    var q := timeout / retry;
    assert q * retry == timeout;
    if q < n as real {
      ScaleLess(q, n as real, retry);
    }
  }

  // ---------------------------------------------------------------- getting in, and giving up

  /** An attempt that is due gets in exactly when no lease is running; it then holds the key for its
      own time, and otherwise it changes nothing for anyone else. */
  lemma GetsInExactly(s: State, id: int)
    requires id in s.clients && s.clients[id].phase.Trying? && s.clients[id].phase.wakeAt <= s.now
    ensures var c, next := s.clients[id], Step(s, Attempt(id));
            var free := s.key == None || s.key.value.until <= s.now;
            var until := s.now + c.params.expiry;
            && next.now == s.now && next.clients.Keys == s.clients.Keys
            && next.key == (if free then Some(Lease(c.token, until)) else s.key)
            && next.clients[id].phase == (if free then Inside(until) else Checking)
            && forall x <- s.clients :: x != id ==> next.clients[x] == s.clients[x]
  {
  }

  /** When no lease is running, a client that comes is inside at once, with its own token and for its own
      time, and when it leaves within that time the key is free again. */
  lemma FreeLockIsTaken(s: State, id: int, params: Params, token: int, seconds: real)
    requires !Held(s) && id !in s.clients && ValidParams(params) && FreshToken(s, token)
             && 0.0 < seconds < params.expiry
    ensures var inside := Step(Step(s, Enter(id, params, token)), Attempt(id));
            var left := Step(Step(inside, Tick(seconds)), Release(id));
            && Protected(inside, id)
                && inside.clients[id] == Client(params, token, s.now, 1, Inside(s.now + params.expiry))
            && inside.key == Some(Lease(token, s.now + params.expiry))
            && left.now == s.now + seconds && left.key == None && left.clients[id].phase == Left
            && left.clients.Keys == s.clients.Keys + {id}
  {
  }

  /** In every run, a client that gave up did so after its deadline. */
  lemma {:induction false} NobodyGivesUpEarly(events: seq<Event>, id: int)
    requires id in Run(events).clients && Run(events).clients[id].phase == TimedOut
    ensures Run(events).now > Run(events).clients[id].start + Run(events).clients[id].params.timeout
  {
    var before := Run(events[..|events| - 1]);
    if id in before.clients && before.clients[id].phase == TimedOut {
      NobodyGivesUpEarly(events[..|events| - 1], id);
    }
  }

  /** One attempt of a waiting client, the look at its deadline, and its pause. */
  ghost function Round(s: State, id: int): State
    requires id in s.clients
    ensures id in Round(s, id).clients
  {
    Step(Step(Step(s, Attempt(id)), Check(id)), Tick(s.clients[id].params.retry))
  }

  ghost function Rounds(s: State, id: int, n: nat): State
    requires id in s.clients
    ensures id in Rounds(s, id, n).clients
    decreases n
  {
    if n == 0 then s else Rounds(Round(s, id), id, n - 1)
  }

  lemma {:induction false} DoneStays(s: State, id: int, n: nat)
    requires id in s.clients && (s.clients[id].phase.Inside? || s.clients[id].phase.TimedOut?)
    ensures Rounds(s, id, n).clients[id].phase == s.clients[id].phase
    decreases n
  {
    if n > 0 { DoneStays(Round(s, id), id, n - 1); }
  }

  lemma {:induction false} PausesGrow(n: nat, retry: real)
    requires retry > 0.0
    ensures Pauses(n, retry) >= 0.0
  {
    if n > 0 { PausesGrow(n - 1, retry); }
  }

  /** A client that waits behind a lease nobody gives back gets in at its first attempt after the lease
      has run out, which is the one after `m` pauses, exactly when the look at the clock before that
      attempt was within its timeout; otherwise it gives up. */
  lemma {:induction false} WaitsForExpiry(s: State, id: int, m: nat)
    requires id in s.clients && ValidParams(s.clients[id].params) && s.key.Some?
    requires s.clients[id].phase.Trying? && s.clients[id].phase.wakeAt <= s.now
    requires s.now + Pauses(m, s.clients[id].params.retry) >= s.key.value.until
    requires m > 0 ==> s.now + Pauses(m - 1, s.clients[id].params.retry) < s.key.value.until
    ensures var c := s.clients[id];
            var inTime := m == 0 || s.now + Pauses(m - 1, c.params.retry) <= c.start + c.params.timeout;
            var phase := Rounds(s, id, m + 1).clients[id].phase;
            if inTime then phase.Inside? else phase == TimedOut
    decreases m
  {
    var next := Round(s, id);
    if m == 0 {
      DoneStays(next, id, 0);
    } else {
      PausesGrow(m - 1, s.clients[id].params.retry);
      assert Held(s);
      if s.now > s.clients[id].start + s.clients[id].params.timeout {
        DoneStays(next, id, m);
      } else {
        WaitsOn(s, id, m);
        WaitsForExpiry(next, id, m - 1);
      }
    }
  }

  /** A client that finds the key held, with time left, comes back after its pause. */
  lemma {:induction false} WaitsOn(s: State, id: int, m: nat)
    requires id in s.clients && ValidParams(s.clients[id].params) && Held(s) && m > 0
    requires s.clients[id].phase.Trying? && s.clients[id].phase.wakeAt <= s.now
    requires s.now <= s.clients[id].start + s.clients[id].params.timeout
    ensures var c, next := s.clients[id], Round(s, id);
            && next.clients[id] == c.(attempts := c.attempts + 1, phase := Trying(s.now + c.params.retry))
            && next.now == s.now + c.params.retry && next.key == s.key
            && Pauses(m, c.params.retry) == c.params.retry + Pauses(m - 1, c.params.retry)
            && (m > 1 ==> Pauses(m - 1, c.params.retry) == c.params.retry + Pauses(m - 2, c.params.retry))
  {
  }
}
