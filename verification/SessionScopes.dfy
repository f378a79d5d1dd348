/** Nested CRUD calls and their sessions (app/database/crud/decorators.py:66-100 and 279-299,
    app/database/db.py:127-152). */
module SessionScopes {
  import opened Options

  /** A session made by the caller, or the n-th one that a call opened for itself. */
  datatype Session = External(id: nat, autoflush: bool) | Fresh(id: nat, autoflush: bool)

  /** What a call is given as `session`: nothing, one made elsewhere, or the session of an enclosing
      call, counted outwards from the one it is made from. */
  datatype Passing = Nothing | Enclosing(depth: nat) | Given(id: nat, autoflush: bool)

  /** A decorated call: its body makes calls of its own, whose exceptions it may catch, or raises. */
  datatype Call = Call(passing: Passing, autoflushAllowed: bool, body: seq<Action>, commitFails: bool)

  datatype Action = Nested(call: Call, caught: bool) | Raise

  datatype Entry =
    | Opened(id: nat)
    | Used(session: Session)
    | Refused(session: Session)   // the session autoflushes and the call does not allow that
    | Committed(id: nat)
    | RolledBack(id: nat)

  datatype Trace = Trace(log: seq<Entry>, raised: bool, next: nat)

  // ---------------------------------------------------------------- what should happen, by nesting alone

  /** The session that is passed; a body can only hand on those of the calls it runs in. */
  function Passed(passing: Passing, scopes: seq<Session>): Option<Session> {
    match passing
    case Nothing => None
    case Enclosing(depth) => if depth < |scopes| then Some(scopes[|scopes| - 1 - depth]) else None
    case Given(id, autoflush) => Some(External(id, autoflush))
  }

  function Innermost(scopes: seq<Session>): Option<Session> {
    if scopes == [] then None else Some(scopes[|scopes| - 1])
  }

  /** The session passed, else that of the innermost enclosing call; none means a new one is needed. */
  function SessionOf(passing: Passing, scopes: seq<Session>): Option<Session> {
    if Passed(passing, scopes).Some? then Passed(passing, scopes) else Innermost(scopes)
  }

  /** `scopes` are the sessions of the enclosing calls, the innermost last. */
  function CallTrace(c: Call, scopes: seq<Session>, n: nat): (t: Trace)
    ensures t.next >= n
    decreases c, 1
  {
    match SessionOf(c.passing, scopes)
    case Some(s) =>
      if !c.autoflushAllowed && s.autoflush then Trace([Refused(s)], true, n)
      else
        var body := BodyTrace(c.body, scopes + [s], n);
        body.(log := [Used(s)] + body.log)
    case None =>
      var s := Fresh(n, c.autoflushAllowed);
      var body := BodyTrace(c.body, scopes + [s], n + 1);
      var raised := body.raised || c.commitFails;
      Trace([Opened(n), Used(s)] + body.log + [if raised then RolledBack(n) else Committed(n)], raised, body.next)
  }

  function BodyTrace(actions: seq<Action>, scopes: seq<Session>, n: nat): (t: Trace)
    ensures t.next >= n
    decreases actions, 0
  {
    if actions == [] then Trace([], false, n)
    else
      var first := ActionTrace(actions[0], scopes, n);
      if first.raised then first
      else
        var rest := BodyTrace(actions[1..], scopes, first.next);
        rest.(log := first.log + rest.log)
  }

  /** An exception that the body catches does not count. */
  function ActionTrace(a: Action, scopes: seq<Session>, n: nat): (t: Trace)
    ensures t.next >= n
    decreases a, 0
  {
    match a
    case Raise => Trace([], true, n)
    case Nested(call, caught) =>
      var t := CallTrace(call, scopes, n);
      t.(raised := t.raised && !caught)
  }

  // ---------------------------------------------------------------- every fresh session ends once

  predicate Within(id: nat, from: nat, to: nat) { from <= id < to }

  /** Opened once and ended once if it was opened here, and otherwise not touched. */
  ghost predicate EndsOnce(log: seq<Entry>, id: nat, here: bool) {
    && multiset(log)[Opened(id)] == (if here then 1 else 0)
    && multiset(log)[Committed(id)] + multiset(log)[RolledBack(id)] == (if here then 1 else 0)
  }

  lemma EndsJoin(a: seq<Entry>, b: seq<Entry>, id: nat, inA: bool, inB: bool)
    requires EndsOnce(a, id, inA) && EndsOnce(b, id, inB) && !(inA && inB)
    ensures EndsOnce(a + b, id, inA || inB)
  {
    assert multiset(a + b) == multiset(a) + multiset(b);
  }

  lemma {:induction false} CallEndsOnce(c: Call, scopes: seq<Session>, n: nat, id: nat)
    ensures var t := CallTrace(c, scopes, n); EndsOnce(t.log, id, Within(id, n, t.next))
    decreases c, 1
  {
    match SessionOf(c.passing, scopes)
    case Some(s) =>
      if !c.autoflushAllowed && s.autoflush {
        MentionEndsNothing(Refused(s), id);
      } else {
        var body := BodyTrace(c.body, scopes + [s], n);
        BodyEndsOnce(c.body, scopes + [s], n, id);
        MentionEndsNothing(Used(s), id);
        EndsJoin([Used(s)], body.log, id, false, Within(id, n, body.next));
      }
    case None =>
      var s := Fresh(n, c.autoflushAllowed);
      var body := BodyTrace(c.body, scopes + [s], n + 1);
      BodyEndsOnce(c.body, scopes + [s], n + 1, id);
      WrapEndsOnce(body.log, s, n, body.next, if body.raised || c.commitFails then RolledBack(n) else Committed(n), id);
  }

  lemma MentionEndsNothing(e: Entry, id: nat)
    requires e.Used? || e.Refused?
    ensures EndsOnce([e], id, false)
  {
  }

  lemma WrapEndsOnce(log: seq<Entry>, s: Session, n: nat, m: nat, end: Entry, id: nat)
    requires EndsOnce(log, id, Within(id, n + 1, m)) && n < m && (end == RolledBack(n) || end == Committed(n))
    ensures EndsOnce([Opened(n), Used(s)] + log + [end], id, Within(id, n, m))
  {
    var whole := [Opened(n), Used(s)] + log + [end];
    assert multiset(whole) == multiset([Opened(n), Used(s)]) + multiset(log) + multiset([end]);
  }

  lemma {:induction false} BodyEndsOnce(actions: seq<Action>, scopes: seq<Session>, n: nat, id: nat)
    ensures var t := BodyTrace(actions, scopes, n); EndsOnce(t.log, id, Within(id, n, t.next))
    decreases actions, 0
  {
    if actions != [] {
      ActionEndsOnce(actions[0], scopes, n, id);
      var first := ActionTrace(actions[0], scopes, n);
      if !first.raised {
        BodyEndsOnce(actions[1..], scopes, first.next, id);
        var rest := BodyTrace(actions[1..], scopes, first.next);
        EndsJoin(first.log, rest.log, id, Within(id, n, first.next), Within(id, first.next, rest.next));
      }
    }
  }

  lemma {:induction false} ActionEndsOnce(a: Action, scopes: seq<Session>, n: nat, id: nat)
    ensures var t := ActionTrace(a, scopes, n); EndsOnce(t.log, id, Within(id, n, t.next))
    decreases a, 0
  {
    if a.Nested? { CallEndsOnce(a.call, scopes, n, id); }
  }

  // ---------------------------------------------------------------- no session is used after its end

  predicate Mentions(e: Entry, id: nat) { (e.Used? || e.Refused?) && e.session.Fresh? && e.session.id == id }

  predicate Ends(e: Entry, id: nat) { e == Committed(id) || e == RolledBack(id) }

  ghost predicate NoUseAfterEnd(log: seq<Entry>) {
    forall i, j, id :: 0 <= i < j < |log| && Ends(log[i], id) ==> !Mentions(log[j], id)
  }

  /** Only sessions opened here, and those of enclosing calls, are mentioned, and only those opened
      here end. */
  ghost predicate Local(log: seq<Entry>, scopes: seq<Session>, from: nat, to: nat) {
    forall e <- log, id ::
      && (Mentions(e, id) ==> Within(id, from, to) || e.session in scopes)
      && (Ends(e, id) ==> Within(id, from, to))
  }

  /** The enclosing sessions were opened before. */
  predicate Earlier(scopes: seq<Session>, n: nat) { forall s <- scopes :: s.Fresh? ==> s.id < n }

  lemma JoinLogs(a: seq<Entry>, b: seq<Entry>, scopes: seq<Session>, n: nat, m: nat, k: nat)
    requires Local(a, scopes, n, m) && Local(b, scopes, m, k) && NoUseAfterEnd(a) && NoUseAfterEnd(b)
    requires n <= m <= k && Earlier(scopes, n)
    ensures Local(a + b, scopes, n, k) && NoUseAfterEnd(a + b)
  {
    var log := a + b;
    forall i, j, id | 0 <= i < j < |log| && Ends(log[i], id) ensures !Mentions(log[j], id) {
      if i < |a| <= j { assert log[i] in a && log[j] in b; }
    }
  }

  lemma {:induction false} CallIsLocal(c: Call, scopes: seq<Session>, n: nat)
    requires Earlier(scopes, n)
    ensures var t := CallTrace(c, scopes, n); Local(t.log, scopes, n, t.next) && NoUseAfterEnd(t.log)
    decreases c, 1
  {
    match SessionOf(c.passing, scopes)
    case Some(s) =>
      var body := BodyTrace(c.body, scopes + [s], n);
      BodyIsLocal(c.body, scopes + [s], n);
      ReadLocal(body.log, s, scopes, n, body.next);
      JoinLogs([Used(s)], body.log, scopes, n, n, body.next);
    case None =>
      var s := Fresh(n, c.autoflushAllowed);
      var body := BodyTrace(c.body, scopes + [s], n + 1);
      BodyIsLocal(c.body, scopes + [s], n + 1);
      assert scopes + [s] == [s];
      WrapLocal(body.log, s, n, body.next, if body.raised || c.commitFails then RolledBack(n) else Committed(n));
  }

  /** What a body does with the session of its call, seen from outside that call. */
  lemma ReadLocal(log: seq<Entry>, s: Session, scopes: seq<Session>, n: nat, m: nat)
    requires Local(log, scopes + [s], n, m) && (s.External? || s in scopes)
    ensures Local(log, scopes, n, m)
  {
  }

  lemma WrapLocal(log: seq<Entry>, s: Session, n: nat, m: nat, end: Entry)
    requires Local(log, [s], n + 1, m) && NoUseAfterEnd(log) && s.Fresh? && s.id == n && n < m && Ends(end, n)
    ensures Local([Opened(n), Used(s)] + log + [end], [], n, m) && NoUseAfterEnd([Opened(n), Used(s)] + log + [end])
  {
    var whole := [Opened(n), Used(s)] + log + [end];
    forall e | e in whole ensures e == Opened(n) || e == Used(s) || e in log || e == end {
    }
    forall i, j, id | 0 <= i < j < |whole| && Ends(whole[i], id) ensures !Mentions(whole[j], id) {
      if j < |whole| - 1 { assert whole[i] == log[i - 2] && whole[j] == log[j - 2]; }
    }
  }

  lemma {:induction false} BodyIsLocal(actions: seq<Action>, scopes: seq<Session>, n: nat)
    requires Earlier(scopes, n)
    ensures var t := BodyTrace(actions, scopes, n); Local(t.log, scopes, n, t.next) && NoUseAfterEnd(t.log)
    decreases actions, 0
  {
    if actions != [] {
      ActionIsLocal(actions[0], scopes, n);
      var first := ActionTrace(actions[0], scopes, n);
      if !first.raised {
        BodyIsLocal(actions[1..], scopes, first.next);
        var rest := BodyTrace(actions[1..], scopes, first.next);
        JoinLogs(first.log, rest.log, scopes, n, first.next, rest.next);
      }
    }
  }

  lemma {:induction false} ActionIsLocal(a: Action, scopes: seq<Session>, n: nat)
    requires Earlier(scopes, n)
    ensures var t := ActionTrace(a, scopes, n); Local(t.log, scopes, n, t.next) && NoUseAfterEnd(t.log)
    decreases a, 0
  {
    if a.Nested? { CallIsLocal(a.call, scopes, n); }
  }

  /** For every tree of calls made outside any session: each session opened is ended exactly once, and
      none is used after its end. */
  lemma SessionsAreBracketed(c: Call)
    ensures var t := CallTrace(c, [], 0);
            NoUseAfterEnd(t.log) && forall id: nat :: EndsOnce(t.log, id, Within(id, 0, t.next))
  {
    CallIsLocal(c, [], 0);
    var t := CallTrace(c, [], 0);
    forall id: nat ensures EndsOnce(t.log, id, Within(id, 0, t.next)) { CallEndsOnce(c, [], 0, id); }
  }

  // ---------------------------------------------------------------- what does happen, with the context variable

  class Context {
    var active: Option<Session>
    var log: seq<Entry>
    var next: nat

    constructor ()
      ensures active == None && log == [] && next == 0
    {
      active, log, next := None, [], 0;
    }

    /** The wrapper. It consults the context variable; `scopes` are the sessions of the calls around,
        which the calling body may pass on. The variable is restored whether the call returns or
        raises, the calls see exactly the sessions that nesting prescribes, and a session opened for
        this call is committed when it returns and rolled back when it raises, as its last act. */
    method Execute(c: Call, scopes: seq<Session>) returns (raised: bool)
      requires active == Innermost(scopes)
      modifies this
      ensures active == old(active)
      ensures var t := CallTrace(c, scopes, old(next)); log == old(log) + t.log && raised == t.raised && next == t.next
      ensures old(active) == None && !c.passing.Given? ==>
                && |log| > |old(log)| && log[|old(log)|] == Opened(old(next))
                && log[|log| - 1] == (if raised then RolledBack(old(next)) else Committed(old(next)))
      decreases c, 1
    {
      var passed := Passed(c.passing, scopes);
      var current := active;
      if passed.Some? {
        if !c.autoflushAllowed && passed.value.autoflush {
          log := log + [Refused(passed.value)];
          return true;
        }
        active := passed;
        raised := RunBody(c.body, scopes, passed.value);
        active := current;
      } else if current.Some? {
        if !c.autoflushAllowed && current.value.autoflush {
          log := log + [Refused(current.value)];
          return true;
        }
        raised := RunBody(c.body, scopes, current.value);
      } else {
        var s := Fresh(next, c.autoflushAllowed);
        log, next := log + [Opened(next)], next + 1;
        active := Some(s);
        raised := RunBody(c.body, scopes, s);
        active := current;
        raised := raised || c.commitFails;
        log := log + [if raised then RolledBack(s.id) else Committed(s.id)];
      }
    }

    method RunBody(actions: seq<Action>, outer: seq<Session>, own: Session) returns (raised: bool)
      requires active == Some(own)
      modifies this
      ensures active == old(active)
      ensures var t := BodyTrace(actions, outer + [own], old(next));
              log == old(log) + [Used(own)] + t.log && raised == t.raised && next == t.next
      decreases actions, 0
    {
      var scopes := outer + [own];
      log := log + [Used(own)];
      ghost var start := log;
      ghost var whole := BodyTrace(actions, scopes, next);
      for i := 0 to |actions|
        invariant active == Some(own)
        invariant var rest := BodyTrace(actions[i..], scopes, next);
                  start + whole.log == log + rest.log && whole.raised == rest.raised && whole.next == rest.next
      {
        assert actions[i..][1..] == actions[i + 1..];
        var failed := RunAction(actions[i], scopes);
        if failed {
          return true;
        }
      }
      raised := false;
    }

    method RunAction(a: Action, scopes: seq<Session>) returns (raised: bool)
      requires active == Innermost(scopes)
      modifies this
      ensures active == old(active)
      ensures var t := ActionTrace(a, scopes, old(next));
              log == old(log) + t.log && raised == t.raised && next == t.next
      decreases a, 0
    {
      match a
      case Raise => raised := true;
      case Nested(call, caught) =>
        var failed := Execute(call, scopes);
        raised := failed && !caught;
    }
  }
}
