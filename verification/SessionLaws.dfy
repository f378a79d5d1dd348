/** Which session a CRUD call gets, when it raises, and that plain nesting shares one session
    (app/database/crud/decorators.py:66-100 and 279-299). */
module SessionLaws {
  import opened Options
  import opened SessionScopes

  // ---------------------------------------------------------------- which session

  /** The call is handed this session. */
  predicate Hands(passing: Passing, scopes: seq<Session>, s: Session) {
    match passing
    case Nothing => false
    case Enclosing(depth) => depth < |scopes| && s == scopes[|scopes| - 1 - depth]
    case Given(id, autoflush) => s == External(id, autoflush)
  }

  /** A call uses the session it is handed; without one, that of the innermost call around it; and only
      outside any call a new one. It is refused, and raises, exactly when that session autoflushes
      although the call does not allow it. */
  lemma SessionIsExactly(c: Call, scopes: seq<Session>, n: nat, s: Session)
    requires Hands(c.passing, scopes, s)
             || ((forall x :: !Hands(c.passing, scopes, x)) && scopes != [] && s == scopes[|scopes| - 1])
    ensures var t := CallTrace(c, scopes, n);
            if s.autoflush && !c.autoflushAllowed then t == Trace([Refused(s)], true, n)
            else t.log != [] && t.log[0] == Used(s)
  {
    assert c.passing.Given? ==> Hands(c.passing, scopes, External(c.passing.id, c.passing.autoflush));
    assert c.passing.Enclosing? && c.passing.depth < |scopes| ==>
        Hands(c.passing, scopes, scopes[|scopes| - 1 - c.passing.depth]);
  }

  /** Outside any call and handed nothing, a call opens a session with the flag it asks for, and ends
      it last: committed if it returns, rolled back if it raises. */
  lemma OutermostOpens(c: Call, n: nat)
    requires !c.passing.Given?
    ensures var t := CallTrace(c, [], n);
            && |t.log| >= 3 && t.log[0] == Opened(n) && t.log[1] == Used(Fresh(n, c.autoflushAllowed))
            && t.log[|t.log| - 1] == (if t.raised then RolledBack(n) else Committed(n))
  {
  }

  // ---------------------------------------------------------------- when it raises

  /** Whether the session autoflushes that a call gets, given that of the calls around; none is new. */
  function FlagOf(passing: Passing, flags: seq<bool>): Option<bool> {
    if passing.Given? then Some(passing.autoflush)
    else if passing.Enclosing? && passing.depth < |flags| then Some(flags[|flags| - 1 - passing.depth])
    else if flags == [] then None
    else Some(flags[|flags| - 1])
  }

  /** The call is refused its session, or its body raises, or the commit of its own session fails. */
  ghost predicate Raises(c: Call, flags: seq<bool>)
    decreases c, 1
  {
    match FlagOf(c.passing, flags)
    case Some(flag) => (flag && !c.autoflushAllowed) || BodyRaises(c.body, flags + [flag])
    case None => BodyRaises(c.body, flags + [c.autoflushAllowed]) || c.commitFails
  }

  /** Some action raises, or makes a call that does without catching it. */
  ghost predicate BodyRaises(actions: seq<Action>, flags: seq<bool>)
    decreases actions, 0
  {
    exists a <- actions :: ActionRaises(a, flags)
  }

  ghost predicate ActionRaises(a: Action, flags: seq<bool>)
    decreases a, 0
  {
    a.Raise? || (!a.caught && Raises(a.call, flags))
  }

  function Flags(scopes: seq<Session>): seq<bool> { seq(|scopes|, i requires 0 <= i < |scopes| => scopes[i].autoflush) }

  lemma FlagIs(passing: Passing, scopes: seq<Session>)
    ensures FlagOf(passing, Flags(scopes)).None? <==> SessionOf(passing, scopes).None?
    ensures SessionOf(passing, scopes).Some? ==>
              FlagOf(passing, Flags(scopes)) == Some(SessionOf(passing, scopes).value.autoflush)
  {
  }

  /** A call raises exactly when it must, however its sessions are numbered. */
  lemma {:induction false} RaisesExactly(c: Call, scopes: seq<Session>, n: nat)
    ensures CallTrace(c, scopes, n).raised <==> Raises(c, Flags(scopes))
    decreases c, 1
  {
    FlagIs(c.passing, scopes);
    match SessionOf(c.passing, scopes)
    case Some(s) =>
      BodyRaisesExactly(c.body, scopes + [s], n);
      assert Flags(scopes + [s]) == Flags(scopes) + [s.autoflush];
    case None =>
      var s := SessionScopes.Fresh(n, c.autoflushAllowed);
      BodyRaisesExactly(c.body, scopes + [s], n + 1);
      assert Flags(scopes + [s]) == Flags(scopes) + [s.autoflush];
  }

  lemma {:induction false} BodyRaisesExactly(actions: seq<Action>, scopes: seq<Session>, n: nat)
    ensures BodyTrace(actions, scopes, n).raised <==> BodyRaises(actions, Flags(scopes))
    decreases actions, 0
  {
    if actions != [] {
      var a := actions[0];
      ActionRaisesExactly(a, scopes, n);
      BodyRaisesExactly(actions[1..], scopes, ActionTrace(a, scopes, n).next);
      assert actions == [a] + actions[1..];
      assert forall x <- actions :: x == a || x in actions[1..];
    }
  }

  lemma {:induction false} ActionRaisesExactly(a: Action, scopes: seq<Session>, n: nat)
    ensures ActionTrace(a, scopes, n).raised <==> ActionRaises(a, Flags(scopes))
    decreases a, 0
  {
    if a.Nested? { RaisesExactly(a.call, scopes, n); }
  }

  /** The actions of a body run one after the other, up to the first that raises. */
  lemma {:induction false} BodyJoins(a: seq<Action>, b: seq<Action>, scopes: seq<Session>, n: nat)
    ensures var first := BodyTrace(a, scopes, n);
            var rest := BodyTrace(b, scopes, first.next);
            BodyTrace(a + b, scopes, n) ==
            if first.raised then first else Trace(first.log + rest.log, rest.raised, rest.next)
    decreases a
  {
    if a == [] {
      assert a + b == b;
      assert [] + BodyTrace(b, scopes, n).log == BodyTrace(b, scopes, n).log;
    } else {
      var first := ActionTrace(a[0], scopes, n);
      assert (a + b)[0] == a[0] && (a + b)[1..] == a[1..] + b;
      if !first.raised {
        BodyJoins(a[1..], b, scopes, first.next);
        var middle := BodyTrace(a[1..], scopes, first.next);
        var rest := BodyTrace(b, scopes, middle.next);
        assert first.log + (middle.log + rest.log) == (first.log + middle.log) + rest.log;
      }
    }
  }

  // ---------------------------------------------------------------- plain nesting shares one session

  /** No call in the body is handed a session. */
  predicate Plain(actions: seq<Action>)
    decreases actions, 0
  {
    forall a <- actions :: PlainAction(a)
  }

  predicate PlainAction(a: Action)
    decreases a, 0
  {
    a.Nested? ==> a.call.passing.Nothing? && Plain(a.call.body)
  }

  /** Every entry is about this session, which is neither opened nor ended. */
  predicate Shares(log: seq<Entry>, s: Session) { forall e <- log :: e == Used(s) || e == Refused(s) }

  lemma {:induction false} BodyShares(actions: seq<Action>, scopes: seq<Session>, s: Session, n: nat)
    requires Plain(actions)
    ensures var t := BodyTrace(actions, scopes + [s], n); Shares(t.log, s) && t.next == n
    decreases actions, 0
  {
    if actions != [] {
      assert actions[0] in actions && forall x <- actions[1..] :: x in actions;
      ActionShares(actions[0], scopes, s, n);
      BodyShares(actions[1..], scopes, s, n);
    }
  }

  lemma {:induction false} ActionShares(a: Action, scopes: seq<Session>, s: Session, n: nat)
    requires PlainAction(a)
    ensures var t := ActionTrace(a, scopes + [s], n); Shares(t.log, s) && t.next == n
    decreases a, 0
  {
    if a.Nested? {
      assert SessionOf(Nothing, scopes + [s]) == Some(s);
      BodyShares(a.call.body, scopes + [s], s, n);
    }
  }

  /** However deep the calls nest, when none is handed a session the outermost opens the only one, all
      others use it, and it ends with the outermost. */
  lemma OneSession(c: Call, n: nat)
    requires c.passing.Nothing? && Plain(c.body)
    ensures var t := CallTrace(c, [], n);
            && t.next == n + 1 && |t.log| >= 2 && t.log[0] == Opened(n)
            && t.log[|t.log| - 1] == (if Raises(c, []) then RolledBack(n) else Committed(n))
            && Shares(t.log[1..|t.log| - 1], SessionScopes.Fresh(n, c.autoflushAllowed))
  {
    var s := SessionScopes.Fresh(n, c.autoflushAllowed);
    RaisesExactly(c, [], n);
    assert Flags([]) == [];
    BodyShares(c.body, [], s, n + 1);
    var t := CallTrace(c, [], n);
    assert t.log[1..|t.log| - 1] == [Used(s)] + BodyTrace(c.body, [] + [s], n + 1).log;
  }

  /** A call that is given a session, and hands on that of the call around it. */
  function PastCall(id: nat, flag: bool): Call {
    Call(Given(id, flag), true, [Nested(Call(Enclosing(1), true, [], false), false)], false)
  }

  /** A body may hand on the session of a call further out, past one that was given another. */
  lemma {:induction false} HandsPast(n: nat, flag: bool, id: nat, other: bool, fails: bool)
    ensures CallTrace(Call(Nothing, flag, [Nested(PastCall(id, other), false)], fails), [], n).log
         == [Opened(n), Used(SessionScopes.Fresh(n, flag)), Used(External(id, other)),
             Used(SessionScopes.Fresh(n, flag)), if fails then RolledBack(n) else Committed(n)]
  {
    var own, ext, inner := SessionScopes.Fresh(n, flag), External(id, other), Call(Enclosing(1), true, [], false);
    assert [] + [own] == [own] && [own] + [ext] == [own, ext];
    SessionIsExactly(inner, [own, ext], n + 1, own);
    assert CallTrace(inner, [own, ext], n + 1) == Trace([Used(own)], false, n + 1);
    BodyOfOne(inner, [own, ext], n + 1);
    assert CallTrace(PastCall(id, other), [own], n + 1) == Trace([Used(ext), Used(own)], false, n + 1);
    BodyOfOne(PastCall(id, other), [own], n + 1);
  }

  lemma {:induction false} BodyOfOne(c: Call, scopes: seq<Session>, n: nat)
    ensures BodyTrace([Nested(c, false)], scopes, n) == CallTrace(c, scopes, n)
  {
    var t := CallTrace(c, scopes, n);
    assert [Nested(c, false)][1..] == [] && t.log + [] == t.log;
  }
}
