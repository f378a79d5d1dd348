/** The rule set that a validation task carries: taken when the task is dispatched
    (app/daemon/services/queue_request_handler.py:105-133) and restored when it runs
    (app/daemon/services/rule_validation.py:108-134, 183-210). */
module RuleSnapshot {
  import opened Options
  import opened Json
  import opened RuleTable

  /** The attributes of a rule that the runners read, as restored from JSON. */
  datatype RuleView = RuleView(id: Json, kind: Json, version: Json, config: Json, isActive: Json)

  /** Nothing to restore, a snapshot of the wrong shape, or a rule list. */
  datatype Restored = Missing | Raised | Restored(rules: seq<RuleView>)

  // ---------------------------------------------------------------- taking a snapshot

  function NatToken(n: nat): (r: string)
    ensures IsToken(r) && forall c <- r :: IsDigit(c)
  {
    var digit := [('0' as int + n % 10) as char];
    if n < 10 then digit else NatToken(n / 10) + digit
  }

  /** `value or {}`; the last three tokens are how Python writes its zeros. */
  function OrEmpty(v: Json): Json {
    if v in {Null, Bool(false), Str(""), List([]), Number("0"), Number("0.0"), Number("-0.0")} then Dict([]) else v
  }

  /** `get_rules(queue, only_active=True)`; the rows stand in the order of their ids. */
  function ActiveRules(rules: seq<Rule>, queue: int): (r: seq<Rule>)
    ensures forall x <- r :: x in rules && x.queue == queue && x.isActive
    ensures forall x <- rules :: x.queue == queue && x.isActive ==> x in r
  {
    if rules == [] then []
    else (if rules[0].queue == queue && rules[0].isActive then [rules[0]] else []) + ActiveRules(rules[1..], queue)
  }

  function RuleItem(r: Rule): Json {
    Dict([Entry("id", Number(NatToken(r.id))), Entry("type", Str(r.kind)), Entry("version", Str(r.version)),
          Entry("config", OrEmpty(r.config)), Entry("is_active", Bool(r.isActive))])
  }

  function Items(rules: seq<Rule>): seq<Json> {
    seq(|rules|, i requires 0 <= i < |rules| => RuleItem(rules[i]))
  }

  function Snapshot(rules: seq<Rule>): string {
    Print(List(Items(rules)))
  }

  // ---------------------------------------------------------------- restoring it

  function Get(entries: seq<Entry>, key: string): (r: Option<Json>) {
    if entries == [] then None
    else if entries[0].key == key then Some(entries[0].value)
    else Get(entries[1..], key)
  }

  function RestoreItem(item: Json): Option<RuleView> {
    if !item.Dict? || Get(item.entries, "type").None? then None
    else Some(RuleView(Get(item.entries, "id").GetOr(Null), Get(item.entries, "type").value,
                       Get(item.entries, "version").GetOr(Str("1.0")),
                       OrEmpty(Get(item.entries, "config").GetOr(Null)),
                       Get(item.entries, "is_active").GetOr(Bool(true))))
  }

  function RestoreItems(items: seq<Json>): Restored {
    if items == [] then Restored([])
    else
      match RestoreItem(items[0])
      case None => Raised
      case Some(view) =>
        match RestoreItems(items[1..])
        case Restored(rest) => Restored([view] + rest)
        case other => other
  }

  function RulesFromSnapshot(text: string): Restored {
    if text == "" then Missing
    else match Loads(text)
      case Malformed => Missing
      case Loaded(List(items)) => RestoreItems(items)
      case Loaded(_) => Raised
  }

  // ---------------------------------------------------------------- the round trip

  function View(r: Rule): RuleView {
    RuleView(Number(NatToken(r.id)), Str(r.kind), Str(r.version), OrEmpty(r.config), Bool(r.isActive))
  }

  function Views(rules: seq<Rule>): seq<RuleView> {
    seq(|rules|, i requires 0 <= i < |rules| => View(rules[i]))
  }

  lemma ItemRoundTrip(r: Rule)
    ensures RestoreItem(RuleItem(r)) == Some(View(r))
  {
    var e := RuleItem(r).entries;
    assert e[1..][0].key == "type" && e[1..][1..][0].key == "version";
    assert e[1..][1..][1..][0].key == "config" && e[1..][1..][1..][1..][0].key == "is_active";
    assert "id" != "type" && "id" != "version" && "id" != "config" && "id" != "is_active" by {
      assert "id"[0] == 'i' && "is_active"[1] == 's';
    }
    assert "type"[0] == 't' && "version"[0] == 'v' && "config"[0] == 'c' && "is_active"[0] == 'i';
    assert Get(e, "type") == Some(e[1].value);
    assert Get(e, "version") == Get(e[1..], "version") == Get(e[1..][1..], "version") == Some(e[2].value);
    assert Get(e, "config") == Get(e[1..], "config") == Get(e[1..][1..], "config")
        == Get(e[1..][1..][1..], "config") == Some(e[3].value);
    assert Get(e, "is_active") == Get(e[1..], "is_active") == Get(e[1..][1..], "is_active")
        == Get(e[1..][1..][1..], "is_active") == Get(e[1..][1..][1..][1..], "is_active") == Some(e[4].value);
  }

  lemma HeadAndTail(rules: seq<Rule>)
    requires rules != []
    ensures Items(rules) == [RuleItem(rules[0])] + Items(rules[1..])
    ensures Views(rules) == [View(rules[0])] + Views(rules[1..])
  {
  }

  lemma {:induction false} RuleItemsRoundTrip(rules: seq<Rule>)
    ensures RestoreItems(Items(rules)) == Restored(Views(rules))
  {
    if rules != [] {
      ItemRoundTrip(rules[0]);
      RuleItemsRoundTrip(rules[1..]);
      HeadAndTail(rules);
      assert Items(rules)[1..] == Items(rules[1..]);
    }
  }

  /** Restoring a snapshot gives back every rule with the attributes the runners read; an empty
      snapshot is a rule list, never a missing one. */
  lemma SnapshotRoundTrip(rules: seq<Rule>)
    requires forall r <- rules :: Valid(r.config)
    ensures Snapshot(rules) != ""
    ensures RulesFromSnapshot(Snapshot(rules)) == Restored(Views(rules))
  {
    var items := Items(rules);
    forall x | x in items ensures Valid(x) {
      var i :| 0 <= i < |rules| && x == RuleItem(rules[i]);
      ItemValid(rules[i]);
    }
    LoadsDumps(List(items));
    RuleItemsRoundTrip(rules);
  }

  lemma ItemValid(r: Rule)
    requires Valid(r.config)
    ensures Valid(RuleItem(r))
  {
    assert Valid(OrEmpty(r.config));
    ItemKeysDistinct(r);
  }

  lemma ItemKeysDistinct(r: Rule)
    ensures DistinctKeys(RuleItem(r).entries)
  {
    assert "type"[0] == 't' && "version"[0] == 'v' && "config"[0] == 'c' && "is_active"[0] == 'i' && "id"[1] == 'd';
  }

  // ---------------------------------------------------------------- the rule set is fixed at dispatch

  function TierThree(views: seq<RuleView>, tier: string -> int): seq<RuleView> {
    if views == [] then []
    else (if views[0].kind.Str? && tier(views[0].kind.s) == 3 then [views[0]] else []) + TierThree(views[1..], tier)
  }

  /** The rules a validation run applies, given its task's snapshot and the table as it is by then;
      only a task without a usable snapshot looks at the table. */
  function Phase2Rules(snapshot: string, live: Table, queue: int, tier: string -> int): Option<seq<RuleView>> {
    match RulesFromSnapshot(snapshot)
    case Missing => Some(TierThree(Views(ActiveRules(live.rules, queue)), tier))
    case Raised => None
    case Restored(views) => Some(TierThree(views, tier))
  }

  /** Whatever is created, replaced, updated or deleted between dispatch and validation, the run
      applies exactly the tier-3 rules that were active at dispatch. */
  lemma RuleSetFixedAtDispatch(reg: Registry, t: Table, queue: int, edits: seq<Op>, tier: string -> int)
    requires forall r <- t.rules :: Valid(r.config)
    ensures Phase2Rules(Snapshot(ActiveRules(t.rules, queue)), Run(reg, t, edits), queue, tier)
         == Some(TierThree(Views(ActiveRules(t.rules, queue)), tier))
  {
    SnapshotRoundTrip(ActiveRules(t.rules, queue));
  }

  // ---------------------------------------------------------------- which rules, and what of them

  /** The number that the digits of a token spell. */
  function Spelled(token: string): nat
    requires forall c <- token :: IsDigit(c)
  {
    if token == "" then 0
    else
      var last := token[|token| - 1];
      assert last in token && IsDigit(last);
      Spelled(token[..|token| - 1]) * 10 + (last as int - '0' as int)
  }

  lemma {:induction false} TokenSpells(n: nat)
    ensures Spelled(NatToken(n)) == n
  {
    var token := NatToken(n);
    if n >= 10 {
      TokenSpells(n / 10);
      assert token[..|token| - 1] == NatToken(n / 10);
    } else {
      assert token[..|token| - 1] == "";
    }
  }

  /** A restored snapshot has the rules one by one, in order, each with its id, type, version and
      activity, and with its configuration when that is an object. */
  lemma SnapshotKeepsRules(rules: seq<Rule>, views: seq<RuleView>, i: nat)
    requires forall r <- rules :: Valid(r.config)
    requires RulesFromSnapshot(Snapshot(rules)) == Restored(views) && i < |rules|
    ensures |views| == |rules|
    ensures var r, v := rules[i], views[i];
            && v.id.Number? && (forall c <- v.id.token :: IsDigit(c)) && Spelled(v.id.token) == r.id
            && v.kind == Str(r.kind) && v.version == Str(r.version) && v.isActive == Bool(r.isActive)
            && (r.config.Dict? ==> v.config == r.config)
  {
    SnapshotRoundTrip(rules);
    TokenSpells(rules[i].id);
  }

  /** The active rules of a queue, one rule at a time: order and repetitions are those of the table. */
  lemma {:induction false} ActiveRulesJoin(a: seq<Rule>, b: seq<Rule>, queue: int)
    ensures ActiveRules(a + b, queue) == ActiveRules(a, queue) + ActiveRules(b, queue)
  {
    if a == [] {
      assert a + b == b;
    } else {
      assert (a + b)[1..] == a[1..] + b && (a + b)[0] == a[0];
      ActiveRulesJoin(a[1..], b, queue);
      Associates(if a[0].queue == queue && a[0].isActive then [a[0]] else [], ActiveRules(a[1..], queue),
                 ActiveRules(b, queue));
    }
  }

  lemma Associates(a: seq<Rule>, b: seq<Rule>, c: seq<Rule>)
    ensures a + (b + c) == (a + b) + c
  {
  }

  lemma ActiveRuleAlone(r: Rule, queue: int)
    ensures ActiveRules([r], queue) == if r.queue == queue && r.isActive then [r] else []
  {
    assert [r][1..] == [];
  }

  /** The tier-3 rules, one rule at a time. */
  lemma {:induction false} TierThreeJoins(a: seq<RuleView>, b: seq<RuleView>, tier: string -> int)
    ensures TierThree(a + b, tier) == TierThree(a, tier) + TierThree(b, tier)
    ensures |a| == 1 ==> TierThree(a, tier) == if a[0].kind.Str? && tier(a[0].kind.s) == 3 then a else []
  {
    if a == [] {
      assert a + b == b;
    } else {
      assert (a + b)[1..] == a[1..] + b;
      TierThreeJoins(a[1..], b, tier);
    }
  }

  /** A task without a snapshot is judged by the rules active when it runs, as if they had been
      snapshotted just then. */
  lemma NoSnapshotIsLive(live: Table, queue: int, tier: string -> int)
    requires forall r <- live.rules :: Valid(r.config)
    ensures Phase2Rules("", live, queue, tier)
            == Phase2Rules(Snapshot(ActiveRules(live.rules, queue)), live, queue, tier)
  {
    SnapshotRoundTrip(ActiveRules(live.rules, queue));
  }
}
