/** The rules of the queues and the operations that change them (app/database/crud/rules.py). */
module RuleTable {
  import opened Options
  import opened Json
  import opened ConfigNormalization

  datatype Rule = Rule(id: nat, queue: int, kind: string, config: Json, isActive: bool, isPublic: bool, version: string)

  /** A rule as submitted; absent fields take their defaults. */
  datatype RuleData = RuleData(kind: string, config: Option<Json>, version: Option<string>,
                               isActive: Option<bool>, isPublic: Option<bool>)

  /** A patch: the four updatable fields (a null is as good as absent) and the names of any others. */
  datatype Updates = Updates(config: Option<Json>, version: Option<string>,
                             isActive: Option<bool>, isPublic: Option<bool>, disallowed: set<string>)

  datatype Outcome = Accepted | NotFound | BadRequest | Conflict

  datatype Table = Table(rules: seq<Rule>, nextId: nat)

  /** The versions each registered rule type supports, and the per-type config validator. */
  datatype Registry = Registry(versions: map<string, set<string>>, validate: (string, Json) -> Option<Json>)

  type Fingerprint = (string, string, string)

  function Key(r: Rule): Fingerprint { (r.kind, r.version, Normalize(r.config)) }

  predicate Supports(reg: Registry, kind: string, version: string) {
    kind in reg.versions ==> version in reg.versions[kind]
  }

  function VersionOf(d: RuleData): string { d.version.GetOr("1.0") }

  function ConfigOf(d: RuleData): Json { d.config.GetOr(Dict([])) }

  function NewRule(id: nat, queue: int, d: RuleData): Rule {
    Rule(id, queue, d.kind, ConfigOf(d), d.isActive.GetOr(true), d.isPublic.GetOr(true), VersionOf(d))
  }

  // ---------------------------------------------------------------- what each operation does

  /** Another rule of the queue already has this fingerprint. */
  predicate Taken(rules: seq<Rule>, queue: int, key: Fingerprint, except: Option<nat>) {
    exists r <- rules :: r.queue == queue && Some(r.id) != except && Key(r) == key
  }

  function CreateRule(reg: Registry, t: Table, queue: int, d: RuleData): (Table, Outcome) {
    var rule := NewRule(t.nextId, queue, d);
    if !Supports(reg, d.kind, rule.version) then (t, BadRequest)
    else if Taken(t.rules, queue, Key(rule), None) then (t, Conflict)
    else (Table(t.rules + [rule], t.nextId + 1), Accepted)
  }

  /** The scan of a replacement list: unsupported versions and duplicates, in list order. The
      duplicate test ignores the version. */
  function Scan(reg: Registry, data: seq<RuleData>, seen: set<(string, string)>): Outcome {
    if data == [] then Accepted
    else if !Supports(reg, data[0].kind, VersionOf(data[0])) then BadRequest
    else if (data[0].kind, Normalize(ConfigOf(data[0]))) in seen then Conflict
    else Scan(reg, data[1..], seen + {(data[0].kind, Normalize(ConfigOf(data[0])))})
  }

  function OtherQueues(rules: seq<Rule>, queue: int): seq<Rule> {
    if rules == [] then []
    else (if rules[0].queue == queue then [] else [rules[0]]) + OtherQueues(rules[1..], queue)
  }

  function NewRules(id: nat, queue: int, data: seq<RuleData>): (r: seq<Rule>)
    ensures |r| == |data|
    ensures forall i :: 0 <= i < |r| ==> r[i] == NewRule(id + i, queue, data[i])
    decreases data
  {
    if data == [] then [] else [NewRule(id, queue, data[0])] + NewRules(id + 1, queue, data[1..])
  }

  function ReplaceRules(reg: Registry, t: Table, queue: int, data: seq<RuleData>): (Table, Outcome) {
    if Scan(reg, data, {}) != Accepted then (t, Scan(reg, data, {}))
    else (Table(OtherQueues(t.rules, queue) + NewRules(t.nextId, queue, data), t.nextId + |data|), Accepted)
  }

  function Find(rules: seq<Rule>, id: nat, queue: int): (r: Option<nat>)
    ensures r.Some? ==> r.value < |rules| && rules[r.value].id == id && rules[r.value].queue == queue
    ensures r.None? ==> forall x <- rules :: x.id != id || x.queue != queue
  {
    if rules == [] then None
    else if rules[0].id == id && rules[0].queue == queue then Some(0)
    else
      var rest := Find(rules[1..], id, queue);
      if rest.None? then None else Some(rest.value + 1)
  }

  function Patched(r: Rule, u: Updates): Rule {
    r.(config := u.config.GetOr(r.config), version := u.version.GetOr(r.version),
       isActive := u.isActive.GetOr(r.isActive), isPublic := u.isPublic.GetOr(r.isPublic))
  }

  /** The fingerprint the update checks: an empty version falls back to the stored one. */
  function CheckedKey(r: Rule, u: Updates): Fingerprint {
    var p := Patched(r, u);
    (p.kind, if p.version == "" then r.version else p.version, Normalize(p.config))
  }

  function UpdateRule(reg: Registry, t: Table, id: nat, queue: int, u: Updates): (Table, Outcome) {
    if u.disallowed != {} then (t, BadRequest)
    else
      match Find(t.rules, id, queue)
      case None => (t, NotFound)
      case Some(i) =>
        var r := t.rules[i];
        var config := if u.config.None? then u.config else reg.validate(r.kind, u.config.value);
        if u.config.Some? && config.None? then (t, BadRequest)
        else if u.version.Some? && !Supports(reg, r.kind, u.version.value) then (t, BadRequest)
        else if Taken(t.rules, queue, CheckedKey(r, u.(config := config)), Some(id)) then (t, Conflict)
        else (t.(rules := t.rules[i := Patched(r, u.(config := config))]), Accepted)
  }

  function DeleteRule(t: Table, id: nat, queue: int): (Table, Outcome) {
    match Find(t.rules, id, queue)
    case None => (t, NotFound)
    case Some(i) => (t.(rules := t.rules[..i] + t.rules[i + 1..]), Accepted)
  }

  // ---------------------------------------------------------------- the invariant

  /** Two rows that may stand in this order: ascending ids, and in one queue different fingerprints. */
  predicate Apart(a: Rule, b: Rule) {
    a.id < b.id && (a.queue == b.queue ==> Key(a) != Key(b))
  }

  ghost predicate AllApart(rules: seq<Rule>) {
    forall i, j :: 0 <= i < j < |rules| ==> Apart(rules[i], rules[j])
  }

  /** What each row must satisfy on its own: an id already given out and a supported version. */
  predicate Sound(reg: Registry, nextId: nat, r: Rule) {
    r.id < nextId && Supports(reg, r.kind, r.version)
  }

  ghost predicate Invariant(reg: Registry, t: Table) {
    AllApart(t.rules) && forall r <- t.rules :: Sound(reg, t.nextId, r)
  }

  lemma JoinApart(a: seq<Rule>, b: seq<Rule>)
    requires AllApart(a) && AllApart(b) && forall x <- a, y <- b :: Apart(x, y)
    ensures AllApart(a + b)
  {
    forall i, j | 0 <= i < j < |a + b| ensures Apart((a + b)[i], (a + b)[j]) {
      if i < |a| <= j { assert (a + b)[i] in a && (a + b)[j] in b; }
    }
  }

  lemma CreateKeeps(reg: Registry, t: Table, queue: int, d: RuleData)
    requires Invariant(reg, t)
    ensures Invariant(reg, CreateRule(reg, t, queue, d).0)
  {
    if CreateRule(reg, t, queue, d).1 == Accepted {
      JoinApart(t.rules, [NewRule(t.nextId, queue, d)]);
    }
  }

  lemma DeleteKeeps(reg: Registry, t: Table, id: nat, queue: int)
    requires Invariant(reg, t)
    ensures Invariant(reg, DeleteRule(t, id, queue).0)
  {
    var i := Find(t.rules, id, queue);
    if i.Some? {
      JoinApart(t.rules[..i.value], t.rules[i.value + 1..]);
    }
  }

  lemma {:induction false} ScanFindsDuplicates(reg: Registry, data: seq<RuleData>, seen: set<(string, string)>)
    requires Scan(reg, data, seen) == Accepted
    ensures forall d <- data :: Supports(reg, d.kind, VersionOf(d)) && (d.kind, Normalize(ConfigOf(d))) !in seen
    ensures forall i, j :: 0 <= i < j < |data| ==>
              (data[i].kind, Normalize(ConfigOf(data[i]))) != (data[j].kind, Normalize(ConfigOf(data[j])))
  {
    if data != [] {
      ScanFindsDuplicates(reg, data[1..], seen + {(data[0].kind, Normalize(ConfigOf(data[0])))});
    }
  }

  lemma {:induction false} OtherQueuesKeep(rules: seq<Rule>, queue: int)
    requires AllApart(rules)
    ensures forall r <- OtherQueues(rules, queue) :: r in rules && r.queue != queue
    ensures AllApart(OtherQueues(rules, queue))
  {
    if rules != [] {
      OtherQueuesKeep(rules[1..], queue);
      var rest := OtherQueues(rules[1..], queue);
      forall r | r in rest ensures Apart(rules[0], r) {
        var j :| 0 <= j < |rules[1..]| && rules[1..][j] == r;
        assert r == rules[j + 1];
      }
      JoinApart([rules[0]], rest);
    }
  }

  lemma NewRulesApart(reg: Registry, id: nat, queue: int, data: seq<RuleData>)
    requires Scan(reg, data, {}) == Accepted
    ensures AllApart(NewRules(id, queue, data))
    ensures forall r <- NewRules(id, queue, data) ::
              id <= r.id < id + |data| && r.queue == queue && Supports(reg, r.kind, r.version)
  {
    ScanFindsDuplicates(reg, data, {});
  }

  lemma ReplaceKeeps(reg: Registry, t: Table, queue: int, data: seq<RuleData>)
    requires Invariant(reg, t)
    ensures Invariant(reg, ReplaceRules(reg, t, queue, data).0)
  {
    if Scan(reg, data, {}) == Accepted {
      OtherQueuesKeep(t.rules, queue);
      NewRulesApart(reg, t.nextId, queue, data);
      JoinApart(OtherQueues(t.rules, queue), NewRules(t.nextId, queue, data));
    }
  }

  /** The one duplicate the update does not look for: an accepted empty version is stored, but the
      check compares the version it replaces. */
  predicate UnseenClash(reg: Registry, t: Table, id: nat, queue: int, u: Updates) {
    var i := Find(t.rules, id, queue);
    && i.Some? && u.version == Some("")
    && var r := t.rules[i.value];
       var config := if u.config.None? then r.config else reg.validate(r.kind, u.config.value).GetOr(r.config);
       Taken(t.rules, queue, (r.kind, "", Normalize(config)), Some(id))
  }

  /** An accepted update keeps the invariant if and only if it is not that clash. */
  lemma UpdateKeepsExactly(reg: Registry, t: Table, id: nat, queue: int, u: Updates)
    requires Invariant(reg, t)
    ensures UpdateRule(reg, t, id, queue, u).1 != Accepted ==> UpdateRule(reg, t, id, queue, u).0 == t
    ensures UpdateRule(reg, t, id, queue, u).1 == Accepted ==>
              (Invariant(reg, UpdateRule(reg, t, id, queue, u).0) <==> !UnseenClash(reg, t, id, queue, u))
  {
    var (after, outcome) := UpdateRule(reg, t, id, queue, u);
    if outcome == Accepted {
      var i := Find(t.rules, id, queue).value;
      var p := after.rules[i];
      assert after.rules == t.rules[i := p];
      assert Sound(reg, t.nextId, t.rules[i]);
      forall x | x in after.rules ensures Sound(reg, after.nextId, x) {
        assert x == p || x in t.rules;
      }
      if UnseenClash(reg, t, id, queue, u) {
        var x :| x in t.rules && x.queue == queue && Some(x.id) != Some(id) && Key(x) == Key(p);
        var j :| 0 <= j < |t.rules| && t.rules[j] == x;
        assert after.rules[j] == x && j != i && !Apart(x, p) && !Apart(p, x);
      } else {
        forall j | 0 <= j < |t.rules| && j != i
          ensures if j < i then Apart(t.rules[j], p) else Apart(p, t.rules[j])
        {
          assert t.rules[j] in t.rules;
          assert Apart(t.rules[if i < j then i else j], t.rules[if i < j then j else i]);
        }
      }
    }
  }

  // ---------------------------------------------------------------- runs

  datatype Op =
    | Create(queue: int, data: RuleData)
    | Replace(queue: int, list: seq<RuleData>)
    | Update(id: nat, queue: int, updates: Updates)
    | Delete(id: nat, queue: int)

  function Apply(reg: Registry, t: Table, op: Op): (Table, Outcome) {
    match op
    case Create(queue, data) => CreateRule(reg, t, queue, data)
    case Replace(queue, list) => ReplaceRules(reg, t, queue, list)
    case Update(id, queue, updates) => UpdateRule(reg, t, id, queue, updates)
    case Delete(id, queue) => DeleteRule(t, id, queue)
  }

  function Run(reg: Registry, t: Table, ops: seq<Op>): Table
    decreases ops
  {
    if ops == [] then t else Run(reg, Apply(reg, t, ops[0]).0, ops[1..])
  }

  predicate NonEmptyVersions(ops: seq<Op>) {
    forall op <- ops :: op.Update? ==> op.updates.version != Some("")
  }

  /** Every one-at-a-time run with non-empty versions keeps the table free of duplicates and of
      unsupported versions. */
  lemma {:induction false} RunKeeps(reg: Registry, t: Table, ops: seq<Op>)
    requires Invariant(reg, t) && NonEmptyVersions(ops)
    ensures Invariant(reg, Run(reg, t, ops))
    decreases ops
  {
    if ops != [] {
      match ops[0] {
        case Create(queue, data) => CreateKeeps(reg, t, queue, data);
        case Replace(queue, list) => ReplaceKeeps(reg, t, queue, list);
        case Update(id, queue, updates) =>
          assert ops[0] in ops;
          UpdateKeepsExactly(reg, t, id, queue, updates);
        case Delete(id, queue) => DeleteKeeps(reg, t, id, queue);
      }
      RunKeeps(reg, Apply(reg, t, ops[0]).0, ops[1..]);
    }
  }

  /** In the system's own terms: no queue holds two rules of one type and version whose
      configurations differ only in the order of keys and list items. */
  lemma NoEquivalentRules(reg: Registry, t: Table, ops: seq<Op>, i: nat, j: nat)
    requires Invariant(reg, t) && NonEmptyVersions(ops)
    requires var rules := Run(reg, t, ops).rules;
             i < j < |rules| && rules[i].queue == rules[j].queue && Valid(rules[i].config) && Valid(rules[j].config)
    ensures var rules := Run(reg, t, ops).rules;
            !(rules[i].kind == rules[j].kind && rules[i].version == rules[j].version
                && Same(rules[i].config, rules[j].config))
  {
    RunKeeps(reg, t, ops);
    var rules := Run(reg, t, ops).rules;
    assert Apart(rules[i], rules[j]);
    NormalizeIsCanonical(rules[i].config, rules[j].config);
  }

  const UNREGISTERED := Registry(map[], (kind, config) => Some(config))

  /** With an unregistered rule type, an empty version does produce a duplicate. */
  lemma EmptyVersionDuplicates()
    ensures var r := Rule(0, 1, "x", Null, true, true, "1.0");
            var t := Table([r, r.(id := 1, version := "")], 2);
            var u := Updates(None, Some(""), None, None, {});
            && Invariant(UNREGISTERED, t)
            && UpdateRule(UNREGISTERED, t, 0, 1, u).1 == Accepted
            && !AllApart(UpdateRule(UNREGISTERED, t, 0, 1, u).0.rules)
  {
    var r := Rule(0, 1, "x", Null, true, true, "1.0");
    var t := Table([r, r.(id := 1, version := "")], 2);
    var u := Updates(None, Some(""), None, None, {});
    assert Find(t.rules, 0, 1) == Some(0);
    var after := UpdateRule(UNREGISTERED, t, 0, 1, u).0;
    assert after.rules == t.rules[0 := Patched(r, u)];
    assert !Apart(after.rules[0], after.rules[1]);
  }
}
