/** What the rule operations do to the table, row by row and field by field
    (app/database/crud/rules.py:73-302). */
module RuleLaws {
  import opened Options
  import opened Json
  import opened ConfigNormalization
  import opened RuleTable

  // ---------------------------------------------------------------- the words of the laws

  /** Only registered rule types restrict their versions. */
  predicate Unsupported(reg: Registry, kind: string, version: string) {
    kind in reg.versions && version !in reg.versions[kind]
  }

  /** A row of the queue with this type and version, and an equivalent config. */
  predicate Twin(x: Rule, queue: int, kind: string, version: string, config: Json) {
    x.queue == queue && x.kind == kind && x.version == version && Normalize(x.config) == Normalize(config)
  }

  function OrElse<T>(given: Option<T>, default: T): T { if given.Some? then given.value else default }

  /** The row that a submitted rule becomes. */
  function Submitted(id: nat, queue: int, d: RuleData): Rule {
    Rule(id, queue, d.kind, OrElse(d.config, Dict([])), OrElse(d.isActive, true), OrElse(d.isPublic, true),
         OrElse(d.version, "1.0"))
  }

  /** The rows of one queue, in order. */
  function InQueue(rules: seq<Rule>, queue: int): seq<Rule> {
    if rules == [] then [] else (if rules[0].queue == queue then [rules[0]] else []) + InQueue(rules[1..], queue)
  }

  /** The first row with this id in this queue. */
  predicate First(rules: seq<Rule>, id: nat, queue: int, i: nat) {
    && i < |rules| && rules[i].id == id && rules[i].queue == queue
    && forall j :: 0 <= j < i ==> rules[j].id != id || rules[j].queue != queue
  }

  // ---------------------------------------------------------------- create

  /** Creation refuses an unsupported version, then a twin, and otherwise appends exactly the submitted
      row; a refusal changes nothing. */
  lemma CreateExactly(reg: Registry, t: Table, queue: int, d: RuleData)
    ensures var (after, outcome) := CreateRule(reg, t, queue, d);
            var made := Submitted(t.nextId, queue, d);
            var twin := exists x <- t.rules :: Twin(x, queue, made.kind, made.version, made.config);
            && (outcome == BadRequest <==> Unsupported(reg, made.kind, made.version))
            && (outcome == Conflict <==> !Unsupported(reg, made.kind, made.version) && twin)
            && (outcome == Accepted <==> !Unsupported(reg, made.kind, made.version) && !twin)
            && after == if outcome == Accepted then Table(t.rules + [made], t.nextId + 1) else t
  {
    var made := Submitted(t.nextId, queue, d);
    assert made == NewRule(t.nextId, queue, d);
    forall x | x in t.rules
      ensures Twin(x, queue, made.kind, made.version, made.config) <==> x.queue == queue && Key(x) == Key(made)
    {
    }
  }

  // ---------------------------------------------------------------- replace

  lemma {:induction false} InQueueJoins(a: seq<Rule>, b: seq<Rule>, queue: int)
    ensures InQueue(a + b, queue) == InQueue(a, queue) + InQueue(b, queue)
  {
    if a == [] {
      assert a + b == b;
    } else {
      assert (a + b)[1..] == a[1..] + b;
      InQueueJoins(a[1..], b, queue);
    }
  }

  lemma {:induction false} OthersOnly(rules: seq<Rule>, queue: int, q: int)
    ensures InQueue(OtherQueues(rules, queue), q) == if q == queue then [] else InQueue(rules, q)
  {
    if rules != [] {
      OthersOnly(rules[1..], queue, q);
      InQueueJoins(if rules[0].queue == queue then [] else [rules[0]], OtherQueues(rules[1..], queue), q);
    }
  }

  lemma {:induction false} AllOrNone(rules: seq<Rule>, queue: int, q: int)
    requires forall r <- rules :: r.queue == queue
    ensures InQueue(rules, q) == if q == queue then rules else []
  {
    if rules != [] {
      AllOrNone(rules[1..], queue, q);
      assert rules == [rules[0]] + rules[1..];
    }
  }

  /** Equivalent to an earlier rule of the list, whatever their versions. */
  predicate Repeats(data: seq<RuleData>, i: nat)
    requires i < |data|
  {
    exists j :: 0 <= j < i && data[j].kind == data[i].kind
                && Normalize(OrElse(data[j].config, Dict([]))) == Normalize(OrElse(data[i].config, Dict([])))
  }

  predicate BadVersion(reg: Registry, d: RuleData) { Unsupported(reg, d.kind, OrElse(d.version, "1.0")) }

  /** The scan ends at the first rule that has an unsupported version or repeats an earlier one. */
  predicate ScanEnds(reg: Registry, data: seq<RuleData>, outcome: Outcome) {
    || (outcome == Accepted && forall i: nat :: i < |data| ==> !BadVersion(reg, data[i]) && !Repeats(data, i))
    || (exists i: nat ::
          && i < |data| && (BadVersion(reg, data[i]) || Repeats(data, i))
          && (forall j: nat :: j < i ==> !BadVersion(reg, data[j]) && !Repeats(data, j))
          && outcome == if BadVersion(reg, data[i]) then BadRequest else Conflict)
  }

  ghost predicate SeenIs(data: seq<RuleData>, n: nat, seen: set<(string, string)>)
    requires n <= |data|
  {
    forall k :: k in seen <==>
      exists j :: 0 <= j < n && k == (data[j].kind, Normalize(OrElse(data[j].config, Dict([]))))
  }

  lemma {:induction false} ScanFrom(reg: Registry, data: seq<RuleData>, n: nat, seen: set<(string, string)>)
    requires n <= |data| && SeenIs(data, n, seen)
    requires forall j: nat :: j < n ==> !BadVersion(reg, data[j]) && !Repeats(data, j)
    ensures ScanEnds(reg, data, Scan(reg, data[n..], seen))
    decreases |data| - n
  {
    if n < |data| {
      var d := data[n];
      var key := (d.kind, Normalize(OrElse(d.config, Dict([]))));
      assert data[n..][0] == d && data[n..][1..] == data[n + 1..];
      assert key in seen <==> Repeats(data, n);
      if !BadVersion(reg, d) && !Repeats(data, n) {
        ScanFrom(reg, data, n + 1, seen + {key});
      }
    }
  }

  /** A replacement is refused at the first rule that has an unsupported version or repeats an earlier
      one, and then changes nothing. Otherwise the queue has exactly the submitted rows, field by
      field, and every other queue exactly the rows it had, in order. */
  lemma ReplaceExactly(reg: Registry, t: Table, queue: int, data: seq<RuleData>)
    ensures var (after, outcome) := ReplaceRules(reg, t, queue, data);
            && ScanEnds(reg, data, outcome)
            && (outcome != Accepted ==> after == t)
            && (outcome == Accepted ==>
                  && after.nextId == t.nextId + |data|
                  && (forall q :: q != queue ==> InQueue(after.rules, q) == InQueue(t.rules, q))
                  && |InQueue(after.rules, queue)| == |data|
                  && forall i: nat :: i < |data| ==>
                       InQueue(after.rules, queue)[i] == Submitted(t.nextId + i, queue, data[i]))
  {
    assert data[0..] == data;
    ScanFrom(reg, data, 0, {});
    if Scan(reg, data, {}) == Accepted {
      var added := NewRules(t.nextId, queue, data);
      forall q ensures InQueue(OtherQueues(t.rules, queue) + added, q) == if q == queue then added
          else InQueue(t.rules, q) {
        InQueueJoins(OtherQueues(t.rules, queue), added, q);
        OthersOnly(t.rules, queue, q);
        AllOrNone(added, queue, q);
      }
    }
  }

  // ---------------------------------------------------------------- update and delete

  lemma FoundIsFirst(rules: seq<Rule>, id: nat, queue: int)
    ensures Find(rules, id, queue).Some? ==> First(rules, id, queue, Find(rules, id, queue).value)
    ensures forall i: nat :: First(rules, id, queue, i) ==> Find(rules, id, queue) == Some(i)
  {
    if rules != [] {
      FoundIsFirst(rules[1..], id, queue);
      forall i: nat | First(rules, id, queue, i) ensures Find(rules, id, queue) == Some(i) {
        if i > 0 { assert First(rules[1..], id, queue, i - 1); }
      }
    }
  }

  /** A row after an accepted patch: the given fields, with the validated config, and the others as
      they were. */
  function Patch(r: Rule, u: Updates, validated: Option<Json>): Rule {
    Rule(r.id, r.queue, r.kind, OrElse(validated, r.config), OrElse(u.isActive, r.isActive),
         OrElse(u.isPublic, r.isPublic), OrElse(u.version, r.version))
  }

  /** Why a patch to this row is refused. */
  predicate Invalid(reg: Registry, r: Rule, u: Updates) {
    || (u.config.Some? && reg.validate(r.kind, u.config.value).None?)
    || (u.version.Some? && Unsupported(reg, r.kind, u.version.value))
  }

  /** Some other row of the queue has the patched row's type, version and config; a null or empty
      version stands for the stored one. */
  predicate Clashes(reg: Registry, rules: seq<Rule>, r: Rule, u: Updates) {
    var version := if u.version.Some? && u.version.value != "" then u.version.value else r.version;
    var config := if u.config.Some? then OrElse(reg.validate(r.kind, u.config.value), r.config) else r.config;
    exists x <- rules :: x.id != r.id && Twin(x, r.queue, r.kind, version, config)
  }

  /** An update is refused for a field that may not change, for a row that is not there, for an invalid
      config or version and for a clash, in this order, and then changes nothing. Otherwise it patches
      the row and no other. */
  lemma UpdateExactly(reg: Registry, t: Table, id: nat, queue: int, u: Updates)
    ensures var (after, outcome) := UpdateRule(reg, t, id, queue, u);
            && (u.disallowed != {} ==> outcome == BadRequest)
            && (outcome == NotFound <==> u.disallowed == {} && forall x <- t.rules :: x.id != id || x.queue != queue)
            && (outcome != Accepted ==> after == t)
            && forall i: nat :: u.disallowed == {} && First(t.rules, id, queue, i) ==>
                 var r := t.rules[i];
                 && (outcome == BadRequest <==> Invalid(reg, r, u))
                 && (outcome == Conflict <==> !Invalid(reg, r, u) && Clashes(reg, t.rules, r, u))
                 && (outcome == Accepted ==>
                       && after.nextId == t.nextId && |after.rules| == |t.rules|
                       && (forall j :: 0 <= j < |t.rules| && j != i ==> after.rules[j] == t.rules[j])
                       && after.rules[i] == Patch(r, u, if u.config.Some? then reg.validate(r.kind, u.config.value)
                           else None))
  {
    FoundIsFirst(t.rules, id, queue);
    forall i: nat | u.disallowed == {} && First(t.rules, id, queue, i)
      ensures var r := t.rules[i];
              var config := if u.config.None? then u.config else reg.validate(r.kind, u.config.value);
              !Invalid(reg, r, u) ==>
                (Taken(t.rules, queue, CheckedKey(r, u.(config := config)), Some(id)) <==> Clashes(reg, t.rules, r, u))
    {
      if !Invalid(reg, t.rules[i], u) { TakenIsClash(reg, t.rules, t.rules[i], u); }
    }
  }

  lemma TakenIsClash(reg: Registry, rules: seq<Rule>, r: Rule, u: Updates)
    requires !Invalid(reg, r, u)
    ensures var config := if u.config.None? then u.config else reg.validate(r.kind, u.config.value);
            Taken(rules, r.queue, CheckedKey(r, u.(config := config)), Some(r.id)) <==> Clashes(reg, rules, r, u)
  {
    var config := if u.config.None? then u.config else reg.validate(r.kind, u.config.value);
    var version := if u.version.Some? && u.version.value != "" then u.version.value else r.version;
    assert CheckedKey(r, u.(config := config)) == (r.kind, version, Normalize(OrElse(config, r.config)));
    forall x | x in rules
      ensures Twin(x, r.queue, r.kind, version, OrElse(config, r.config)) <==>
              x.queue == r.queue && Key(x) == CheckedKey(r, u.(config := config))
    {
    }
  }

  /** A deletion removes exactly the row, or finds none and changes nothing. */
  lemma DeleteExactly(t: Table, id: nat, queue: int)
    ensures var (after, outcome) := DeleteRule(t, id, queue);
            && after.nextId == t.nextId
            && (outcome == NotFound <==> forall x <- t.rules :: x.id != id || x.queue != queue)
            && (outcome == NotFound ==> after == t)
            && forall i: nat :: First(t.rules, id, queue, i) ==>
                 && outcome == Accepted && |after.rules| == |t.rules| - 1
                 && (forall j :: 0 <= j < i ==> after.rules[j] == t.rules[j])
                 && (forall j :: i < j < |t.rules| ==> after.rules[j - 1] == t.rules[j])
  {
    FoundIsFirst(t.rules, id, queue);
  }
}
