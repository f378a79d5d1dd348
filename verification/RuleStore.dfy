/** `RuleCRUD` as it runs: loops over the rows of a queue, and rows changed in place
    (app/database/crud/rules.py:73-302). Each method is proved against the table function. */
module RuleStore {
  import opened Options
  import opened ConfigNormalization
  import opened RuleTable

  class RuleCrud {
    const reg: Registry
    var rules: seq<Rule>
    var nextId: nat

    constructor (reg: Registry)
      ensures this.reg == reg && Contents() == Table([], 0) && Invariant(reg, Contents())
    {
      this.reg := reg;
      rules, nextId := [], 0;
    }

    function Contents(): Table
      reads this
    {
      Table(rules, nextId)
    }

    /** Whether some other rule of the queue has the fingerprint; a plain scan. */
    method IsTaken(queue: int, key: Fingerprint, except: Option<nat>) returns (taken: bool)
      ensures taken <==> Taken(rules, queue, key, except)
    {
      taken := false;
      for i := 0 to |rules|
        invariant taken <==> Taken(rules[..i], queue, key, except)
      {
        if rules[i].queue == queue && Some(rules[i].id) != except && Key(rules[i]) == key {
          taken := true;
        }
        assert rules[..i + 1] == rules[..i] + [rules[i]];
      }
      assert rules[..|rules|] == rules;
    }

    method Create(queue: int, d: RuleData) returns (outcome: Outcome)
      modifies this
      ensures (Contents(), outcome) == CreateRule(reg, old(Contents()), queue, d)
      ensures old(Invariant(reg, Contents())) ==> Invariant(reg, Contents())
    {
      CreateKeepsIfHeld(queue, d);
      var rule := NewRule(nextId, queue, d);
      if !Supports(reg, d.kind, rule.version) {
        return BadRequest;
      }
      var taken := IsTaken(queue, Key(rule), None);
      if taken {
        return Conflict;
      }
      rules, nextId := rules + [rule], nextId + 1;
      outcome := Accepted;
    }

    lemma CreateKeepsIfHeld(queue: int, d: RuleData)
      ensures Invariant(reg, Contents()) ==> Invariant(reg, CreateRule(reg, Contents(), queue, d).0)
    {
      if Invariant(reg, Contents()) { CreateKeeps(reg, Contents(), queue, d); }
    }

    /** The first pass over a replacement list, with the set of pairs seen so far. */
    method ScanList(data: seq<RuleData>) returns (outcome: Outcome)
      ensures outcome == Scan(reg, data, {})
    {
      var seen: set<(string, string)> := {};
      for i := 0 to |data|
        invariant Scan(reg, data, {}) == Scan(reg, data[i..], seen)
      {
        var key := (data[i].kind, Normalize(ConfigOf(data[i])));
        assert data[i..][1..] == data[i + 1..];
        if !Supports(reg, data[i].kind, VersionOf(data[i])) {
          return BadRequest;
        }
        if key in seen {
          return Conflict;
        }
        seen := seen + {key};
      }
      assert data[|data|..] == [];
      outcome := Accepted;
    }

    /** The rows that survive when the rules of one queue are deleted one by one. */
    method DeleteAll(queue: int) returns (kept: seq<Rule>)
      ensures kept == OtherQueues(rules, queue)
    {
      kept := [];
      for i := 0 to |rules|
        invariant kept + OtherQueues(rules[i..], queue) == OtherQueues(rules, queue)
      {
        assert rules[i..][1..] == rules[i + 1..];
        if rules[i].queue != queue {
          kept := kept + [rules[i]];
        }
      }
      assert rules[|rules|..] == [];
    }

    method CreateAll(queue: int, data: seq<RuleData>) returns (created: seq<Rule>)
      ensures created == NewRules(nextId, queue, data)
    {
      created := [];
      for i := 0 to |data|
        invariant |created| == i
        invariant forall k :: 0 <= k < i ==> created[k] == NewRule(nextId + k, queue, data[k])
      {
        created := created + [NewRule(nextId + i, queue, data[i])];
      }
    }

    lemma ReplaceKeepsIfHeld(queue: int, data: seq<RuleData>)
      ensures Invariant(reg, Contents()) ==> Invariant(reg, ReplaceRules(reg, Contents(), queue, data).0)
    {
      if Invariant(reg, Contents()) { ReplaceKeeps(reg, Contents(), queue, data); }
    }

    method Replace(queue: int, data: seq<RuleData>) returns (outcome: Outcome)
      modifies this
      ensures (Contents(), outcome) == ReplaceRules(reg, old(Contents()), queue, data)
      ensures old(Invariant(reg, Contents())) ==> Invariant(reg, Contents())
    {
      ReplaceKeepsIfHeld(queue, data);
      outcome := ScanList(data);
      if outcome != Accepted {
        return;
      }
      var kept := DeleteAll(queue);
      var created := CreateAll(queue, data);
      rules, nextId := kept + created, nextId + |data|;
    }

    method Update(id: nat, queue: int, updates: Updates) returns (outcome: Outcome)
      modifies this
      ensures (Contents(), outcome) == UpdateRule(reg, old(Contents()), id, queue, updates)
      ensures old(Invariant(reg, Contents()) && !UnseenClash(reg, Contents(), id, queue, updates)) ==>
                Invariant(reg, Contents())
    {
      if Invariant(reg, Contents()) { UpdateKeepsExactly(reg, Contents(), id, queue, updates); }
      if updates.disallowed != {} {
        return BadRequest;
      }
      var found := Find(rules, id, queue);
      if found.None? {
        return NotFound;
      }
      var rule, u := rules[found.value], updates;
      if u.config.Some? {
        var validated := reg.validate(rule.kind, u.config.value);
        if validated.None? {
          return BadRequest;
        }
        u := u.(config := validated);
      }
      if u.version.Some? && !Supports(reg, rule.kind, u.version.value) {
        return BadRequest;
      }
      var taken := IsTaken(queue, CheckedKey(rule, u), Some(id));
      if taken {
        return Conflict;
      }
      rules := rules[found.value := Patched(rule, u)];
      outcome := Accepted;
    }

    method Delete(id: nat, queue: int) returns (outcome: Outcome)
      modifies this
      ensures (Contents(), outcome) == DeleteRule(old(Contents()), id, queue)
      ensures old(Invariant(reg, Contents())) ==> Invariant(reg, Contents())
    {
      if Invariant(reg, Contents()) { DeleteKeeps(reg, Contents(), id, queue); }
      var found := Find(rules, id, queue);
      if found.None? {
        return NotFound;
      }
      rules := rules[..found.value] + rules[found.value + 1..];
      outcome := Accepted;
    }
  }
}
