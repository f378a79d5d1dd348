/** Which rows are rejected, over every run of the request protocol and whatever its keys are
    (app/daemon/services/rule_validation.py:108-172, api/v1/requests/__init__.py:223-246). */
module RequestVerdicts {
  import opened Options
  import RuleTable
  import opened RuleSnapshot
  import opened RequestProtocol
  import opened RequestSteps

  /** What the last write of the row's status left: rejected or not. */
  predicate LastMark(log: seq<Entry>, row: nat) {
    if log == [] then false
    else
      match log[|log| - 1]
      case Rejected(r) => r == row || LastMark(log[..|log| - 1], row)
      case Patched(r, rejected) => if r == row then rejected else LastMark(log[..|log| - 1], row)
      case _ => LastMark(log[..|log| - 1], row)
  }

  /** A validator ran a non-empty set of tier-3 rules on the row, and its verdict was against it. */
  ghost predicate Condemned(log: seq<Entry>, row: int) {
    row >= 0 && exists rules :: rules != [] && Validated(row, Some(rules), true) in log
  }

  ghost predicate MarksKnown(log: seq<Entry>, rows: map<nat, Row>, nextRow: nat) {
    && (forall id <- rows :: rows[id].rejected <==> LastMark(log, id))
    && (forall e <- log :: e.Rejected? || e.Patched? ==> e.row < nextRow)
  }

  ghost predicate VerdictsKnown(log: seq<Entry>, validators: map<int, Validator>) {
    && (forall id <- validators :: validators[id].pc.VRejecting? ==> Condemned(log, validators[id].pc.request))
    && (forall i: nat :: i < |log| && log[i].Rejected? ==> Condemned(log[..i], log[i].row))
  }

  ghost predicate Judged(s: State) {
    Fresh(s) && MarksKnown(s.log, s.rows, s.nextRow) && VerdictsKnown(s.log, s.validators)
  }

  // ---------------------------------------------------------------- the marks

  lemma {:induction false} NoMark(log: seq<Entry>, row: nat)
    requires forall e <- log :: e.Rejected? || e.Patched? ==> e.row < row
    ensures !LastMark(log, row)
  {
    if log != [] {
      assert log[|log| - 1] in log;
      NoMark(log[..|log| - 1], row);
    }
  }

  lemma {:induction false} MarkAfter(log: seq<Entry>, e: Entry, row: nat)
    ensures LastMark(log + [e], row) <==>
            if e == Rejected(row) || e == Patched(row, true) then true
            else e != Patched(row, false) && LastMark(log, row)
  {
    assert (log + [e])[..|log|] == log;
  }

  lemma MarkIsMade(k: Config, s: State, e: Event, x: Entry, s': State)
    requires Truthful(k, s, e, x, s')
    ensures x.Rejected? ==> x.row in s.rows && Marks(s, e, x.row, true)
    ensures x.Patched? ==> x.row in s.rows && Marks(s, e, x.row, x.rejected)
  {
  }

  lemma {:induction false} OldMarks(k: Config, s: State, e: Event, s': State, id: nat)
    requires Judged(s) && Follows(k, s, e, s') && id in s.rows && id in s'.rows
    ensures s'.rows[id].rejected <==> LastMark(s'.log, id)
  {
    if Marks(s, e, id, true) {
      MarkAfter(s.log, if e.PatchRow? then Patched(id, true) else Rejected(id), id);
    } else if Marks(s, e, id, false) {
      MarkAfter(s.log, Patched(id, false), id);
    } else if s'.log != s.log {
      var x :| s'.log == s.log + [x] && Truthful(k, s, e, x, s');
      MarkIsMade(k, s, e, x, s');
      MarkAfter(s.log, x, id);
    }
  }

  lemma {:induction false} MarksStayKnown(k: Config, s: State, e: Event, s': State)
    requires Judged(s) && Follows(k, s, e, s')
    ensures MarksKnown(s'.log, s'.rows, s'.nextRow)
  {
    EntriesStayOld(k, s, e, s');
    forall id | id in s'.rows ensures s'.rows[id].rejected <==> LastMark(s'.log, id) {
      if id in s.rows { OldMarks(k, s, e, s', id); } else { NewIsUnmarked(k, s, e, s', id); }
    }
  }

  lemma {:induction false} EntriesStayOld(k: Config, s: State, e: Event, s': State)
    requires Judged(s) && Follows(k, s, e, s')
    ensures forall x <- s'.log :: x.Rejected? || x.Patched? ==> x.row < s.nextRow
    ensures s.nextRow <= s'.nextRow
  {
    if s'.log != s.log {
      var x :| s'.log == s.log + [x] && Truthful(k, s, e, x, s');
      MarkIsMade(k, s, e, x, s');
    }
  }

  lemma {:induction false} NewIsUnmarked(k: Config, s: State, e: Event, s': State, id: nat)
    requires Judged(s) && Follows(k, s, e, s') && id !in s.rows && id in s'.rows
    ensures !s'.rows[id].rejected && !LastMark(s'.log, id)
  {
    EntriesStayOld(k, s, e, s');
    NoMark(s'.log, id);
  }

  // ---------------------------------------------------------------- the verdicts

  lemma CondemnedStays(log: seq<Entry>, log': seq<Entry>, row: int)
    requires Condemned(log, row) && log <= log'
    ensures Condemned(log', row)
  {
    var rules :| rules != [] && Validated(row, Some(rules), true) in log;
    var i :| 0 <= i < |log| && log[i] == Validated(row, Some(rules), true);
    assert log'[i] == Validated(row, Some(rules), true);
  }

  lemma {:induction false} LogGrows(k: Config, s: State, e: Event, s': State)
    requires Follows(k, s, e, s')
    ensures s.log <= s'.log
  {
  }

  lemma {:induction false} ValidatorsStayKnown(k: Config, s: State, e: Event, s': State, id: int)
    requires Judged(s) && Follows(k, s, e, s') && id in s'.validators && s'.validators[id].pc.VRejecting?
    ensures Condemned(s'.log, s'.validators[id].pc.request)
  {
    LogGrows(k, s, e, s');
    var row := s'.validators[id].pc.request;
    if id in s.validators && s.validators[id] == s'.validators[id] {
      CondemnedStays(s.log, s'.log, row);
    } else {
      var rules :| rules != [] && s'.log == s.log + [Validated(row, Some(rules), true)];
      assert s'.log[|s.log|] == Validated(row, Some(rules), true);
    }
  }

  lemma {:induction false} RejectionsStayKnown(k: Config, s: State, e: Event, s': State, i: nat)
    requires Judged(s) && Follows(k, s, e, s') && i < |s'.log| && s'.log[i].Rejected?
    ensures Condemned(s'.log[..i], s'.log[i].row)
  {
    LogGrows(k, s, e, s');
    if i < |s.log| {
      assert s'.log[..i] == s.log[..i] && s'.log[i] == s.log[i];
    } else {
      var x :| s'.log == s.log + [x] && Truthful(k, s, e, x, s');
      assert s'.log[..i] == s.log && s'.log[i] == x;
      assert s.validators[e.id].pc == VRejecting(x.row);
    }
  }

  lemma {:induction false} StepJudges(k: Config, s: State, e: Event)
    requires Judged(s)
    ensures Judged(Step(k, s, e))
  {
    var s' := Step(k, s, e);
    StepFollows(k, s, e);
    MarksStayKnown(k, s, e, s');
    forall id | id in s'.validators && s'.validators[id].pc.VRejecting?
      ensures Condemned(s'.log, s'.validators[id].pc.request) { ValidatorsStayKnown(k, s, e, s', id); }
    forall i: nat | i < |s'.log| && s'.log[i].Rejected?
      ensures Condemned(s'.log[..i], s'.log[i].row) { RejectionsStayKnown(k, s, e, s', i); }
  }

  /** In every run, whatever the keys: a row is rejected exactly when the last write of its status
      said so, and every such write by a validator came after it ran some tier-3 rule on that row with
      a verdict against it. */
  lemma {:induction false} RejectedExactly(k: Config, queues: map<int, Queue>, admins: set<int>,
                                           rules: RuleTable.Table, events: seq<Event>)
    ensures var s := Run(k, Initial(queues, admins, rules), events);
            && (forall id <- s.rows :: s.rows[id].rejected <==> LastMark(s.log, id))
            && (forall i: nat :: i < |s.log| && s.log[i].Rejected? ==> Condemned(s.log[..i], s.log[i].row))
            && Judged(s)
  {
    if events != [] {
      RejectedExactly(k, queues, admins, rules, events[..|events| - 1]);
      StepJudges(k, Run(k, Initial(queues, admins, rules), events[..|events| - 1]), events[|events| - 1]);
    }
  }

  lemma {:induction false} MarkHasEntry(log: seq<Entry>, row: nat)
    requires LastMark(log, row)
    ensures Patched(row, true) in log || exists i: nat :: i < |log| && log[i] == Rejected(row)
  {
    var last := log[|log| - 1];
    if last != Rejected(row) && last != Patched(row, true) {
      MarkHasEntry(log[..|log| - 1], row);
      if Patched(row, true) !in log {
        var i: nat :| i < |log| - 1 && log[..|log| - 1][i] == Rejected(row);
        assert log[i] == Rejected(row);
      }
    }
  }

  /** A row that no manager set to rejected is rejected only after a validator ran some tier-3 rule on
      it, with a verdict against it. */
  lemma {:induction false} RejectedOnlyByVerdict(k: Config, queues: map<int, Queue>, admins: set<int>,
                                                 rules: RuleTable.Table, events: seq<Event>, id: nat)
    requires id in Run(k, Initial(queues, admins, rules), events).rows
             && Run(k, Initial(queues, admins, rules), events).rows[id].rejected
    requires Patched(id, true) !in Run(k, Initial(queues, admins, rules), events).log
    ensures Condemned(Run(k, Initial(queues, admins, rules), events).log, id)
  {
    RejectedExactly(k, queues, admins, rules, events);
    var s := Run(k, Initial(queues, admins, rules), events);
    MarkHasEntry(s.log, id);
    var i: nat :| i < |s.log| && s.log[i] == Rejected(id);
    CondemnedStays(s.log[..i], s.log, id);
  }

  /** A verdict against the row under some tier-3 rule, once written, leaves the row rejected. */
  lemma {:induction false} VerdictIsWritten(k: Config, s: State, id: int, row: nat, rules: seq<RuleView>, rejects: bool)
    requires id in s.validators && row in s.rows && !s.rows[row].rejected
    requires s.validators[id].pc.VRunning? && s.validators[id].pc.request == row
    requires Phase2Rules(s.validators[id].pc.text, s.rules, s.validators[id].pc.queue, k.tier) == Some(rules)
    ensures var s1 := Step(k, s, StepValidator(id, Fine, rejects));
            var s2 := Step(k, s1, StepValidator(id, Fine, rejects));
            && s1.rows == s.rows && s1.log == s.log + [Validated(row, Some(rules), rejects)]
            && row in s2.rows && (s2.rows[row].rejected <==> rejects && rules != [])
  {
    var e := StepValidator(id, Fine, rejects);
    var s1 := Step(k, s, e);
    VerdictIs(k, s, id, s.validators[id], row, rejects);
    if rejects && rules != [] {
      RejectIs(k, s1, id, s1.validators[id], row, rejects);
    } else {
      Completes(k, s1, id, s1.validators[id], rejects);
    }
  }

  lemma {:induction false} Completes(k: Config, s: State, id: int, v: Validator, rejects: bool)
    requires v.pc.VCompleting?
    ensures ValidatorStep(k, s, id, v, Fine, rejects).rows == s.rows
  {
  }

  /** A rejected row stays rejected until a manager changes its status or it is deleted, and its id is
      not used again. */
  lemma {:induction false} RejectionStands(k: Config, s: State, events: seq<Event>, id: nat)
    requires Fresh(s) && id in s.rows && s.rows[id].rejected && PatchRow(id, false) !in events
    ensures var s' := Run(k, s, events);
            Fresh(s') && id < s'.nextRow && (id in s'.rows ==> s'.rows[id].rejected)
  {
    if events != [] {
      var before := Run(k, s, events[..|events| - 1]);
      RejectionStands(k, s, events[..|events| - 1], id);
      StepFollows(k, before, events[|events| - 1]);
      StaysMarked(k, before, events[|events| - 1], Run(k, s, events), id);
    }
  }

  lemma {:induction false} StaysMarked(k: Config, s: State, e: Event, s': State, id: nat)
    requires Follows(k, s, e, s') && id < s.nextRow && (id in s.rows ==> s.rows[id].rejected)
             && e != PatchRow(id, false)
    ensures id < s'.nextRow && (id in s'.rows ==> s'.rows[id].rejected)
  {
  }
}
