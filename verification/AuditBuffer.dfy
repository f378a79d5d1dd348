/** The audit buffer and its flushes (app/observability/audit.py:59-84), interleaved at the awaits of
    a flush. An append, and the swap of the buffer that starts a flush, happen without an await. */
module AuditBuffer {
  import opened Sequences

  const BUFFER_SIZE := 50

  /** `flights` are the flushes between the swap and their end; `lost` are the events of flushes that
      were cancelled, which `except Exception` does not catch; `repeated` are those put back although
      they had been persisted. */
  datatype State<E> = State(buffer: seq<E>, flights: seq<seq<E>>, persisted: seq<E>, lost: seq<E>,
                            repeated: seq<E>, logged: seq<E>)

  datatype Event<E> =
    | Log(event: E)
    | Flush
    | Commit(flight: nat)
    | Fail(flight: nat)
    | Misreport(flight: nat)   // the commit took effect, and then raised
    | Cancel(flight: nat)      // before the commit took effect

  function Initial<E>(): State<E> { State([], [], [], [], [], []) }

  /** An empty buffer starts no flush. */
  function StartFlush<E>(s: State<E>): State<E> {
    if s.buffer == [] then s else s.(buffer := [], flights := s.flights + [s.buffer])
  }

  function Step<E>(s: State<E>, e: Event<E>): State<E> {
    match e
    case Log(event) =>
      var s' := s.(buffer := s.buffer + [event], logged := s.logged + [event]);
      if |s'.buffer| >= BUFFER_SIZE then StartFlush(s') else s'
    case Flush => StartFlush(s)
    case Commit(i) =>
      if i >= |s.flights| then s
      else s.(flights := Without(s.flights, i), persisted := s.persisted + s.flights[i])
    case Fail(i) =>
      // the events go back in front of whatever was logged meanwhile
      if i >= |s.flights| then s
      else s.(flights := Without(s.flights, i), buffer := s.flights[i] + s.buffer)
    case Misreport(i) =>
      if i >= |s.flights| then s
      else s.(flights := Without(s.flights, i), persisted := s.persisted + s.flights[i],
              buffer := s.flights[i] + s.buffer, repeated := s.repeated + s.flights[i])
    case Cancel(i) =>
      if i >= |s.flights| then s
      else s.(flights := Without(s.flights, i), lost := s.lost + s.flights[i])
  }

  function Run<E>(events: seq<Event<E>>): State<E> {
    if events == [] then Initial() else Step(Run(events[..|events| - 1]), events[|events| - 1])
  }

  // ---------------------------------------------------------------- conservation

  function InFlight<E>(flights: seq<seq<E>>): multiset<E> {
    if flights == [] then multiset{} else InFlight(flights[..|flights| - 1]) + multiset(flights[|flights| - 1])
  }

  ghost predicate Conserved<E>(s: State<E>) {
    multiset(s.logged) + multiset(s.repeated)
    == multiset(s.persisted) + multiset(s.buffer) + InFlight(s.flights) + multiset(s.lost)
  }

  lemma {:induction false} FlightRemoved<E>(flights: seq<seq<E>>, i: nat)
    requires i < |flights|
    ensures InFlight(flights) == InFlight(Without(flights, i)) + multiset(flights[i])
  {
    var last := |flights| - 1;
    if i < last {
      FlightRemoved(flights[..last], i);
      WithoutBeforeLast(flights, i);
      FlightAdded(Without(flights[..last], i), flights[last]);
      Swapped(InFlight(Without(flights[..last], i)), multiset(flights[i]), multiset(flights[last]));
    } else {
      assert Without(flights, i) == flights[..last];
    }
  }

  lemma Swapped<E>(a: multiset<E>, b: multiset<E>, c: multiset<E>)
    ensures a + b + c == a + c + b
  {
  }

  lemma FlightAdded<E>(flights: seq<seq<E>>, events: seq<E>)
    ensures InFlight(flights + [events]) == InFlight(flights) + multiset(events)
  {
    assert (flights + [events])[..|flights|] == flights;
  }

  lemma StartConserves<E>(s: State<E>)
    requires Conserved(s)
    ensures Conserved(StartFlush(s))
  {
    FlightAdded(s.flights, s.buffer);
  }

  lemma LogConserves<E>(s: State<E>, event: E)
    requires Conserved(s)
    ensures Conserved(s.(buffer := s.buffer + [event], logged := s.logged + [event]))
  {
    assert multiset(s.buffer + [event]) == multiset(s.buffer) + multiset{event};
    assert multiset(s.logged + [event]) == multiset(s.logged) + multiset{event};
    Swapped(multiset(s.logged), multiset{event}, multiset(s.repeated));
    AddsOne(multiset(s.persisted), multiset(s.buffer), InFlight(s.flights), multiset(s.lost), multiset{event});
  }

  lemma AddsOne<E>(a: multiset<E>, b: multiset<E>, c: multiset<E>, d: multiset<E>, part: multiset<E>)
    ensures a + b + c + d + part == a + (b + part) + c + d
  {
  }

  /** A flight that ends joins the persisted events, the buffer, both of them, or the lost ones. */
  lemma EndConserves<E>(s: State<E>, i: nat)
    requires Conserved(s) && i < |s.flights|
    ensures Conserved(Step(s, Commit(i))) && Conserved(Step(s, Fail(i)))
    ensures Conserved(Step(s, Misreport(i))) && Conserved(Step(s, Cancel(i)))
  {
    var flight := s.flights[i];
    FlightRemoved(s.flights, i);
    assert multiset(s.persisted + flight) == multiset(s.persisted) + multiset(flight);
    assert multiset(flight + s.buffer) == multiset(flight) + multiset(s.buffer);
    assert multiset(s.lost + flight) == multiset(s.lost) + multiset(flight);
    assert multiset(s.repeated + flight) == multiset(s.repeated) + multiset(flight);
    Regroup(multiset(s.persisted), multiset(s.buffer), InFlight(Without(s.flights, i)), multiset(s.lost),
            multiset(flight));
    MovesAcross(multiset(s.logged), multiset(s.repeated), multiset(flight));
  }

  /** A part may move from the third group to any other, or be added to two of them. */
  lemma Regroup<E>(a: multiset<E>, b: multiset<E>, c: multiset<E>, d: multiset<E>, part: multiset<E>)
    ensures a + b + (c + part) + d == a + part + b + c + d
    ensures a + b + (c + part) + d == a + (part + b) + c + d
    ensures a + b + (c + part) + d == a + b + c + (d + part)
    ensures a + b + (c + part) + d + part == a + part + (part + b) + c + d
  {
  }

  lemma MovesAcross<E>(a: multiset<E>, b: multiset<E>, part: multiset<E>)
    ensures a + (b + part) == a + b + part
  {
  }

  lemma StepConserves<E>(s: State<E>, e: Event<E>)
    requires Conserved(s)
    ensures Conserved(Step(s, e))
  {
    match e
    case Log(event) =>
      LogConserves(s, event);
      StartConserves(s.(buffer := s.buffer + [event], logged := s.logged + [event]));
    case Flush => StartConserves(s);
    case Commit(i) => if i < |s.flights| { EndConserves(s, i); }
    case Fail(i) => if i < |s.flights| { EndConserves(s, i); }
    case Misreport(i) => if i < |s.flights| { EndConserves(s, i); }
    case Cancel(i) => if i < |s.flights| { EndConserves(s, i); }
  }

  lemma {:induction false} RunConserves<E>(events: seq<Event<E>>)
    ensures Conserved(Run(events))
  {
    if events != [] {
      RunConserves(events[..|events| - 1]);
      StepConserves(Run(events[..|events| - 1]), events[|events| - 1]);
    }
  }

  /** A cancellation that meets a flush in flight, and a commit reported as failed that does. */
  predicate Cancels<E>(s: State<E>, e: Event<E>) { e.Cancel? && e.flight < |s.flights| }

  predicate Misreports<E>(s: State<E>, e: Event<E>) { e.Misreport? && e.flight < |s.flights| }

  predicate Uncancelled<E>(events: seq<Event<E>>) {
    events != [] ==>
      Uncancelled(events[..|events| - 1]) && !Cancels(Run(events[..|events| - 1]), events[|events| - 1])
  }

  predicate WellReported<E>(events: seq<Event<E>>) {
    events != [] ==>
      WellReported(events[..|events| - 1]) && !Misreports(Run(events[..|events| - 1]), events[|events| - 1])
  }

  // ---------------------------------------------------------------- when a flush starts, and what it achieves

  /** Logging the fiftieth event of the buffer starts a flush of all of them, and nothing less does. */
  lemma FlushesAtFifty<E>(s: State<E>, event: E)
    ensures var s' := Step(s, Log(event));
            if |s.buffer| + 1 >= 50 then s'.buffer == [] && s'.flights == s.flights + [s.buffer + [event]]
            else s'.buffer == s.buffer + [event] && s'.flights == s.flights
  {
  }

  /** A flush, and then the oldest flight commits, `n` times. */
  function Drained<E>(s: State<E>, n: nat): State<E> {
    if n == 0 then Step(s, Flush) else Step(Drained(s, n - 1), Commit(0))
  }

  /** Once its flights have committed, a flush leaves every event persisted, in the order in which they
      stood, and none waiting. */
  lemma {:induction false} FlushPersistsAll<E>(s: State<E>)
    ensures var s' := Drained(s, |s.flights| + 1);
            && s'.buffer == [] && s'.flights == [] && s'.lost == s.lost
            && s'.persisted == s.persisted + Flatten(s.flights) + s.buffer
  {
    var flights := s.flights + if s.buffer == [] then [] else [s.buffer];
    assert Step(s, Flush).flights == flights;
    DrainsInOrder(s, flights, |flights|);
    FlattenJoins(s.flights, if s.buffer == [] then [] else [s.buffer]);
    FlattenOne(s.buffer);
    assert flights[..|flights|] == flights && flights[|flights|..] == [];
    assert s.persisted + (Flatten(s.flights) + s.buffer) == s.persisted + Flatten(s.flights) + s.buffer;
  }

  lemma {:induction false} DrainsInOrder<E>(s: State<E>, flights: seq<seq<E>>, n: nat)
    requires Step(s, Flush).flights == flights && n <= |flights|
    ensures var s' := Drained(s, n);
            && s'.buffer == [] && s'.flights == flights[n..] && s'.lost == s.lost
            && s'.persisted == s.persisted + Flatten(flights[..n])
  {
    if n == 0 {
      assert s.persisted + [] == s.persisted;
    } else {
      DrainsInOrder(s, flights, n - 1);
      assert Without(flights[n - 1..], 0) == flights[n..];
      assert flights[..n][..n - 1] == flights[..n - 1];
      assert s.persisted + Flatten(flights[..n - 1]) + flights[n - 1]
          == s.persisted + (Flatten(flights[..n - 1]) + flights[n - 1]);
    }
  }

  predicate Full<E>(flights: seq<seq<E>>) { forall i :: 0 <= i < |flights| ==> flights[i] != [] }

  /** No flush is ever empty. */
  lemma {:induction false} FlightsFull<E>(events: seq<Event<E>>)
    ensures Full(Run(events).flights)
  {
    if events != [] {
      FlightsFull(events[..|events| - 1]);
      StepFull(Run(events[..|events| - 1]), events[|events| - 1]);
    }
  }

  lemma StepFull<E>(s: State<E>, e: Event<E>)
    requires Full(s.flights)
    ensures Full(Step(s, e).flights)
  {
  }

  lemma {:induction false} LostExactly<E>(events: seq<Event<E>>)
    ensures Run(events).lost == [] <==> Uncancelled(events)
    ensures Run(events).repeated == [] <==> WellReported(events)
  {
    if events != [] {
      var before, last := events[..|events| - 1], events[|events| - 1];
      LostExactly(before);
      FlightsFull(before);
      LostNext(Run(before), last);
    }
  }

  lemma LostNext<E>(s: State<E>, e: Event<E>)
    requires Full(s.flights)
    ensures Step(s, e).lost == [] <==> s.lost == [] && !Cancels(s, e)
    ensures Step(s, e).repeated == [] <==> s.repeated == [] && !Misreports(s, e)
  {
  }

  lemma Balance<E>(a: multiset<E>, repeated: multiset<E>, b: multiset<E>, lost: multiset<E>)
    requires a + repeated == b + lost
    ensures a == b <==> lost == repeated
  {
    if a == b { assert lost == (b + lost) - b == (a + repeated) - a == repeated; }
    if lost == repeated { assert a == (a + repeated) - repeated == (b + lost) - lost == b; }
  }

  /** Each logged event is persisted, buffered or in flight, as often as it was logged. */
  ghost predicate Accounted<E>(s: State<E>) {
    multiset(s.logged) == multiset(s.persisted) + multiset(s.buffer) + InFlight(s.flights)
  }

  /** In every interleaving, events are accounted for if and only if those that cancelled flushes lost
      are those that were put back although persisted. So without misreported commits it takes that no
      flush was cancelled, and without cancellations that no commit was misreported. */
  lemma AccountedExactly<E>(events: seq<Event<E>>)
    ensures var s := Run(events); Accounted(s) <==> multiset(s.lost) == multiset(s.repeated)
    ensures WellReported(events) ==> (Accounted(Run(events)) <==> Uncancelled(events))
    ensures Uncancelled(events) ==> (Accounted(Run(events)) <==> WellReported(events))
  {
    RunConserves(events);
    LostExactly(events);
    var s := Run(events);
    Balance(multiset(s.logged), multiset(s.repeated), multiset(s.persisted) + multiset(s.buffer) + InFlight(s.flights),
            multiset(s.lost));
    NoneMeansEmpty(s.lost);
    NoneMeansEmpty(s.repeated);
  }

  lemma NoneMeansEmpty<E>(events: seq<E>)
    ensures multiset(events) == multiset{} <==> events == []
  {
    if events != [] { assert events[0] in multiset(events); }
  }

  /** Without cancellations, an event is never missing: it is persisted, buffered or in flight at least
      as often as it was logged. */
  lemma NeverMissing<E>(events: seq<Event<E>>)
    requires Uncancelled(events)
    ensures var s := Run(events);
            multiset(s.logged) <= multiset(s.persisted) + multiset(s.buffer) + InFlight(s.flights)
  {
    RunConserves(events);
    LostExactly(events);
    var s := Run(events);
    assert multiset(s.lost) == multiset{};
    assert multiset(s.logged) + multiset(s.repeated)
        == multiset(s.persisted) + multiset(s.buffer) + InFlight(s.flights);
  }

  /** A commit reported as failed leaves its events both persisted and buffered. */
  lemma MisreportRepeats<E>(e: E)
    ensures var s := Run([Log(e), Flush, Misreport(0)]);
            s.logged == [e] && s.persisted == [e] && s.buffer == [e] && s.flights == []
  {
    var events := [Log(e), Flush, Misreport(0)];
    assert events[..2] == [Log(e), Flush] && [Log(e), Flush][..1] == [Log(e)] && [Log(e)][..0] == [];
    assert Run([Log(e)]) == State([e], [], [], [], [], [e]);
    assert Run([Log(e), Flush]) == State([], [[e]], [], [], [], [e]);
  }

  /** A cancelled flush does lose its events. */
  lemma CancellationLoses<E>(e: E)
    ensures var s := Run([Log(e), Flush, Cancel(0)]);
            s.logged == [e] && s.persisted == [] && s.buffer == [] && s.flights == []
  {
    var events := [Log(e), Flush, Cancel(0)];
    assert events[..2] == [Log(e), Flush] && [Log(e), Flush][..1] == [Log(e)] && [Log(e)][..0] == [];
    assert Run([Log(e)]) == State([e], [], [], [], [], [e]);
    assert Run([Log(e), Flush]) == State([], [[e]], [], [], [], [e]);
  }

  // ---------------------------------------------------------------- order

  ghost predicate InOrder<E>(s: State<E>) { s.logged == s.persisted + Flatten(s.flights) + s.buffer }

  /** Commits take the oldest flight, failures the newest, and none is misreported or cancelled. */
  predicate Fitting<E>(s: State<E>, e: Event<E>) {
    match e
    case Commit(i) => i < |s.flights| ==> i == 0
    case Fail(i) => i < |s.flights| ==> i == |s.flights| - 1
    case Misreport(i) => i >= |s.flights|
    case Cancel(i) => i >= |s.flights|
    case _ => true
  }

  /** Every step of the run is fitting. */
  predicate Orderly<E>(events: seq<Event<E>>) {
    events != [] ==>
      Orderly(events[..|events| - 1]) && Fitting(Run(events[..|events| - 1]), events[|events| - 1])
  }

  lemma StartKeepsOrder<E>(s: State<E>)
    requires InOrder(s)
    ensures InOrder(StartFlush(s))
  {
    if s.buffer != [] {
      FlattenJoins(s.flights, [s.buffer]);
      FlattenOne(s.buffer);
      assert s.persisted + (Flatten(s.flights) + s.buffer) + [] == s.persisted + Flatten(s.flights) + s.buffer;
    }
  }

  lemma LogKeepsOrder<E>(s: State<E>, event: E)
    requires InOrder(s)
    ensures InOrder(s.(buffer := s.buffer + [event], logged := s.logged + [event]))
  {
    var read := s.persisted + Flatten(s.flights);
    assert read + s.buffer + [event] == read + (s.buffer + [event]);
  }

  lemma CommitKeepsOrder<E>(s: State<E>)
    requires InOrder(s) && s.flights != []
    ensures InOrder(Step(s, Commit(0)))
  {
    FlattenAround(s.flights, 0);
    var flight, rest := s.flights[0], Flatten(s.flights[1..]);
    assert s.persisted + ([] + flight + rest) + s.buffer == (s.persisted + flight) + ([] + rest) + s.buffer;
  }

  lemma FailKeepsOrder<E>(s: State<E>)
    requires InOrder(s) && s.flights != []
    ensures InOrder(Step(s, Fail(|s.flights| - 1)))
  {
    var last := |s.flights| - 1;
    FlattenAround(s.flights, last);
    var before, flight := Flatten(s.flights[..last]), s.flights[last];
    assert s.persisted + (before + flight + []) + s.buffer == s.persisted + (before + []) + (flight + s.buffer);
  }

  lemma LogStepKeepsOrder<E>(s: State<E>, event: E)
    requires InOrder(s)
    ensures InOrder(Step(s, Log(event)))
  {
    LogKeepsOrder(s, event);
    StartKeepsOrder(s.(buffer := s.buffer + [event], logged := s.logged + [event]));
  }

  lemma EndKeepsOrder<E>(s: State<E>, e: Event<E>)
    requires InOrder(s) && Fitting(s, e) && (e.Commit? || e.Fail? || e.Misreport? || e.Cancel?)
    ensures InOrder(Step(s, e))
  {
    if e.flight >= |s.flights| {
      assert Step(s, e) == s;
    } else if e.Commit? {
      CommitKeepsOrder(s);
    } else {
      FailKeepsOrder(s);
    }
  }

  lemma StepKeepsOrder<E>(s: State<E>, e: Event<E>)
    requires InOrder(s) && Fitting(s, e)
    ensures InOrder(Step(s, e))
  {
    match e
    case Log(event) => LogStepKeepsOrder(s, event);
    case Flush => StartKeepsOrder(s);
    case _ => EndKeepsOrder(s, e);
  }

  /** However many flushes overlap: while commits take the oldest flight and failures the newest, what
      is persisted, in flight and buffered reads as the log, and what is persisted is its beginning. */
  lemma {:induction false} OrderKept<E>(events: seq<Event<E>>)
    requires Orderly(events)
    ensures InOrder(Run(events)) && Run(events).persisted <= Run(events).logged
  {
    if events != [] {
      OrderKept(events[..|events| - 1]);
      StepKeepsOrder(Run(events[..|events| - 1]), events[|events| - 1]);
    }
  }

  /** At no time is more than one flush in flight. */
  predicate Serial<E>(events: seq<Event<E>>) {
    |Run(events).flights| <= 1 && (events != [] ==> Serial(events[..|events| - 1]))
  }

  /** One flush at a time is a case of that. */
  lemma {:induction false} SerialIsOrderly<E>(events: seq<Event<E>>)
    requires Serial(events) && Uncancelled(events) && WellReported(events)
    ensures Orderly(events)
  {
    if events != [] { SerialIsOrderly(events[..|events| - 1]); }
  }

  // ---------------------------------------------------------------- exactly which steps keep the order

  ghost predicate Distinct<E>(events: seq<E>) {
    forall i, j :: 0 <= i < j < |events| ==> events[i] != events[j]
  }

  /** Where a flight begins in the log. */
  lemma FlightBegins<E>(s: State<E>, i: nat)
    requires InOrder(s) && i < |s.flights| && s.flights[i] != []
    ensures var at := |s.persisted| + |Flatten(s.flights[..i])|; at < |s.logged| && s.logged[at] == s.flights[i][0]
  {
    FlattenAround(s.flights, i);
    var before, flight, after := Flatten(s.flights[..i]), s.flights[i], Flatten(s.flights[i + 1..]);
    assert s.logged == (s.persisted + before) + flight + (after + s.buffer);
  }

  lemma LaterCommitBreaks<E>(s: State<E>, i: nat)
    requires InOrder(s) && Distinct(s.logged) && Full(s.flights) && 0 < i < |s.flights|
    ensures !InOrder(Step(s, Commit(i)))
  {
    FlightBegins(s, 0);
    FlightBegins(s, i);
    FlattenAround(s.flights[..i], 0);
    assert (s.persisted + s.flights[i])[|s.persisted|] == s.flights[i][0];
  }

  lemma EarlierFailureBreaks<E>(s: State<E>, i: nat)
    requires InOrder(s) && Distinct(s.logged) && Full(s.flights) && i < |s.flights| - 1
    ensures !InOrder(Step(s, Fail(i)))
  {
    FlightBegins(s, i);
    FlightBegins(s, i + 1);
    assert s.flights[..i + 1] == s.flights[..i] + [s.flights[i]];
    FlattenJoins(s.flights[..i], [s.flights[i]]);
    FlattenOne(s.flights[i]);
    var next := Step(s, Fail(i));
    if InOrder(next) {
      assert next.flights[i] == s.flights[i + 1] && next.flights[..i] == s.flights[..i];
      FlightBegins(next, i);
    }
  }

  lemma MisreportBreaks<E>(s: State<E>, i: nat)
    requires InOrder(s) && Full(s.flights) && i < |s.flights|
    ensures !InOrder(Step(s, Misreport(i)))
  {
    FlattenAround(s.flights, i);
    var next := Step(s, Misreport(i));
    assert |next.persisted + Flatten(next.flights) + next.buffer| > |s.logged|;
  }

  lemma CancellationBreaks<E>(s: State<E>, i: nat)
    requires InOrder(s) && Full(s.flights) && i < |s.flights|
    ensures !InOrder(Step(s, Cancel(i)))
  {
    FlattenAround(s.flights, i);
    var next := Step(s, Cancel(i));
    assert |next.persisted + Flatten(next.flights) + next.buffer| < |s.logged|;
  }

  /** With distinct events, a step keeps the order if and only if it is fitting. */
  lemma StepKeepsOrderExactly<E>(s: State<E>, e: Event<E>)
    requires InOrder(s) && Distinct(s.logged) && Full(s.flights)
    ensures InOrder(Step(s, e)) <==> Fitting(s, e)
  {
    if Fitting(s, e) {
      StepKeepsOrder(s, e);
    } else {
      match e
      case Commit(i) => LaterCommitBreaks(s, i);
      case Fail(i) => EarlierFailureBreaks(s, i);
      case Misreport(i) => MisreportBreaks(s, i);
      case Cancel(i) => CancellationBreaks(s, i);
    }
  }

  /** The run reads in order at every moment. */
  ghost predicate AlwaysInOrder<E>(events: seq<Event<E>>) {
    InOrder(Run(events)) && (events != [] ==> AlwaysInOrder(events[..|events| - 1]))
  }

  lemma EarlierIsDistinct<E>(s: State<E>, e: Event<E>)
    requires Distinct(Step(s, e).logged)
    ensures Distinct(s.logged)
  {
    assert s.logged <= Step(s, e).logged;
  }

  /** With distinct events, a run reads in order at every moment if and only if every commit took the
      oldest flight, every failure the newest, and none was misreported or cancelled. */
  lemma {:induction false} AlwaysInOrderExactly<E>(events: seq<Event<E>>)
    requires Distinct(Run(events).logged)
    ensures AlwaysInOrder(events) <==> Orderly(events)
  {
    if events != [] {
      var before, last := events[..|events| - 1], events[|events| - 1];
      EarlierIsDistinct(Run(before), last);
      AlwaysInOrderExactly(before);
      FlightsFull(before);
      if AlwaysInOrder(before) { StepKeepsOrderExactly(Run(before), last); }
    }
  }

  /** With two flushes in flight the later one may be persisted first. */
  lemma OverlapReorders<E>(a: E, b: E)
    ensures Run([Log(a), Flush, Log(b), Flush, Commit(1), Commit(0)]).persisted == [b, a]
  {
    var none: seq<Event<E>> := [];
    RunNext(none, Log(a));
    RunNext(none + [Log(a)], Flush);
    RunNext(none + [Log(a)] + [Flush], Log(b));
    RunNext(none + [Log(a)] + [Flush] + [Log(b)], Flush);
    RunNext(none + [Log(a)] + [Flush] + [Log(b)] + [Flush], Commit(1));
    RunNext(none + [Log(a)] + [Flush] + [Log(b)] + [Flush] + [Commit(1)], Commit(0));
    assert none + [Log(a)] + [Flush] + [Log(b)] + [Flush] + [Commit(1)] + [Commit(0)]
        == [Log(a), Flush, Log(b), Flush, Commit(1), Commit(0)];
  }

  lemma RunNext<E>(events: seq<Event<E>>, e: Event<E>)
    ensures Run(events + [e]) == Step(Run(events), e)
  {
    assert (events + [e])[..|events|] == events;
  }

  // ---------------------------------------------------------------- the module as it runs

  /** The module-level buffer. `Append` and `Swap` are the stretches without an await; `Settle` is what
      a flush does when its session has ended. */
  class Buffer<E> {
    var events: seq<E>
    ghost var flights: seq<seq<E>>
    ghost var persisted: seq<E>
    ghost var repeated: seq<E>
    ghost var logged: seq<E>

    ghost function Contents(): State<E>
      reads this
    {
      State(events, flights, persisted, [], repeated, logged)
    }

    constructor ()
      ensures Contents() == Initial()
    {
      events, flights, persisted, repeated, logged := [], [], [], [], [];
    }

    method Append(event: E) returns (batch: seq<E>)
      modifies this
      ensures Contents() == Step(old(Contents()), Log(event))
      ensures batch == if |old(events)| + 1 >= BUFFER_SIZE then old(events) + [event] else []
    {
      events := events + [event];
      logged := logged + [event];
      batch := [];
      if |events| >= BUFFER_SIZE {
        batch := Swap();
      }
    }

    method Swap() returns (batch: seq<E>)
      modifies `events, `flights
      ensures Contents() == StartFlush(old(Contents())) && batch == old(events)
    {
      batch := events;
      if events != [] {
        events := [];
        flights := flights + [batch];
      }
    }

    /** The session ended: whether the batch is in the database, and whether an exception says it is not. */
    method Settle(batch: seq<E>, ghost took: bool, raised: bool, ghost flight: nat)
      requires flight < |flights| && flights[flight] == batch && (took || raised)
      modifies this
      ensures Contents() == Step(old(Contents()),
                                 if !raised then Commit(flight) else if took then Misreport(flight) else Fail(flight))
    {
      flights := Without(flights, flight);
      persisted := if took then persisted + batch else persisted;
      repeated := if took && raised then repeated + batch else repeated;
      if raised {
        events := batch + events;
      }
    }
  }
}
