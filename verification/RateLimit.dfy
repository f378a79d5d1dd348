/** The fixed-window rate limiter (app/redis/decorators.py:98-150), with the counter command in the
    instant of the clock reading. Times are in microseconds. */
module RateLimit {
  import opened Options

  const SECOND := 1_000_000
  const MINUTE := 60 * SECOND

  /** The minute that `now.replace(second=0, microsecond=0)` starts, whatever the window size. */
  function Window(now: nat): (w: nat)
    ensures w * 60_000_000 <= now < (w + 1) * 60_000_000
  {
    now / MINUTE
  }

  /** Python's `int()`: towards zero. */
  function Truncate(microseconds: int): int {
    if microseconds >= 0 then microseconds / SECOND else -((-microseconds) / SECOND)
  }

  /** `int((window_end - now).total_seconds() + 1)`: the counter's time to live and the retry delay. */
  function Delay(windowSize: int, now: nat): int {
    Truncate(Window(now) * MINUTE + windowSize * SECOND - now + SECOND)
  }

  /** A counter key; without a deadline it never expires. */
  datatype Counter = Counter(count: nat, deadline: Option<int>)

  type Store = map<nat, Counter>

  predicate Live(store: Store, w: nat, now: nat) {
    w in store && (store[w].deadline.Some? ==> now < store[w].deadline.value)
  }

  function Count(store: Store, w: nat, now: nat): nat {
    if Live(store, w, now) then store[w].count else 0
  }

  /** INCR, then EXPIRE on the first hit; a time to live that is not positive deletes the key. */
  function Hit(windowSize: int, store: Store, now: nat): Store {
    var w := Window(now);
    var count := Count(store, w, now) + 1;
    if count > 1 then store[w := store[w].(count := count)]
    else
      var ttl := Delay(windowSize, now);
      if ttl > 0 then store[w := Counter(1, Some(now + ttl * SECOND))] else store - {w}
  }

  predicate Admitted(limit: int, store: Store, now: nat) {
    limit <= 0 || Count(store, Window(now), now) + 1 <= limit
  }

  /** The instants at which calls reach the gate, first attempts and retries alike. */
  predicate Ordered(times: seq<nat>) { forall i, j :: 0 <= i < j < |times| ==> times[i] <= times[j] }

  function After(windowSize: int, limit: int, times: seq<nat>): Store {
    if times == [] then map[]
    else
      var before, now := After(windowSize, limit, times[..|times| - 1]), times[|times| - 1];
      if limit > 0 then Hit(windowSize, before, now) else before
  }

  predicate AdmittedAt(windowSize: int, limit: int, times: seq<nat>, i: nat)
    requires i < |times|
  {
    Admitted(limit, After(windowSize, limit, times[..i]), times[i])
  }

  /** How many calls were let through in the span [from, to). */
  function AdmittedWithin(windowSize: int, limit: int, times: seq<nat>, from: int, to: int): nat {
    if times == [] then 0
    else
      var last := |times| - 1;
      AdmittedWithin(windowSize, limit, times[..last], from, to)
      + (if from <= times[last] < to && AdmittedAt(windowSize, limit, times, last) then 1 else 0)
  }

  /** How many calls were let through in minute `w`. */
  function AdmittedIn(windowSize: int, limit: int, times: seq<nat>, w: nat): nat {
    if times == [] then 0
    else
      var last := |times| - 1;
      AdmittedIn(windowSize, limit, times[..last], w)
      + (if Window(times[last]) == w && AdmittedAt(windowSize, limit, times, last) then 1 else 0)
  }

  /** How many calls reached the gate in minute `w`. */
  function CallsIn(times: seq<nat>, w: nat): nat {
    if times == [] then 0
    else CallsIn(times[..|times| - 1], w) + (if Window(times[|times| - 1]) == w then 1 else 0)
  }

  // ---------------------------------------------------------------- a window of a minute or more

  /** Every counter outlives its minute, and so every retry falls into a later one. */
  lemma OutlivesWindow(windowSize: int, now: nat)
    requires windowSize >= 60
    ensures now + Delay(windowSize, now) * SECOND > (Window(now) + 1) * MINUTE
  {
    var left := Window(now) * MINUTE + windowSize * SECOND - now + SECOND;
    assert left >= SECOND;
    assert left / SECOND * SECOND > left - SECOND;
  }

  lemma RetriesLater(windowSize: int, now: nat, retry: nat)
    requires windowSize >= 60 && retry >= now + Delay(windowSize, now) * SECOND
    ensures Window(retry) > Window(now)
  {
    OutlivesWindow(windowSize, now);
  }

  /** The counter of a minute has counted all its calls, for as long as the minute lasts. */
  ghost predicate CountedIn(store: Store, times: seq<nat>, w: nat) {
    && (CallsIn(times, w) == 0 ==> w !in store)
    && (CallsIn(times, w) > 0 ==>
          w in store && store[w].count == CallsIn(times, w)
          && store[w].deadline.Some? && store[w].deadline.value > (w + 1) * MINUTE)
  }

  lemma {:induction false} AlwaysCounted(windowSize: int, limit: int, times: seq<nat>, w: nat)
    requires windowSize >= 60 && limit > 0
    ensures CountedIn(After(windowSize, limit, times), times, w)
  {
    if times != [] {
      AlwaysCounted(windowSize, limit, times[..|times| - 1], w);
      OutlivesWindow(windowSize, times[|times| - 1]);
    }
  }

  /** In each minute, the first `limit` calls get through and no others. */
  lemma {:induction false} MinuteBounded(windowSize: int, limit: int, times: seq<nat>, w: nat)
    requires windowSize >= 60 && limit > 0
    ensures AdmittedIn(windowSize, limit, times, w) == if CallsIn(times, w) <= limit then CallsIn(times, w) else limit
  {
    if times != [] {
      var last := |times| - 1;
      MinuteBounded(windowSize, limit, times[..last], w);
      AlwaysCounted(windowSize, limit, times[..last], w);
    }
  }

  /** A call gets through exactly when there is no limit, or fewer calls than the limit reached the gate
      in its minute before. */
  lemma AdmittedExactly(windowSize: int, limit: int, times: seq<nat>, i: nat)
    requires windowSize >= 60 && i < |times|
    ensures AdmittedAt(windowSize, limit, times, i) <==> limit <= 0 || CallsIn(times[..i], Window(times[i])) < limit
  {
    if limit > 0 { AlwaysCounted(windowSize, limit, times[..i], Window(times[i])); }
  }

  /** A blocked caller comes back after the end of the window, and within a second of it. */
  lemma DelayExactly(windowSize: int, now: nat)
    requires windowSize >= 60
    ensures var end := Window(now) * MINUTE + windowSize * SECOND;
            end < now + Delay(windowSize, now) * SECOND <= end + SECOND
  {
    var left := Window(now) * MINUTE + windowSize * SECOND - now + SECOND;
    assert left >= SECOND;
    assert left - SECOND < left / SECOND * SECOND <= left;
  }

  lemma {:induction false} SpanMeetsTwoMinutes(windowSize: int, limit: int, times: seq<nat>, from: nat)
    ensures AdmittedWithin(windowSize, limit, times, from, from + MINUTE)
         <= AdmittedIn(windowSize, limit, times, Window(from)) + AdmittedIn(windowSize, limit, times, Window(from) + 1)
  {
    if times != [] {
      var now := times[|times| - 1];
      SpanMeetsTwoMinutes(windowSize, limit, times[..|times| - 1], from);
      assert from <= now < from + MINUTE ==> Window(now) == Window(from) || Window(now) == Window(from) + 1;
    }
  }

  /** In any span of sixty seconds at most twice the limit gets through. */
  lemma SpanBounded(windowSize: int, limit: int, times: seq<nat>, from: nat)
    requires windowSize >= 60 && limit > 0
    ensures AdmittedWithin(windowSize, limit, times, from, from + MINUTE) <= 2 * limit
  {
    SpanMeetsTwoMinutes(windowSize, limit, times, from);
    MinuteBounded(windowSize, limit, times, Window(from));
    MinuteBounded(windowSize, limit, times, Window(from) + 1);
  }

  // ---------------------------------------------------------------- exactly when the limit holds

  /** No ordered run lets more than the limit through in one minute. */
  ghost predicate Enforced(windowSize: int, limit: int) {
    forall times, w: nat :: Ordered(times) ==> AdmittedIn(windowSize, limit, times, w) <= limit
  }

  /** The last microsecond of the first minute. */
  const LATE: nat := MINUTE - 1

  function LateCalls(n: nat): (r: seq<nat>)
    ensures |r| == n && Ordered(r) && forall t <- r :: t == LATE
  {
    seq(n, i => LATE)
  }

  lemma {:induction false} ShortWindowForgets(windowSize: int, limit: int, n: nat)
    requires windowSize < 60 && limit > 0
    ensures After(windowSize, limit, LateCalls(n)) == map[]
    ensures AdmittedIn(windowSize, limit, LateCalls(n), 0) == n
  {
    if n > 0 {
      ShortWindowForgets(windowSize, limit, n - 1);
      assert LateCalls(n)[..n - 1] == LateCalls(n - 1);
      assert Window(LATE) == 0 && Delay(windowSize, LATE) <= 0;
    }
  }

  /** The limit per minute is enforced exactly for windows of at least sixty seconds; with a shorter
      one, a counter created late in the minute is deleted at once. */
  lemma EnforcedExactly(windowSize: int, limit: int)
    requires limit > 0
    ensures Enforced(windowSize, limit) <==> windowSize >= 60
  {
    if windowSize >= 60 {
      forall times, w: nat | Ordered(times) ensures AdmittedIn(windowSize, limit, times, w) <= limit {
        MinuteBounded(windowSize, limit, times, w);
      }
    } else {
      ShortWindowForgets(windowSize, limit, limit + 1);
      assert AdmittedIn(windowSize, limit, LateCalls(limit + 1), 0) > limit;
    }
  }

  // ---------------------------------------------------------------- the decorator as it runs

  /** The gate of `sub_wrapper`: it updates the counters and lets the call through or not. */
  class Gate {
    const windowSize: int
    const limit: int
    var store: Store
    ghost var calls: seq<nat>

    ghost predicate Valid()
      reads this
    {
      store == After(windowSize, limit, calls)
    }

    constructor (windowSize: int, limit: int)
      ensures Valid() && calls == [] && this.windowSize == windowSize && this.limit == limit
    {
      this.windowSize, this.limit, store, calls := windowSize, limit, map[], [];
    }

    /** With auto-retry, a blocked caller comes back no earlier than `retryAt`. */
    method Call(now: nat) returns (admitted: bool, retryAt: int)
      requires Valid()
      modifies this
      ensures Valid() && calls == old(calls) + [now]
      ensures admitted <==> AdmittedAt(windowSize, limit, calls, |calls| - 1)
      ensures !admitted && windowSize >= 60 ==>
                var end := Window(now) * MINUTE + windowSize * SECOND;
                (Window(now) + 1) * MINUTE <= end < retryAt <= end + SECOND
    {
      calls := calls + [now];
      assert calls[..|calls| - 1] == old(calls);
      retryAt := now;
      if limit <= 0 {
        return true, now;
      }
      var w := Window(now);
      var delay := Delay(windowSize, now);
      var count := Count(store, w, now) + 1;
      if count == 1 {
        store := if delay > 0 then store[w := Counter(1, Some(now + delay * SECOND))] else store - {w};
      } else {
        store := store[w := store[w].(count := count)];
      }
      admitted := count <= limit;
      if !admitted {
        if windowSize >= 60 { DelayExactly(windowSize, now); }
        retryAt := now + delay * SECOND;
      }
    }
  }
}
