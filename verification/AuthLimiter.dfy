/** The rate limiter of the authentication endpoints (app/security/auth_rate_limit.py), over a store
    with times to live. Times are in milliseconds and each call is one instant. */
module AuthLimiter {

  const SECOND := 1000
  const WINDOW_SIZE := 60 * SECOND
  const MAX_REQUESTS := 10
  const FAILURE_LOCKOUT := 3600 * SECOND
  const MAX_FAILURES := 20

  datatype Counter = Counter(count: nat, deadline: nat)

  datatype Store = Store(failures: map<string, Counter>, lockouts: map<string, nat>,
                         windows: map<(string, nat), Counter>)

  const EMPTY := Store(map[], map[], map[])

  function Bucket(now: nat): (r: nat)
    ensures r * 60_000 <= now < (r + 1) * 60_000
  {
    now / WINDOW_SIZE
  }

  /** INCR, and EXPIRE on the first hit; an expired counter starts again. */
  function Increment<K>(counters: map<K, Counter>, key: K, now: nat, ttl: nat): (r: map<K, Counter>)
    ensures key in r && r.Keys == counters.Keys + {key}
  {
    if key in counters && now < counters[key].deadline then
      counters[key := counters[key].(count := counters[key].count + 1)]
    else counters[key := Counter(1, now + ttl)]
  }

  /** TTL: what is left of a key's life, to the nearest second. */
  function Remaining(deadline: nat, now: nat): nat {
    if now < deadline then (deadline - now + SECOND / 2) / SECOND else 0
  }

  predicate LockedOut(s: Store, ip: string, now: nat) { ip in s.lockouts && Remaining(s.lockouts[ip], now) > 0 }

  function AfterCheck(s: Store, ip: string, now: nat): Store {
    if LockedOut(s, ip, now) then s
    else s.(windows := Increment(s.windows, (ip, Bucket(now)), now, WINDOW_SIZE))
  }

  predicate Allows(s: Store, ip: string, now: nat) {
    && !LockedOut(s, ip, now)
    && Increment(s.windows, (ip, Bucket(now)), now, WINDOW_SIZE)[(ip, Bucket(now))].count <= MAX_REQUESTS
  }

  function AfterFailure(s: Store, ip: string, now: nat): Store {
    var failures := Increment(s.failures, ip, now, FAILURE_LOCKOUT);
    s.(failures := failures,
       lockouts := if failures[ip].count >= MAX_FAILURES then s.lockouts[ip := now + FAILURE_LOCKOUT] else s.lockouts)
  }

  function AfterSuccess(s: Store, ip: string): Store { s.(failures := s.failures - {ip}) }

  // ---------------------------------------------------------------- runs

  datatype Event = Check(ip: string, now: nat) | Failure(ip: string, now: nat) | Success(ip: string, now: nat)

  predicate Ordered(events: seq<Event>) { forall i, j :: 0 <= i < j < |events| ==> events[i].now <= events[j].now }

  function Apply(s: Store, e: Event): Store {
    match e
    case Check(ip, now) => AfterCheck(s, ip, now)
    case Failure(ip, now) => AfterFailure(s, ip, now)
    case Success(ip, _) => AfterSuccess(s, ip)
  }

  function After(events: seq<Event>): Store {
    if events == [] then EMPTY else Apply(After(events[..|events| - 1]), events[|events| - 1])
  }

  lemma AfterNext(events: seq<Event>, i: nat)
    requires i < |events|
    ensures After(events[..i + 1]) == Apply(After(events[..i]), events[i])
  {
    assert events[..i + 1][..i] == events[..i];
  }

  predicate Admitted(events: seq<Event>, i: nat)
    requires i < |events| && events[i].Check?
  {
    Allows(After(events[..i]), events[i].ip, events[i].now)
  }

  function AdmittedIn(events: seq<Event>, ip: string, bucket: nat): nat {
    if events == [] then 0
    else
      var last := |events| - 1;
      AdmittedIn(events[..last], ip, bucket)
      + (if events[last].Check? && events[last].ip == ip && Bucket(events[last].now) == bucket && Admitted(events, last)
         then 1 else 0)
  }

  // ---------------------------------------------------------------- ten per minute

  /** The check at `i` belongs to the address and the bucket, and found no lockout. */
  predicate Unlocked(events: seq<Event>, i: nat, ip: string, bucket: nat)
    requires i < |events|
  {
    && events[i].Check? && events[i].ip == ip && Bucket(events[i].now) == bucket
    && !LockedOut(After(events[..i]), ip, events[i].now)
  }

  function UnlockedIn(events: seq<Event>, ip: string, bucket: nat): nat {
    if events == [] then 0
    else UnlockedIn(events[..|events| - 1], ip, bucket) + if Unlocked(events, |events| - 1, ip, bucket) then 1 else 0
  }

  /** The bucket's counter has counted every check that found no lockout, and lives as long as the bucket. */
  ghost predicate WindowCounted(events: seq<Event>, ip: string, bucket: nat) {
    var windows, key := After(events).windows, (ip, bucket);
    && (key in windows ==>
          windows[key].deadline >= (bucket + 1) * WINDOW_SIZE && windows[key].count == UnlockedIn(events, ip, bucket))
    && (key !in windows ==> UnlockedIn(events, ip, bucket) == 0)
  }

  lemma OtherEventsCountNothing(events: seq<Event>, ip: string, bucket: nat)
    requires events != [] && WindowCounted(events[..|events| - 1], ip, bucket)
    requires var e := events[|events| - 1]; !(e.Check? && e.ip == ip && Bucket(e.now) == bucket)
    ensures WindowCounted(events, ip, bucket)
  {
  }

  lemma CheckCounts(events: seq<Event>, ip: string, bucket: nat)
    requires events != [] && WindowCounted(events[..|events| - 1], ip, bucket)
    requires var e := events[|events| - 1]; e.Check? && e.ip == ip && Bucket(e.now) == bucket
    ensures WindowCounted(events, ip, bucket)
  {
    assert bucket * WINDOW_SIZE <= events[|events| - 1].now < (bucket + 1) * WINDOW_SIZE;
  }

  lemma {:induction false} WindowCounts(events: seq<Event>, ip: string, bucket: nat)
    ensures WindowCounted(events, ip, bucket)
  {
    if events != [] {
      var e := events[|events| - 1];
      WindowCounts(events[..|events| - 1], ip, bucket);
      if e.Check? && e.ip == ip && Bucket(e.now) == bucket {
        CheckCounts(events, ip, bucket);
      } else {
        OtherEventsCountNothing(events, ip, bucket);
      }
    }
  }

  /** A check passes exactly when the address is not locked out and fewer than ten of its checks in
      this minute bucket got past the lockout before. */
  lemma AdmittedExactly(events: seq<Event>, c: nat)
    requires c < |events| && events[c].Check?
    ensures var ip, now := events[c].ip, events[c].now;
            Admitted(events, c) <==>
            !LockedOut(After(events[..c]), ip, now) && UnlockedIn(events[..c], ip, Bucket(now)) < 10
  {
    var bucket := Bucket(events[c].now);
    WindowCounts(events[..c], events[c].ip, bucket);
    assert events[c].now < (bucket + 1) * WINDOW_SIZE;
  }

  /** Over every run, an address is let through exactly its first ten times per minute bucket, lockouts
      aside. */
  lemma {:induction false} TenPerMinute(events: seq<Event>, ip: string, bucket: nat)
    ensures AdmittedIn(events, ip, bucket)
         == if UnlockedIn(events, ip, bucket) < 10 then UnlockedIn(events, ip, bucket) else 10
  {
    if events != [] {
      TenPerMinute(events[..|events| - 1], ip, bucket);
      if events[|events| - 1].Check? { AdmittedExactly(events, |events| - 1); }
    }
  }

  // ---------------------------------------------------------------- lockout

  function FailuresIn(events: seq<Event>, ip: string): nat {
    if events == [] then 0
    else FailuresIn(events[..|events| - 1], ip)
         + (if events[|events| - 1].Failure? && events[|events| - 1].ip == ip then 1 else 0)
  }

  predicate IsFailure(events: seq<Event>, i: nat, ip: string) {
    i < |events| && events[i].Failure? && events[i].ip == ip
  }

  /** The failure at `i` finds no live counter and starts one. */
  predicate Opens(events: seq<Event>, i: nat, ip: string) {
    && IsFailure(events, i, ip)
    && var s := After(events[..i]);
       !(ip in s.failures && events[i].now < s.failures[ip].deadline)
  }

  /** The failure at `i` sets the lockout key. */
  predicate LocksAt(events: seq<Event>, i: nat, ip: string) {
    IsFailure(events, i, ip) && After(events[..i + 1]).failures[ip].count >= MAX_FAILURES
  }

  predicate NoSuccess(events: seq<Event>, from: nat, to: nat, ip: string) {
    forall i :: from <= i < to && i < |events| ==> !(events[i].Success? && events[i].ip == ip)
  }

  lemma CounterStep(s: Store, e: Event, ip: string, n: nat, deadline: nat)
    requires ip in s.failures && s.failures[ip] == Counter(n, deadline)
    requires e.now < deadline && !(e.Success? && e.ip == ip)
    ensures ip in Apply(s, e).failures
    ensures Apply(s, e).failures[ip] == Counter(n + if e.Failure? && e.ip == ip then 1 else 0, deadline)
  {
  }

  lemma LockStep(s: Store, e: Event, ip: string, until: nat)
    requires ip in s.lockouts && s.lockouts[ip] >= until && e.now + FAILURE_LOCKOUT >= until
    ensures ip in Apply(s, e).lockouts && Apply(s, e).lockouts[ip] >= until
  {
  }

  lemma CountNext(events: seq<Event>, a: nat, m: nat, ip: string)
    requires a <= m < |events|
    ensures FailuresIn(events[a..m + 1], ip) == FailuresIn(events[a..m], ip) + if IsFailure(events, m, ip) then 1 else 0
  {
    var part := events[a..m + 1];
    assert part[..|part| - 1] == events[a..m] && part[|part| - 1] == events[m];
  }

  lemma CounterOpens(events: seq<Event>, a: nat, ip: string)
    requires Opens(events, a, ip)
    ensures ip in After(events[..a + 1]).failures
    ensures After(events[..a + 1]).failures[ip] == Counter(1, events[a].now + FAILURE_LOCKOUT)
    ensures FailuresIn(events[a..a + 1], ip) == 1
  {
    AfterNext(events, a);
    CountNext(events, a, a, ip);
    assert events[a..a] == [];
  }

  /** The counter opened at `a` has counted every failure before `m`. */
  ghost predicate Followed(events: seq<Event>, a: nat, m: nat, ip: string)
    requires a < m <= |events|
  {
    var failures := After(events[..m]).failures;
    && ip in failures && failures[ip].deadline == events[a].now + FAILURE_LOCKOUT
    && failures[ip].count == FailuresIn(events[a..m], ip)
  }

  lemma CounterNext(events: seq<Event>, a: nat, m: nat, ip: string)
    requires a < m < |events| && Followed(events, a, m, ip)
    requires events[m].now < events[a].now + FAILURE_LOCKOUT && !(events[m].Success? && events[m].ip == ip)
    ensures Followed(events, a, m + 1, ip)
  {
    AfterNext(events, m);
    CountNext(events, a, m, ip);
    CounterStep(After(events[..m]), events[m], ip, FailuresIn(events[a..m], ip), events[a].now + FAILURE_LOCKOUT);
  }

  lemma {:induction false} CounterFollows(events: seq<Event>, a: nat, m: nat, ip: string)
    requires Ordered(events) && Opens(events, a, ip) && a < m <= |events|
    requires NoSuccess(events, a, m, ip) && events[m - 1].now < events[a].now + FAILURE_LOCKOUT
    ensures Followed(events, a, m, ip)
  {
    if m == a + 1 {
      CounterOpens(events, a, ip);
    } else {
      assert events[m - 2].now <= events[m - 1].now;
      CounterFollows(events, a, m - 1, ip);
      CounterNext(events, a, m - 1, ip);
    }
  }

  /** The failure at `b` falls into the hour that the one at `a` opened, with no success between. */
  ghost predicate OpenedBy(events: seq<Event>, a: nat, b: nat, ip: string) {
    && a <= b < |events| && Opens(events, a, ip) && NoSuccess(events, a, b, ip)
    && events[b].now < events[a].now + FAILURE_LOCKOUT
  }

  /** The counter that stands at the end of the run was opened at `a`. */
  ghost predicate Opener(events: seq<Event>, a: nat, ip: string) {
    && Opens(events, a, ip) && NoSuccess(events, a, |events|, ip)
    && ip in After(events).failures && After(events).failures[ip].deadline == events[a].now + FAILURE_LOCKOUT
  }

  lemma CounterStands(s: Store, e: Event, ip: string)
    requires ip in Apply(s, e).failures
    requires !(e.Failure? && e.ip == ip && !(ip in s.failures && e.now < s.failures[ip].deadline))
    ensures ip in s.failures && Apply(s, e).failures[ip].deadline == s.failures[ip].deadline
    ensures !(e.Success? && e.ip == ip)
  {
  }

  lemma OpensEarlier(events: seq<Event>, n: nat, a: nat, ip: string)
    requires n <= |events| && Opens(events[..n], a, ip)
    ensures Opens(events, a, ip) && events[a] == events[..n][a]
  {
    assert events[..n][..a] == events[..a];
  }

  lemma NoSuccessNext(before: seq<Event>, e: Event, a: nat, ip: string)
    requires NoSuccess(before, a, |before|, ip) && !(e.Success? && e.ip == ip)
    ensures NoSuccess(before + [e], a, |before| + 1, ip)
  {
  }

  lemma OpensLater(before: seq<Event>, e: Event, a: nat, ip: string)
    requires Opens(before, a, ip)
    ensures Opens(before + [e], a, ip) && (before + [e])[a] == before[a]
  {
    assert (before + [e])[..a] == before[..a];
  }

  lemma OpenerStays(before: seq<Event>, e: Event, a: nat, ip: string)
    requires Opener(before, a, ip) && ip in Apply(After(before), e).failures
    requires !(e.Failure? && e.ip == ip && e.now >= After(before).failures[ip].deadline)
    ensures Opener(before + [e], a, ip)
  {
    assert (before + [e])[..|before|] == before;
    CounterStands(After(before), e, ip);
    OpensLater(before, e, a, ip);
    NoSuccessNext(before, e, a, ip);
  }

  lemma HadCounter(events: seq<Event>, ip: string)
    requires events != [] && ip in After(events).failures && !Opens(events, |events| - 1, ip)
    ensures ip in After(events[..|events| - 1]).failures
  {
    CounterStands(After(events[..|events| - 1]), events[|events| - 1], ip);
  }

  lemma {:induction false} CounterHasOpener(events: seq<Event>, ip: string)
    requires ip in After(events).failures
    ensures exists a: nat :: Opener(events, a, ip)
  {
    var last := |events| - 1;
    if Opens(events, last, ip) {
      CounterOpens(events, last, ip);
      assert events[..last + 1] == events;
      assert Opener(events, last, ip);
    } else {
      HadCounter(events, ip);
      CounterHasOpener(events[..last], ip);
      var a: nat :| Opener(events[..last], a, ip);
      assert events[..last] + [events[last]] == events;
      OpenerStays(events[..last], events[last], a, ip);
    }
  }

  /** Every failure falls into an hour that some failure opened. */
  lemma FailureHasOpener(events: seq<Event>, b: nat, ip: string)
    requires IsFailure(events, b, ip)
    ensures exists a: nat :: OpenedBy(events, a, b, ip)
  {
    if Opens(events, b, ip) {
      assert OpenedBy(events, b, b, ip);
    } else {
      var before := events[..b];
      CounterHasOpener(before, ip);
      var a: nat :| Opener(before, a, ip);
      OpensEarlier(events, b, a, ip);
      assert OpenedBy(events, a, b, ip);
    }
  }

  lemma LocksExactlyIn(events: seq<Event>, a: nat, b: nat, ip: string)
    requires Ordered(events) && OpenedBy(events, a, b, ip) && IsFailure(events, b, ip)
    ensures LocksAt(events, b, ip) <==> FailuresIn(events[a..b + 1], ip) >= MAX_FAILURES
  {
    CounterFollows(events, a, b + 1, ip);
  }

  /** Every failure belongs to an hour that a failure opened, with no success since, and sets the
      lockout if and only if it is the twentieth of that hour or a later one. */
  lemma LocksExactly(events: seq<Event>, b: nat, ip: string)
    requires Ordered(events) && IsFailure(events, b, ip)
    ensures exists a: nat :: OpenedBy(events, a, b, ip)
    ensures forall a: nat :: OpenedBy(events, a, b, ip) ==>
              (LocksAt(events, b, ip) <==> FailuresIn(events[a..b + 1], ip) >= 20)
  {
    FailureHasOpener(events, b, ip);
    forall a: nat | OpenedBy(events, a, b, ip)
      ensures LocksAt(events, b, ip) <==> FailuresIn(events[a..b + 1], ip) >= MAX_FAILURES
    {
      LocksExactlyIn(events, a, b, ip);
    }
  }

  lemma LockSet(s: Store, ip: string, now: nat)
    requires AfterFailure(s, ip, now).failures[ip].count >= MAX_FAILURES
    ensures AfterFailure(s, ip, now).lockouts == s.lockouts[ip := now + FAILURE_LOCKOUT]
  {
  }

  ghost predicate LockedUntil(s: Store, ip: string, until: nat) { ip in s.lockouts && s.lockouts[ip] >= until }

  lemma LockNext(events: seq<Event>, m: nat, ip: string, until: nat)
    requires m < |events| && LockedUntil(After(events[..m]), ip, until) && events[m].now + FAILURE_LOCKOUT >= until
    ensures LockedUntil(After(events[..m + 1]), ip, until)
  {
    AfterNext(events, m);
    LockStep(After(events[..m]), events[m], ip, until);
  }

  lemma {:induction false} LockLasts(events: seq<Event>, b: nat, m: nat, ip: string)
    requires Ordered(events) && LocksAt(events, b, ip) && b < m <= |events|
    ensures LockedUntil(After(events[..m]), ip, events[b].now + FAILURE_LOCKOUT)
  {
    if m == b + 1 {
      AfterNext(events, b);
      LockSet(After(events[..b]), ip, events[b].now);
    } else {
      assert events[b].now <= events[m - 1].now;
      LockLasts(events, b, m - 1, ip);
      LockNext(events, m - 1, ip, events[b].now + FAILURE_LOCKOUT);
    }
  }

  /** Once locked out, every check in the next hour but for its last half second is refused, whatever
      happens in between. */
  lemma RefusedForAnHour(events: seq<Event>, b: nat, c: nat, ip: string)
    requires Ordered(events) && LocksAt(events, b, ip) && b < c < |events| && events[c].Check? && events[c].ip == ip
    requires events[c].now + 500 <= events[b].now + 3_600_000
    ensures !Admitted(events, c)
  {
    LockLasts(events, b, c, ip);
  }

  /** An address that never set the lockout is not locked out. */
  lemma {:induction false} NeverLocked(events: seq<Event>, m: nat, ip: string)
    requires m <= |events| && forall i: nat :: i < m ==> !LocksAt(events, i, ip)
    ensures ip !in After(events[..m]).lockouts
  {
    if m > 0 {
      NeverLocked(events, m - 1, ip);
      assert !LocksAt(events, m - 1, ip);
      AfterNext(events, m - 1);
    }
  }

  lemma LockKept(events: seq<Event>, m: nat, ip: string)
    requires m < |events| && ip in After(events[..m]).lockouts && !LocksAt(events, m, ip)
    ensures ip in After(events[..m + 1]).lockouts
    ensures After(events[..m + 1]).lockouts[ip] == After(events[..m]).lockouts[ip]
  {
    AfterNext(events, m);
  }

  lemma {:induction false} LockStays(events: seq<Event>, b: nat, m: nat, ip: string)
    requires LocksAt(events, b, ip) && b < m <= |events|
    requires forall i: nat :: b < i < m ==> !LocksAt(events, i, ip)
    ensures ip in After(events[..m]).lockouts && After(events[..m]).lockouts[ip] == events[b].now + FAILURE_LOCKOUT
  {
    if m == b + 1 {
      AfterNext(events, b);
      LockSet(After(events[..b]), ip, events[b].now);
    } else {
      LockStays(events, b, m - 1, ip);
      assert !LocksAt(events, m - 1, ip);
      LockKept(events, m - 1, ip);
    }
  }

  /** The lockout holds if and only if at least half a second of its hour is left: TTL is rounded to
      the nearest second. */
  lemma LockedOutExactly(events: seq<Event>, b: nat, c: nat, ip: string)
    requires LocksAt(events, b, ip) && b < c < |events|
    requires forall i: nat :: b < i < c ==> !LocksAt(events, i, ip)
    ensures LockedOut(After(events[..c]), ip, events[c].now) <==>
            events[c].now + 500 <= events[b].now + 3_600_000
  {
    LockStays(events, b, c, ip);
  }

  /** Twenty failures within an hour of the one that opened the count, with no success between,
      refuse every check in the hour that follows, but for its last half second. */
  lemma TwentyFailuresLockOut(events: seq<Event>, a: nat, b: nat, c: nat, ip: string)
    requires Ordered(events) && OpenedBy(events, a, b, ip) && IsFailure(events, b, ip)
    requires FailuresIn(events[a..b + 1], ip) >= 20
    requires b < c < |events| && events[c].Check? && events[c].ip == ip
    requires events[c].now + 500 <= events[b].now + 3_600_000
    ensures !Admitted(events, c)
  {
    LocksExactlyIn(events, a, b, ip);
    RefusedForAnHour(events, b, c, ip);
  }

  /** A failure that no other failure precedes by less than an hour opens the count. */
  lemma QuietHourOpens(events: seq<Event>, a: nat, ip: string)
    requires IsFailure(events, a, ip)
    requires forall i: nat :: i < a && IsFailure(events, i, ip) ==> events[i].now + 3_600_000 <= events[a].now
    ensures Opens(events, a, ip)
  {
    var before := events[..a];
    if ip in After(before).failures {
      CounterHasOpener(before, ip);
      var i: nat :| Opener(before, i, ip);
      assert IsFailure(events, i, ip);
    }
  }

  // ---------------------------------------------------------------- the count is not a sliding one

  /** `n` failures at one instant. */
  function Burst(n: nat, now: nat): (r: seq<Event>)
    ensures |r| == n && forall e <- r :: e == Failure(IP, now)
  {
    seq(n, i => Failure(IP, now))
  }

  const IP: string := "ip"

  /** `n` failures have been counted, and nothing was locked. */
  ghost predicate Counted(s: Store, c: Counter) {
    IP in s.failures && s.failures[IP] == c && s.lockouts == map[] && s.windows == map[]
  }

  lemma {:induction false} AfterBurst(events: seq<Event>, n: nat, now: nat, c: Counter)
    requires Counted(After(events), c) && now < c.deadline && c.count + n < MAX_FAILURES
    ensures Counted(After(events + Burst(n, now)), c.(count := c.count + n))
  {
    var all := events + Burst(n, now);
    if n == 0 {
      assert all == events;
    } else {
      AfterBurst(events, n - 1, now, c);
      assert all[..|all| - 1] == events + Burst(n - 1, now);
      assert all[|all| - 1] == Failure(IP, now);
    }
  }

  const EARLY := [Failure(IP, 0)] + Burst(18, 3550 * SECOND)
  const LATE := EARLY + Burst(2, 3601 * SECOND)

  lemma AfterEarly()
    ensures Counted(After(EARLY), Counter(19, FAILURE_LOCKOUT))
  {
    var first := [Failure(IP, 0)];
    assert first[..0] == [];
    assert After(first) == AfterFailure(EMPTY, IP, 0);
    AfterBurst(first, 18, 3550 * SECOND, Counter(1, FAILURE_LOCKOUT));
  }

  lemma AfterLate()
    ensures Counted(After(LATE), Counter(2, 7201 * SECOND))
  {
    AfterEarly();
    var reopened := EARLY + [Failure(IP, 3601 * SECOND)];
    assert reopened[..|reopened| - 1] == EARLY;
    AfterBurst(reopened, 1, 3601 * SECOND, Counter(1, 7201 * SECOND));
    assert reopened + Burst(1, 3601 * SECOND) == LATE;
  }

  lemma TwentyInOneMinute()
    ensures FailuresIn(Burst(18, 3550 * SECOND) + Burst(2, 3601 * SECOND), IP) == 20
  {
    BurstCounts(18, 3550 * SECOND, []);
    assert [] + Burst(18, 3550 * SECOND) == Burst(18, 3550 * SECOND);
    BurstCounts(2, 3601 * SECOND, Burst(18, 3550 * SECOND));
  }

  /** One failure, eighteen more just before its hour ends and two just after: twenty failures
      within a minute, and still the next check is allowed. */
  lemma SlidingHourNotEnforced()
    ensures Ordered(LATE + [Check(IP, 3602 * SECOND)])
    ensures FailuresIn(Burst(18, 3550 * SECOND) + Burst(2, 3601 * SECOND), IP) == 20
    ensures Admitted(LATE + [Check(IP, 3602 * SECOND)], 21)
  {
    TwentyInOneMinute();
    AfterLate();
    assert (LATE + [Check(IP, 3602 * SECOND)])[..21] == LATE;
  }

  lemma {:induction false} BurstCounts(n: nat, now: nat, before: seq<Event>)
    ensures FailuresIn(before + Burst(n, now), IP) == FailuresIn(before, IP) + n
  {
    var all := before + Burst(n, now);
    if n == 0 {
      assert all == before;
    } else {
      BurstCounts(n - 1, now, before);
      assert all[..|all| - 1] == before + Burst(n - 1, now);
    }
  }

  // ---------------------------------------------------------------- the limiter as it runs

  /** Waiting for what TTL says ends the lockout. */
  lemma LockoutEnds(deadline: nat, now: nat)
    ensures Remaining(deadline, now + Remaining(deadline, now) * SECOND) == 0
  {
  }

  /** The seconds up to the next minute lead into it. */
  lemma NextBucket(now: nat)
    ensures Bucket(now + (60 - now / SECOND % 60) * SECOND) == Bucket(now) + 1
  {
    var seconds := now / SECOND;
    assert now == seconds * SECOND + now % SECOND;
    assert seconds == seconds / 60 * 60 + seconds % 60;
    var next := now + (60 - seconds % 60) * SECOND;
    assert next == (seconds / 60 + 1) * WINDOW_SIZE + now % SECOND;
    assert Bucket(next) == seconds / 60 + 1;
    assert Bucket(now) == seconds / 60;
  }

  class Limiter {
    var failures: map<string, Counter>
    var lockouts: map<string, nat>
    var windows: map<(string, nat), Counter>

    constructor ()
      ensures Contents() == EMPTY
    {
      failures, lockouts, windows := map[], map[], map[];
    }

    function Contents(): Store
      reads this
    {
      Store(failures, lockouts, windows)
    }

    /** Refusals come with the seconds to wait: until the lockout ends, or until the next bucket. */
    method CheckRequest(ip: string, now: nat) returns (allowed: bool, retryAfter: nat)
      modifies this
      ensures Contents() == AfterCheck(old(Contents()), ip, now)
      ensures allowed <==> Allows(old(Contents()), ip, now)
      ensures !allowed && LockedOut(old(Contents()), ip, now) ==>
              !LockedOut(old(Contents()), ip, now + retryAfter * SECOND)
      ensures !allowed && !LockedOut(old(Contents()), ip, now) ==> Bucket(now + retryAfter * SECOND) == Bucket(now) + 1
    {
      if ip in lockouts && Remaining(lockouts[ip], now) > 0 {
        LockoutEnds(lockouts[ip], now);
        return false, Remaining(lockouts[ip], now);
      }
      var key := (ip, Bucket(now));
      windows := Increment(windows, key, now, WINDOW_SIZE);
      allowed := windows[key].count <= MAX_REQUESTS;
      retryAfter := if allowed then 0 else 60 - now / SECOND % 60;
      NextBucket(now);
    }

    method RecordFailure(ip: string, now: nat)
      modifies this
      ensures Contents() == AfterFailure(old(Contents()), ip, now)
    {
      failures := Increment(failures, ip, now, FAILURE_LOCKOUT);
      if failures[ip].count >= MAX_FAILURES {
        lockouts := lockouts[ip := now + FAILURE_LOCKOUT];
      }
    }

    method RecordSuccess(ip: string)
      modifies this
      ensures Contents() == AfterSuccess(old(Contents()), ip)
    {
      failures := failures - {ip};
    }
  }
}
