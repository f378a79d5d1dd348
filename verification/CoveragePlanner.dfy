/** The adaptive fetch loop that fills the coverage buckets of the search fixtures
    (app/fixtures/search_coverage.py:18-53, 117-238 and 575-682). What a fetch finds is arbitrary. */
module CoveragePlanner {
  import opened Options
  import opened Sequences

  // ---------------------------------------------------------------- buckets

  datatype CategoryValue = Members(ids: set<int>) | NotASet

  datatype Category = Category(name: string, value: CategoryValue)

  /** What the fetcher's attribute holds. */
  datatype Bucket =
    | Absent
    | Ids(ids: set<int>)
    | ByCategory(categories: seq<Category>)
    | Flag(value: bool)
    | Unknown

  type Coverage = map<string, Bucket>

  function At(c: Coverage, key: string): Bucket { if key in c then c[key] else Absent }

  /** `BUCKET_RARITY.get(key, 1.0)`: two buckets are rare. */
  function Rarity(key: string): (r: real)
    ensures r > 0.0
  {
    if key == "fetched_beatmapset_nsfw" then 2.5 else if key == "fetched_restricted_users" then 3.0 else 1.0
  }

  const RARE_BUCKET_THRESHOLD := 2.0

  predicate Small(c: Category, min: nat) { c.value.Members? && |c.value.ids| < min }

  predicate Covered(b: Bucket, min: nat) {
    match b
    case Absent => true
    case Ids(ids) => |ids| >= min
    case ByCategory(cs) => cs != [] && forall c <- cs :: !Small(c, min)
    case Flag(value) => value
    case Unknown => false
  }

  /** The smallest category, among those that are sets; 0 when there is none. */
  function Smallest(cs: seq<Category>): Option<nat> {
    if cs == [] then None
    else
      var rest := Smallest(cs[1..]);
      if cs[0].value.NotASet? then rest
      else if rest.Some? && rest.value < |cs[0].value.ids| then rest
      else Some(|cs[0].value.ids|)
  }

  function SizeOf(b: Bucket): nat {
    match b
    case Absent => 0
    case Ids(ids) => |ids|
    case ByCategory(cs) => Smallest(cs).GetOr(0)
    case Flag(value) => if value then 1 else 0
    case Unknown => 0
  }

  function Urgency(key: string, b: Bucket, min: nat): real {
    if Covered(b, min) then 0.0
    else if b.Absent? then 0.0
    else if SizeOf(b) == 0 then Rarity(key) * 2.0
    else if SizeOf(b) < min then Rarity(key) * 1.0
    else 0.0
  }

  // ---------------------------------------------------------------- priorities

  datatype Action = Action(name: string, affected: seq<string>, cost: nat)

  function Worth(c: Coverage, min: nat, keys: seq<string>): real {
    if keys == [] then 0.0
    else
      var urgency := Urgency(keys[0], At(c, keys[0]), min);
      Worth(c, min, keys[1..])
      + (if urgency > 0.0 then
           urgency + (if Rarity(keys[0]) >= RARE_BUCKET_THRESHOLD then Rarity(keys[0]) * 10.0 else 0.0)
         else 0.0)
  }

  function Priority(c: Coverage, min: nat, a: Action): real {
    if a.cost == 0 then 0.0 else Worth(c, min, a.affected) / a.cost as real
  }

  predicate AllCovered(c: Coverage, min: nat, keys: seq<string>) { forall k <- keys :: Covered(At(c, k), min) }

  lemma {:induction false} SmallestIsSmall(cs: seq<Category>, min: nat)
    ensures (exists c <- cs :: Small(c, min)) <==> Smallest(cs).Some? && Smallest(cs).value < min
  {
    if cs != [] {
      SmallestIsSmall(cs[1..], min);
      assert cs == [cs[0]] + cs[1..];
      assert (exists c <- cs :: Small(c, min)) <==> Small(cs[0], min) || exists c <- cs[1..] :: Small(c, min) by {
        assert cs[0] in cs;
        assert forall c <- cs :: c == cs[0] || c in cs[1..];
      }
    }
  }

  /** A bucket is urgent exactly when it is not covered. */
  lemma UrgentExactly(key: string, b: Bucket, min: nat)
    ensures Urgency(key, b, min) >= 0.0
    ensures Urgency(key, b, min) > 0.0 <==> !Covered(b, min)
  {
    if b.ByCategory? { SmallestIsSmall(b.categories, min); }
  }

  lemma {:induction false} WorthExactly(c: Coverage, min: nat, keys: seq<string>)
    ensures Worth(c, min, keys) >= 0.0
    ensures Worth(c, min, keys) > 0.0 <==> !AllCovered(c, min, keys)
  {
    if keys != [] {
      UrgentExactly(keys[0], At(c, keys[0]), min);
      WorthExactly(c, min, keys[1..]);
      assert keys == [keys[0]] + keys[1..];
    }
  }

  /** An action is worth running exactly when it has a cost and some bucket it fills is not covered. */
  lemma PriorityExactly(c: Coverage, min: nat, a: Action)
    ensures Priority(c, min, a) > 0.0 <==> a.cost > 0 && !AllCovered(c, min, a.affected)
  {
    WorthExactly(c, min, a.affected);
    if a.cost > 0 {
      assert Worth(c, min, a.affected) > 0.0 ==> Worth(c, min, a.affected) / a.cost as real > 0.0;
    }
  }

  // ---------------------------------------------------------------- what a fetch is worth

  /** Nothing has been found for the bucket, or for one of its categories. */
  predicate Empty(b: Bucket) {
    match b
    case Ids(ids) => ids == {}
    case ByCategory(cs) => (forall c <- cs :: c.value.NotASet?) || exists c <- cs :: c.value == Members({})
    case _ => true
  }

  /** A bucket that is not covered is worth its rarity, twice that when it is empty, and ten times more
      when it is rare. */
  function Points(key: string, b: Bucket, min: nat): real {
    if Covered(b, min) then 0.0
    else (if Empty(b) then 2.0 else 1.0) * Rarity(key) + (if Rarity(key) >= 2.0 then 10.0 * Rarity(key) else 0.0)
  }

  /** What the buckets are worth together. */
  function Gain(c: Coverage, min: nat, keys: seq<string>): real {
    if keys == [] then 0.0 else Points(keys[0], At(c, keys[0]), min) + Gain(c, min, keys[1..])
  }

  lemma {:induction false} SmallestIsZero(cs: seq<Category>)
    ensures Smallest(cs).None? <==> forall c <- cs :: c.value.NotASet?
    ensures Smallest(cs) == Some(0) <==> exists c <- cs :: c.value == Members({})
  {
    if cs != [] {
      SmallestIsZero(cs[1..]);
      assert cs == [cs[0]] + cs[1..] && cs[0] in cs;
      assert forall c <- cs :: c == cs[0] || c in cs[1..];
    }
  }

  lemma UrgencyIs(key: string, b: Bucket, min: nat)
    ensures Urgency(key, b, min) == if Covered(b, min) then 0.0 else (if Empty(b) then 2.0 else 1.0) * Rarity(key)
  {
    if b.ByCategory? {
      SmallestIsSmall(b.categories, min);
      SmallestIsZero(b.categories);
    }
  }

  lemma {:induction false} WorthIsGain(c: Coverage, min: nat, keys: seq<string>)
    ensures Worth(c, min, keys) == Gain(c, min, keys)
  {
    if keys != [] {
      WorthIsGain(c, min, keys[1..]);
      UrgencyIs(keys[0], At(c, keys[0]), min);
      UrgentExactly(keys[0], At(c, keys[0]), min);
    }
  }

  /** The priority is what the buckets of the action are worth per call. */
  lemma PriorityIs(c: Coverage, min: nat, a: Action)
    ensures if a.cost == 0 then Priority(c, min, a) == 0.0
            else Priority(c, min, a) * a.cost as real == Gain(c, min, a.affected)
  {
    WorthIsGain(c, min, a.affected);
  }

  lemma GainExactly(c: Coverage, min: nat, keys: seq<string>)
    ensures Gain(c, min, keys) >= 0.0
    ensures Gain(c, min, keys) > 0.0 <==> !AllCovered(c, min, keys)
  {
    WorthExactly(c, min, keys);
    WorthIsGain(c, min, keys);
  }

  /** The buckets still to fill. */
  function Missing(c: Coverage, min: nat, keys: seq<string>): seq<string> {
    if keys == [] then []
    else (if Covered(At(c, keys[0]), min) then [] else [keys[0]]) + Missing(c, min, keys[1..])
  }

  lemma {:induction false} GainOfMissing(c: Coverage, min: nat, keys: seq<string>)
    ensures Gain(c, min, keys) == Gain(c, min, Missing(c, min, keys))
  {
    if keys != [] {
      GainOfMissing(c, min, keys[1..]);
      var rest := Missing(c, min, keys[1..]);
      if Covered(At(c, keys[0]), min) {
        assert Missing(c, min, keys) == rest;
      } else {
        assert Missing(c, min, keys) == [keys[0]] + rest && ([keys[0]] + rest)[1..] == rest;
      }
    }
  }

  lemma {:induction false} GainWithout(c: Coverage, min: nat, keys: seq<string>, i: nat)
    requires i < |keys|
    ensures Gain(c, min, keys) == Points(keys[i], At(c, keys[i]), min) + Gain(c, min, Without(keys, i))
  {
    if i == 0 {
      assert Without(keys, 0) == keys[1..];
    } else {
      GainWithout(c, min, keys[1..], i - 1);
      assert Without(keys, i) == [keys[0]] + Without(keys[1..], i - 1);
      assert Without(keys, i)[1..] == Without(keys[1..], i - 1);
    }
  }

  lemma SameHead(a: seq<string>, b: seq<string>) returns (i: nat)
    requires a != [] && multiset(a) == multiset(b)
    ensures i < |b| && b[i] == a[0] && multiset(a[1..]) == multiset(Without(b, i))
  {
    assert a[0] in multiset(a);
    i :| i < |b| && b[i] == a[0];
    WithoutMultiset(b, i);
    assert a == [a[0]] + a[1..];
    assert multiset(a) == multiset{a[0]} + multiset(a[1..]);
    assert multiset(a[1..]) == multiset(a) - multiset{a[0]} == multiset(Without(b, i));
  }

  lemma {:induction false} GainForgetsOrder(c: Coverage, min: nat, a: seq<string>, b: seq<string>)
    requires multiset(a) == multiset(b)
    ensures Gain(c, min, a) == Gain(c, min, b)
  {
    assert |a| == |multiset(a)| == |multiset(b)| == |b|;
    if a != [] {
      var i := SameHead(a, b);
      GainForgetsOrder(c, min, a[1..], Without(b, i));
      GainWithout(c, min, b, i);
    }
  }

  // ---------------------------------------------------------------- counting what is uncovered

  function UncoveredIn(b: Bucket, min: nat): nat {
    match b
    case Absent => 0
    case Ids(ids) => if |ids| < min then 1 else 0
    case ByCategory(cs) => CountSmall(cs, min)
    case Flag(value) => if value then 0 else 1
    case Unknown => 0
  }

  function CountSmall(cs: seq<Category>, min: nat): nat {
    if cs == [] then 0 else (if Small(cs[0], min) then 1 else 0) + CountSmall(cs[1..], min)
  }

  /** `total_uncovered`: all entries, and those of rare buckets. */
  function TotalUncovered(c: Coverage, min: nat, keys: seq<string>): (nat, nat) {
    if keys == [] then (0, 0)
    else
      var (count, rare) := TotalUncovered(c, min, keys[..|keys| - 1]);
      var key := keys[|keys| - 1];
      var n := UncoveredIn(At(c, key), min);
      (count + n, if Rarity(key) >= RARE_BUCKET_THRESHOLD then rare + n else rare)
  }

  lemma {:induction false} CountSmallExactly(cs: seq<Category>, min: nat)
    ensures CountSmall(cs, min) == 0 <==> forall c <- cs :: !Small(c, min)
  {
    if cs != [] {
      CountSmallExactly(cs[1..], min);
      assert cs == [cs[0]] + cs[1..];
    }
  }

  /** Buckets that are urgent although nothing of them counts as uncovered. */
  predicate Overlooked(b: Bucket) { b == ByCategory([]) || b.Unknown? }

  /** The two notions of coverage differ exactly on empty dictionaries and on values of no known kind. */
  lemma UncountedExactly(key: string, b: Bucket, min: nat)
    ensures UncoveredIn(b, min) == 0 <==> Covered(b, min) || Overlooked(b)
    ensures Overlooked(b) ==> Urgency(key, b, min) > 0.0
  {
    UrgentExactly(key, b, min);
    if b.ByCategory? { CountSmallExactly(b.categories, min); }
  }

  /** Every bucket is covered or overlooked. */
  ghost predicate NoneSeen(c: Coverage, min: nat, buckets: seq<string>) {
    forall k <- buckets :: Covered(At(c, k), min) || Overlooked(At(c, k))
  }

  /** `all_covered` holds exactly when every bucket is covered or overlooked. */
  lemma {:induction false} AllCoveredExactly(c: Coverage, min: nat, keys: seq<string>)
    ensures TotalUncovered(c, min, keys).0 == 0 <==>
            forall k <- keys :: Covered(At(c, k), min) || Overlooked(At(c, k))
    ensures TotalUncovered(c, min, keys).1 == 0 <==>
            forall k <- keys :: Rarity(k) >= RARE_BUCKET_THRESHOLD ==> Covered(At(c, k), min) || Overlooked(At(c, k))
  {
    if keys != [] {
      var front, last := keys[..|keys| - 1], keys[|keys| - 1];
      AllCoveredExactly(c, min, front);
      UncountedExactly(last, At(c, last), min);
      assert keys == front + [last];
    }
  }

  // ---------------------------------------------------------------- the heap

  datatype HeapEntry = HeapEntry(priority: real, action: Action)

  /** One entry per action that is worth running, at its current priority. */
  ghost predicate Heaped(actions: seq<Action>, c: Coverage, min: nat, heap: seq<HeapEntry>) {
    && (forall h <- heap :: h.action in actions && h.priority == Priority(c, min, h.action) > 0.0)
    && (forall a <- actions :: Priority(c, min, a) > 0.0 ==> HeapEntry(Priority(c, min, a), a) in heap)
  }

  /** `_reheap`. */
  method Reheap(actions: seq<Action>, c: Coverage, min: nat) returns (heap: seq<HeapEntry>)
    ensures Heaped(actions, c, min, heap)
  {
    heap := [];
    for i := 0 to |actions|
      invariant forall h <- heap :: h.action in actions && h.priority == Priority(c, min, h.action) > 0.0
      invariant forall j :: 0 <= j < i && Priority(c, min, actions[j]) > 0.0 ==>
                  HeapEntry(Priority(c, min, actions[j]), actions[j]) in heap
    {
      var priority := Priority(c, min, actions[i]);
      if priority > 0.0 {
        heap := heap + [HeapEntry(priority, actions[i])];
      }
    }
  }

  /** `heappop`: an entry of the highest priority. */
  method Pop(heap: seq<HeapEntry>) returns (best: HeapEntry)
    requires heap != []
    ensures best in heap && forall h <- heap :: h.priority <= best.priority
  {
    best := heap[0];
    for i := 1 to |heap|
      invariant best in heap && forall j :: 0 <= j < i ==> heap[j].priority <= best.priority
    {
      if heap[i].priority > best.priority {
        best := heap[i];
      }
    }
  }

  // ---------------------------------------------------------------- the loop

  /** One fetch: what was run, and the coverage it was chosen on. */
  datatype Fetch = Fetch(action: Action, before: Coverage)

  /** The fetch fills something, and no action was worth more per call. */
  ghost predicate Greedy(actions: seq<Action>, min: nat, f: Fetch) {
    && f.action in actions && f.action.cost > 0 && !AllCovered(f.before, min, f.action.affected)
    && forall a <- actions :: a.cost > 0 ==> NotBetter(f.before, min, a, f.action)
  }

  /** Per call, `a` is worth no more than `b`. */
  predicate NotBetter(c: Coverage, min: nat, a: Action, b: Action)
    requires a.cost > 0 && b.cost > 0
  {
    Gain(c, min, a.affected) / a.cost as real <= Gain(c, min, b.affected) / b.cost as real
  }

  /** Of two actions with the same buckets still to fill, the costlier one is never run. */
  lemma CheaperFirst(actions: seq<Action>, min: nat, f: Fetch, a: Action)
    requires Greedy(actions, min, f) && a in actions && a.cost > 0
    requires multiset(Missing(f.before, min, a.affected)) == multiset(Missing(f.before, min, f.action.affected))
    ensures f.action.cost <= a.cost
  {
    SameGain(f.before, min, a.affected, f.action.affected);
    GainExactly(f.before, min, f.action.affected);
    Cancel(Gain(f.before, min, a.affected), f.action.cost, a.cost);
  }

  lemma {:induction false} SameGain(c: Coverage, min: nat, a: seq<string>, b: seq<string>)
    requires multiset(Missing(c, min, a)) == multiset(Missing(c, min, b))
    ensures Gain(c, min, a) == Gain(c, min, b)
  {
    GainForgetsOrder(c, min, Missing(c, min, a), Missing(c, min, b));
    GainOfMissing(c, min, a);
    GainOfMissing(c, min, b);
  }

  lemma Cancel(gain: real, m: nat, n: nat)
    requires gain > 0.0 && m > 0 && n > 0 && gain / n as real <= gain / m as real
    ensures m <= n
  {
    var x, y := gain / m as real, gain / n as real;
    assert x * m as real == gain == y * n as real && y > 0.0;
    assert x * m as real >= y * m as real;
  }

  /** Every fetch was greedy and chosen on what the one before it left. */
  ghost predicate GreedyRun(actions: seq<Action>, min: nat, start: Coverage, found: nat -> Coverage,
                            fetches: seq<Fetch>) {
    forall i :: 0 <= i < |fetches| ==> Greedy(actions, min, fetches[i]) && fetches[i].before == Left(start, found, i)
  }

  /** The coverage after `n` fetches. */
  function Left(start: Coverage, found: nat -> Coverage, n: nat): Coverage { if n == 0 then start else found(n - 1) }

  function Spent(fetches: seq<Fetch>): nat {
    if fetches == [] then 0 else Spent(fetches[..|fetches| - 1]) + fetches[|fetches| - 1].action.cost
  }

  /** Every bucket that some action with a cost can fill is covered. */
  ghost predicate NothingLeft(actions: seq<Action>, c: Coverage, min: nat) {
    forall a <- actions :: a.cost > 0 ==> AllCovered(c, min, a.affected)
  }

  lemma EmptyHeapMeansCovered(actions: seq<Action>, c: Coverage, min: nat)
    requires Heaped(actions, c, min, [])
    ensures NothingLeft(actions, c, min)
  {
    forall a | a in actions ensures a.cost > 0 ==> AllCovered(c, min, a.affected) { PriorityExactly(c, min, a); }
  }

  /** The main loop. `buckets` are the keys of `BUCKET_RARITY`; `found(k)` is the coverage after the
      k-th fetch. It always runs an action of maximal current priority, never starts a fetch once the
      budget is spent, and stops early only when nothing is left for any action or when every bucket is
      covered or overlooked. */
  method AdaptiveLoop(actions: seq<Action>, buckets: seq<string>, maxTotal: int, min: nat, maxCost: nat,
                      start: Coverage, found: nat -> Coverage)
    returns (fetches: seq<Fetch>, c: Coverage, calls: nat)
    requires forall a <- actions :: a.cost <= maxCost
    ensures calls == Spent(fetches)
    ensures GreedyRun(actions, min, start, found, fetches)
    ensures fetches == [] || calls <= maxTotal + maxCost - 1
    ensures calls >= maxTotal || NothingLeft(actions, c, min) || NoneSeen(c, min, buckets)
    ensures c == Left(start, found, |fetches|)
  {
    fetches, c, calls := [], start, 0;
    var heap := Reheap(actions, c, min);
    while heap != [] && calls < maxTotal
      invariant calls == Spent(fetches)
      invariant GreedyRun(actions, min, start, found, fetches)
      invariant fetches == [] || calls <= maxTotal + maxCost - 1
      invariant c == Left(start, found, |fetches|)
      invariant Heaped(actions, c, min, heap)
      decreases maxTotal - calls
    {
      var entry := Pop(heap);
      var action := entry.action;
      BestIsGreedy(actions, c, min, heap, entry);
      RunExtends(actions, min, start, found, fetches, Fetch(action, c));
      fetches := fetches + [Fetch(action, c)];
      c := found(|fetches| - 1);
      calls := calls + action.cost;
      heap := Reheap(actions, c, min);
      var uncovered := TotalUncovered(c, min, buckets).0;
      if uncovered == 0 {
        assert NoneSeen(c, min, buckets) by { AllCoveredExactly(c, min, buckets); }
        break;
      }
    }
    if heap == [] {
      EmptyHeapMeansCovered(actions, c, min);
    }
  }

  lemma {:induction false} RunExtends(actions: seq<Action>, min: nat, start: Coverage, found: nat -> Coverage,
                                      fetches: seq<Fetch>, f: Fetch)
    requires GreedyRun(actions, min, start, found, fetches)
    requires Greedy(actions, min, f) && f.before == Left(start, found, |fetches|)
    ensures GreedyRun(actions, min, start, found, fetches + [f])
            && Spent(fetches + [f]) == Spent(fetches) + f.action.cost
    ensures f.action.cost > 0 && f.action in actions
  {
    assert (fetches + [f])[..|fetches|] == fetches;
  }

  lemma BestIsGreedy(actions: seq<Action>, c: Coverage, min: nat, heap: seq<HeapEntry>, best: HeapEntry)
    requires best in heap && forall h <- heap :: h.priority <= best.priority
    requires Heaped(actions, c, min, heap)
    ensures Greedy(actions, min, Fetch(best.action, c))
  {
    PriorityExactly(c, min, best.action);
    WorthIsGain(c, min, best.action.affected);
    forall a | a in actions && a.cost > 0 ensures NotBetter(c, min, a, best.action) {
      assert Priority(c, min, a) > 0.0 ==> HeapEntry(Priority(c, min, a), a) in heap;
      WorthIsGain(c, min, a.affected);
    }
  }

  /** The enforcement loop for rare buckets: the "users" action, one call each, within the budget. */
  method ForceRare(buckets: seq<string>, maxTotal: int, min: nat, c0: Coverage, spent: nat, hasUsers: bool,
                   found: nat -> Coverage)
    returns (c: Coverage, calls: nat)
    ensures spent <= calls && (calls <= maxTotal || calls == spent)
    ensures calls > spent ==> c == found(calls - spent - 1)
    ensures calls == spent ==> c == c0
    ensures hasUsers ==> TotalUncovered(c, min, buckets).1 == 0 || calls >= maxTotal
  {
    c, calls := c0, spent;
    if !hasUsers {
      return;
    }
    var rare := TotalUncovered(c, min, buckets).1;
    while rare > 0 && calls < maxTotal
      invariant spent <= calls && (calls <= maxTotal || calls == spent)
      invariant calls > spent ==> c == found(calls - spent - 1)
      invariant calls == spent ==> c == c0
      invariant rare == TotalUncovered(c, min, buckets).1
      decreases maxTotal - calls
    {
      c := found(calls - spent);
      calls := calls + 1;
      rare := TotalUncovered(c, min, buckets).1;
    }
  }

  /** The whole of `adaptive_fetch_loop`: whatever the fetches return, it ends, and it spends at most
      `max_total` plus the largest cost minus one. */
  method AdaptiveFetch(actions: seq<Action>, buckets: seq<string>, maxTotal: int, min: nat, maxCost: nat,
                       start: Coverage, found: nat -> Coverage, forced: nat -> Coverage)
    returns (fetches: seq<Fetch>, c: Coverage, calls: nat)
    requires forall a <- actions :: a.cost <= maxCost
    ensures GreedyRun(actions, min, start, found, fetches)
    ensures Spent(fetches) <= calls
    ensures calls == 0 || calls <= maxTotal + (if maxCost == 0 then 0 else maxCost - 1)
    ensures (exists a <- actions :: a.name == "users") ==>
              calls >= maxTotal || forall k <- buckets :: Rarity(k) >= RARE_BUCKET_THRESHOLD ==>
                Covered(At(c, k), min) || Overlooked(At(c, k))
  {
    fetches, c, calls := AdaptiveLoop(actions, buckets, maxTotal, min, maxCost, start, found);
    if fetches != [] { assert Greedy(actions, min, fetches[0]); }
    var hasUsers := exists a <- actions :: a.name == "users";
    c, calls := ForceRare(buckets, maxTotal, min, c, calls, hasUsers, forced);
    AllCoveredExactly(c, min, buckets);
  }
}
