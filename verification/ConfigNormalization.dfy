/** The canonical string of a rule configuration (app/database/crud/rules.py:33-50). */
module ConfigNormalization {
  import opened Json
  import opened Sequences
  import opened StableSort

  function EntryKey(e: Entry): string { e.key }

  // ---------------------------------------------------------------- dumps with sort_keys=True

  function SortKeys(v: Json): Json
    decreases v, 1
  {
    match v
    case List(items) => List(SortKeysItems(items))
    case Dict(entries) => Dict(SortBy(SortKeysEntries(entries), EntryKey))
    case _ => v
  }

  function SortKeysItems(items: seq<Json>): (r: seq<Json>)
    decreases items, 0
  {
    if items == [] then [] else [SortKeys(items[0])] + SortKeysItems(items[1..])
  }

  function SortKeysEntries(entries: seq<Entry>): (r: seq<Entry>)
    decreases entries, 0
  {
    if entries == [] then []
    else [Entry(entries[0].key, SortKeys(entries[0].value))] + SortKeysEntries(entries[1..])
  }

  /** `json.dumps(v, sort_keys=True)`, also the key by which lists are sorted. */
  function Dumps(v: Json): string { Print(SortKeys(v)) }

  // ---------------------------------------------------------------- _sort and _normalize_config

  function Sort(v: Json): Json
    decreases v, 1
  {
    match v
    case List(items) => List(SortBy(SortItems(items), Dumps))
    case Dict(entries) => Dict(SortBy(SortEntries(entries), EntryKey))
    case _ => v
  }

  function SortItems(items: seq<Json>): (r: seq<Json>)
    decreases items, 0
  {
    seq(|items|, i requires 0 <= i < |items| => Sort(items[i]))
  }

  /** Values normalised in place; sorting by key afterwards is the same as before. */
  function SortEntries(entries: seq<Entry>): (r: seq<Entry>)
    decreases entries, 0
  {
    seq(|entries|, i requires 0 <= i < |entries| => Entry(entries[i].key, Sort(entries[i].value)))
  }

  function Normalize(config: Json): string { Dumps(Sort(config)) }

  // ---------------------------------------------------------------- equality up to order

  /** Equal up to the order of keys and of list items, at every depth. */
  ghost predicate Same(a: Json, b: Json)
    decreases a, 1
  {
    match a
    case List(items) => b.List? && SameItems(items, b.items)
    case Dict(entries) => b.Dict? && SameEntries(entries, b.entries)
    case _ => a == b
  }

  /** The items of `a` can be paired off with those of `b`. */
  ghost predicate SameItems(a: seq<Json>, b: seq<Json>)
    decreases a, 0
  {
    if a == [] then b == []
    else exists j: nat :: j < |b| && Same(a[0], b[j]) && SameItems(a[1..], Without(b, j))
  }

  ghost predicate SameEntries(a: seq<Entry>, b: seq<Entry>)
    decreases a, 0
  {
    if a == [] then b == []
    else exists j: nat :: j < |b| && a[0].key == b[j].key && Same(a[0].value, b[j].value)
                          && SameEntries(a[1..], Without(b, j))
  }

  // ---------------------------------------------------------------- normalised trees

  /** Keys sorted and distinct at every depth. */
  ghost predicate KeysSorted(v: Json) {
    match v
    case List(items) => forall x <- items :: KeysSorted(x)
    case Dict(entries) =>
      Sorted(entries, EntryKey) && DistinctKeys(entries) && forall e <- entries :: KeysSorted(e.value)
    case _ => true
  }

  lemma DistinctSeparates(entries: seq<Entry>)
    requires DistinctKeys(entries)
    ensures Separates(entries, EntryKey)
  {
    forall i, j | 0 <= i < |entries| && 0 <= j < |entries| && EntryKey(entries[i]) == EntryKey(entries[j])
      ensures entries[i] == entries[j]
    {
    }
  }

  lemma {:induction false} InsertDistinct(e: Entry, entries: seq<Entry>)
    requires DistinctKeys(entries) && forall f <- entries :: f.key != e.key
    ensures DistinctKeys(Insert(e, entries, EntryKey))
  {
    if entries != [] && !Leq(e.key, entries[0].key) {
      InsertDistinct(e, entries[1..]);
      var tail := Insert(e, entries[1..], EntryKey);
      forall f | f in tail ensures f.key != entries[0].key {
        assert f in multiset(tail);
        assert f == e || f in entries[1..];
      }
    }
  }

  lemma {:induction false} SortDistinct(entries: seq<Entry>)
    requires DistinctKeys(entries)
    ensures DistinctKeys(SortBy(entries, EntryKey))
  {
    if entries != [] {
      SortDistinct(entries[1..]);
      forall f | f in SortBy(entries[1..], EntryKey) ensures f.key != entries[0].key {
        assert f in multiset(SortBy(entries[1..], EntryKey));
        assert f in entries[1..];
      }
      InsertDistinct(entries[0], SortBy(entries[1..], EntryKey));
    }
  }

  /** Sorting yields a valid tree whose keys are sorted, so that sort_keys changes nothing more. */
  lemma {:induction false} SortNormalises(v: Json)
    requires Valid(v)
    ensures Valid(Sort(v)) && KeysSorted(Sort(v))
    decreases v, 1
  {
    match v
    case List(items) =>
      SortItemsNormalises(items);
      AllSorted(SortItems(items));
    case Dict(entries) =>
      SortEntriesNormalises(entries);
      var es := SortEntries(entries);
      assert DistinctKeys(es) by {
        forall i, j | 0 <= i < j < |es| ensures es[i].key != es[j].key {
          assert entries[i].key != entries[j].key;
        }
      }
      SortDistinct(es);
      SortBySorted(es, EntryKey);
      forall e | e in SortBy(es, EntryKey) ensures Valid(e.value) && KeysSorted(e.value) {
        InBoth(SortBy(es, EntryKey), es, e);
      }
    case _ =>
  }

  lemma AllSorted(items: seq<Json>)
    requires forall x <- items :: Valid(x) && KeysSorted(x)
    ensures forall x <- SortBy(items, Dumps) :: Valid(x) && KeysSorted(x)
  {
    forall x | x in SortBy(items, Dumps) ensures Valid(x) && KeysSorted(x) {
      InBoth(SortBy(items, Dumps), items, x);
    }
  }

  lemma {:induction false} SortItemsNormalises(items: seq<Json>)
    requires forall x <- items :: Valid(x)
    ensures forall x <- SortItems(items) :: Valid(x) && KeysSorted(x)
    decreases items, 0
  {
    forall i | 0 <= i < |items| ensures Valid(Sort(items[i])) && KeysSorted(Sort(items[i])) {
      SortNormalises(items[i]);
    }
  }

  lemma {:induction false} SortEntriesNormalises(entries: seq<Entry>)
    requires forall e <- entries :: Valid(e.value)
    ensures forall e <- SortEntries(entries) :: Valid(e.value) && KeysSorted(e.value)
    decreases entries, 0
  {
    forall i | 0 <= i < |entries| ensures Valid(Sort(entries[i].value)) && KeysSorted(Sort(entries[i].value)) {
      SortNormalises(entries[i].value);
    }
  }

  lemma {:induction false} SortKeysIdle(v: Json)
    requires KeysSorted(v)
    ensures SortKeys(v) == v
    decreases v, 1
  {
    match v
    case List(items) => SortKeysItemsIdle(items);
    case Dict(entries) =>
      SortKeysEntriesIdle(entries);
      DistinctSeparates(entries);
      SortStable(entries, EntryKey);
    case _ =>
  }

  lemma {:induction false} SortKeysItemsIdle(items: seq<Json>)
    requires forall x <- items :: KeysSorted(x)
    ensures SortKeysItems(items) == items
    decreases items, 0
  {
    if items != [] {
      SortKeysIdle(items[0]);
      SortKeysItemsIdle(items[1..]);
    }
  }

  lemma {:induction false} SortKeysEntriesIdle(entries: seq<Entry>)
    requires forall e <- entries :: KeysSorted(e.value)
    ensures SortKeysEntries(entries) == entries
    decreases entries, 0
  {
    if entries != [] {
      SortKeysIdle(entries[0].value);
      SortKeysEntriesIdle(entries[1..]);
    }
  }

  /** The dump of an item tells normalised items apart. */
  lemma DumpsSeparates(items: seq<Json>)
    requires forall x <- items :: Valid(x) && KeysSorted(x)
    ensures Separates(items, Dumps)
  {
    forall i, j | 0 <= i < |items| && 0 <= j < |items| && Dumps(items[i]) == Dumps(items[j])
      ensures items[i] == items[j]
    {
      SortKeysIdle(items[i]);
      SortKeysIdle(items[j]);
      PrintInjective(items[i], items[j]);
    }
  }

  // ---------------------------------------------------------------- sorting identifies exactly Same

  lemma {:induction false} SortedIffSame(a: Json, b: Json)
    requires Valid(a) && Valid(b)
    ensures Sort(a) == Sort(b) <==> Same(a, b)
    decreases a, 1
  {
    if a.List? && b.List? {
      SortItemsNormalises(a.items);
      DumpsSeparates(SortItems(a.items));
      SortForgetsOrder(SortItems(a.items), SortItems(b.items), Dumps);
      ItemsIffSame(a.items, b.items);
    } else if a.Dict? && b.Dict? {
      var es := SortEntries(a.entries);
      assert DistinctKeys(es) by {
        forall i, j | 0 <= i < j < |es| ensures es[i].key != es[j].key {
          assert a.entries[i].key != a.entries[j].key;
        }
      }
      DistinctSeparates(es);
      SortForgetsOrder(es, SortEntries(b.entries), EntryKey);
      EntriesIffSame(a.entries, b.entries);
    }
  }

  lemma {:induction false} ItemsIffSame(a: seq<Json>, b: seq<Json>)
    requires (forall x <- a :: Valid(x)) && forall x <- b :: Valid(x)
    ensures multiset(SortItems(a)) == multiset(SortItems(b)) <==> SameItems(a, b)
    decreases a, 0
  {
    var sa, sb := SortItems(a), SortItems(b);
    if a == [] {
      EmptyMultiset(sa, sb);
    } else {
      TakeOut(sa, sb);
      assert sa[1..] == SortItems(a[1..]);
      forall j: nat | j < |b|
        ensures Same(a[0], b[j]) && SameItems(a[1..], Without(b, j)) <==>
                sb[j] == sa[0] && multiset(sa[1..]) == multiset(Without(sb, j))
      {
        assert SortItems(Without(b, j)) == Without(sb, j);
        SortedIffSame(a[0], b[j]);
        ItemsIffSame(a[1..], Without(b, j));
      }
    }
  }

  lemma {:induction false} EntriesIffSame(a: seq<Entry>, b: seq<Entry>)
    requires (forall e <- a :: Valid(e.value)) && forall e <- b :: Valid(e.value)
    ensures multiset(SortEntries(a)) == multiset(SortEntries(b)) <==> SameEntries(a, b)
    decreases a, 0
  {
    var sa, sb := SortEntries(a), SortEntries(b);
    if a == [] {
      EmptyMultiset(sa, sb);
    } else {
      TakeOut(sa, sb);
      assert sa[1..] == SortEntries(a[1..]);
      forall j: nat | j < |b|
        ensures a[0].key == b[j].key && Same(a[0].value, b[j].value) && SameEntries(a[1..], Without(b, j)) <==>
                sb[j] == sa[0] && multiset(sa[1..]) == multiset(Without(sb, j))
      {
        assert SortEntries(Without(b, j)) == Without(sb, j);
        SortedIffSame(a[0].value, b[j].value);
        EntriesIffSame(a[1..], Without(b, j));
      }
    }
  }

  lemma EmptyMultiset<T>(a: seq<T>, b: seq<T>)
    requires a == []
    ensures multiset(a) == multiset(b) <==> b == []
  {
    assert |multiset(b)| == |b|;
  }

  /** The canonical string is a complete invariant: equal exactly when the configurations are equal
      up to the order of keys and list items at every depth. */
  lemma NormalizeIsCanonical(a: Json, b: Json)
    requires Valid(a) && Valid(b)
    ensures Normalize(a) == Normalize(b) <==> Same(a, b)
  {
    SortNormalises(a);
    SortNormalises(b);
    SortKeysIdle(Sort(a));
    SortKeysIdle(Sort(b));
    if Normalize(a) == Normalize(b) {
      PrintInjective(Sort(a), Sort(b));
    }
    SortedIffSame(a, b);
  }
}
