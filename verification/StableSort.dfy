/** Python's `sorted(xs, key=...)` with string keys, compared by code point. */
module StableSort {
  import opened Sequences

  predicate Leq(a: string, b: string) {
    a == [] || (b != [] && (a[0] < b[0] || (a[0] == b[0] && Leq(a[1..], b[1..]))))
  }

  lemma {:induction false} LeqTotal(a: string, b: string)
    ensures Leq(a, b) || Leq(b, a)
  {
    if a != [] && b != [] && a[0] == b[0] { LeqTotal(a[1..], b[1..]); }
  }

  lemma {:induction false} LeqAntisymmetric(a: string, b: string)
    requires Leq(a, b) && Leq(b, a)
    ensures a == b
  {
    if a != [] {
      LeqAntisymmetric(a[1..], b[1..]);
      assert a == [a[0]] + a[1..] && b == [b[0]] + b[1..];
    }
  }

  lemma {:induction false} LeqTransitive(a: string, b: string, c: string)
    requires Leq(a, b) && Leq(b, c)
    ensures Leq(a, c)
  {
    if a != [] && a[0] == b[0] == c[0] { LeqTransitive(a[1..], b[1..], c[1..]); }
  }

  ghost predicate Sorted<T>(xs: seq<T>, key: T -> string) {
    forall i, j :: 0 <= i < j < |xs| ==> Leq(key(xs[i]), key(xs[j]))
  }

  /** Puts `x` in front of the first element that is not smaller. */
  function Insert<T>(x: T, xs: seq<T>, key: T -> string): (r: seq<T>)
    ensures multiset(r) == multiset{x} + multiset(xs)
  {
    if xs == [] then [x]
    else if Leq(key(x), key(xs[0])) then [x] + xs
    else
      assert xs == [xs[0]] + xs[1..];
      [xs[0]] + Insert(x, xs[1..], key)
  }

  function SortBy<T>(xs: seq<T>, key: T -> string): (r: seq<T>)
    ensures multiset(r) == multiset(xs)
  {
    if xs == [] then []
    else
      assert xs == [xs[0]] + xs[1..];
      Insert(xs[0], SortBy(xs[1..], key), key)
  }

  lemma {:induction false} InsertSorted<T>(x: T, xs: seq<T>, key: T -> string)
    requires Sorted(xs, key)
    ensures Sorted(Insert(x, xs, key), key)
  {
    var r := Insert(x, xs, key);
    if xs != [] {
      if Leq(key(x), key(xs[0])) {
        forall j | 0 <= j < |xs| ensures Leq(key(x), key(xs[j])) {
          if j > 0 { LeqTransitive(key(x), key(xs[0]), key(xs[j])); }
        }
      } else {
        LeqTotal(key(x), key(xs[0]));
        InsertSorted(x, xs[1..], key);
        var tail := Insert(x, xs[1..], key);
        forall y | y in tail ensures Leq(key(xs[0]), key(y)) {
          assert y in multiset(tail);
          assert y == x || y in xs[1..];
        }
        assert r == [xs[0]] + tail;
      }
    }
  }

  lemma {:induction false} SortBySorted<T>(xs: seq<T>, key: T -> string)
    ensures Sorted(SortBy(xs, key), key)
  {
    if xs != [] {
      SortBySorted(xs[1..], key);
      InsertSorted(xs[0], SortBy(xs[1..], key), key);
    }
  }

  /** The key tells the elements of `xs` apart. */
  ghost predicate Separates<T>(xs: seq<T>, key: T -> string) {
    forall i, j :: 0 <= i < |xs| && 0 <= j < |xs| && key(xs[i]) == key(xs[j]) ==> xs[i] == xs[j]
  }

  lemma InBoth<T>(a: seq<T>, b: seq<T>, x: T)
    requires multiset(a) == multiset(b) && x in a
    ensures x in b
  {
    assert x in multiset(a);
  }

  lemma SameHead<T>(a: seq<T>, b: seq<T>, key: T -> string)
    requires Sorted(a, key) && Sorted(b, key) && Separates(a, key)
    requires multiset(a) == multiset(b) && a != [] && b != []
    ensures a[0] == b[0]
  {
    InBoth(a, b, a[0]);
    InBoth(b, a, b[0]);
    var i :| 0 <= i < |b| && b[i] == a[0];
    var j :| 0 <= j < |a| && a[j] == b[0];
    if i > 0 && j > 0 {
      LeqAntisymmetric(key(a[0]), key(b[0]));
    }
  }

  lemma TailMultiset<T>(a: seq<T>)
    requires a != []
    ensures multiset(a) == multiset{a[0]} + multiset(a[1..])
  {
    assert a == [a[0]] + a[1..];
  }

  lemma SameTails<T>(a: seq<T>, b: seq<T>)
    requires a != [] && b != [] && a[0] == b[0] && multiset(a) == multiset(b)
    ensures multiset(a[1..]) == multiset(b[1..])
  {
    TailMultiset(a);
    TailMultiset(b);
    assert multiset(a[1..]) == multiset(a) - multiset{a[0]} == multiset(b[1..]);
  }

  lemma SortedTail<T>(a: seq<T>, key: T -> string)
    requires a != [] && Sorted(a, key) && Separates(a, key)
    ensures Sorted(a[1..], key) && Separates(a[1..], key)
  {
  }

  /** There is only one way to sort when the key separates. */
  lemma {:induction false} SortedUnique<T>(a: seq<T>, b: seq<T>, key: T -> string)
    requires Sorted(a, key) && Separates(a, key) && Sorted(b, key)
    requires multiset(a) == multiset(b)
    ensures a == b
  {
    assert |a| == |multiset(a)| == |multiset(b)| == |b|;
    if a != [] {
      SameHead(a, b, key);
      SameTails(a, b);
      SortedTail(a, key);
      SortedUnique(a[1..], b[1..], key);
      assert a == [a[0]] + a[1..] && b == [b[0]] + b[1..];
    }
  }

  /** Two lists are rearrangements of each other when the head of one can be taken out of the other
      and the rest are rearrangements again. */
  lemma TakeOut<T>(a: seq<T>, b: seq<T>)
    requires a != []
    ensures multiset(a) == multiset(b) <==>
            exists j: nat :: j < |b| && b[j] == a[0] && multiset(a[1..]) == multiset(Without(b, j))
  {
    TailMultiset(a);
    if multiset(a) == multiset(b) {
      InBoth(a, b, a[0]);
      var j: nat :| j < |b| && b[j] == a[0];
      WithoutMultiset(b, j);
      assert multiset(a[1..]) == multiset(a) - multiset{a[0]} == multiset(Without(b, j));
    } else if j: nat :| j < |b| && b[j] == a[0] && multiset(a[1..]) == multiset(Without(b, j)) {
      WithoutMultiset(b, j);
    }
  }

  /** Sorting forgets exactly the order. */
  lemma SortForgetsOrder<T>(a: seq<T>, b: seq<T>, key: T -> string)
    requires Separates(a, key)
    ensures SortBy(a, key) == SortBy(b, key) <==> multiset(a) == multiset(b)
  {
    if SortBy(a, key) == SortBy(b, key) {
      assert multiset(a) == multiset(SortBy(a, key)) == multiset(b);
    }
    if multiset(a) == multiset(b) {
      SortBySorted(a, key);
      SortBySorted(b, key);
      SeparatesSorted(a, SortBy(a, key), key);
      SortedUnique(SortBy(a, key), SortBy(b, key), key);
    }
  }

  lemma SeparatesSorted<T>(a: seq<T>, b: seq<T>, key: T -> string)
    requires Separates(a, key) && multiset(a) == multiset(b)
    ensures Separates(b, key)
  {
    forall i, j | 0 <= i < |b| && 0 <= j < |b| && key(b[i]) == key(b[j]) ensures b[i] == b[j] {
      InBoth(b, a, b[i]);
      InBoth(b, a, b[j]);
    }
  }

  /** Sorting a sorted list again changes nothing. */
  lemma SortStable<T>(a: seq<T>, key: T -> string)
    requires Sorted(a, key) && Separates(a, key)
    ensures SortBy(a, key) == a
  {
    SortBySorted(a, key);
    SortedUnique(a, SortBy(a, key), key);
  }
}
