/** Taking one element out of a sequence, and joining sequences. */
module Sequences {
  function Without<T>(xs: seq<T>, i: nat): seq<T>
    requires i < |xs|
  {
    xs[..i] + xs[i + 1..]
  }

  lemma WithoutMultiset<T>(xs: seq<T>, i: nat)
    requires i < |xs|
    ensures multiset(xs) == multiset{xs[i]} + multiset(Without(xs, i))
  {
    Around(xs, i);
  }

  lemma Around<T>(xs: seq<T>, i: nat)
    requires i < |xs|
    ensures xs == xs[..i] + [xs[i]] + xs[i + 1..]
  {
  }

  lemma WithoutBeforeLast<T>(s: seq<T>, i: nat)
    requires i < |s| - 1
    ensures Without(s, i) == Without(s[..|s| - 1], i) + [s[|s| - 1]]
  {
  }

  /** The parts one after the other. */
  function Flatten<T>(parts: seq<seq<T>>): seq<T> {
    if parts == [] then [] else Flatten(parts[..|parts| - 1]) + parts[|parts| - 1]
  }

  lemma {:induction false} FlattenJoins<T>(a: seq<seq<T>>, b: seq<seq<T>>)
    ensures Flatten(a + b) == Flatten(a) + Flatten(b)
  {
    if b == [] {
      assert a + b == a;
    } else {
      var front, last := b[..|b| - 1], b[|b| - 1];
      FlattenJoins(a, front);
      assert (a + b)[..|a + b| - 1] == a + front;
      assert Flatten(a) + (Flatten(front) + last) == Flatten(a) + Flatten(front) + last;
    }
  }

  lemma FlattenOne<T>(part: seq<T>)
    ensures Flatten([part]) == part
  {
    assert [part][..0] == [];
    assert [] + part == part;
  }

  /** What is around one of the parts. */
  lemma FlattenAround<T>(parts: seq<seq<T>>, i: nat)
    requires i < |parts|
    ensures Flatten(parts) == Flatten(parts[..i]) + parts[i] + Flatten(parts[i + 1..])
    ensures Flatten(Without(parts, i)) == Flatten(parts[..i]) + Flatten(parts[i + 1..])
  {
    Around(parts, i);
    FlattenThree(parts[..i], parts[i], parts[i + 1..]);
    FlattenJoins(parts[..i], parts[i + 1..]);
  }

  lemma FlattenThree<T>(a: seq<seq<T>>, part: seq<T>, b: seq<seq<T>>)
    ensures Flatten(a + [part] + b) == Flatten(a) + part + Flatten(b)
  {
    FlattenJoins(a + [part], b);
    FlattenJoins(a, [part]);
    FlattenOne(part);
  }
}
