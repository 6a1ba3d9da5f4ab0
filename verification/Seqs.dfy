/** Filters over duplicate-free sequences: the order of an ordered dictionary. */
module Seqs {

  ghost predicate NoDup<T>(xs: seq<T>) {
    forall i, j :: 0 <= i < j < |xs| ==> xs[i] != xs[j]
  }

  /** The elements of `xs` that belong to `keep`, in their old order. */
  function Keep<T(==, !new)>(xs: seq<T>, keep: set<T>): (r: seq<T>)
    ensures |r| <= |xs|
    ensures forall x :: x in r <==> x in xs && x in keep
  {
    if xs == [] then []
    else if xs[0] in keep then [xs[0]] + Keep(xs[1..], keep)
    else Keep(xs[1..], keep)
  }

  function Without<T(==, !new)>(xs: seq<T>, x: T): (r: seq<T>)
    ensures |r| <= |xs|
    ensures forall y :: y in r <==> y in xs && y != x
  {
    if xs == [] then []
    else if xs[0] != x then [xs[0]] + Without(xs[1..], x)
    else Without(xs[1..], x)
  }

  function MoveToEnd<T(==, !new)>(xs: seq<T>, x: T): (r: seq<T>)
    ensures forall y :: y in r <==> y in xs || y == x
  {
    Without(xs, x) + [x]
  }

  lemma KeepAll<T(!new)>(xs: seq<T>, keep: set<T>)
    requires forall x :: x in xs ==> x in keep
    ensures Keep(xs, keep) == xs
  {
    if xs != [] {
      KeepAll(xs[1..], keep);
    }
  }

  lemma KeepWithout<T(!new)>(xs: seq<T>, x: T, keep: set<T>)
    requires x !in keep
    ensures Keep(Without(xs, x), keep) == Keep(xs, keep)
  {
    if xs != [] {
      KeepWithout(xs[1..], x, keep);
    }
  }

  lemma KeepNoDup<T(!new)>(xs: seq<T>, keep: set<T>)
    requires NoDup(xs)
    ensures NoDup(Keep(xs, keep))
  {
    if xs != [] {
      KeepNoDup(xs[1..], keep);
    }
  }

  lemma WithoutNoDup<T(!new)>(xs: seq<T>, x: T)
    requires NoDup(xs)
    ensures NoDup(Without(xs, x))
    ensures |Without(xs, x)| == |xs| - (if x in xs then 1 else 0)
  {
    if xs != [] {
      WithoutNoDup(xs[1..], x);
      if xs[0] == x {
        WithoutAbsent(xs[1..], x);
      } else {
        assert xs[0] !in Without(xs[1..], x);
      }
    }
  }

  lemma WithoutAbsent<T(!new)>(xs: seq<T>, x: T)
    requires x !in xs
    ensures Without(xs, x) == xs
  {
    if xs != [] {
      WithoutAbsent(xs[1..], x);
    }
  }

  function Elements<T>(xs: seq<T>): set<T> {
    set x | x in xs
  }

  lemma NoDupSize<T(!new)>(xs: seq<T>)
    requires NoDup(xs)
    ensures |Elements(xs)| == |xs|
  {
    if xs != [] {
      NoDupSize(xs[1..]);
      assert Elements(xs) == {xs[0]} + Elements(xs[1..]);
    }
  }
}
