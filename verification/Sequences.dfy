/** Facts about sequences that several components share. */
module Sequences {

  ghost predicate NoDuplicates<T(!new)>(xs: seq<T>) {
    forall i, j | 0 <= i < j < |xs| :: xs[i] != xs[j]
  }

  /** The sequence without later repetitions of an element. */
  function Distinct<T(==)>(xs: seq<T>): seq<T> {
    if xs == [] then []
    else
      var before, last := xs[..|xs|-1], xs[|xs|-1];
      if last in before then Distinct(before) else Distinct(before) + [last]
  }

  function FirstIndex<T(==)>(xs: seq<T>, x: T): (i: nat)
    requires x in xs
    ensures i < |xs| && xs[i] == x && x !in xs[..i]
  {
    if xs[0] == x then 0
    else
      assert x in xs[1..];
      assert xs[..1 + FirstIndex(xs[1..], x)] == [xs[0]] + xs[1..][..FirstIndex(xs[1..], x)];
      1 + FirstIndex(xs[1..], x)
  }

  /** `Distinct` keeps the same elements, each once, in the order of their first occurrence. */
  lemma {:induction false} DistinctKeepsFirstOccurrences<T(!new)>(xs: seq<T>)
    ensures NoDuplicates(Distinct(xs))
    ensures forall x :: x in Distinct(xs) <==> x in xs
    ensures forall i, j | 0 <= i < j < |Distinct(xs)| ::
              FirstIndex(xs, Distinct(xs)[i]) < FirstIndex(xs, Distinct(xs)[j])
  {
    if xs != [] {
      var before, last := xs[..|xs|-1], xs[|xs|-1];
      assert xs == before + [last];
      DistinctKeepsFirstOccurrences(before);
      forall x | x in before ensures FirstIndex(xs, x) == FirstIndex(before, x) {
        FirstIndexIsUnique(xs, x, FirstIndex(before, x));
      }
    }
  }

  lemma FirstIndexIsUnique<T>(xs: seq<T>, x: T, i: nat)
    requires i < |xs| && xs[i] == x && x !in xs[..i]
    ensures FirstIndex(xs, x) == i
  {
    var k := FirstIndex(xs, x);
    assert forall j | 0 <= j < i :: xs[..i][j] == xs[j] && xs[j] != x;
    assert forall j | 0 <= j < k :: xs[..k][j] == xs[j] && xs[j] != x;
  }

  lemma DistinctExtended<T(!new)>(xs: seq<T>, x: T)
    ensures Distinct(xs + [x]) == if x in Distinct(xs) then Distinct(xs) else Distinct(xs) + [x]
  {
    assert (xs + [x])[..|xs|] == xs;
    DistinctKeepsFirstOccurrences(xs);
  }

  ghost predicate Increasing(idx: seq<nat>) {
    forall i, j | 0 <= i < j < |idx| :: idx[i] < idx[j]
  }

  /** `xs` is what `idx`, strictly increasing, picks out of `ys`. */
  ghost predicate Picks<T(!new)>(idx: seq<nat>, xs: seq<T>, ys: seq<T>) {
    && |idx| == |xs| && Increasing(idx)
    && forall i | 0 <= i < |xs| :: idx[i] < |ys| && xs[i] == ys[idx[i]]
  }

  /** `xs` is an in-order subsequence of `ys`. */
  ghost predicate Subsequence<T(!new)>(xs: seq<T>, ys: seq<T>) {
    exists idx :: Picks(idx, xs, ys)
  }
}
