/** Order-keeping selection from a sequence, as `filter` does it. */
module Sequences {

  /**
   * `a` is `b` with some elements left out and the rest kept in their order.
   * Read from the back, like the filters it describes.
   */
  predicate IsSubsequence<T(==)>(a: seq<T>, b: seq<T>)
    decreases |b|
  {
    if b == [] then a == []
    else
      || (a != [] && a[|a| - 1] == b[|b| - 1] && IsSubsequence(a[..|a| - 1], b[..|b| - 1]))
      || IsSubsequence(a, b[..|b| - 1])
  }

  /** A subsequence is never longer, and everything in it comes from the sequence it was taken from. */
  lemma {:induction false} SubsequenceMembers<T>(a: seq<T>, b: seq<T>)
    requires IsSubsequence(a, b)
    ensures |a| <= |b|
    ensures forall i :: 0 <= i < |a| ==> a[i] in b
  {
    if b != [] {
      var b' := b[..|b| - 1];
      if a != [] && a[|a| - 1] == b[|b| - 1] && IsSubsequence(a[..|a| - 1], b') {
        SubsequenceMembers(a[..|a| - 1], b');
        assert forall i :: 0 <= i < |a| - 1 ==> a[i] == a[..|a| - 1][i];
      } else {
        SubsequenceMembers(a, b');
      }
    }
  }

  /** The elements of `xs` that satisfy `p`, in their order. */
  function Filter<T>(xs: seq<T>, p: T -> bool): (kept: seq<T>)
    ensures |kept| <= |xs|
  {
    if xs == [] then []
    else
      var init := Filter(xs[..|xs| - 1], p);
      if p(xs[|xs| - 1]) then init + [xs[|xs| - 1]] else init
  }

  /**
   * What `filter` promises: everything kept satisfies the predicate, the kept
   * elements come from the sequence in its order, and nothing that satisfies
   * the predicate is dropped.
   */
  lemma {:induction false} FilterIsSelection<T>(xs: seq<T>, p: T -> bool)
    ensures forall i :: 0 <= i < |Filter(xs, p)| ==> p(Filter(xs, p)[i])
    ensures IsSubsequence(Filter(xs, p), xs)
    ensures forall j :: 0 <= j < |xs| && p(xs[j]) ==> xs[j] in Filter(xs, p)
  {
    if xs != [] {
      var init := xs[..|xs| - 1];
      FilterIsSelection(init, p);
      assert forall j :: 0 <= j < |xs| - 1 ==> xs[j] == init[j];
      var kept := Filter(xs, p);
      if p(xs[|xs| - 1]) {
        assert kept[..|kept| - 1] == Filter(init, p);
      }
    }
  }

  /** Read from the front: the first element is kept exactly when it satisfies the predicate. */
  lemma {:induction false} FilterCons<T>(x: T, xs: seq<T>, p: T -> bool)
    ensures Filter([x] + xs, p) == (if p(x) then [x] else []) + Filter(xs, p)
    decreases |xs|
  {
    var ys := [x] + xs;
    if xs != [] {
      var init := xs[..|xs| - 1];
      assert ys[..|ys| - 1] == [x] + init;
      assert ys[|ys| - 1] == xs[|xs| - 1];
      FilterCons(x, init, p);
    } else {
      assert ys[..|ys| - 1] == [];
    }
  }

  /** Nothing is kept when nothing satisfies the predicate. */
  lemma {:induction false} FilterNone<T>(xs: seq<T>, p: T -> bool)
    requires forall i :: 0 <= i < |xs| ==> !p(xs[i])
    ensures Filter(xs, p) == []
  {
    if xs != [] {
      FilterNone(xs[..|xs| - 1], p);
    }
  }

  /**
   * The first element kept is `xs[a]`, the first one that satisfies the
   * predicate, and the rest of what is kept is the filter of what follows it.
   */
  lemma {:induction false} FilterHead<T>(xs: seq<T>, p: T -> bool) returns (a: nat)
    requires Filter(xs, p) != []
    ensures a < |xs| && p(xs[a]) && Filter(xs, p)[0] == xs[a]
    ensures forall i :: 0 <= i < a ==> !p(xs[i])
    ensures Filter(xs, p)[1..] == Filter(xs[a + 1..], p)
    decreases |xs|
  {
    assert xs == [xs[0]] + xs[1..];
    FilterCons(xs[0], xs[1..], p);
    if p(xs[0]) {
      a := 0;
      assert xs[1..] == xs[0 + 1..];
    } else {
      var a' := FilterHead(xs[1..], p);
      a := a' + 1;
      assert xs[1..][a' + 1..] == xs[a + 1..];
      assert forall i :: 1 <= i < a ==> xs[i] == xs[1..][i - 1];
    }
  }

  /** Two elements that satisfy the predicate make the filter at least two long. */
  lemma {:induction false} FilterKeepsTwo<T>(xs: seq<T>, p: T -> bool, a: nat, b: nat)
    requires a < b < |xs| && p(xs[a]) && p(xs[b])
    ensures |Filter(xs, p)| >= 2
  {
    FilterIsSelection(xs, p);
    FilterIsSelection(xs[a + 1..], p);
    assert xs[a + 1..][b - a - 1] == xs[b];
    var c := FilterHead(xs, p);
    if c < a {
      assert xs[a] == xs[c + 1..][a - c - 1];
      FilterIsSelection(xs[c + 1..], p);
    } else {
      assert xs[b] == xs[c + 1..][b - c - 1];
      FilterIsSelection(xs[c + 1..], p);
    }
  }

  /** Filtering one element more appends it exactly when it satisfies the predicate. */
  lemma FilterStep<T>(xs: seq<T>, i: nat, p: T -> bool)
    requires i < |xs|
    ensures Filter(xs[..i + 1], p) == Filter(xs[..i], p) + (if p(xs[i]) then [xs[i]] else [])
  {
    assert xs[..i + 1][..i] == xs[..i];
  }
}
