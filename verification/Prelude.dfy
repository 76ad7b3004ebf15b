/** Small vocabulary shared by every module: an optional value and the width of the crate's ids. */
module Prelude {
  datatype Option<+T> = None | Some(value: T)

  datatype Result<+T, +E> = Ok(value: T) | Err(error: E)

  /** Task, attempt and correlation ids are `u64` values that are only ever compared. */
  type U64 = x: nat | x < 0x1_0000_0000_0000_0000

  function Min(a: nat, b: nat): nat {
    if a < b then a else b
  }

  /** The order-preserving "is contained in" relation, read from the right end. */
  ghost predicate Subsequence<T>(xs: seq<T>, ys: seq<T>)
    decreases |ys|
  {
    || xs == []
    || (&& ys != []
        && (|| Subsequence(xs, ys[..|ys| - 1])
            || (xs[|xs| - 1] == ys[|ys| - 1] && Subsequence(xs[..|xs| - 1], ys[..|ys| - 1]))))
  }

  /** A shorter subsequence is still one after its last element is dropped. */
  lemma {:induction false} SubsequenceDropLast<T>(xs: seq<T>, ys: seq<T>)
    requires xs != [] && Subsequence(xs, ys)
    ensures Subsequence(xs[..|xs| - 1], ys)
    decreases |ys|
  {
    if |xs| > 1 && Subsequence(xs, ys[..|ys| - 1]) {
      SubsequenceDropLast(xs, ys[..|ys| - 1]);
    }
  }

  /** What it means: the elements of the one stand in the other at increasing positions. */
  lemma {:induction false} SubsequencePositions<T>(xs: seq<T>, ys: seq<T>) returns (positions: seq<int>)
    requires Subsequence(xs, ys)
    ensures Increasing(positions) && |positions| == |xs|
    ensures forall i :: 0 <= i < |xs| ==> 0 <= positions[i] < |ys| && ys[positions[i]] == xs[i]
    decreases |ys|
  {
    if xs == [] {
      positions := [];
    } else {
      var m, n := |xs| - 1, |ys| - 1;
      if Subsequence(xs, ys[..n]) {
        positions := SubsequencePositions(xs, ys[..n]);
      } else {
        positions := SubsequencePositions(xs[..m], ys[..n]);
        positions := positions + [n];
      }
    }
  }

  ghost predicate Increasing(xs: seq<int>) {
    forall i, j :: 0 <= i < j < |xs| ==> xs[i] < xs[j]
  }

  /** Two strictly increasing sequences over the same elements are the same sequence. */
  lemma {:induction false} IncreasingIsUnique(xs: seq<int>, ys: seq<int>)
    requires Increasing(xs) && Increasing(ys)
    requires forall x :: x in xs <==> x in ys
    ensures xs == ys
    decreases |xs|
  {
    forall i | 0 <= i < |ys| ensures ys[i] in xs {
      assert ys[i] in ys;
    }
    assert |ys| > 0 ==> ys[0] in xs;
    if xs != [] {
      assert xs[0] in xs;
      var m, n := |xs| - 1, |ys| - 1;
      assert xs[m] in xs && ys[n] in ys;
      assert xs[m] == ys[n];
      forall x ensures x in xs[..m] <==> x in ys[..n] {
        if x in xs[..m] {
          assert x in xs && x < xs[m];
        }
        if x in ys[..n] {
          assert x in ys && x < ys[n];
        }
      }
      IncreasingIsUnique(xs[..m], ys[..n]);
      assert xs == xs[..m] + [xs[m]] && ys == ys[..n] + [ys[n]];
    }
  }
}
