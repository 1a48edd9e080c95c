/** Row filters: what a `WHERE` clause keeps of a table, in table order. */
module Sequences {

  /** The elements of `xs` that satisfy `keep`, in their original order. */
  function Filter<T>(xs: seq<T>, keep: T -> bool): (r: seq<T>)
    ensures |r| <= |xs|
    ensures forall i :: 0 <= i < |r| ==> r[i] in xs && keep(r[i])
    ensures forall i :: 0 <= i < |xs| && keep(xs[i]) ==> xs[i] in r
  {
    if xs == [] then []
    else
      var last := xs[|xs| - 1];
      assert xs == xs[..|xs| - 1] + [last];
      Filter(xs[..|xs| - 1], keep) + (if keep(last) then [last] else [])
  }

  /** A single row is kept exactly when it satisfies `keep`. */
  lemma FilterSingle<T>(x: T, keep: T -> bool)
    ensures Filter([x], keep) == if keep(x) then [x] else []
  {
    assert [x][..0] == [];
  }

  /**
   * Filtering distributes over concatenation: the kept rows come out in
   * table order, each as often as it occurs (with FilterSingle, this
   * determines the result).
   */
  lemma {:induction false} FilterConcat<T>(xs: seq<T>, ys: seq<T>, keep: T -> bool)
    ensures Filter(xs + ys, keep) == Filter(xs, keep) + Filter(ys, keep)
  {
    if ys == [] {
      assert xs + ys == xs;
    } else {
      var n := |ys| - 1;
      var last := ys[n];
      var tail := if keep(last) then [last] else [];
      assert (xs + ys)[..|xs + ys| - 1] == xs + ys[..n];
      assert Filter(xs + ys, keep) == Filter(xs + ys[..n], keep) + tail;
      assert Filter(ys, keep) == Filter(ys[..n], keep) + tail;
      FilterConcat(xs, ys[..n], keep);
    }
  }

  /** No two elements of `xs` share a key: a primary-key constraint on a table. */
  ghost predicate UniqueBy<T, K>(xs: seq<T>, key: T -> K)
  {
    forall i, j :: 0 <= i < j < |xs| ==> key(xs[i]) != key(xs[j])
  }

  /** Deleting rows never breaks a primary-key constraint. */
  lemma {:induction false} FilterUniqueBy<T, K>(xs: seq<T>, keep: T -> bool, key: T -> K)
    requires UniqueBy(xs, key)
    ensures UniqueBy(Filter(xs, keep), key)
  {
    if xs != [] {
      var pre, last := xs[..|xs| - 1], xs[|xs| - 1];
      FilterUniqueBy(pre, keep, key);
      var fp := Filter(pre, keep);
      forall y | y in fp
        ensures key(y) != key(last)
      {
        var i :| 0 <= i < |pre| && pre[i] == y;
        assert xs[i] == y;
      }
      if keep(last) {
        var r := fp + [last];
        forall i, j | 0 <= i < j < |r|
          ensures key(r[i]) != key(r[j])
        {
          if j == |r| - 1 {
            assert r[i] in fp;
          }
        }
      }
    }
  }
}
