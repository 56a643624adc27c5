/** Duplicate-freedom of a sequence. */
module Distinct {

  /** Any two positions of `xs` hold different elements. */
  ghost predicate PairwiseDistinct<T>(xs: seq<T>)
  {
    forall i, j :: 0 <= i < j < |xs| ==> xs[i] != xs[j]
  }

  /** A concatenation is duplicate-free exactly when both parts are and they
      share no element. */
  lemma DistinctAppend<T>(xs: seq<T>, ys: seq<T>)
    ensures PairwiseDistinct(xs + ys) <==>
      PairwiseDistinct(xs) && PairwiseDistinct(ys) && forall y :: y in ys ==> y !in xs
  {
    var zs := xs + ys;
    if PairwiseDistinct(xs) && PairwiseDistinct(ys) && forall y :: y in ys ==> y !in xs {
      forall i, j | 0 <= i < j < |zs| ensures zs[i] != zs[j] {
        if j < |xs| {
          assert zs[i] == xs[i] && zs[j] == xs[j];
        } else if i < |xs| {
          assert zs[i] == xs[i] && zs[j] == ys[j - |xs|];
          assert zs[j] in ys;
        } else {
          assert zs[i] == ys[i - |xs|] && zs[j] == ys[j - |xs|];
        }
      }
    }
    if PairwiseDistinct(zs) {
      forall i, j | 0 <= i < j < |xs| ensures xs[i] != xs[j] {
        assert xs[i] == zs[i] && xs[j] == zs[j];
      }
      forall i, j | 0 <= i < j < |ys| ensures ys[i] != ys[j] {
        assert ys[i] == zs[i + |xs|] && ys[j] == zs[j + |xs|];
      }
      forall y | y in ys ensures y !in xs {
        var j :| 0 <= j < |ys| && ys[j] == y;
        assert zs[j + |xs|] == y;
        forall i | 0 <= i < |xs| ensures xs[i] != y {
          assert zs[i] == xs[i];
        }
      }
    }
  }
}
