/** Properties of the weighted medians of `kungpao/utils.py`.

    For non-negative weights with a positive one and no dominant weight,
    and at least as many data as weights (`Balanced`), the loop of
    `weighted_median` always stops after at least two sorted weights, its
    tie test always holds, and so it always averages the two sorted data
    around the crossing.  With more weights than data the loop can run off
    the zipped weights and raise `IndexError` (data `[1]` with weights
    `[1, 1, 1]`, `ShortDataRunsOff`), though it need not: data `[1, 2]`
    with the same weights crosses the midpoint before the pairs run out.
    The corrected tie test instead returns a true weighted median, and
    `numpy_weighted_median` agrees with `weighted_median` as written
    whenever both lists have the same length.
 */
module MedianProperties {
  import opened Wrappers
  import opened Series
  import opened Sorting
  import opened Median
  import opened Numeric

  /** The sorted `(datum, weight)` pairs that both medians work on. */
  function SortedPairs(data: seq<real>, w: seq<real>): seq<(real, real)> {
    Sort(Zip(data, w), LexLe)
  }

  /** The conditions under which the cumulative branch is reached with
      non-negative weights: some weight positive, none above half. */
  ghost predicate Balanced(data: seq<real>, w: seq<real>) {
    && |w| <= |data|
    && (forall i :: 0 <= i < |w| ==> w[i] >= 0.0)
    && AnyAbove(w, 0.0)
    && !AnyAbove(w, 0.5 * Sum(w))
  }

  /** Facts about the sorted weights: the same total, each one a weight of
      the input, and hence each non-negative and at most half the total. */
  lemma SortedWeightsFacts(data: seq<real>, w: seq<real>)
    requires Balanced(data, w)
    ensures |Seconds(SortedPairs(data, w))| == |w| > 0
    ensures Sum(Seconds(SortedPairs(data, w))) == Sum(w)
    ensures forall i :: 0 <= i < |w| ==>
              0.0 <= Seconds(SortedPairs(data, w))[i] <= 0.5 * Sum(w)
    ensures Sum(w) > 0.0
  {
    var zs := Zip(data, w);
    var ps := SortedPairs(data, w);
    assert Seconds(zs) == w;
    SortKeepsWeight(zs);
    forall i | 0 <= i < |w|
      ensures 0.0 <= Seconds(ps)[i] <= 0.5 * Sum(w)
    {
      SortMember(zs, LexLe, i);
      var j :| 0 <= j < |zs| && zs[j] == ps[i];
      assert Seconds(ps)[i] == w[j];
    }
    SumNonNegative(w);
    SumZeroIffAllZero(w);
  }

  /** Where the loop stops on balanced weights: after `K >= 2` sorted
      weights, the first prefix whose weight exceeds the midpoint. */
  lemma CrossingOfBalanced(data: seq<real>, w: seq<real>) returns (K: nat)
    requires Balanced(data, w)
    ensures var sw := Seconds(SortedPairs(data, w));
            && FirstCrossing(sw, 0.5 * Sum(w), 0, 0.0) == Some(K)
            && 2 <= K <= |sw|
            && Sum(sw[..K - 1]) <= 0.5 * Sum(w) < Sum(sw[..K])
  {
    var sw := Seconds(SortedPairs(data, w));
    var m := 0.5 * Sum(w);
    SortedWeightsFacts(data, w);
    FirstCrossingSpec(sw, m, 0, 0.0);
    assert sw[..|sw|] == sw;
    K := FirstCrossing(sw, m, 0, 0.0).value;
    assert sw[..0] == [];
    SumPrefixStep(sw, 0);
    assert sw[..1] == [sw[0]];
  }

  lemma MeanOfPair(a: real, b: real)
    ensures Mean([a, b]) == (a + b) / 2.0
  {
    assert [a, b][1..] == [b];
    assert [b][1..] == [];
    assert Sum([b]) == b;
    assert Sum([a, b]) == a + b;
  }

  /** The tie test of line 170 holds whenever the loop ran at least once,
      so as written the function always averages two neighbours. */
  lemma AsWrittenAlwaysAverages(sd: seq<real>, sw: seq<real>, m: real, K: nat)
    requires |sd| == |sw|
    requires FirstCrossing(sw, m, 0, 0.0) == Some(K) && K >= 1
    ensures CumulativeMedian(sd, sw, m, false) == MeanOfList(PySlice(sd, K - 2, K))
  {
    FirstCrossingSpec(sw, m, 0, 0.0);
    SumPrefixStep(sw, K - 1);
  }

  /** `weighted_median` on balanced weights returns the mean of the two
      sorted data on either side of the crossing (lines 162-171). */
  lemma WeightedMedianAverages(data: seq<real>, w: seq<real>) returns (K: nat)
    requires Balanced(data, w)
    ensures var ps := SortedPairs(data, w);
            && 2 <= K <= |ps|
            && FirstCrossing(Seconds(ps), 0.5 * Sum(w), 0, 0.0) == Some(K)
            && WeightedMedian(data, Some(w)) == Success(Some((ps[K - 2].0 + ps[K - 1].0) / 2.0))
  {
    var ps := SortedPairs(data, w);
    K := CrossingOfBalanced(data, w);
    var sd := Firsts(ps);
    AsWrittenAlwaysAverages(sd, Seconds(ps), 0.5 * Sum(w), K);
    assert PySlice(sd, K - 2, K) == [sd[K - 2], sd[K - 1]];
    MeanOfPair(sd[K - 2], sd[K - 1]);
    assert CumulativeMedian(sd, Seconds(ps), 0.5 * Sum(w), false) == Success((ps[K - 2].0 + ps[K - 1].0) / 2.0);
  }

  /** With the two-sided tie test the result is a weighted median: the
      sorted weight strictly before it and strictly after it are each below
      half the total, unless a prefix weighs exactly half, when the two
      neighbours are averaged. */
  lemma CorrectedIsWeightedMedian(data: seq<real>, w: seq<real>) returns (K: nat)
    requires Balanced(data, w)
    ensures var ps := SortedPairs(data, w);
            var sw := Seconds(ps);
            var m := 0.5 * Sum(w);
            && 2 <= K <= |ps|
            && FirstCrossing(sw, m, 0, 0.0) == Some(K)
            && (Abs(Sum(sw[..K - 1]) - m) < Epsilon ==>
                  WeightedMedianCorrected(data, Some(w)) == Success(Some((ps[K - 2].0 + ps[K - 1].0) / 2.0)))
            && (Abs(Sum(sw[..K - 1]) - m) >= Epsilon ==>
                  && WeightedMedianCorrected(data, Some(w)) == Success(Some(ps[K - 1].0))
                  && Sum(sw[..K - 1]) < m
                  && Sum(sw[K..]) < m)
  {
    K := CrossingOfBalanced(data, w);
    var sw := Seconds(SortedPairs(data, w));
    if Abs(Sum(sw[..K - 1]) - 0.5 * Sum(w)) < Epsilon {
      CorrectedTie(data, w, K);
    } else {
      CorrectedNoTie(data, w, K);
    }
  }

  /** On balanced weights both versions reach the cumulative loop of
      lines 162-173, over the sorted pairs. */
  lemma BalancedReachesLoop(data: seq<real>, w: seq<real>, corrected: bool)
    requires |w| <= |data| && AnyAbove(w, 0.0) && !AnyAbove(w, 0.5 * Sum(w))
    ensures |SortedPairs(data, w)| == |w| > 0
    ensures var ps := SortedPairs(data, w);
            WeightedMedianWith(data, Some(w), corrected) ==
              Lift(CumulativeMedian(Firsts(ps), Seconds(ps), 0.5 * Sum(w), corrected))
  {
    SortedPairsLength(data, w);
    ReachLoop(data, w, 0.5 * Sum(w), corrected);
  }

  lemma SortedPairsLength(data: seq<real>, w: seq<real>)
    requires |w| <= |data| && AnyAbove(w, 0.0)
    ensures |SortedPairs(data, w)| == |w| > 0
  {
    var zs := Zip(data, w);
    assert |zs| == |w|;
    assert |Sort(zs, LexLe)| == |w|;
    assert |w| > 0 by {
      var i :| 0 <= i < |w| && w[i] > 0.0;
    }
  }

  lemma ReachLoop(data: seq<real>, w: seq<real>, m: real, corrected: bool)
    requires m == 0.5 * Sum(w) && AnyAbove(w, 0.0) && !AnyAbove(w, m) && |SortedPairs(data, w)| > 0
    ensures var ps := SortedPairs(data, w);
            WeightedMedianWith(data, Some(w), corrected) == Lift(CumulativeMedian(Firsts(ps), Seconds(ps), m, corrected))
  {
    ReachSorted(data, w, m, corrected);
    SortedMedianOfPairs(data, w, m, corrected);
  }

  lemma ReachSorted(data: seq<real>, w: seq<real>, m: real, corrected: bool)
    requires m == 0.5 * Sum(w) && AnyAbove(w, 0.0) && !AnyAbove(w, m)
    ensures WeightedMedianWith(data, Some(w), corrected) == SortedMedian(data, w, m, corrected)
  {
    WeightedBranches(data, w, m, corrected);
  }

  /** The three branches of `weighted_median` once weights are given. */
  lemma WeightedBranches(data: seq<real>, w: seq<real>, m: real, corrected: bool)
    requires m == 0.5 * Sum(w)
    ensures WeightedMedianWith(data, Some(w), corrected) ==
              if AnyAbove(w, m) then DominantPick(data, w)
              else if !AnyAbove(w, 0.0) then Success(None)
              else SortedMedian(data, w, m, corrected)
  {
    if AnyAbove(w, m) {
    } else if !AnyAbove(w, 0.0) {
    } else {
    }
  }

  lemma SortedMedianOfPairs(data: seq<real>, w: seq<real>, m: real, corrected: bool)
    requires |SortedPairs(data, w)| > 0
    ensures var ps := SortedPairs(data, w);
            SortedMedian(data, w, m, corrected) == Lift(CumulativeMedian(Firsts(ps), Seconds(ps), m, corrected))
  {
  }

  /** The two-sided tie test holding on sorted lists: the two neighbours
      of the crossing are averaged. */
  lemma CumulativeTie(sd: seq<real>, sw: seq<real>, m: real, K: nat)
    requires |sd| == |sw| && 2 <= K <= |sw|
    requires FirstCrossing(sw, m, 0, 0.0) == Some(K)
    requires Abs(Sum(sw[..K - 1]) - m) < Epsilon
    ensures CumulativeMedian(sd, sw, m, true) == Success((sd[K - 2] + sd[K - 1]) / 2.0)
  {
    assert PyIndex(sw, K - 1) == Success(sw[K - 1]);
    SumPrefixStep(sw, K - 1);
    var pair := PySlice(sd, K - 2, K);
    assert pair == [sd[K - 2], sd[K - 1]];
    MeanOfPair(sd[K - 2], sd[K - 1]);
    assert MeanOfList(pair) == Success((sd[K - 2] + sd[K - 1]) / 2.0);
  }

  /** The two-sided tie test failing on sorted lists: the datum at the
      crossing is taken. */
  lemma CumulativeNoTie(sd: seq<real>, sw: seq<real>, m: real, K: nat)
    requires |sd| == |sw| && 1 <= K <= |sw|
    requires FirstCrossing(sw, m, 0, 0.0) == Some(K)
    requires Abs(Sum(sw[..K - 1]) - m) >= Epsilon
    ensures CumulativeMedian(sd, sw, m, true) == Success(sd[K - 1])
  {
    assert PyIndex(sw, K - 1) == Success(sw[K - 1]);
    SumPrefixStep(sw, K - 1);
    assert PyIndex(sd, K - 1) == Success(sd[K - 1]);
  }

  /** With no prefix weighing half, the weight strictly before the
      crossing and strictly after it are each below half the total. */
  lemma NoTieSides(sw: seq<real>, m: real, K: nat)
    requires 1 <= K <= |sw| && Sum(sw) == 2.0 * m
    requires Sum(sw[..K - 1]) <= m < Sum(sw[..K])
    requires Abs(Sum(sw[..K - 1]) - m) >= Epsilon
    ensures Sum(sw[..K - 1]) < m && Sum(sw[K..]) < m
  {
    SumSplit(sw, K);
  }

  /** The two-sided tie test holding: the two neighbours are averaged. */
  lemma CorrectedTie(data: seq<real>, w: seq<real>, K: nat)
    requires Balanced(data, w)
    requires 2 <= K <= |SortedPairs(data, w)|
    requires FirstCrossing(Seconds(SortedPairs(data, w)), 0.5 * Sum(w), 0, 0.0) == Some(K)
    requires Abs(Sum(Seconds(SortedPairs(data, w))[..K - 1]) - 0.5 * Sum(w)) < Epsilon
    ensures var ps := SortedPairs(data, w);
            WeightedMedianCorrected(data, Some(w)) == Success(Some((ps[K - 2].0 + ps[K - 1].0) / 2.0))
  {
    var ps := SortedPairs(data, w);
    var sd := Firsts(ps);
    BalancedReachesLoop(data, w, true);
    CumulativeTie(sd, Seconds(ps), 0.5 * Sum(w), K);
    assert sd[K - 2] == ps[K - 2].0 && sd[K - 1] == ps[K - 1].0;
  }

  /** The two-sided tie test failing: the datum at the crossing is taken,
      and the weight on either side of it is below half. */
  lemma CorrectedNoTie(data: seq<real>, w: seq<real>, K: nat)
    requires Balanced(data, w)
    requires 2 <= K <= |SortedPairs(data, w)|
    requires FirstCrossing(Seconds(SortedPairs(data, w)), 0.5 * Sum(w), 0, 0.0) == Some(K)
    requires Sum(Seconds(SortedPairs(data, w))[..K - 1]) <= 0.5 * Sum(w) < Sum(Seconds(SortedPairs(data, w))[..K])
    requires Abs(Sum(Seconds(SortedPairs(data, w))[..K - 1]) - 0.5 * Sum(w)) >= Epsilon
    ensures var ps := SortedPairs(data, w);
            var sw := Seconds(ps);
            && WeightedMedianCorrected(data, Some(w)) == Success(Some(ps[K - 1].0))
            && Sum(sw[..K - 1]) < 0.5 * Sum(w)
            && Sum(sw[K..]) < 0.5 * Sum(w)
  {
    var ps := SortedPairs(data, w);
    var sd := Firsts(ps);
    var sw := Seconds(ps);
    BalancedReachesLoop(data, w, true);
    SortedWeightTotal(data, w);
    CumulativeNoTieSides(sd, sw, 0.5 * Sum(w), K);
    assert sd[K - 1] == ps[K - 1].0;
  }

  /** Sorting the pairs keeps the weights' total. */
  lemma SortedWeightTotal(data: seq<real>, w: seq<real>)
    requires |w| <= |data|
    ensures Sum(Seconds(SortedPairs(data, w))) == Sum(w)
  {
    var zs := Zip(data, w);
    assert Seconds(zs) == w;
    SortKeepsWeight(zs);
  }

  /** On sorted lists of total weight `2 * m` with no prefix weighing half,
      the corrected loop takes the datum at the crossing, and the weight on
      either side of it is below `m`. */
  lemma CumulativeNoTieSides(sd: seq<real>, sw: seq<real>, m: real, K: nat)
    requires |sd| == |sw| && 1 <= K <= |sw| && Sum(sw) == 2.0 * m
    requires FirstCrossing(sw, m, 0, 0.0) == Some(K)
    requires Sum(sw[..K - 1]) <= m < Sum(sw[..K])
    requires Abs(Sum(sw[..K - 1]) - m) >= Epsilon
    ensures CumulativeMedian(sd, sw, m, true) == Success(sd[K - 1])
    ensures Sum(sw[..K - 1]) < m && Sum(sw[K..]) < m
  {
    CumulativeNoTie(sd, sw, m, K);
    NoTieSides(sw, m, K);
  }

  /** Two distinct terms of a non-negative sum are at most the sum. */
  lemma {:induction false} SumAtLeastTwo(s: seq<real>, i: int, j: int)
    requires forall k :: 0 <= k < |s| ==> s[k] >= 0.0
    requires 0 <= i < |s| && 0 <= j < |s| && i != j
    ensures s[i] + s[j] <= Sum(s)
  {
    if i == 0 {
      SumAtLeastOne(s[1..], j - 1);
    } else if j == 0 {
      SumAtLeastOne(s[1..], i - 1);
    } else {
      SumAtLeastTwo(s[1..], i - 1, j - 1);
    }
  }

  /** A term of a non-negative sum is at most the sum. */
  lemma {:induction false} SumAtLeastOne(s: seq<real>, i: int)
    requires forall k :: 0 <= k < |s| ==> s[k] >= 0.0
    requires 0 <= i < |s|
    ensures s[i] <= Sum(s)
  {
    SumNonNegative(s[1..]);
    if i > 0 {
      SumAtLeastOne(s[1..], i - 1);
    }
  }

  /** With non-negative weights at most one weight exceeds half the total,
      and `weights.index(max(weights))` finds exactly that one, so the
      dominant branch (lines 159-161) returns its datum. */
  lemma DominantWeightChosen(data: seq<real>, w: seq<real>, i: int, corrected: bool)
    requires forall k :: 0 <= k < |w| ==> w[k] >= 0.0
    requires 0 <= i < |w| && w[i] > 0.5 * Sum(w)
    ensures forall j :: 0 <= j < |w| && w[j] > 0.5 * Sum(w) ==> j == i
    ensures WeightedMedianWith(data, Some(w), corrected) ==
              if i < |data| then Success(Some(data[i])) else Failure(IndexError)
  {
    forall j | 0 <= j < |w| && w[j] > 0.5 * Sum(w)
      ensures j == i
    {
      if j != i {
        SumAtLeastTwo(w, i, j);
      }
    }
    var mx := MaxOf(w);
    var k :| 0 <= k < |w| && w[k] == mx;
    assert w[k] >= w[i];
    assert FirstIndexOf(w, mx) == i;
  }

  /** All-zero (or no) weights make both medians return `None`. */
  lemma ZeroWeightsGiveNone(data: seq<real>, w: seq<real>, corrected: bool)
    requires forall k :: 0 <= k < |w| ==> w[k] == 0.0
    ensures WeightedMedianWith(data, Some(w), corrected) == Success(None)
    ensures NumpyWeightedMedian(data, Some(w)) == Success(None)
  {
    SumZeroIffAllZero(w);
  }

  /** On equal-length lists with non-negative weights the NumPy version
      returns what `weighted_median` as written returns. */
  lemma NumpyAgrees(data: seq<real>, w: seq<real>)
    requires |data| == |w|
    requires forall k :: 0 <= k < |w| ==> w[k] >= 0.0
    ensures WeightedMedian(data, Some(w)) == NumpyWeightedMedian(data, Some(w))
  {
    var m := 0.5 * Sum(w);
    if !AnyAbove(w, 0.0) {
      forall k | 0 <= k < |w|
        ensures w[k] == 0.0
      {
        assert !(w[k] > 0.0);
      }
      ZeroWeightsGiveNone(data, w, false);
    } else {
      var zs := Zip(data, w);
      var ps := SortedPairs(data, w);
      assert Seconds(zs) == w;
      SortKeepsWeight(zs);
      assert Sum(Seconds(ps)) == Sum(w);
      if !AnyAbove(w, m) {
        var K := WeightedMedianAverages(data, w);
        var K' := CrossingOfBalanced(data, w);
        NumpyLastAtMost(data, w, K);
      }
    }
  }

  /** On balanced weights of equal length `np.where(...)[0][-1]` is `K - 2`,
      so the NumPy version also averages the two neighbours. */
  lemma NumpyLastAtMost(data: seq<real>, w: seq<real>, K: nat)
    requires Balanced(data, w) && |data| == |w|
    requires var sw := Seconds(SortedPairs(data, w));
             && FirstCrossing(sw, 0.5 * Sum(w), 0, 0.0) == Some(K)
             && 2 <= K <= |sw|
             && Sum(sw[..K - 1]) <= 0.5 * Sum(w) < Sum(sw[..K])
    ensures var ps := SortedPairs(data, w);
            NumpyWeightedMedian(data, Some(w)) == Success(Some((ps[K - 2].0 + ps[K - 1].0) / 2.0))
  {
    var ps := SortedPairs(data, w);
    var sd := Firsts(ps);
    var sw := Seconds(ps);
    SortedWeightsFacts(data, w);
    NumpyReachSorted(data, w);
    NumpyCumulativeAverages(sd, sw, 0.5 * Sum(w), K);
    assert sd[K - 2] == ps[K - 2].0 && sd[K - 1] == ps[K - 1].0;
  }

  /** With a positive weight and none above half the sorted weight, the
      NumPy version reaches its cumulative step. */
  lemma NumpyReachSorted(data: seq<real>, w: seq<real>)
    requires AnyAbove(w, 0.0) && |SortedPairs(data, w)| > 0
    requires !AnyAbove(w, 0.5 * Sum(Seconds(SortedPairs(data, w))))
    ensures var ps := SortedPairs(data, w);
            NumpyWeightedMedian(data, Some(w)) == NumpyCumulative(Firsts(ps), Seconds(ps), 0.5 * Sum(Seconds(ps)))
  {
  }

  /** When the running weight crosses `m` after `K >= 2` sorted weights,
      `np.where(cumsum <= m)[0][-1]` is `K - 2`, the tie test holds, and
      the two neighbours of the crossing are averaged. */
  lemma NumpyCumulativeAverages(sd: seq<real>, sw: seq<real>, m: real, K: nat)
    requires |sd| == |sw| && forall i :: 0 <= i < |sw| ==> sw[i] >= 0.0
    requires 2 <= K <= |sw| && Sum(sw[..K - 1]) <= m < Sum(sw[..K])
    ensures NumpyCumulative(sd, sw, m) == Success(Some((sd[K - 2] + sd[K - 1]) / 2.0))
  {
    LastAtMostBeforeCrossing(sw, m, K);
    assert Sum(sw[..K - 1]) - m < Epsilon;
    PairMean(sd, K);
  }

  /** The mean of two neighbours, as a slice. */
  lemma PairMean(sd: seq<real>, K: nat)
    requires 2 <= K <= |sd|
    ensures Mean(sd[K - 2..K]) == (sd[K - 2] + sd[K - 1]) / 2.0
  {
    assert sd[K - 2..K] == [sd[K - 2], sd[K - 1]];
    MeanOfPair(sd[K - 2], sd[K - 1]);
  }

  /** The last prefix of weight at most `m` is the one just before the
      crossing. */
  lemma LastAtMostBeforeCrossing(sw: seq<real>, m: real, K: nat)
    requires forall i :: 0 <= i < |sw| ==> sw[i] >= 0.0
    requires 2 <= K <= |sw| && Sum(sw[..K - 1]) <= m < Sum(sw[..K])
    ensures LastAtMost(sw, m, |sw|) == Some(K - 2)
  {
    var r := LastAtMost(sw, m, |sw|);
    assert r.Some?;
    var j := r.value;
    if j + 1 >= K {
      PrefixSumMonotone(sw, K, j + 1);
    }
  }

  /** Sorting the example pairs leaves them in place. */
  lemma ExampleSorted()
    ensures SortedPairs([1.0, 2.0, 3.0], [1.0, 1.0, 1.0]) == [(1.0, 1.0), (2.0, 1.0), (3.0, 1.0)]
  {
    var ps := [(1.0, 1.0), (2.0, 1.0), (3.0, 1.0)];
    assert Zip([1.0, 2.0, 3.0], [1.0, 1.0, 1.0]) == ps;
    assert Sort(ps[2..], LexLe) == [(3.0, 1.0)];
    assert Sort(ps[1..], LexLe) == [(2.0, 1.0), (3.0, 1.0)];
  }

  lemma ExampleWeights()
    ensures Seconds([(1.0, 1.0), (2.0, 1.0), (3.0, 1.0)]) == [1.0, 1.0, 1.0]
  {
  }

  /** The example weights are balanced and the loop stops after two. */
  lemma ExampleCrossing()
    ensures Balanced([1.0, 2.0, 3.0], [1.0, 1.0, 1.0])
    ensures 0.5 * Sum([1.0, 1.0, 1.0]) == 1.5
    ensures FirstCrossing([1.0, 1.0, 1.0], 1.5, 0, 0.0) == Some(2)
  {
    var w := [1.0, 1.0, 1.0];
    assert Sum(w) == 3.0;
    assert AnyAbove(w, 0.0) by { assert w[0] > 0.0; }
  }

  /** The one-sided tie test picks the wrong answer on three equal weights:
      `weighted_median([1, 2, 3], [1, 1, 1])` returns 1.5, although the
      weight below 2 and the weight above 2 are each 1, below half of 3.
      `numpy_weighted_median` returns 1.5 as well. */
  lemma TieTestCounterexample()
    ensures WeightedMedian([1.0, 2.0, 3.0], Some([1.0, 1.0, 1.0])) == Success(Some(1.5))
    ensures NumpyWeightedMedian([1.0, 2.0, 3.0], Some([1.0, 1.0, 1.0])) == Success(Some(1.5))
  {
    var d := [1.0, 2.0, 3.0];
    var w := [1.0, 1.0, 1.0];
    ExampleSorted();
    ExampleWeights();
    ExampleCrossing();
    var K := WeightedMedianAverages(d, w);
    assert K == 2;
    NumpyAgrees(d, w);
  }

  /** With more weights than data the loop can run off the zipped pairs:
      one datum against three unit weights raises `IndexError` at
      `sorted_weights[1]`, since one pair never carries half of 3. */
  lemma ShortDataRunsOff()
    ensures WeightedMedian([1.0], Some([1.0, 1.0, 1.0])) == Failure(IndexError)
  {
    var d := [1.0];
    var w := [1.0, 1.0, 1.0];
    assert Sum(w) == 3.0;
    assert AnyAbove(w, 0.0) by { assert w[0] > 0.0; }
    ReachSorted(d, w, 1.5, false);
    assert Zip(d, w) == [(1.0, 1.0)];
    assert Sort([(1.0, 1.0)], LexLe) == [(1.0, 1.0)];
    var ps := Sort(Zip(d, w), LexLe);
    assert Firsts(ps) == [1.0] && Seconds(ps) == [1.0];
    assert FirstCrossing([1.0], 1.5, 0, 0.0) == None;
    assert CumulativeMedian([1.0], [1.0], 1.5, false) == Failure(IndexError);
    assert SortedMedian(d, w, 1.5, false) == Failure(IndexError);
  }

  /** On the same input the two-sided tie test returns 2, the weighted
      median that `CorrectedIsWeightedMedian` certifies. */
  lemma TieTestCorrected()
    ensures WeightedMedianCorrected([1.0, 2.0, 3.0], Some([1.0, 1.0, 1.0])) == Success(Some(2.0))
  {
    var d := [1.0, 2.0, 3.0];
    var w := [1.0, 1.0, 1.0];
    ExampleSorted();
    ExampleWeights();
    ExampleCrossing();
    BalancedReachesLoop(d, w, true);
    assert w[..1] == [1.0];
    assert Sum(w[..1]) == 1.0;
    CumulativeNoTie(d, w, 1.5, 2);
  }

  /** With unit weights, inserting a pair sorts exactly as inserting its
      datum into the data alone. */
  lemma {:induction false} InsertUnitWeight(x: real, s: seq<(real, real)>)
    requires forall i :: 0 <= i < |s| ==> s[i].1 == 1.0
    ensures Firsts(Insert((x, 1.0), s, LexLe)) == Insert(x, Firsts(s), RealLe)
  {
    var fs := Firsts(s);
    if |s| == 0 {
      assert Firsts([(x, 1.0)]) == [x];
    } else if LexLe((x, 1.0), s[0]) {
      assert RealLe(x, fs[0]);
      assert Firsts([(x, 1.0)] + s) == [x] + fs;
    } else {
      assert !RealLe(x, fs[0]);
      InsertUnitWeight(x, s[1..]);
      assert fs[1..] == Firsts(s[1..]);
      var tail := Insert((x, 1.0), s[1..], LexLe);
      assert Firsts([s[0]] + tail) == [s[0].0] + Firsts(tail);
    }
  }

  /** Inserting a unit-weight pair among unit-weight pairs keeps every
      weight 1. */
  lemma {:induction false} InsertKeepsUnitWeights(x: real, s: seq<(real, real)>)
    requires forall i :: 0 <= i < |s| ==> s[i].1 == 1.0
    ensures forall i :: 0 <= i < |s| + 1 ==> Insert((x, 1.0), s, LexLe)[i].1 == 1.0
  {
    if |s| > 0 && !LexLe((x, 1.0), s[0]) {
      InsertKeepsUnitWeights(x, s[1..]);
    }
  }

  /** With unit weights the sorted data column is the sorted data. */
  lemma {:induction false} SortUnitWeights(d: seq<real>)
    ensures Firsts(Sort(Zip(d, Constant(1.0, |d|)), LexLe)) == Sort(d, RealLe)
    ensures forall i :: 0 <= i < |d| ==> Sort(Zip(d, Constant(1.0, |d|)), LexLe)[i].1 == 1.0
  {
    if |d| > 0 {
      var zs := Zip(d, Constant(1.0, |d|));
      assert zs[1..] == Zip(d[1..], Constant(1.0, |d| - 1));
      assert zs[0] == (d[0], 1.0);
      SortUnitWeights(d[1..]);
      InsertUnitWeight(d[0], Sort(zs[1..], LexLe));
      InsertKeepsUnitWeights(d[0], Sort(zs[1..], LexLe));
    }
  }

  /** A prefix of unit weights weighs its length. */
  lemma UnitPrefix(sw: seq<real>, j: int)
    requires forall i :: 0 <= i < |sw| ==> sw[i] == 1.0
    requires 0 <= j <= |sw|
    ensures Sum(sw[..j]) == j as real
  {
    assert sw[..j] == Constant(1.0, j);
    SumConstant(1.0, j);
  }

  /** `n >= 2` unit weights are balanced, with midpoint `n / 2`. */
  lemma UnitBalanced(data: seq<real>)
    requires |data| >= 2
    ensures Balanced(data, Constant(1.0, |data|))
    ensures 0.5 * Sum(Constant(1.0, |data|)) == 0.5 * |data| as real
  {
    var w := Constant(1.0, |data|);
    SumConstant(1.0, |data|);
    assert AnyAbove(w, 0.0) by { assert w[0] > 0.0; }
  }

  /** With unit weights on `n >= 2` data the loop stops after
      `n / 2 + 1` weights, and the prefix before it weighs `n / 2`. */
  lemma UnitCrossing(data: seq<real>, K: nat)
    requires |data| >= 2
    requires var w := Constant(1.0, |data|);
             FirstCrossing(Seconds(SortedPairs(data, w)), 0.5 * Sum(w), 0, 0.0) == Some(K)
    ensures K == |data| / 2 + 1
    ensures Sum(Seconds(SortedPairs(data, Constant(1.0, |data|)))[..K - 1]) == (|data| / 2) as real
  {
    var n := |data|;
    var w := Constant(1.0, n);
    var sw := Seconds(SortedPairs(data, w));
    UnitBalanced(data);
    UnitSortedWeights(data);
    UnitsCross(sw, 0.5 * Sum(w), K);
  }

  /** Sorting unit-weight pairs leaves a column of `n` unit weights. */
  lemma UnitSortedWeights(data: seq<real>)
    ensures var sw := Seconds(SortedPairs(data, Constant(1.0, |data|)));
            |sw| == |data| && forall i :: 0 <= i < |sw| ==> sw[i] == 1.0
  {
    var ps := SortedPairs(data, Constant(1.0, |data|));
    var sw := Seconds(ps);
    SortUnitWeights(data);
    forall i | 0 <= i < |sw|
      ensures sw[i] == 1.0
    {
      assert sw[i] == ps[i].1;
    }
  }

  /** On `n >= 2` unit weights the first prefix above `n / 2` has
      `n / 2 + 1` weights. */
  lemma UnitsCross(sw: seq<real>, m: real, K: nat)
    requires |sw| >= 2 && forall i :: 0 <= i < |sw| ==> sw[i] == 1.0
    requires m == 0.5 * |sw| as real && FirstCrossing(sw, m, 0, 0.0) == Some(K)
    ensures K == |sw| / 2 + 1
    ensures Sum(sw[..K - 1]) == (|sw| / 2) as real
  {
    assert Sum(sw[..0]) == 0.0 by { assert sw[..0] == []; }
    FirstCrossingSpec(sw, m, 0, 0.0);
    assert K >= 1;
    UnitPrefix(sw, K - 1);
    UnitPrefix(sw, K);
    HalfStep(|sw|, K);
  }

  /** The integer `K` with `K - 1 <= n / 2 < K` (halving over the reals)
      is `n / 2 + 1` (halving over the integers). */
  lemma HalfStep(n: nat, K: int)
    requires (K - 1) as real <= 0.5 * n as real < K as real
    ensures K == n / 2 + 1
  {
  }

  /** With equal unit weights the corrected `weighted_median` is
      `np.median`: the middle datum for an odd count, the mean of the two
      middle data for an even count.  As written it instead averages two
      neighbours for every odd count of at least three. */
  lemma CorrectedUniformIsMedian(data: seq<real>)
    requires |data| >= 1
    ensures WeightedMedianCorrected(data, Some(Constant(1.0, |data|))) == Lift(NumpyMedian(data))
  {
    var n := |data|;
    var w := Constant(1.0, n);
    if n == 1 {
      SumConstant(1.0, n);
      assert w[0] > 0.5 * Sum(w);
      assert MaxOf(w) == 1.0;
      assert Sort(data, RealLe) == [data[0]] by {
        assert data[1..] == [];
      }
    } else {
      UnitMedian(data);
    }
  }

  lemma UnitMedian(data: seq<real>)
    requires |data| >= 2
    ensures WeightedMedianCorrected(data, Some(Constant(1.0, |data|))) == Lift(NumpyMedian(data))
  {
    if |data| % 2 == 0 {
      UnitMedianEvenCase(data);
    } else {
      UnitMedianOddCase(data);
    }
  }

  lemma UnitMedianEvenCase(data: seq<real>)
    requires |data| >= 2 && |data| % 2 == 0
    ensures WeightedMedianCorrected(data, Some(Constant(1.0, |data|))) == Lift(NumpyMedian(data))
  {
    var K := UnitMedianEven(data);
    UnitMiddle(data, K);
    var s := Sort(data, RealLe);
    assert MiddleOf(s) == (s[K - 2] + s[K - 1]) / 2.0;
    assert NumpyMedian(data) == Success(MiddleOf(s));
  }

  lemma UnitMedianOddCase(data: seq<real>)
    requires |data| >= 2 && |data| % 2 == 1
    ensures WeightedMedianCorrected(data, Some(Constant(1.0, |data|))) == Lift(NumpyMedian(data))
  {
    var K := UnitMedianOdd(data);
    UnitMiddle(data, K);
    var s := Sort(data, RealLe);
    assert MiddleOf(s) == s[K - 1];
    assert NumpyMedian(data) == Success(MiddleOf(s));
  }

  /** Half of a count, as a real, is its integer half or half more. */
  lemma HalfCount(n: int)
    requires n >= 0
    ensures n % 2 == 0 ==> (n / 2) as real == 0.5 * n as real
    ensures n % 2 == 1 ==> (n / 2) as real == 0.5 * n as real - 0.5
  {
  }

  /** On an even count of unit weights a prefix weighs exactly half, so the
      corrected version averages the data at sorted positions `n / 2 - 1`
      and `n / 2`. */
  lemma UnitMedianEven(data: seq<real>) returns (K: nat)
    requires |data| >= 2 && |data| % 2 == 0
    ensures K == |data| / 2 + 1 && K <= |SortedPairs(data, Constant(1.0, |data|))|
    ensures var ps := SortedPairs(data, Constant(1.0, |data|));
            WeightedMedianCorrected(data, Some(Constant(1.0, |data|))) ==
              Success(Some((ps[K - 2].0 + ps[K - 1].0) / 2.0))
  {
    K := UnitEvenCrossing(data);
    CorrectedTie(data, Constant(1.0, |data|), K);
  }

  lemma UnitEvenCrossing(data: seq<real>) returns (K: nat)
    requires |data| >= 2 && |data| % 2 == 0
    ensures var w := Constant(1.0, |data|);
            var ps := SortedPairs(data, w);
            var sw := Seconds(ps);
            && Balanced(data, w)
            && 2 <= K <= |ps|
            && FirstCrossing(sw, 0.5 * Sum(w), 0, 0.0) == Some(K)
            && Abs(Sum(sw[..K - 1]) - 0.5 * Sum(w)) < Epsilon
            && K == |data| / 2 + 1
  {
    var n := |data|;
    var w := Constant(1.0, n);
    var sw := Seconds(SortedPairs(data, w));
    UnitBalanced(data);
    K := CrossingOfBalanced(data, w);
    UnitCrossing(data, K);
    HalfCount(n);
    assert Abs(Sum(sw[..K - 1]) - 0.5 * Sum(w)) < Epsilon;
  }

  /** On an odd count no prefix weighs half, so the corrected version
      returns the datum at sorted position `n / 2`. */
  lemma UnitMedianOdd(data: seq<real>) returns (K: nat)
    requires |data| >= 2 && |data| % 2 == 1
    ensures K == |data| / 2 + 1 && K <= |SortedPairs(data, Constant(1.0, |data|))|
    ensures var ps := SortedPairs(data, Constant(1.0, |data|));
            WeightedMedianCorrected(data, Some(Constant(1.0, |data|))) == Success(Some(ps[K - 1].0))
  {
    K := UnitOddCrossing(data);
    CorrectedNoTie(data, Constant(1.0, |data|), K);
  }

  lemma UnitOddCrossing(data: seq<real>) returns (K: nat)
    requires |data| >= 2 && |data| % 2 == 1
    ensures var w := Constant(1.0, |data|);
            var ps := SortedPairs(data, w);
            var sw := Seconds(ps);
            && Balanced(data, w)
            && 2 <= K <= |ps|
            && FirstCrossing(sw, 0.5 * Sum(w), 0, 0.0) == Some(K)
            && Sum(sw[..K - 1]) <= 0.5 * Sum(w) < Sum(sw[..K])
            && Abs(Sum(sw[..K - 1]) - 0.5 * Sum(w)) >= Epsilon
            && K == |data| / 2 + 1
  {
    var n := |data|;
    var w := Constant(1.0, n);
    var sw := Seconds(SortedPairs(data, w));
    UnitBalanced(data);
    K := CrossingOfBalanced(data, w);
    UnitCrossing(data, K);
    HalfCount(n);
    assert Abs(Sum(sw[..K - 1]) - 0.5 * Sum(w)) >= Epsilon;
  }

  /** The sorted data column with unit weights is the sorted data, so the
      data around the crossing `n / 2 + 1` are the middle ones. */
  lemma UnitMiddle(data: seq<real>, K: nat)
    requires |data| >= 2 && K == |data| / 2 + 1
    ensures var ps := SortedPairs(data, Constant(1.0, |data|));
            var s := Sort(data, RealLe);
            && |ps| == |s| == |data|
            && s[K - 2] == ps[K - 2].0
            && s[K - 1] == ps[K - 1].0
  {
    SortUnitWeights(data);
    var ps := SortedPairs(data, Constant(1.0, |data|));
    assert Firsts(ps)[K - 2] == ps[K - 2].0;
    assert Firsts(ps)[K - 1] == ps[K - 1].0;
  }
}
