/** `weighted_median` and `numpy_weighted_median` (`kungpao/utils.py`,
    lines 154-193), and `np.median`, which both fall back to without
    weights.

    `weighted_median` has three outcomes once weights are given: a weight
    above half the total ("dominant") picks its datum; no positive weight
    returns `None`; otherwise the `(datum, weight)` pairs are sorted, a
    `while` loop accumulates weights until the running total passes the
    midpoint, and a tie test chooses between averaging two neighbours and
    taking one.  The tie test of the source is one-sided (`cw - m < eps`),
    so it holds whenever the loop ran at all; `WeightedMedianWith` takes a
    flag that selects either that test or the two-sided one it evidently
    means (`|cw - m| < eps`).
 */
module Median {
  import opened Wrappers
  import opened Series
  import opened Sorting
  import opened Numeric

  /** `sys.float_info.epsilon`, 2^-52. */
  const Epsilon: real := 1.0 / 4503599627370496.0

  /** `any([j > t for j in w])`. */
  predicate AnyAbove(w: seq<real>, t: real) {
    exists i :: 0 <= i < |w| && w[i] > t
  }

  /** `max(w)`. */
  function MaxOf(w: seq<real>): (r: real)
    requires |w| > 0
    ensures r in w
    ensures forall i :: 0 <= i < |w| ==> w[i] <= r
  {
    if |w| == 1 then w[0]
    else
      var rest := MaxOf(w[1..]);
      if w[0] >= rest then w[0] else rest
  }

  /** `w.index(v)`: the first position holding `v`. */
  function FirstIndexOf(w: seq<real>, v: real): (r: nat)
    requires v in w
    ensures r < |w| && w[r] == v
    ensures forall j :: 0 <= j < r ==> w[j] != v
  {
    if w[0] == v then 0 else 1 + FirstIndexOf(w[1..], v)
  }

  /** Python's `s[i]`, where a negative `i` counts from the end. */
  function PyIndex(s: seq<real>, i: int): (r: Result<real>)
    ensures r.Failure? <==> !(-|s| <= i < |s|)
    ensures r.Failure? ==> r.error == IndexError
    ensures 0 <= i < |s| ==> r == Success(s[i])
    ensures -|s| <= i < 0 ==> r == Success(s[|s| + i])
  {
    if 0 <= i < |s| then Success(s[i])
    else if -|s| <= i < 0 then Success(s[|s| + i])
    else Failure(IndexError)
  }

  /** Where a Python slice bound `i` lands in a list of length `n`. */
  function SliceBound(i: int, n: nat): (r: nat)
    ensures r <= n
    ensures 0 <= i <= n ==> r == i
  {
    if i < 0 then (if i + n < 0 then 0 else i + n) else if i > n then n else i
  }

  /** Python's `s[lo:hi]`. */
  function PySlice(s: seq<real>, lo: int, hi: int): (r: seq<real>)
    ensures 0 <= lo <= hi <= |s| ==> r == s[lo..hi]
  {
    var a := SliceBound(lo, |s|);
    var b := SliceBound(hi, |s|);
    if a < b then s[a..b] else []
  }

  /** `sum(bounds) / float(len(bounds))`, which divides by zero for an
      empty list. */
  function MeanOfList(s: seq<real>): (r: Result<real>)
    ensures r.Failure? <==> |s| == 0
    ensures r.Failure? ==> r.error == ZeroDivisionError
  {
    if |s| == 0 then Failure(ZeroDivisionError) else Success(Mean(s))
  }

  /** `np.median`: the middle of the sorted values, or the mean of the two
      middle ones; `nan` for an empty array. */
  function NumpyMedian(data: seq<real>): (r: Result<real>)
    ensures r.Failure? <==> |data| == 0
    ensures r.Failure? ==> r.error == NotANumber
  {
    if |data| == 0 then Failure(NotANumber) else Success(MiddleOf(Sort(data, RealLe)))
  }

  /** The middle of a sorted non-empty list: its middle entry for an odd
      length, the mean of its two middle entries for an even one. */
  function MiddleOf(s: seq<real>): real
    requires |s| > 0
  {
    var n := |s|;
    if n % 2 == 1 then s[n / 2] else (s[n / 2 - 1] + s[n / 2]) / 2.0
  }

  /** The `while` loop of `weighted_median` as a recursion: from step `k`
      with running weight `cw`, the number of weights taken when the
      running weight first exceeds `m`, or `None` when it runs out of
      weights (where Python raises `IndexError`). */
  function FirstCrossing(sw: seq<real>, m: real, k: nat, cw: real): Option<nat>
    requires k <= |sw|
    decreases |sw| - k
  {
    if cw > m then Some(k)
    else if k == |sw| then None
    else FirstCrossing(sw, m, k + 1, cw + sw[k])
  }

  /** What the loop finds: the first prefix whose sum exceeds `m`. */
  lemma {:induction false} FirstCrossingSpec(sw: seq<real>, m: real, k: nat, cw: real)
    requires k <= |sw| && cw == Sum(sw[..k])
    ensures FirstCrossing(sw, m, k, cw).Some? ==>
              var K := FirstCrossing(sw, m, k, cw).value;
              k <= K <= |sw| && Sum(sw[..K]) > m &&
              forall j :: k <= j < K ==> Sum(sw[..j]) <= m
    ensures FirstCrossing(sw, m, k, cw).None? <==>
              forall j :: k <= j <= |sw| ==> Sum(sw[..j]) <= m
    decreases |sw| - k
  {
    if cw > m {
    } else if k == |sw| {
    } else {
      SumPrefixStep(sw, k);
      FirstCrossingSpec(sw, m, k + 1, cw + sw[k]);
    }
  }

  /** The loop of lines 165-168 as written: `cw` accumulates sorted weights
      until it exceeds the midpoint `m`. */
  method CumulativeScan(sw: seq<real>, m: real) returns (res: Option<nat>)
    ensures res == FirstCrossing(sw, m, 0, 0.0)
    ensures res.Some? ==> res.value <= |sw| && Sum(sw[..res.value]) > m
    ensures res.Some? ==> forall j :: 0 <= j < res.value ==> Sum(sw[..j]) <= m
    ensures res.None? ==> forall j :: 0 <= j <= |sw| ==> Sum(sw[..j]) <= m
  {
    var cw := 0.0;
    var k := 0;
    while cw <= m
      invariant 0 <= k <= |sw|
      invariant cw == Sum(sw[..k])
      invariant forall j :: 0 <= j < k ==> Sum(sw[..j]) <= m
      invariant FirstCrossing(sw, m, k, cw) == FirstCrossing(sw, m, 0, 0.0)
      decreases |sw| - k
    {
      if k == |sw| {
        assert sw[..k] == sw;
        return None;
      }
      SumPrefixStep(sw, k);
      k := k + 1;
      cw := cw + sw[k - 1];
    }
    return Some(k);
  }

  /** Lines 164-173 once the pairs are sorted into `sd` and `sw`. */
  function CumulativeMedian(sd: seq<real>, sw: seq<real>, m: real, corrected: bool): Result<real>
    requires |sd| == |sw|
  {
    match FirstCrossing(sw, m, 0, 0.0)
    case None => Failure(IndexError)
    case Some(k) =>
      match PyIndex(sw, k - 1)
      case Failure(e) => Failure(e)
      case Success(last) =>
        var below := Sum(sw[..k]) - last;
        var tie := if corrected then Abs(below - m) < Epsilon else below - m < Epsilon;
        if tie then MeanOfList(PySlice(sd, k - 2, k)) else PyIndex(sd, k - 1)
  }

  function Lift(r: Result<real>): Result<Option<real>> {
    match r
    case Success(v) => Success(Some(v))
    case Failure(e) => Failure(e)
  }

  /** `weighted_median(data, weights)`; `corrected` selects the two-sided
      tie test in place of the source's one-sided one. */
  function WeightedMedianWith(data: seq<real>, weights: Option<seq<real>>, corrected: bool): Result<Option<real>> {
    match weights
    case None => Lift(NumpyMedian(data))
    case Some(w) =>
      var m := 0.5 * Sum(w);
      if AnyAbove(w, m) then DominantPick(data, w)
      else if !AnyAbove(w, 0.0) then Success(None)
      else SortedMedian(data, w, m, corrected)
  }

  /** Line 161: `data[weights.index(max(weights))]`, an `IndexError` when
      `data` is too short. */
  function DominantPick(data: seq<real>, w: seq<real>): Result<Option<real>>
    requires |w| > 0
  {
    var i := FirstIndexOf(w, MaxOf(w));
    if i < |data| then Success(Some(data[i])) else Failure(IndexError)
  }

  /** Lines 163-173: sort the pairs and run the loop over them.  With no
      pairs, unpacking `zip(*[])` into two names raises `ValueError`. */
  function SortedMedian(data: seq<real>, w: seq<real>, m: real, corrected: bool): Result<Option<real>> {
    var ps := Sort(Zip(data, w), LexLe);
    if |ps| == 0 then Failure(ValueError)
    else Lift(CumulativeMedian(Firsts(ps), Seconds(ps), m, corrected))
  }

  /** `weighted_median` as written. */
  function WeightedMedian(data: seq<real>, weights: Option<seq<real>>): Result<Option<real>> {
    WeightedMedianWith(data, weights, false)
  }

  /** `weighted_median` with the tie test it evidently intends. */
  function WeightedMedianCorrected(data: seq<real>, weights: Option<seq<real>>): Result<Option<real>> {
    WeightedMedianWith(data, weights, true)
  }

  /** `np.where(cumsum(sw) <= m)[0][-1]` restricted to the first `k`
      positions: the last `j < k` whose running weight is at most `m`. */
  function LastAtMost(sw: seq<real>, m: real, k: nat): (r: Option<nat>)
    requires k <= |sw|
    ensures r.Some? ==> r.value < k && Sum(sw[..r.value + 1]) <= m
    ensures r.Some? ==> forall p :: r.value + 1 < p <= k ==> Sum(sw[..p]) > m
    ensures r.None? <==> forall p :: 0 < p <= k ==> Sum(sw[..p]) > m
  {
    if k == 0 then None
    else if Sum(sw[..k]) <= m then Some(k - 1)
    else LastAtMost(sw, m, k - 1)
  }

  /** `numpy_weighted_median(data, weights)`.  The midpoint here is half
      the weight of the zipped pairs only, and a boolean mask of the wrong
      length raises `IndexError`. */
  function NumpyWeightedMedian(data: seq<real>, weights: Option<seq<real>>): Result<Option<real>> {
    match weights
    case None => Lift(NumpyMedian(data))
    case Some(w) =>
      if !AnyAbove(w, 0.0) then Success(None)
      else
        var ps := Sort(Zip(data, w), LexLe);
        if |ps| == 0 then Failure(ValueError)
        else
          var sd := Firsts(ps);
          var sw := Seconds(ps);
          var m := 0.5 * Sum(sw);
          if AnyAbove(w, m) then NumpyDominantPick(data, w)
          else NumpyCumulative(sd, sw, m)
  }

  /** Line 186: `data[weights == np.max(weights)][0]`, the first datum
      carrying the largest weight; the boolean mask must have the length
      of `data` (`IndexError` otherwise). */
  function NumpyDominantPick(data: seq<real>, w: seq<real>): Result<Option<real>>
    requires |w| > 0
  {
    if |data| != |w| then Failure(IndexError)
    else Success(Some(data[FirstIndexOf(w, MaxOf(w))]))
  }

  /** Lines 187-193: the last sorted position whose running weight is at
      most `m`, then the tie test and the pick. */
  function NumpyCumulative(sd: seq<real>, sw: seq<real>, m: real): Result<Option<real>>
    requires |sd| == |sw|
  {
    match LastAtMost(sw, m, |sw|)
    case None => Failure(IndexError)
    case Some(j) =>
      if Sum(sw[..j + 1]) - m < Epsilon then
        Success(Some(Mean(sd[j..if j + 2 <= |sd| then j + 2 else |sd|])))
      else Lift(PyIndex(sd, j + 1))
  }
}
