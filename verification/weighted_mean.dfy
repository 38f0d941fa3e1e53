/** `weighted_mean` and `numpy_weighted_mean` (`kungpao/utils.py`, lines
    133-151).

    `weighted_mean` divides every weight by the total and then accumulates
    `weight * data[i]` in a `for` loop; the method below keeps that loop.
    `numpy_weighted_mean` divides the weight array by the total and takes
    `np.dot`.  Both agree with the textbook `Σ wᵢ·dᵢ / Σ wᵢ` whenever they
    succeed, and differ only in how they fail.
 */
module WeightedMean {
  import opened Wrappers
  import opened Series

  /** A dot product grows by one product per appended pair. */
  lemma DotSnoc(a: seq<real>, b: seq<real>, x: real, y: real)
    requires |a| == |b|
    ensures Dot(a + [x], b + [y]) == Dot(a, b) + x * y
  {
    assert [x][1..] == [] && [y][1..] == [];
    assert Dot([x], [y]) == x * y;
    DotConcat(a, [x], b, [y]);
  }

  lemma {:induction false} DotConcat(a: seq<real>, a': seq<real>, b: seq<real>, b': seq<real>)
    requires |a| == |b| && |a'| == |b'|
    ensures Dot(a + a', b + b') == Dot(a, b) + Dot(a', b')
  {
    if |a| == 0 {
      assert a + a' == a' && b + b' == b';
    } else {
      assert (a + a')[1..] == a[1..] + a';
      assert (b + b')[1..] == b[1..] + b';
      DotConcat(a[1..], a', b[1..], b');
    }
  }

  /** `weighted_mean(data, weights)`, with its `for` loop.  `None` weights
      give `np.mean(data)`, which is `nan` for an empty list. */
  method WeightedMean(data: seq<real>, weights: Option<seq<real>>) returns (r: Result<real>)
    ensures weights.None? && |data| == 0 ==> r == Failure(NotANumber)
    ensures weights.None? && |data| > 0 ==> r == Success(Mean(data))
    ensures weights.Some? && |weights.value| == 0 ==> r == Success(0.0)
    ensures weights.Some? && |weights.value| > 0 && Sum(weights.value) == 0.0 ==>
              r == Failure(ZeroDivisionError)
    ensures weights.Some? && Sum(weights.value) != 0.0 && |data| < |weights.value| ==>
              r == Failure(IndexError)
    ensures weights.Some? && Sum(weights.value) != 0.0 && |weights.value| <= |data| ==>
              r == Success(WeightedAverage(weights.value, data[..|weights.value|]))
  {
    if weights.None? {
      if |data| == 0 {
        return Failure(NotANumber);
      }
      return Success(Mean(data));
    }
    var w := weights.value;
    if |w| == 0 {
      return Success(0.0);
    }
    var total := Sum(w);
    if total == 0.0 {
      return Failure(ZeroDivisionError);
    }
    var normalized := Scale(w, total);
    r := Accumulate(normalized, data);
    if r.Success? {
      NormalizedDot(w, data[..|w|]);
    }
  }

  /** The `for` loop of `weighted_mean`: `weight * data[i]` summed over the
      normalised weights, which indexes `data` past its end (`IndexError`)
      when there are more weights than data. */
  method Accumulate(nw: seq<real>, data: seq<real>) returns (r: Result<real>)
    ensures |nw| <= |data| ==> r == Success(Dot(nw, data[..|nw|]))
    ensures |nw| > |data| ==> r == Failure(IndexError)
  {
    var acc := 0.0;
    var i := 0;
    while i < |nw|
      invariant 0 <= i <= |nw|
      invariant i <= |data|
      invariant acc == Dot(nw[..i], data[..i])
    {
      if i >= |data| {
        return Failure(IndexError);
      }
      DotSnoc(nw[..i], data[..i], nw[i], data[i]);
      assert nw[..i + 1] == nw[..i] + [nw[i]];
      assert data[..i + 1] == data[..i] + [data[i]];
      acc := acc + nw[i] * data[i];
      i := i + 1;
    }
    assert nw[..i] == nw;
    return Success(acc);
  }

  /** `numpy_weighted_mean(data, weights)`.  `sum(None)` raises
      `TypeError`; `np.dot` of arrays of different length raises
      `ValueError`; dividing non-empty weights by a zero total gives
      infinities or `nan`, and so does the dot product. */
  function NumpyWeightedMean(data: seq<real>, weights: Option<seq<real>>): (r: Result<real>)
    ensures weights.None? ==> r == Failure(TypeError)
    ensures weights.Some? && |data| != |weights.value| ==> r == Failure(ValueError)
    ensures weights.Some? && |data| == |weights.value| > 0 && Sum(weights.value) == 0.0 ==>
              r == Failure(NotANumber)
    ensures weights.Some? && |data| == |weights.value| == 0 ==> r == Success(0.0)
    ensures weights.Some? && |data| == |weights.value| && Sum(weights.value) != 0.0 ==>
              r == Success(WeightedAverage(weights.value, data))
  {
    match weights
    case None => Failure(TypeError)
    case Some(w) =>
      var total := Sum(w);
      if |data| != |w| then Failure(ValueError)
      else if |w| == 0 then Success(0.0)
      else if total == 0.0 then Failure(NotANumber)
      else
        DotSwap(data, Scale(w, total));
        NormalizedDot(w, data);
        Success(Dot(data, Scale(w, total)))
  }

  /** The textbook weighted mean `Σ wᵢ·dᵢ / Σ wᵢ`. */
  function WeightedAverage(w: seq<real>, d: seq<real>): real
    requires |w| == |d| && Sum(w) != 0.0
  {
    Dot(w, d) / Sum(w)
  }

  /** Normalising the weights first, as both implementations do, gives the
      textbook weighted mean. */
  lemma NormalizedDot(w: seq<real>, d: seq<real>)
    requires |w| == |d| && Sum(w) != 0.0
    ensures Dot(Scale(w, Sum(w)), d) == WeightedAverage(w, d)
  {
    DotScale(w, d, Sum(w));
  }

  /** `np.dot` is symmetric. */
  lemma {:induction false} DotSwap(a: seq<real>, b: seq<real>)
    requires |a| == |b|
    ensures Dot(a, b) == Dot(b, a)
  {
    if |a| > 0 {
      DotSwap(a[1..], b[1..]);
    }
  }

  /** Equal non-zero weights give the plain arithmetic mean. */
  lemma UniformWeightsGiveMean(c: real, data: seq<real>)
    requires c != 0.0 && |data| > 0
    ensures NumpyWeightedMean(data, Some(Constant(c, |data|))) == Success(Mean(data))
  {
    UniformAverage(c, data);
  }

  lemma UniformAverage(c: real, data: seq<real>)
    requires c != 0.0 && |data| > 0
    ensures Sum(Constant(c, |data|)) != 0.0
    ensures WeightedAverage(Constant(c, |data|), data) == Mean(data)
  {
    var n := |data|;
    var w := Constant(c, n);
    SumConstant(c, n);
    DotConstant(c, data);
    CancelCommon(c, Sum(data), n as real, Dot(w, data), Sum(w));
  }

  lemma CancelCommon(c: real, s: real, n: real, x: real, y: real)
    requires c != 0.0 && n != 0.0 && x == c * s && y == c * n
    ensures y != 0.0 && x / y == s / n
  {
  }
}
