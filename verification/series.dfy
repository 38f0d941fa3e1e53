/** Sums, dot products and means over finite sequences of reals: the
    arithmetic that `weighted_mean` and the two weighted medians of
    `kungpao/utils.py` are built from.  Python's `sum` adds from the front;
    over exact reals the order does not matter, and `SumConcat` is the
    lemma that says so for a split at any point.
 */
module Series {

  /** Python's `sum` over a list of numbers (0 for the empty list). */
  function Sum(s: seq<real>): real {
    if |s| == 0 then 0.0 else s[0] + Sum(s[1..])
  }

  /** A sum of non-negative terms is non-negative. */
  lemma {:induction false} SumNonNegative(s: seq<real>)
    requires forall i :: 0 <= i < |s| ==> s[i] >= 0.0
    ensures Sum(s) >= 0.0
  {
    if |s| > 0 {
      SumNonNegative(s[1..]);
    }
  }

  /** A sum of non-negative terms is zero exactly when every term is. */
  lemma {:induction false} SumZeroIffAllZero(s: seq<real>)
    requires forall i :: 0 <= i < |s| ==> s[i] >= 0.0
    ensures Sum(s) == 0.0 <==> forall i :: 0 <= i < |s| ==> s[i] == 0.0
  {
    if |s| > 0 {
      SumZeroIffAllZero(s[1..]);
      SumNonNegative(s[1..]);
    }
  }

  /** Summing a concatenation sums the two parts. */
  lemma {:induction false} SumConcat(a: seq<real>, b: seq<real>)
    ensures Sum(a + b) == Sum(a) + Sum(b)
  {
    if |a| == 0 {
      assert a + b == b;
    } else {
      assert (a + b)[1..] == a[1..] + b;
      SumConcat(a[1..], b);
    }
  }

  /** The running (cumulative) sum grows by one element per step. */
  lemma SumPrefixStep(s: seq<real>, k: int)
    requires 0 <= k < |s|
    ensures Sum(s[..k + 1]) == Sum(s[..k]) + s[k]
  {
    assert s[..k + 1] == s[..k] + [s[k]];
    SumConcat(s[..k], [s[k]]);
  }

  /** A prefix sum plus the matching suffix sum is the whole sum. */
  lemma SumSplit(s: seq<real>, k: int)
    requires 0 <= k <= |s|
    ensures Sum(s[..k]) + Sum(s[k..]) == Sum(s)
  {
    var front, back := s[..k], s[k..];
    SumConcat(front, back);
    assert front + back == s;
  }

  /** With non-negative terms the running sum never decreases. */
  lemma {:induction false} PrefixSumMonotone(s: seq<real>, i: int, j: int)
    requires forall k :: 0 <= k < |s| ==> s[k] >= 0.0
    requires 0 <= i <= j <= |s|
    ensures Sum(s[..i]) <= Sum(s[..j])
  {
    if i < j {
      PrefixSumMonotone(s, i, j - 1);
      SumPrefixStep(s, j - 1);
    }
  }

  /** `sum(w * d for w, d in zip(a, b))` for equal-length lists. */
  function Dot(a: seq<real>, b: seq<real>): real
    requires |a| == |b|
  {
    if |a| == 0 then 0.0 else a[0] * b[0] + Dot(a[1..], b[1..])
  }

  /** Every element divided by `t`, as `[w / t for w in ws]` computes. */
  function Scale(s: seq<real>, t: real): (r: seq<real>)
    requires t != 0.0
    ensures |r| == |s|
  {
    seq(|s|, i requires 0 <= i < |s| => s[i] / t)
  }

  /** The list of `n` copies of `c`. */
  function Constant(c: real, n: nat): (r: seq<real>)
    ensures |r| == n
    ensures forall i :: 0 <= i < n ==> r[i] == c
  {
    seq(n, _ => c)
  }

  /** Dividing the weights by `t` divides the dot product by `t`. */
  lemma {:induction false} DotScale(a: seq<real>, b: seq<real>, t: real)
    requires |a| == |b| && t != 0.0
    ensures Dot(Scale(a, t), b) == Dot(a, b) / t
  {
    if |a| > 0 {
      assert Scale(a, t)[1..] == Scale(a[1..], t);
      DotScale(a[1..], b[1..], t);
      DivAdd(a[0], b[0], Dot(a[1..], b[1..]), t);
    }
  }

  lemma DivAdd(a: real, b: real, c: real, t: real)
    requires t != 0.0
    ensures (a / t) * b + c / t == (a * b + c) / t
  {
  }

  /** Uniform weights `c` turn the dot product into `c` times the plain sum. */
  lemma {:induction false} DotConstant(c: real, b: seq<real>)
    ensures Dot(Constant(c, |b|), b) == c * Sum(b)
  {
    if |b| > 0 {
      assert Constant(c, |b|)[1..] == Constant(c, |b| - 1);
      DotConstant(c, b[1..]);
      AddMul(b[0], Sum(b[1..]), c);
    }
  }

  /** The sum of `n` copies of `c`. */
  lemma {:induction false} SumConstant(c: real, n: nat)
    ensures Sum(Constant(c, n)) == c * n as real
  {
    if n > 0 {
      assert Constant(c, n)[1..] == Constant(c, n - 1);
      SumConstant(c, n - 1);
      AddMul((n - 1) as real, 1.0, c);
    }
  }

  lemma AddMul(a: real, b: real, t: real)
    ensures (a + b) * t == a * t + b * t
  {
  }

  /** `np.mean`: the sum divided by the length, for a non-empty list. */
  function Mean(s: seq<real>): real
    requires |s| > 0
  {
    Sum(s) / |s| as real
  }
}
