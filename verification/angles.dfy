/** `normalize_angle` of `kungpao/utils.py` (lines 64-118), over the reals.

    Default mode (`b = False`) is meant to map a number into `[lower, upper)`
    by modular arithmetic, and raises `ValueError` when `lower >= upper`.
    The modulus it uses is `abs(lower) + abs(upper)`, not the width
    `upper - lower` of the range; the two agree exactly when the range
    straddles zero, and only then does the documented range hold.  For
    `lower = 0` (the default) and for symmetric bounds the result is the
    true representative of `num` modulo the width; `NormalizeCorrected` is
    the definition with the width as modulus, and the lemmas below compare
    the two.

    Reflection mode (`b = True`) folds a number back into `[lower, upper]`
    by mirroring; it has no validation of its own.
 */
module Angles {
  import opened Wrappers
  import opened Numeric

  /** Python's `math.ceil`, from Dafny's floor. */
  function Ceil(x: real): int {
    -((-x).Floor)
  }

  /** `d` is a whole multiple of `m`: the two angles it separates coincide
      modulo `m`. */
  ghost predicate MultipleOf(d: real, m: real) {
    exists k: int :: d == Times(k, m)
  }

  /** `k` copies of `m`. */
  function Times(k: int, m: real): real {
    k as real * m
  }

  lemma MultipleOfIntro(d: real, m: real, k: int)
    requires d == k as real * m
    ensures MultipleOf(d, m)
  {
    assert d == Times(k, m);
  }

  // Real arithmetic helpers.  The solver is weak at distributing products,
  // so the proofs below name each product and feed it these facts.

  lemma Distrib(a: real, b: real, m: real)
    ensures (a - b) * m == a * m - b * m
  {
  }

  lemma AddOne(a: real, m: real)
    ensures (a + 1.0) * m == a * m + m
  {
  }

  lemma PositiveFactor(x: real, m: real, p: real)
    requires m > 0.0 && p > 0.0 && x * m == p
    ensures x > 0.0
  {
  }

  /** Clearing a positive denominator from a strict upper bound. */
  lemma BelowQuotient(x: real, m: real, g: real)
    requires m > 0.0 && x / m < g
    ensures x < g * m
  {
  }

  /** Clearing a positive denominator from a lower bound. */
  lemma AboveQuotient(x: real, m: real, g: real)
    requires m > 0.0 && g <= x / m
    ensures g * m <= x
  {
  }

  /** A floor `f` of `x / m` scales to the multiple of `m` just below `x`. */
  lemma FloorBand(x: real, m: real, f: real)
    requires m > 0.0
    requires f <= x / m < f + 1.0
    ensures f * m <= x < f * m + m
  {
    AboveQuotient(x, m, f);
    BelowQuotient(x, m, f + 1.0);
    AddOne(f, m);
  }

  /** A ceiling `c` of `x / m` scales to the multiple of `m` at or just
      above `x`. */
  lemma CeilBand(x: real, m: real, c: real)
    requires m > 0.0
    requires x / m <= c < x / m + 1.0
    ensures x <= c * m < x + m
  {
    assert (-x) / m == -(x / m);
    FloorBand(-x, m, -c);
    Distrib(0.0, c, m);
  }

  /** Two multipliers whose multiples of `m` lie within one `m` of the same
      point differ by less than one. */
  lemma BandsWithinOne(r: real, m: real, K: real, F: real)
    requires m > 0.0 && 0.0 <= r < m
    requires F * m <= r + K * m < F * m + m
    ensures -1.0 < K - F < 1.0
  {
    var km := K * m;
    var fm := F * m;
    assert km - fm < m;
    assert fm - km < m;
    Distrib(K, F, m);
    Distrib(F, K, m);
    Distrib(1.0, K - F, m);
    Distrib(1.0, F - K, m);
    PositiveFactor(1.0 - (K - F), m, m - (km - fm));
    PositiveFactor(1.0 - (F - K), m, m - (fm - km));
  }

  /** Python's float `%` for a positive modulus: the remainder of the floored
      division, which takes the sign of the modulus. */
  function PyMod(a: real, m: real): (r: real)
    requires m > 0.0
    ensures 0.0 <= r < m
    ensures MultipleOf(a - r, m)
  {
    var f := (a / m).Floor;
    FloorBand(a, m, f as real);
    MultipleOfIntro(f as real * m, m, f);
    a - f as real * m
  }

  /** The remainder is the only value in `[0, m)` that differs from `a` by a
      whole multiple of `m`. */
  lemma PyModUnique(a: real, m: real, r: real, k: int)
    requires m > 0.0 && 0.0 <= r < m
    requires a == r + k as real * m
    ensures PyMod(a, m) == r
  {
    var f := (a / m).Floor;
    FloorBand(a, m, f as real);
    BandsWithinOne(r, m, k as real, f as real);
    assert f == k;
  }

  lemma PyModOfRemainder(a: real, m: real)
    requires m > 0.0 && 0.0 <= a < m
    ensures PyMod(a, m) == a
  {
    PyModUnique(a, m, a, 0);
  }

  /** The remainder of `-a` mirrors the remainder of `a`. */
  lemma PyModNegate(a: real, m: real)
    requires m > 0.0
    ensures PyMod(-a, m) == if PyMod(a, m) == 0.0 then 0.0 else m - PyMod(a, m)
  {
    var r := PyMod(a, m);
    var k: int :| a - r == Times(k, m);
    if r == 0.0 {
      PyModUnique(-a, m, 0.0, -k);
    } else {
      PyModUnique(-a, m, m - r, -k - 1);
    }
  }

  /** Adding a whole multiple of the modulus leaves the remainder unchanged. */
  lemma PyModShift(a: real, m: real, j: int)
    requires m > 0.0
    ensures PyMod(a + j as real * m, m) == PyMod(a, m)
  {
    var r := PyMod(a, m);
    var k: int :| a - r == Times(k, m);
    PyModUnique(a + j as real * m, m, r, k + j);
  }

  /** Default mode, lines 91-102.  Each `if` of the source is one `var`. */
  function NormalizeDefault(num: real, lower: real, upper: real): Result<real> {
    if lower >= upper then
      Failure(ValueError)
    else
      var modulus := Abs(lower) + Abs(upper);
      var n1 := if num > upper || num == lower then lower + PyMod(Abs(num + upper), modulus) else num;
      var n2 := if n1 < lower || n1 == upper then upper - PyMod(Abs(n1 - lower), modulus) else n1;
      Success(if n2 == upper then lower else n2)
  }

  /** Line 106 of reflection mode: a value below `-total` is raised by a
      whole number of `2 * total` periods. */
  function ReflectRaise(num: real, total: real): real
    requires total != 0.0
  {
    if num < -total then num + (Ceil(num / (-2.0 * total)) as real) * 2.0 * total else num
  }

  /** Line 108 of reflection mode: a value above `total` is lowered by a
      whole number of `2 * total` periods. */
  function ReflectLower(num: real, total: real): real
    requires total != 0.0
  {
    if num > total then num - ((num / (2.0 * total)).Floor as real) * 2.0 * total else num
  }

  /** Reflection mode, lines 104-114.  A division by a zero total length
      raises `ZeroDivisionError`, as it does in Python; it is reached only
      when the value lies outside `[-total, total] = {0}`. */
  function NormalizeReflect(num: real, lower: real, upper: real): Result<real> {
    var total := Abs(lower) + Abs(upper);
    if total == 0.0 && num != 0.0 then
      Failure(ZeroDivisionError)
    else
      var n2 := if total == 0.0 then num else ReflectLower(ReflectRaise(num, total), total);
      var n3 := if n2 > upper then total - n2 else n2;
      Success(if n3 < lower then -total - n3 else n3)
  }

  /** `normalize_angle(num, lower, upper, b)`. */
  function NormalizeAngle(num: real, lower: real, upper: real, b: bool): (r: Result<real>)
    ensures !b ==> (r.Failure? <==> lower >= upper)
    ensures r.Failure? ==> r.error == (if b then ZeroDivisionError else ValueError)
    ensures b ==> (r.Failure? <==> lower == 0.0 && upper == 0.0 && num != 0.0)
  {
    if b then NormalizeReflect(num, lower, upper) else NormalizeDefault(num, lower, upper)
  }

  /** A value strictly inside the range is returned unchanged. */
  lemma NormalizeKeepsInterior(num: real, lower: real, upper: real)
    requires lower < num < upper
    ensures NormalizeAngle(num, lower, upper, false) == Success(num)
  {
  }

  /** The upper limit is mapped to the lower limit, whatever the bounds. */
  lemma NormalizeUpperToLower(lower: real, upper: real)
    requires lower < upper
    ensures NormalizeAngle(upper, lower, upper, false) == Success(lower)
  {
    var modulus := Abs(lower) + Abs(upper);
    if upper - lower == modulus {
      PyModUnique(upper - lower, modulus, 0.0, 1);
    } else {
      PyModOfRemainder(upper - lower, modulus);
    }
  }

  /** When the range straddles zero the modulus is its width, and the
      documented range `[lower, upper)` holds for every input. */
  lemma NormalizeRangeStraddlingZero(num: real, lower: real, upper: real)
    requires lower <= 0.0 <= upper && lower < upper
    ensures NormalizeAngle(num, lower, upper, false).Success?
    ensures lower <= NormalizeAngle(num, lower, upper, false).value < upper
  {
  }

  /** The normalisation the docstring describes: the representative of `num`
      modulo the width `upper - lower` that lies in `[lower, upper)`. */
  function NormalizeCorrected(num: real, lower: real, upper: real): (r: Result<real>)
    ensures r.Failure? <==> lower >= upper
    ensures r.Failure? ==> r.error == ValueError
    ensures r.Success? ==> lower <= r.value < upper
    ensures r.Success? ==> MultipleOf(r.value - num, upper - lower)
    ensures r.Success? && lower <= num < upper ==> r.value == num
  {
    if lower >= upper then
      Failure(ValueError)
    else
      var width := upper - lower;
      var rem := PyMod(num - lower, width);
      var k: int :| (num - lower) - rem == Times(k, width);
      MultipleOfIntro(lower + rem - num, width, -k);
      if lower <= num < upper then PyModOfRemainder(num - lower, width); Success(lower + rem)
      else Success(lower + rem)
  }

  /** For `lower = 0` the source computes exactly the corrected value. */
  lemma NormalizeAgreesFromZero(num: real, upper: real)
    requires 0.0 < upper
    ensures NormalizeAngle(num, 0.0, upper, false) == NormalizeCorrected(num, 0.0, upper)
  {
    if num > upper {
      PyModShift(num, upper, 1);
    } else if num == 0.0 {
      PyModUnique(upper, upper, 0.0, 1);
    } else if num < 0.0 {
      PyModNegate(num, upper);
    } else if num == upper {
      NormalizeUpperToLower(0.0, upper);
      PyModUnique(upper, upper, 0.0, 1);
    } else {
      PyModOfRemainder(num, upper);
    }
  }

  /** For symmetric bounds `[-u, u)` the source computes exactly the corrected
      value. */
  lemma NormalizeAgreesSymmetric(num: real, u: real)
    requires 0.0 < u
    ensures NormalizeAngle(num, -u, u, false) == NormalizeCorrected(num, -u, u)
  {
    var w := 2.0 * u;
    if num > u {
    } else if num == -u {
      PyModOfRemainder(0.0, w);
    } else if num < -u {
      PyModNegate(num + u, w);
    } else if num == u {
      NormalizeUpperToLower(-u, u);
      PyModUnique(w, w, 0.0, 1);
    } else {
      PyModOfRemainder(num + u, w);
    }
  }

  /** With `0 < lower` the modulus exceeds the width and the result can leave
      the documented range: `normalize_angle(25, 10, 20)` returns 25, whereas
      the corrected normalisation gives 15. */
  lemma NormalizeEscapesRange()
    ensures NormalizeAngle(25.0, 10.0, 20.0, false) == Success(25.0)
    ensures NormalizeCorrected(25.0, 10.0, 20.0) == Success(15.0)
  {
    PyModOfRemainder(15.0, 30.0);
    PyModUnique(15.0, 10.0, 5.0, 1);
  }

  /** Even a range that straddles zero is wrong when it is not symmetric: the
      lower limit, which is inside `[lower, upper)`, is moved to another angle
      (`normalize_angle(-90, -90, 270)` returns 90). */
  lemma NormalizeMovesLowerLimit()
    ensures NormalizeAngle(-90.0, -90.0, 270.0, false) == Success(90.0)
    ensures NormalizeCorrected(-90.0, -90.0, 270.0) == Success(-90.0)
  {
    PyModOfRemainder(180.0, 360.0);
  }

  /** The first reduction of reflection mode (line 106) lands in `[0, 2t)`
      when it applies and leaves every other value alone. */
  lemma ReflectRaiseBounds(num: real, total: real)
    requires total > 0.0
    ensures num < -total ==> 0.0 <= ReflectRaise(num, total) < 2.0 * total
    ensures -total <= num ==> ReflectRaise(num, total) == num
  {
    if num < -total {
      var p := 2.0 * total;
      var c := Ceil(num / (-2.0 * total)) as real;
      assert -num / p == num / (-2.0 * total);
      CeilBand(-num, p, c);
      assert c * 2.0 * total == c * p;
    }
  }

  /** The second reduction of reflection mode (line 108) lands in `[0, 2t)`
      when it applies and leaves every other value alone. */
  lemma ReflectLowerBounds(n: real, total: real)
    requires total > 0.0
    ensures n > total ==> 0.0 <= ReflectLower(n, total) < 2.0 * total
    ensures n <= total ==> ReflectLower(n, total) == n
  {
    if n > total {
      var p := 2.0 * total;
      var f := (n / (2.0 * total)).Floor as real;
      FloorBand(n, p, f);
      assert f * 2.0 * total == f * p;
    }
  }

  /** Reflection mode keeps symmetric bounds `[-u, u]`: every input is folded
      into the closed range, and inputs already in it are left alone. */
  lemma ReflectSymmetricRange(num: real, u: real)
    requires 0.0 < u
    ensures NormalizeAngle(num, -u, u, true).Success?
    ensures -u <= NormalizeAngle(num, -u, u, true).value <= u
    ensures -u <= num <= u ==> NormalizeAngle(num, -u, u, true).value == num
  {
    var total := Abs(-u) + Abs(u);
    assert total == 2.0 * u;
    ReflectRaiseBounds(num, total);
    var n1 := ReflectRaise(num, total);
    ReflectLowerBounds(n1, total);
  }

  /** With `lower = 0` reflection mode leaves the documented range `[0, 180]`:
      `normalize_angle(200, 0, 180, b=True)` returns -160. */
  lemma ReflectEscapesFromZero()
    ensures NormalizeAngle(200.0, 0.0, 180.0, true) == Success(-160.0)
  {
    assert (200.0 / 360.0).Floor == 0;
  }
}
