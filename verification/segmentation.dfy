/** The segmentation-map helpers of `kungpao/utils.py` (lines 293-344):
    `seg_index_cen_obj`, `seg_remove_cen_obj`, `seg_index_obj` and
    `seg_remove_obj`.

    A segmentation map is a rectangular grid of integer labels, 0 being
    the background.  The "index" helpers return a boolean mask of the
    pixels sharing the label at a position, or `None` when that label is
    the background; the "remove" helpers return a copy with that label set
    to 0 (the input is never changed, as every value here is immutable).
    Positions follow NumPy: `int()` truncates toward zero, and a negative
    index counts from the end of its axis.
 */
module Segmentation {
  import opened Wrappers
  import opened Numeric

  type Grid = seq<seq<int>>
  type Mask = seq<seq<bool>>

  function Rows<T>(g: seq<seq<T>>): nat {
    |g|
  }

  function Cols<T>(g: seq<seq<T>>): nat {
    if |g| == 0 then 0 else |g[0]|
  }

  /** Every row has the same length, as in a 2-D NumPy array. */
  ghost predicate IsRect<T>(g: seq<seq<T>>) {
    forall i :: 0 <= i < |g| ==> |g[i]| == Cols(g)
  }

  /** Two grids of the same shape. */
  ghost predicate SameShape<T, U>(a: seq<seq<T>>, b: seq<seq<U>>) {
    IsRect(a) && IsRect(b) && Rows(a) == Rows(b) && Cols(a) == Cols(b)
  }

  /** NumPy's reading of index `i` on an axis of length `n`: a position,
      or `None` where NumPy raises `IndexError`. */
  function AxisIndex(i: int, n: nat): (r: Option<nat>)
    ensures r.Some? <==> -(n as int) <= i < n
    ensures r.Some? ==> r.value < n && (r.value == i || r.value == i + n)
  {
    if 0 <= i < n then Some(i) else if -(n as int) <= i < 0 then Some(i + n) else None
  }

  /** `seg[r, c]` with NumPy indexing. */
  function LabelAt(seg: Grid, r: int, c: int): (res: Result<int>)
    requires IsRect(seg)
    ensures res.Failure? <==> AxisIndex(r, Rows(seg)).None? || AxisIndex(c, Cols(seg)).None?
    ensures res.Failure? ==> res.error == IndexError
    ensures res.Success? ==> res.value == seg[AxisIndex(r, Rows(seg)).value][AxisIndex(c, Cols(seg)).value]
  {
    match (AxisIndex(r, Rows(seg)), AxisIndex(c, Cols(seg)))
    case (Some(i), Some(j)) => Success(seg[i][j])
    case _ => Failure(IndexError)
  }

  /** The label at the centre pixel `(rows / 2, cols / 2)`. */
  function CentreLabel(seg: Grid): (res: Result<int>)
    requires IsRect(seg)
    ensures res.Failure? <==> Rows(seg) == 0 || Cols(seg) == 0
    ensures res.Success? ==> res.value == seg[Rows(seg) / 2][Cols(seg) / 2]
  {
    LabelAt(seg, Rows(seg) / 2, Cols(seg) / 2)
  }

  /** `seg == tag`. */
  function EqualMask(seg: Grid, tag: int): (m: Mask)
    requires IsRect(seg)
    ensures SameShape(m, seg)
    ensures forall i, j :: 0 <= i < Rows(seg) && 0 <= j < Cols(seg) ==> (m[i][j] <==> seg[i][j] == tag)
  {
    seq(Rows(seg), i requires 0 <= i < Rows(seg) =>
      seq(Cols(seg), j requires 0 <= j < Cols(seg) => seg[i][j] == tag))
  }

  /** A copy of `seg` with `seg_copy[seg == tag] = 0`. */
  function ZeroLabel(seg: Grid, tag: int): (g: Grid)
    requires IsRect(seg)
    ensures SameShape(g, seg)
    ensures forall i, j :: 0 <= i < Rows(seg) && 0 <= j < Cols(seg) ==>
              g[i][j] == (if seg[i][j] == tag then 0 else seg[i][j])
  {
    seq(Rows(seg), i requires 0 <= i < Rows(seg) =>
      seq(Cols(seg), j requires 0 <= j < Cols(seg) => if seg[i][j] == tag then 0 else seg[i][j]))
  }

  /** The mask of a tag, or `None` for the background. */
  function IndexOf(seg: Grid, tag: Result<int>): Result<Option<Mask>>
    requires IsRect(seg)
  {
    match tag
    case Failure(e) => Failure(e)
    case Success(l) => if l == 0 then Success(None) else Success(Some(EqualMask(seg, l)))
  }

  /** The grid without a tag. */
  function RemoveOf(seg: Grid, tag: Result<int>): Result<Grid>
    requires IsRect(seg)
  {
    match tag
    case Failure(e) => Failure(e)
    case Success(l) => Success(ZeroLabel(seg, l))
  }

  /** `seg_index_cen_obj(seg)`. */
  function SegIndexCenObj(seg: Grid): (res: Result<Option<Mask>>)
    requires IsRect(seg)
    ensures res.Failure? <==> Rows(seg) == 0 || Cols(seg) == 0
    ensures res.Success? ==> (res.value.None? <==> seg[Rows(seg) / 2][Cols(seg) / 2] == 0)
    ensures res.Success? && res.value.Some? ==>
              && SameShape(res.value.value, seg)
              && forall i, j :: 0 <= i < Rows(seg) && 0 <= j < Cols(seg) ==>
                   (res.value.value[i][j] <==> seg[i][j] == seg[Rows(seg) / 2][Cols(seg) / 2])
  {
    IndexOf(seg, CentreLabel(seg))
  }

  /** `seg_remove_cen_obj(seg)`.  A background centre zeroes the
      background, which changes nothing. */
  function SegRemoveCenObj(seg: Grid): (res: Result<Grid>)
    requires IsRect(seg)
    ensures res.Failure? <==> Rows(seg) == 0 || Cols(seg) == 0
    ensures res.Success? ==>
              && SameShape(res.value, seg)
              && forall i, j :: 0 <= i < Rows(seg) && 0 <= j < Cols(seg) ==>
                   res.value[i][j] ==
                     (if seg[i][j] == seg[Rows(seg) / 2][Cols(seg) / 2] then 0 else seg[i][j])
  {
    RemoveOf(seg, CentreLabel(seg))
  }

  /** `seg_index_obj(seg, x, y)`: `x` indexes rows and `y` columns. */
  function SegIndexObj(seg: Grid, x: real, y: real): (res: Result<Option<Mask>>)
    requires IsRect(seg)
    ensures res.Failure? <==>
              AxisIndex(Truncate(x), Rows(seg)).None? || AxisIndex(Truncate(y), Cols(seg)).None?
    ensures res.Failure? ==> res.error == IndexError
    ensures res.Success? ==>
              var tag := seg[AxisIndex(Truncate(x), Rows(seg)).value][AxisIndex(Truncate(y), Cols(seg)).value];
              && (res.value.None? <==> tag == 0)
              && (res.value.Some? ==>
                    && SameShape(res.value.value, seg)
                    && forall i, j :: 0 <= i < Rows(seg) && 0 <= j < Cols(seg) ==>
                         (res.value.value[i][j] <==> seg[i][j] == tag))
  {
    IndexOf(seg, LabelAt(seg, Truncate(x), Truncate(y)))
  }

  /** `seg_remove_obj(seg, x, y)`. */
  function SegRemoveObj(seg: Grid, x: real, y: real): (res: Result<Grid>)
    requires IsRect(seg)
    ensures res.Failure? <==>
              AxisIndex(Truncate(x), Rows(seg)).None? || AxisIndex(Truncate(y), Cols(seg)).None?
    ensures res.Failure? ==> res.error == IndexError
    ensures res.Success? ==>
              var tag := seg[AxisIndex(Truncate(x), Rows(seg)).value][AxisIndex(Truncate(y), Cols(seg)).value];
              && SameShape(res.value, seg)
              && forall i, j :: 0 <= i < Rows(seg) && 0 <= j < Cols(seg) ==>
                   res.value[i][j] == (if seg[i][j] == tag then 0 else seg[i][j])
  {
    RemoveOf(seg, LabelAt(seg, Truncate(x), Truncate(y)))
  }

  /** Removing is zeroing exactly the pixels the index mask selects, at any
      position; for a background tag the mask is `None` and removal
      changes nothing. */
  lemma RemoveIsComplementOfIndex(seg: Grid, x: real, y: real)
    requires IsRect(seg)
    ensures SegIndexObj(seg, x, y).Success? <==> SegRemoveObj(seg, x, y).Success?
    ensures SegIndexObj(seg, x, y).Success? && SegIndexObj(seg, x, y).value.Some? ==>
              var m := SegIndexObj(seg, x, y).value.value;
              var g := SegRemoveObj(seg, x, y).value;
              forall i, j :: 0 <= i < Rows(seg) && 0 <= j < Cols(seg) ==>
                g[i][j] == (if m[i][j] then 0 else seg[i][j])
    ensures SegIndexObj(seg, x, y).Success? && SegIndexObj(seg, x, y).value.None? ==>
              SegRemoveObj(seg, x, y).value == seg
  {
    var tag := LabelAt(seg, Truncate(x), Truncate(y));
    if tag.Success? && tag.value == 0 {
      var g := ZeroLabel(seg, 0);
      assert forall i :: 0 <= i < Rows(seg) ==> g[i] == seg[i];
    }
  }

  /** The centre helpers are the positional helpers at the centre. */
  lemma CentreIsPosition(seg: Grid)
    requires IsRect(seg) && Rows(seg) > 0 && Cols(seg) > 0
    ensures SegIndexCenObj(seg) == SegIndexObj(seg, (Rows(seg) / 2) as real, (Cols(seg) / 2) as real)
    ensures SegRemoveCenObj(seg) == SegRemoveObj(seg, (Rows(seg) / 2) as real, (Cols(seg) / 2) as real)
  {
    assert Truncate((Rows(seg) / 2) as real) == Rows(seg) / 2;
    assert Truncate((Cols(seg) / 2) as real) == Cols(seg) / 2;
  }

  /** After removing a foreground tag, no pixel carries it. */
  lemma RemovedLabelIsGone(seg: Grid)
    requires IsRect(seg) && Rows(seg) > 0 && Cols(seg) > 0
    ensures var tag := seg[Rows(seg) / 2][Cols(seg) / 2];
            var g := SegRemoveCenObj(seg).value;
            tag != 0 ==> forall i, j :: 0 <= i < Rows(g) && 0 <= j < Cols(g) ==> g[i][j] != tag
  {
  }

  /** Removing the central object twice is removing it once: the centre
      pixel is 0 after the first removal, and zeroing the background
      changes nothing. */
  lemma RemoveCentreIdempotent(seg: Grid)
    requires IsRect(seg) && Rows(seg) > 0 && Cols(seg) > 0
    ensures SegRemoveCenObj(seg).Success?
    ensures SegRemoveCenObj(SegRemoveCenObj(seg).value) == SegRemoveCenObj(seg)
  {
    var g := SegRemoveCenObj(seg).value;
    assert CentreLabel(g) == Success(0);
    var h := ZeroLabel(g, 0);
    forall i | 0 <= i < Rows(g)
      ensures h[i] == g[i]
    {
      assert |h[i]| == |g[i]|;
    }
    assert h == g;
  }
}
