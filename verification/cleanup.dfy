/** The pixel combination at the end of `image_clean_up`
    (`kungpao/utils.py`, lines 540-570).  The image, the noise image and
    the three segmentation maps are inputs here; in the source they come
    from source extraction and a random generator, all of the image's
    shape.

    The steps: pixels detected in `seg_2` are replaced by noise
    (`img_noise_replace`); `seg_2` and `seg_3` are added; the footprint of
    the object at the centre of `seg_1` is cleared from that sum; and every
    pixel still covered by the sum is replaced by noise (`img_clean`).
 */
module CleanUp {
  import opened Wrappers
  import opened Segmentation

  type Image = seq<seq<real>>

  /** `g > 0`. */
  function Positive(g: Grid): (m: Mask)
    requires IsRect(g)
    ensures SameShape(m, g)
    ensures forall i, j :: 0 <= i < Rows(g) && 0 <= j < Cols(g) ==> (m[i][j] <==> g[i][j] > 0)
  {
    seq(Rows(g), i requires 0 <= i < Rows(g) =>
      seq(Cols(g), j requires 0 <= j < Cols(g) => g[i][j] > 0))
  }

  /** `a + b`, element by element. */
  function AddGrids(a: Grid, b: Grid): (g: Grid)
    requires SameShape(a, b)
    ensures SameShape(g, a)
    ensures forall i, j :: 0 <= i < Rows(a) && 0 <= j < Cols(a) ==> g[i][j] == a[i][j] + b[i][j]
  {
    seq(Rows(a), i requires 0 <= i < Rows(a) =>
      seq(Cols(a), j requires 0 <= j < Cols(a) => a[i][j] + b[i][j]))
  }

  /** A copy of `g` with `g[m] = 0`. */
  function ZeroWhere(g: Grid, m: Mask): (r: Grid)
    requires SameShape(g, m)
    ensures SameShape(r, g)
    ensures forall i, j :: 0 <= i < Rows(g) && 0 <= j < Cols(g) ==>
              r[i][j] == (if m[i][j] then 0 else g[i][j])
  {
    seq(Rows(g), i requires 0 <= i < Rows(g) =>
      seq(Cols(g), j requires 0 <= j < Cols(g) => if m[i][j] then 0 else g[i][j]))
  }

  /** A copy of `img` with `img[m] = noise[m]`. */
  function ReplaceWhere(img: Image, noise: Image, m: Mask): (r: Image)
    requires SameShape(img, noise) && SameShape(img, m)
    ensures SameShape(r, img)
    ensures forall i, j :: 0 <= i < Rows(img) && 0 <= j < Cols(img) ==>
              r[i][j] == (if m[i][j] then noise[i][j] else img[i][j])
  {
    seq(Rows(img), i requires 0 <= i < Rows(img) =>
      seq(Cols(img), j requires 0 <= j < Cols(img) => if m[i][j] then noise[i][j] else img[i][j]))
  }

  /** What the combination produces. */
  datatype Products = Products(noiseReplaced: Image, combined: Grid, clean: Image)

  /** All five inputs share the image's shape. */
  ghost predicate Aligned(img: Image, noise: Image, seg1: Grid, seg2: Grid, seg3: Grid) {
    SameShape(img, noise) && SameShape(img, seg1) && SameShape(img, seg2) && SameShape(img, seg3)
  }

  /** Lines 540-570 without the extraction calls.  Locating the central
      object in an empty `seg_1` raises `IndexError`. */
  function Combine(img: Image, noise: Image, seg1: Grid, seg2: Grid, seg3: Grid): (r: Result<Products>)
    requires Aligned(img, noise, seg1, seg2, seg3)
    ensures r.Failure? <==> Rows(img) == 0 || Cols(img) == 0
    ensures r.Success? ==>
              && SameShape(r.value.noiseReplaced, img)
              && SameShape(r.value.combined, img)
              && SameShape(r.value.clean, img)
  {
    var noiseReplaced := ReplaceWhere(img, noise, Positive(seg2));
    var summed := AddGrids(seg2, seg3);
    match SegIndexCenObj(seg1)
    case Failure(e) => Failure(e)
    case Success(centre) =>
      var combined := if centre.Some? then ZeroWhere(summed, centre.value) else summed;
      Success(Products(noiseReplaced, combined, ReplaceWhere(img, noise, Positive(combined))))
  }

  /** Pixel `(i, j)` belongs to the footprint of a (non-background) object
      at the centre of `seg1`. */
  ghost predicate InCentralObject(seg1: Grid, i: int, j: int)
    requires IsRect(seg1) && 0 <= i < Rows(seg1) && 0 <= j < Cols(seg1)
  {
    var c := seg1[Rows(seg1) / 2][Cols(seg1) / 2];
    c != 0 && seg1[i][j] == c
  }

  /** A cleaned pixel is noise exactly when `seg_2 + seg_3` covers it and
      it is outside the central object; otherwise it is the original. */
  lemma CleanPixels(img: Image, noise: Image, seg1: Grid, seg2: Grid, seg3: Grid)
    requires Aligned(img, noise, seg1, seg2, seg3) && Rows(img) > 0 && Cols(img) > 0
    ensures Combine(img, noise, seg1, seg2, seg3).Success?
    ensures forall i, j :: 0 <= i < Rows(img) && 0 <= j < Cols(img) ==>
              Combine(img, noise, seg1, seg2, seg3).value.clean[i][j] ==
                if seg2[i][j] + seg3[i][j] > 0 && !InCentralObject(seg1, i, j) then noise[i][j] else img[i][j]
  {
    var r := Combine(img, noise, seg1, seg2, seg3).value;
    var centre := SegIndexCenObj(seg1).value;
    forall i, j | 0 <= i < Rows(img) && 0 <= j < Cols(img)
      ensures r.combined[i][j] > 0 <==> seg2[i][j] + seg3[i][j] > 0 && !InCentralObject(seg1, i, j)
    {
      if centre.Some? {
        assert centre.value[i][j] <==> InCentralObject(seg1, i, j);
      }
    }
  }

  /** Pixels of the central object keep their original value. */
  lemma CentralObjectKept(img: Image, noise: Image, seg1: Grid, seg2: Grid, seg3: Grid, i: int, j: int)
    requires Aligned(img, noise, seg1, seg2, seg3)
    requires 0 <= i < Rows(img) && 0 <= j < Cols(img) && InCentralObject(seg1, i, j)
    ensures Combine(img, noise, seg1, seg2, seg3).Success?
    ensures Combine(img, noise, seg1, seg2, seg3).value.clean[i][j] == img[i][j]
  {
    CleanPixels(img, noise, seg1, seg2, seg3);
  }

  /** `img_noise_replace` is the noise where `seg_2` is positive and the
      image everywhere else. */
  lemma NoiseReplacedOnlyWhereDetected(img: Image, noise: Image, seg1: Grid, seg2: Grid, seg3: Grid)
    requires Aligned(img, noise, seg1, seg2, seg3) && Rows(img) > 0 && Cols(img) > 0
    ensures Combine(img, noise, seg1, seg2, seg3).Success?
    ensures forall i, j :: 0 <= i < Rows(img) && 0 <= j < Cols(img) ==>
              var p := Combine(img, noise, seg1, seg2, seg3).value.noiseReplaced[i][j];
              (seg2[i][j] > 0 ==> p == noise[i][j]) && (seg2[i][j] <= 0 ==> p == img[i][j])
  {
  }

  /** With a background pixel at the centre of `seg_1` nothing is protected:
      the cleaned image is the noise wherever `seg_2 + seg_3` is positive. */
  lemma NoCentralObject(img: Image, noise: Image, seg1: Grid, seg2: Grid, seg3: Grid)
    requires Aligned(img, noise, seg1, seg2, seg3) && Rows(img) > 0 && Cols(img) > 0
    requires seg1[Rows(seg1) / 2][Cols(seg1) / 2] == 0
    ensures Combine(img, noise, seg1, seg2, seg3).Success?
    ensures Combine(img, noise, seg1, seg2, seg3).value.combined == AddGrids(seg2, seg3)
  {
  }
}
