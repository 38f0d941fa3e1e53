# kungpao utilities — a Dafny model

This project models the small self-contained helpers of `kungpao/utils.py`, a
toolbox for astronomical images. It covers:

- the angle and time unit conversions;
- `normalize_angle`;
- the weighted statistics `weighted_mean`, `numpy_weighted_mean`,
  `weighted_median` and `numpy_weighted_median`, plus `np.median`, which
  they fall back to;
- the segmentation-map helpers `seg_index_cen_obj`, `seg_remove_cen_obj`,
  `seg_index_obj` and `seg_remove_obj`;
- the pixel combination at the end of `image_clean_up`;
- the counting loop of `table_pair_match_physical`;
- the seed dispatch of `check_random_state`.

Floats are modelled as exact reals and Python integers as unbounded
integers. Python exceptions become a `Result` whose `Failure` names the
exception class. Where NumPy answers `nan` instead of raising, the model
returns the `NotANumber` fault.

Python details that the model spells out:

- `%` on floats is floored (`Angles.PyMod`).
- `int()` truncates toward zero (`Numeric.Truncate`).
- Negative indices count from the end, and slices clamp their bounds
  (`Median.PyIndex`, `Median.PySlice`, `Segmentation.AxisIndex`).
- `zip` stops at the shorter list.
- `sorted` on `(datum, weight)` pairs compares them lexicographically.
  It is modelled as an insertion sort, proved to be a sorted permutation.

Modules, one per file:

| module | file | models |
|---|---|---|
| `Wrappers` | `wrappers.dfy` | `Option`, `Result` and the fault names |
| `Units` | `units.dfy` | `rad2deg`, `deg2rad`, `hr2deg`, `deg2hr` |
| `Numeric` | `numeric.dfy` | `abs` and `int()` on floats |
| `Angles` | `angles.dfy` | `normalize_angle`, both modes |
| `Series` | `series.dfy` | sums, dot products, means |
| `Sorting` | `sorting.dfy` | `sorted`, `zip` and unzipping |
| `WeightedMean` | `weighted_mean.dfy` | `weighted_mean` (its loop kept as a loop) and `numpy_weighted_mean` |
| `Median` | `median.dfy` | `np.median`, `weighted_median` (its loop also as a method) and `numpy_weighted_median` |
| `MedianProperties` | `median_props.dfy` | what the medians compute |
| `Segmentation` | `segmentation.dfy` | the four segmentation helpers |
| `CleanUp` | `cleanup.dfy` | the last steps of `image_clean_up` |
| `Pairs` | `pairs.dfy` | the loop of `table_pair_match_physical` |
| `Seeds` | `seeds.dfy` | `check_random_state` |

The source names are misleading in two places, and the model follows the
code in both:

- `hr2deg` turns degrees into hours and `deg2hr` turns hours into
  degrees, as their bodies and docstrings say.
- `table_pair_match_physical` with `include=True` subtracts one from each
  count, to discount the object's match with itself.

## Model

| member | source | states |
|---|---|---|
| Units.Rad2Deg | kungpao/utils.py:44-46 | `rad2deg`; no contract of its own: characterised by `Units.AngleRoundTrip`, `Units.ConversionLandmarks` and `Units.ConversionsMonotone` |
| Units.Deg2Rad | kungpao/utils.py:49-51 | `deg2rad`; no contract of its own: characterised by the same three lemmas |
| Units.Hr2Deg | kungpao/utils.py:54-56 | `hr2deg` (degrees to hours); no contract of its own: characterised by `Units.HourRoundTrip`, `Units.ConversionLandmarks` and `Units.ConversionsMonotone` |
| Units.Deg2Hr | kungpao/utils.py:59-61 | `deg2hr` (hours to degrees); no contract of its own: characterised by the same three lemmas |
| Units.AngleRoundTrip | kungpao/utils.py:44-51 | `deg2rad(rad2deg(x)) == x` and `rad2deg(deg2rad(x)) == x` for every real `x`, with π a positive constant |
| Units.HourRoundTrip | kungpao/utils.py:54-61 | `hr2deg` and `deg2hr` undo each other in both orders |
| Units.ConversionLandmarks | kungpao/utils.py:44-61 | π radians is 180 degrees, and `hr2deg(360) == 24` while `deg2hr(24) == 360`, which fixes the direction of each conversion |
| Units.ConversionsMonotone | kungpao/utils.py:44-61 | all four conversions are strictly increasing |
| Angles.PyMod | kungpao/utils.py:98-100 | Python's float `%` with a positive modulus lies in `[0, m)` and differs from its argument by a whole multiple of `m` |
| Angles.PyModUnique | kungpao/utils.py:98-100 | that remainder is the only value in `[0, m)` congruent to the argument |
| Angles.NormalizeAngle | kungpao/utils.py:64-118 | default mode raises `ValueError` exactly when `lower >= upper`; reflection mode never raises `ValueError`, and fails (`ZeroDivisionError`) exactly when both limits are 0 and `num != 0`, so it always succeeds when a limit is non-zero |
| Angles.NormalizeKeepsInterior | kungpao/utils.py:96-102 | a value strictly between the limits is returned unchanged |
| Angles.NormalizeUpperToLower | kungpao/utils.py:96-102 | `num == upper` is mapped to `lower`, for every valid pair of limits |
| Angles.NormalizeRangeStraddlingZero | kungpao/utils.py:96-102 | when `lower <= 0 <= upper` every input lands in `[lower, upper)` |
| Angles.NormalizeCorrected | kungpao/utils.py:65-81 | the documented normalisation: `ValueError` iff `lower >= upper`; otherwise the result is in `[lower, upper)`, congruent to `num` modulo `upper - lower`, and equal to `num` when `num` is already in range |
| Angles.NormalizeAgreesFromZero | kungpao/utils.py:91-102 | with `lower = 0` (the default) the code computes exactly the documented normalisation, for every `num` and `upper > 0` |
| Angles.NormalizeAgreesSymmetric | kungpao/utils.py:91-102 | with limits `[-u, u)` the code also computes exactly the documented normalisation |
| Angles.NormalizeEscapesRange | kungpao/utils.py:96-102 | `normalize_angle(25, 10, 20)` returns 25, outside `[10, 20)`, where the documented normalisation gives 15 |
| Angles.NormalizeMovesLowerLimit | kungpao/utils.py:96-102 | `normalize_angle(-90, -90, 270)` returns 90, although -90 is already in range |
| Angles.ReflectRaiseBounds | kungpao/utils.py:105-106 | the first reduction of reflection mode lands in `[0, 2t)` when it applies and leaves other values alone |
| Angles.ReflectLowerBounds | kungpao/utils.py:107-108 | the second reduction lands in `[0, 2t)` when it applies and leaves other values alone |
| Angles.ReflectSymmetricRange | kungpao/utils.py:103-114 | with limits `[-u, u]` reflection mode succeeds, always lands in `[-u, u]`, and leaves values already there unchanged |
| Angles.ReflectEscapesFromZero | kungpao/utils.py:103-114 | with limits `[0, 180]`, `normalize_angle(200, 0, 180, b=True)` returns -160, outside the documented `[lower, upper]` |
| Series.SumConcat | kungpao/utils.py:139-143 | the sum of a concatenation is the sum of the parts, so accumulating in order gives Python's `sum` |
| Series.SumZeroIffAllZero | kungpao/utils.py:159-162 | non-negative weights sum to zero exactly when every weight is zero |
| Series.PrefixSumMonotone | kungpao/utils.py:166-168 | with non-negative weights the running weight never decreases |
| Series.DotScale | kungpao/utils.py:139-143 | dividing every weight by `t` divides the dot product by `t` |
| WeightedMean.Accumulate | kungpao/utils.py:141-143 | the `for` loop returns `Σ wᵢ·dᵢ` over the weights' positions, or `IndexError` exactly when there are more weights than data |
| WeightedMean.WeightedMean | kungpao/utils.py:133-144 | no weights: `np.mean(data)`, `nan` when empty; empty weights: 0; zero total: `ZeroDivisionError`; more weights than data: `IndexError`; otherwise `Σ wᵢ·dᵢ / Σ wᵢ` over the first `len(weights)` data |
| WeightedMean.NumpyWeightedMean | kungpao/utils.py:147-151 | no weights: `TypeError`; lengths differ: `ValueError`; zero total over non-empty weights: `nan`; two empty lists: 0; otherwise `Σ wᵢ·dᵢ / Σ wᵢ` |
| WeightedMean.NormalizedDot | kungpao/utils.py:139-144 | normalising the weights first and then taking the dot product is the textbook weighted mean |
| WeightedMean.DotSwap | kungpao/utils.py:151 | `np.dot(data, weights)` equals `Σ wᵢ·dᵢ` |
| WeightedMean.UniformWeightsGiveMean | kungpao/utils.py:147-151 | equal non-zero weights make `numpy_weighted_mean` the arithmetic mean |
| WeightedMean.UniformAverage | kungpao/utils.py:133-144 | equal non-zero weights make the weighted mean that `weighted_mean` returns the arithmetic mean |
| Sorting.SortSorted | kungpao/utils.py:163 | `sorted` returns its items in order, under any total preorder |
| Sorting.SortPermutes | kungpao/utils.py:163 | `sorted` returns a permutation of its input |
| Sorting.OrdersArePreorders | kungpao/utils.py:163 | numeric order and Python's tuple order on pairs are total preorders |
| Sorting.Zip | kungpao/utils.py:163 | `zip` has the shorter length and pairs equal positions |
| Sorting.UnzipZip | kungpao/utils.py:163 | `zip(*zip(d, w))` gives back `d` and `w` when their lengths agree |
| Sorting.SortKeepsWeight | kungpao/utils.py:163 | sorting the pairs keeps the total weight |
| Median.MaxOf | kungpao/utils.py:161 | `max(w)` is an element of `w` and at least every element |
| Median.FirstIndexOf | kungpao/utils.py:161 | `w.index(v)` is the first position holding `v` |
| Median.PyIndex | kungpao/utils.py:168-173 | Python indexing: negative indices count from the end; `IndexError` outside `[-len, len)` |
| Median.PySlice | kungpao/utils.py:171 | an in-range slice is the Dafny subsequence |
| Median.MeanOfList | kungpao/utils.py:171-172 | `sum(bounds) / float(len(bounds))` raises `ZeroDivisionError` exactly for an empty slice |
| Median.NumpyMedian | kungpao/utils.py:156-157 | `np.median` is `nan` exactly for empty data |
| Median.WeightedMedian | kungpao/utils.py:154-173 | `weighted_median` as written; no contract of its own: characterised by `MedianProperties.WeightedMedianAverages`, `DominantWeightChosen`, `ZeroWeightsGiveNone`, `ShortDataRunsOff` and `TieTestCounterexample` |
| Median.WeightedMedianCorrected | kungpao/utils.py:154-173 | `weighted_median` with the two-sided tie test; no contract of its own: characterised by `MedianProperties.CorrectedIsWeightedMedian`, `CorrectedUniformIsMedian` and `TieTestCorrected` |
| Median.NumpyWeightedMedian | kungpao/utils.py:176-193 | `numpy_weighted_median`; no contract of its own: characterised by `MedianProperties.NumpyAgrees`, `NumpyLastAtMost` and `ZeroWeightsGiveNone` |
| Median.FirstCrossingSpec | kungpao/utils.py:164-168 | the loop stops at the first prefix whose weight exceeds the midpoint; it runs off the end exactly when no prefix does |
| Median.CumulativeScan | kungpao/utils.py:164-168 | the `while` loop as a method computes that same crossing, with its bounds |
| Median.LastAtMost | kungpao/utils.py:187-188 | `np.where(cumsum <= m)[0][-1]` is the last prefix of weight at most `m`, and every later prefix exceeds `m` |
| MedianProperties.SortedWeightsFacts | kungpao/utils.py:159-163 | for balanced weights (non-negative, some positive, none above half, and at least as many data as weights) the sorted weights have the input's total, and each lies between 0 and half of it |
| MedianProperties.CrossingOfBalanced | kungpao/utils.py:162-168 | for non-negative weights, some positive and none above half, with at least as many data as weights, the loop stops after `K` sorted weights, `2 <= K <= len(weights)`, with the prefix before `K` at most the midpoint and the prefix through `K` above it |
| MedianProperties.AsWrittenAlwaysAverages | kungpao/utils.py:164-172 | once the loop has run, the tie test on line 170 always holds, so the function averages the slice `sorted_data[K-2:K]` |
| MedianProperties.WeightedMedianAverages | kungpao/utils.py:159-172 | `weighted_median` on non-negative weights, some positive and none above half, with at least as many data as weights, returns the mean of the two sorted data on either side of the crossing |
| MedianProperties.DominantWeightChosen | kungpao/utils.py:159-161 | with non-negative weights at most one weight exceeds half the total, and `weighted_median` returns that weight's datum, or `IndexError` when `data` is too short |
| MedianProperties.ZeroWeightsGiveNone | kungpao/utils.py:159-162 | all-zero weights make both `weighted_median` and `numpy_weighted_median` return `None` |
| MedianProperties.CorrectedIsWeightedMedian | kungpao/utils.py:164-173 | for non-negative weights, some positive and none above half, with at least as many data as weights, the two-sided tie test gives a weighted median: the two neighbours are averaged when a prefix weighs half, and otherwise the datum at the crossing is taken, with the weight strictly before it and strictly after it each below half |
| MedianProperties.ShortDataRunsOff | kungpao/utils.py:163-168 | with more weights than data the loop can run off the zipped pairs: `weighted_median([1], [1, 1, 1])` raises `IndexError` |
| MedianProperties.TieTestCounterexample | kungpao/utils.py:164-193 | `weighted_median([1, 2, 3], [1, 1, 1])` and the NumPy version both return 1.5 |
| MedianProperties.TieTestCorrected | kungpao/utils.py:164-173 | the two-sided tie test returns 2 on that input |
| MedianProperties.CorrectedUniformIsMedian | kungpao/utils.py:154-173 | with equal unit weights the corrected `weighted_median` is `np.median` for every non-empty list |
| MedianProperties.NumpyAgrees | kungpao/utils.py:154-193 | on equal-length lists with non-negative weights `numpy_weighted_median` returns what `weighted_median` returns |
| MedianProperties.NumpyLastAtMost | kungpao/utils.py:181-193 | on balanced weights of the data's length, `numpy_weighted_median` returns the mean of the sorted data at positions `K-2` and `K-1`, where `K` is the crossing of the pure-Python loop |
| MedianProperties.NumpyCumulativeAverages | kungpao/utils.py:187-192 | when the running weight first exceeds `m` after `K >= 2` weights, the NumPy cumulative step returns the mean of sorted positions `K-2` and `K-1` |
| Segmentation.AxisIndex | kungpao/utils.py:301 | NumPy's reading of an index: in range exactly for `-n <= i < n`, a negative index counting from the end |
| Numeric.Truncate | kungpao/utils.py:328 | `int(x)` truncates toward zero: it is no further from zero than `x` and less than one away |
| Segmentation.LabelAt | kungpao/utils.py:328 | `seg[int(x), int(y)]`: `IndexError` exactly when either index is outside `[-n, n)` for its axis, otherwise the label at the wrapped position |
| Segmentation.CentreLabel | kungpao/utils.py:313 | the label at `(rows // 2, cols // 2)`; it fails exactly when the map has no rows or no columns |
| Segmentation.SegIndexCenObj | kungpao/utils.py:306-317 | `None` iff the centre label is 0; otherwise a mask of the map's shape, true exactly where a pixel carries the centre label; it fails exactly when the map has no rows or no columns |
| Segmentation.SegRemoveCenObj | kungpao/utils.py:293-303 | a copy of the same shape in which exactly the pixels carrying the centre label become 0 and every other pixel is unchanged |
| Segmentation.SegIndexObj | kungpao/utils.py:333-344 | `IndexError` exactly when `int(x)` or `int(y)` is out of range; otherwise `None` iff the label there is 0, else the mask of that label |
| Segmentation.SegRemoveObj | kungpao/utils.py:320-330 | `IndexError` exactly when the position is out of range; otherwise a copy with exactly the pixels of that label zeroed |
| Segmentation.RemoveIsComplementOfIndex | kungpao/utils.py:320-344 | the remove helper zeroes exactly the pixels the index mask selects, and changes nothing when the mask is `None` |
| Segmentation.CentreIsPosition | kungpao/utils.py:293-344 | the centre helpers are the position helpers at `(rows // 2, cols // 2)` |
| Segmentation.RemovedLabelIsGone | kungpao/utils.py:293-303 | after removing a non-background centre label, no pixel carries it |
| Segmentation.RemoveCentreIdempotent | kungpao/utils.py:293-303 | removing the central object twice is the same as removing it once |
| CleanUp.Combine | kungpao/utils.py:540-570 | fails exactly when the image has no rows or no columns, where locating the central object raises; otherwise every product has the image's shape |
| CleanUp.CleanPixels | kungpao/utils.py:556-570 | `img_clean[p]` is `noise[p]` exactly when `seg_2[p] + seg_3[p] > 0` and `p` is outside the central object of `seg_1`; otherwise it is `img[p]` |
| CleanUp.CentralObjectKept | kungpao/utils.py:559-570 | pixels of the central object keep their original value |
| CleanUp.NoiseReplacedOnlyWhereDetected | kungpao/utils.py:540-541 | `img_noise_replace` is the noise where `seg_2 > 0` and the image everywhere else |
| CleanUp.NoCentralObject | kungpao/utils.py:556-567 | with a background pixel at the centre of `seg_1`, `seg_comb` is `seg_2 + seg_3` unchanged |
| Pairs.Matches | kungpao/utils.py:816 | `np.where(sep < r)` lists, in ascending order, exactly the positions whose separation is below `r` |
| Pairs.CountIsMatchLength | kungpao/utils.py:811-816 | `np.sum(sep < r)` is the length of the `np.where` list |
| Pairs.CountIsSetSize | kungpao/utils.py:811-814 | `np.sum(sep < r)` is the size of the set of positions within `r` |
| Pairs.TablePairMatch | kungpao/utils.py:803-818 | one count and one index list per row of the first catalogue, in order; each list holds exactly the ascending positions within `r`, and each count is their number, less one with `include` |
| Pairs.PairCount | kungpao/utils.py:811-814 | the count appended for one row; no contract of its own: characterised by `Pairs.PairCountIsSetSize` and `Pairs.IncludeCanGoNegative` |
| Pairs.PairCountIsSetSize | kungpao/utils.py:811-816 | each count plus one with `include` (plus zero without) is the size of that row's index set and the length of its index list |
| Pairs.IncludeCanGoNegative | kungpao/utils.py:811-812 | with `include`, a row with nothing within the radius gets the count -1 |
| Seeds.CheckRandomState | kungpao/utils.py:239-255 | succeeds exactly for `None`, `np.random`, an integer (`bool` included), a real, an existing generator, or a list whose first item is an integer. It raises `IndexError` only for the empty list and `ValueError` otherwise. An integer `n` gives the generator seeded with `n`, an accepted list gives the generator seeded with that list, and an existing generator is returned as it is |
| Seeds.FloatSeedTruncates | kungpao/utils.py:245-247 | a real seed selects the generator seeded with its truncation toward zero |
| Seeds.SeedsThatAgree | kungpao/utils.py:241-247 | a whole-number real and the integer it equals select the same generator, and so do `True`/`False` and `1`/`0` |
| Seeds.GlobalOnlyForNone | kungpao/utils.py:239-250 | only `None` and `np.random` select the global generator, and only an existing generator is passed through |

## Left out

- `kungpao/isophote/ellipse/ellipse.py` and the classes it drives are not part of this model. Their behaviour rests on floating-point fits.
- Floating point: every float is an exact real. Rounding, overflow, `inf` and `nan` inputs are not modelled. The `sys.float_info.epsilon` comparisons are kept, with epsilon as the exact value 2^-52.
- `image_clean_up` up to line 553: background estimation and source extraction are foreign C code, and the noise comes from a random generator. `img`, `noise`, `seg_1`, `seg_2` and `seg_3` are inputs.
- The `verbose` messages and the `diagnose` figures of `image_clean_up` are left out; they have no effect on the returned image.
- CleanUp.Combine: `seg_2 + seg_3` is unbounded; NumPy's fixed-width integer wrap-around is not modelled.
- `table_pair_match_physical`: separations are an input matrix, because angular distance and the redshift-dependent scale are trigonometry and an external cosmology package. The `tqdm` progress bar is left out.
- Pairs.TablePairMatch: each index list is the array that `np.where` wraps in a one-element tuple.
- Seeds.CheckRandomState: NumPy's own validation inside `RandomState(...)` is not modelled, since that code is not part of this model. This covers the range of an integer seed and the items after the first in a list seed. `int()` of `nan` or an infinity is not modelled either.
- `get_time_label` and `random_string` are left out: they depend on the clock and on randomness.
- `image_gaia_stars` and `get_pixel_value` are left out: they depend on a network query and on WCS transforms.
- `dist_elliptical`, the `angular_distance*` functions, `kpc_scale_*` and `simple_poly_fit` are left out: they are float geometry or calls into NumPy and astropy.
- Plotting code is left out.
- WeightedMean.NumpyWeightedMean and Median.NumpyWeightedMedian: `np.array(...).flatten()` is taken as the identity, so inputs are flat lists.

## Findings

| source | as written | input that shows it | evidently intended | confidence | as-written member | corrected member |
|---|---|---|---|---|---|---|
| kungpao/utils.py:96-102 | `normalize_angle` reduces modulo `abs(lower) + abs(upper)`, which is the width of the range only when `lower <= 0 <= upper` | `normalize_angle(25, 10, 20)` returns 25; `normalize_angle(-90, -90, 270)` returns 90 | the representative of `num` modulo `upper - lower` in `[lower, upper)`, as the docstring says | high; not executed | Angles.NormalizeAngle, Angles.NormalizeEscapesRange | Angles.NormalizeCorrected, Angles.NormalizeAgreesFromZero |
| kungpao/utils.py:169-173 | the tie test `cumulative_weight - midpoint < epsilon` is one-sided, and `cumulative_weight <= midpoint` always holds there, so the test always passes; `numpy_weighted_median` repeats the same one-sided test at kungpao/utils.py:189-190 | `weighted_median([1, 2, 3], [1, 1, 1])` and `numpy_weighted_median` on the same input both return 1.5 instead of 2 | the two-sided test `abs(cumulative_weight - midpoint) < epsilon`, so that two neighbours are averaged only when a prefix weighs exactly half | high; not executed | Median.WeightedMedian, MedianProperties.TieTestCounterexample | Median.WeightedMedianCorrected, MedianProperties.CorrectedIsWeightedMedian |
