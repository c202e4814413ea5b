# FRC-QE quality estimation core, modelled in Dafny

FRC-QE is an ImageJ plugin that estimates how image quality changes with depth in a 3D microscopy stack. For every
z-slice of a chosen box it computes one quality value and plots the resulting curve. This project models the
plugin's `Estimate_Quality` class:

- **Validation** (`validation.dfy`): the early aborts of `run`, the pre-selected area, how the area choice becomes
  a 3D box, the rFRC depth guard, and the resulting plan (stop with a reason, or start the rFRC or Shannon computation).
- **DefaultBox** (`defaultbox.dfy`): the remembered 3D box of `interactiveROI`. It is seeded on first use and then
  clamped into the image axis by axis. This is a class whose two array fields are updated in place.
- **Sampling** (`sampling.dfy`): the rFRC location loop. Depths `rFRCDist, rFRCDist + zStepSize, …` below
  `dimension(2) - rFRCDist` form the outer loop and tile centres the inner loop. The lemmas characterise the
  resulting list exactly.
- **Aggregation** (`aggregation.dfy`): the per-slice loop of `computeRFRC`. For each slice it looks up the
  nearest-neighbour value at every tile, takes the median, and keeps the running min and max of the medians.
- **Correlation** (`correlation.dfy`): `getMean` and `getCorrelation` over reals. A flat image scores 0, the
  correlation is symmetric, and a non-flat image scores 1 with itself.
- **Shannon** (`shannon.dfy`): `computeShannon`, which flattens each slice into a `w * h` array and maps the
  method index to a measure, and `computeSSIM`, which correlates adjacent slices.
- **Pipeline** (`pipeline.dfy`): `run` as a whole.
- `geometry.dfy`, `extrema.dfy` and `wrappers.dfy` hold the boxes and points, the running min/max folds, and
  `Option`/`Result`.

Library code that the class calls is passed in as function-typed parameters:

- the tile distributor `FRCTools.distributeSquaresXY`;
- the rFRC scorer together with its k-d tree nearest-neighbour search;
- `Util.median`;
- the entropy focus measures;
- voxel access;
- the square root.

The model states properties relative to these parameters.

Behaviour of the code that the model follows:

- `zStepSize` is never checked by the code.
- The slice check rejects only exactly one slice.
- `maxMedian` starts at 0, so it is never negative.
- In `computeSSIM`, the running minimum is overwritten with 0.8 on every iteration.
- Only plain Shannon entropy is negated. The DCT and DFT measures are used as they are.

## Model

| member | source | states |
|---|---|---|
| Validation.Validate | src/main/java/net/preibisch/qualityest/Estimate_Quality.java:119-146 | each abort happens exactly when its condition holds and every earlier check passed (one slice, several frames, colour or several channels, non-rectangular ROI); on success the ROI's bounds, if any |
| Validation.DefaultAreaChoice | src/main/java/net/preibisch/qualityest/Estimate_Quality.java:150-161 | no ROI turns an unset or ROI choice into "entire image"; an ROI turns an unset choice into the ROI choice; otherwise unchanged; from any remembered choice in -1..2 the result is a valid dialog index and is the ROI choice only when an ROI exists |
| Validation.AnalysisInterval | src/main/java/net/preibisch/qualityest/Estimate_Quality.java:191-207 | area 0 is [0,w-1]×[0,h-1]×[0,stack-1]; area 1 is the ROI's x and y ranges over all slices; the ROI choice without an ROI stops, and so does a cancelled interactive selection, and only they |
| Validation.FixedAreasSpanStack | src/main/java/net/preibisch/qualityest/Estimate_Quality.java:199-202 | areas 0 and 1 always give a box starting at slice 0 with one slice per stack slice, and the image's or the ROI's width and height |
| Validation.Plan | src/main/java/net/preibisch/qualityest/Estimate_Quality.java:119-228 | a failed check stops the run with its reason before anything else, and so does a failed choice of area; once both pass, method 0 starts rFRC on the chosen box exactly when the box has at least 2·rFRCDist+1 slices and otherwise stops with the box's own depth, and every other method starts the Shannon path on the box with that method; a started job always carries the dialog's parameters |
| DefaultBox.ClampAxis | src/main/java/net/preibisch/qualityest/Estimate_Quality.java:507-514 | the result lies within the image's min and max; an empty or inverted range becomes the full image range; for a proper range, a bound already inside the image is kept and a bound outside it is replaced by the image's bound |
| DefaultBox.ClampMayInvert | src/main/java/net/preibisch/qualityest/Estimate_Quality.java:513-514 | the clamp does not guarantee min ≤ max: a remembered range wholly beyond the image comes out inverted |
| DefaultBox.ClampStable | src/main/java/net/preibisch/qualityest/Estimate_Quality.java:505-515 | a range that comes out of the clamp non-empty is a fixed point of the clamp |
| DefaultBox.SeededClamp | src/main/java/net/preibisch/qualityest/Estimate_Quality.java:499-515 | the seeded box clamps to the image inset by 25 px in x and y when that axis is wider than 51 px, else to the full axis; z is always the full range |
| DefaultBox.ClampInto | src/main/java/net/preibisch/qualityest/Estimate_Quality.java:505-515 | every axis of the two arrays is replaced by ClampAxis of its old range, so min ≥ image min and max ≤ image max; nothing else changes |
| DefaultBox.RememberedBox.constructor | src/main/java/net/preibisch/qualityest/Estimate_Quality.java:67 | before any run both remembered bounds are absent |
| DefaultBox.RememberedBox.Prepare | src/main/java/net/preibisch/qualityest/Estimate_Quality.java:499-515 | a missing bound makes fresh seeded arrays; existing arrays are clamped in place; either way every axis ends up within the image bounds |
| Sampling.ZCountBounds | src/main/java/net/preibisch/qualityest/Estimate_Quality.java:442 | the number of sampled depths is the least count whose next depth reaches the upper bound, and 0 when the range is empty |
| Sampling.LocationsLength | src/main/java/net/preibisch/qualityest/Estimate_Quality.java:442-444 | k depths over n tiles give k·n locations |
| Sampling.LocationsAt | src/main/java/net/preibisch/qualityest/Estimate_Quality.java:442-444 | location t·n+i is tile i at the t-th depth (z outer, tiles inner) |
| Sampling.LocationsMembers | src/main/java/net/preibisch/qualityest/Estimate_Quality.java:442-444 | a point is generated if and only if it is on a tile centre at one of the sampled depths |
| Sampling.OnGridIff | src/main/java/net/preibisch/qualityest/Estimate_Quality.java:442 | the sampled depths are exactly the z in [z0, hi) with z − z0 divisible by the step |
| Sampling.GenerateLocations | src/main/java/net/preibisch/qualityest/Estimate_Quality.java:433-444 | the nested loop builds exactly the depth-major, tile-minor location list for depths rFRCDist, rFRCDist+step, … below dimension(2) − rFRCDist |
| Sampling.SampledExactly | src/main/java/net/preibisch/qualityest/Estimate_Quality.java:442-444 | the list has (number of depths)·|tiles| entries and contains exactly the tile centres at every z in [rFRCDist, dimension(2) − rFRCDist) with z − rFRCDist divisible by zStepSize |
| Sampling.GuardedFirstRow | src/main/java/net/preibisch/qualityest/Estimate_Quality.java:442-444 | under the depth guard depth rFRCDist is sampled first, so the first |tiles| locations are the tiles at that depth and the list is non-empty whenever a tile exists |
| Aggregation.Slot | src/main/java/net/preibisch/qualityest/Estimate_Quality.java:473-474 | the corrected index of every slice of the box lies in [0, dimension(2)) |
| Aggregation.SourceSlotFitsIff | src/main/java/net/preibisch/qualityest/Estimate_Quality.java:473-474 | the source's index z fits arrays of length dimension(2) for every slice if and only if the box starts at slice 0, and then agrees with the corrected index |
| Aggregation.SourceSlotOutOfBounds | src/main/java/net/preibisch/qualityest/Estimate_Quality.java:473-474 | a box over slices 1..5 makes the source write slice 5 at index 5 of a 5-element array |
| Aggregation.SampleTiles | src/main/java/net/preibisch/qualityest/Estimate_Quality.java:459-466 | the values array holds the nearest-neighbour value at every tile centre on the slice, in tile order |
| Aggregation.ComputeCurve | src/main/java/net/preibisch/qualityest/Estimate_Quality.java:450-479 | one entry per slice min(2)..max(2) in increasing z, each the median of that slice's tile values; minMedian and maxMedian are the folds of the medians from Double.MAX_VALUE and 0 |
| Aggregation.CurveBounds | src/main/java/net/preibisch/qualityest/Estimate_Quality.java:454-471 | minMedian ≤ every median ≤ maxMedian, maxMedian ≥ 0 and is 0 or one of the medians |
| Aggregation.ComputeRFRC | src/main/java/net/preibisch/qualityest/Estimate_Quality.java:425-479 | the rFRC computation: the generated locations, and the curve of medians read from the search built over exactly those locations |
| Extrema.RunningMinIsLeast | src/main/java/net/preibisch/qualityest/Estimate_Quality.java:470 | the running minimum is at most its start value and every element, and is one of them |
| Extrema.RunningMaxIsGreatest | src/main/java/net/preibisch/qualityest/Estimate_Quality.java:471 | the running maximum is at least its start value and every element, and is one of them |
| Correlation.SumSq | src/main/java/net/preibisch/qualityest/Estimate_Quality.java:306-307 | a sum of squared deviations is never negative |
| Correlation.FromSums | src/main/java/net/preibisch/qualityest/Estimate_Quality.java:326-336 | a non-zero result needs two non-flat images, and then the result has the sign of sum12 (positive, negative or zero exactly when sum12 is) |
| Correlation.Correlation | src/main/java/net/preibisch/qualityest/Estimate_Quality.java:288-336 | the score is 0 whenever either image is flat, and for empty images |
| Correlation.GetMean | src/main/java/net/preibisch/qualityest/Estimate_Quality.java:276-287 | the loop yields sum / count, and no number exactly for an empty image |
| Correlation.DeviationSums | src/main/java/net/preibisch/qualityest/Estimate_Quality.java:295-323 | the cursor loop accumulates exactly the two sums of squared deviations and the cross sum |
| Correlation.GetCorrelation | src/main/java/net/preibisch/qualityest/Estimate_Quality.java:288-336 | the method computes the Pearson correlation with the flat-image rule |
| Correlation.SumProdSymmetric | src/main/java/net/preibisch/qualityest/Estimate_Quality.java:306-308 | swapping the images (and their means) leaves the cross sum unchanged |
| Correlation.SumProdSelf | src/main/java/net/preibisch/qualityest/Estimate_Quality.java:306-308 | the cross sum of an image with itself is its sum of squares |
| Correlation.CorrelationSymmetric | src/main/java/net/preibisch/qualityest/Estimate_Quality.java:288-336 | correlation(a, b) = correlation(b, a) |
| Correlation.FlatImageScoresZero | src/main/java/net/preibisch/qualityest/Estimate_Quality.java:325-334 | an image whose pixels are all equal scores 0 against any image of its size |
| Correlation.SelfCorrelationIsOne | src/main/java/net/preibisch/qualityest/Estimate_Quality.java:336 | an image with two different pixel values scores exactly 1 with itself, for a square root that inverts squaring |
| Correlation.NonConstantNotFlat | src/main/java/net/preibisch/qualityest/Estimate_Quality.java:324-333 | an image with two different pixel values has a positive sum of squared deviations, so the source's all-one-colour test does not fire for it |
| Shannon.SliceValues | src/main/java/net/preibisch/qualityest/Estimate_Quality.java:386-391 | the flattened slice has exactly w·h entries |
| Shannon.SliceValuesAt | src/main/java/net/preibisch/qualityest/Estimate_Quality.java:386-391 | every pixel (x, y) of the slice is at flat index (y − y0)·w + (x − x0), so flattening loses nothing |
| Shannon.FlattenSlice | src/main/java/net/preibisch/qualityest/Estimate_Quality.java:386-391 | the copy loop fills the array with the slice in flat order, x fastest |
| Shannon.SelectMeasure | src/main/java/net/preibisch/qualityest/Estimate_Quality.java:343-362 | index 1 is plain entropy, 2 DCT, 3 median-filtered DCT, and exactly the other indices DFT |
| Shannon.SliceAt | src/main/java/net/preibisch/qualityest/Estimate_Quality.java:382-384 | the corrected k-th slice lies inside the box for every k below dimension(2) |
| Shannon.SourceSliceIff | src/main/java/net/preibisch/qualityest/Estimate_Quality.java:382-384 | the source's slice k is the box's own k-th slice for every k if and only if the box starts at slice 0; otherwise its first slice is below the box |
| Shannon.SourceSlicesOutsideBox | src/main/java/net/preibisch/qualityest/Estimate_Quality.java:382-384 | for a box over slices 3..5 the source scores slices 0, 1 and 2, none of which are in the box |
| Shannon.ComputeShannon | src/main/java/net/preibisch/qualityest/Estimate_Quality.java:338-412 | one value per slice of the box in increasing z, each the selected measure (plain entropy negated) of the flattened slice; min and max are folds from ±Double.MAX_VALUE |
| Shannon.ShannonPlotCoversCurve | src/main/java/net/preibisch/qualityest/Estimate_Quality.java:420 | the Shannon plot's quality axis, from min(0, running minimum) to the running maximum, contains 0 and every value of the curve |
| Shannon.ScorePair | src/main/java/net/preibisch/qualityest/Estimate_Quality.java:245-248 | the value for the box's k-th slice is the correlation of that slice with the next one |
| Shannon.SSIMPrefixAt | src/main/java/net/preibisch/qualityest/Estimate_Quality.java:243-248 | entry k of the SSIM curve is the correlation of the box's k-th slice with slice k + 1 |
| Shannon.ComputeSSIM | src/main/java/net/preibisch/qualityest/Estimate_Quality.java:232-263 | dimension(2) − 1 values, one per adjacent pair (z, z+1); the reported minimum is 0.8 once any pair exists; the maximum is the fold from −Double.MAX_VALUE |
| Pipeline.PlannedBoxWellFormed | src/main/java/net/preibisch/qualityest/Estimate_Quality.java:199-204 | every box handed to a computation has a non-negative extent on every axis |
| Pipeline.Run | src/main/java/net/preibisch/qualityest/Estimate_Quality.java:84-230 | the run stops exactly when the plan stops, with its reason; otherwise one entry per slice in increasing z, holding the rFRC medians or the Shannon curve, with the curve's running minimum and maximum; the quality axis of the plot runs from 0 to maxMedian for rFRC and from min(0, minimum) to the maximum for Shannon |
| Pipeline.RFRCStartsWithFullFirstRow | src/main/java/net/preibisch/qualityest/Estimate_Quality.java:216-222 | once rFRC starts, every tile is sampled at depth rFRCDist; for the fixed area choices the box starts at slice 0 with stackSize slices |

## Findings

| source | as written | input that shows it | evidently intended | confidence | as-written member | corrected member |
|---|---|---|---|---|---|---|
| src/main/java/net/preibisch/qualityest/Estimate_Quality.java:473-474 | `x[(int)z]` and `y[(int)z]` are written for z from min(2) to max(2), into arrays of length dimension(2) | an interactive 3D box over slices 1..5: slice 5 is written at index 5 of a 5-element array (index out of bounds) | write slice z at index z − min(2) | medium; not executed | Aggregation.SourceSlotOutOfBounds | Aggregation.ComputeCurve |
| src/main/java/net/preibisch/qualityest/Estimate_Quality.java:382-384 | iteration z takes `Views.hyperSlice(di, 2, z)` for z = 0..dimension(2) − 1, a position in image coordinates (the same pattern is at lines 243-246 in `computeSSIM`) | an interactive 3D box over slices 3..5: slices 0, 1 and 2 are scored, none of them inside the box | score slice min(2) + k in iteration k | medium; not executed | Shannon.SourceSlicesOutsideBox | Shannon.ComputeShannon |

Both discrepancies need an interactively selected box that does not start at slice 0. With the whole image or a
2D ROI the box always starts at slice 0 (Validation.FixedAreasSpanStack), and the as-written and corrected
behaviour coincide (Aggregation.SourceSlotFitsIff, Shannon.SourceSliceIff).

## Left out

- Dialogs, cancelling a dialog, the list of open images (lines 86-117), logging, progress, the results table,
  drawing the plots (only their axis limits are modelled) and `main`: these are user interface. The dialog answers are an input (`Validation.Answers`).
- The BDV preview and the 3D box-selection dialog of `interactiveROI`: these are interactive UI. Their result is
  the input `selection`, and `None` stands for an invalid selection. Only the seeding and clamping of the
  remembered box are modelled.
- Visualising the rendered quality volume (`DisplayImage`, lines 489-490): this is display only.
- `FRCTools.distributeSquaresXY`, `FRCRealRandomAccessible`, the k-d tree search, `Util.median`,
  `DoubleArrayImage.entropyShannon` and the normalised DCT/DFT measures: this library code is not part of this
  model and is passed in as functions. No property of tile placement, FRC, nearest-neighbour lookup, medians or
  entropy is claimed.
- `src/main/java/autopilot/measures/FocusMeasures.java`: it declares constants only.
- Floating point: values are reals. The model does not cover NaN or infinities, the `(float)` casts into the plot
  arrays, or rounding.
- Java `int`/`long` overflow: this includes `z += zStepSize` and the `(int)` casts of slice indices and array sizes.
- Sampling.GenerateLocations: requires zStepSize > 0. The source never checks it, and with a step of 0 the loop
  never ends.
- Pipeline.Run: requires zStepSize > 0 only when the plan starts rFRC, for the same reason; runs that stop earlier
  or take the Shannon path may have any step. It also requires the sane image
  shapes ImageJ provides: non-negative sizes and a well-formed interactive box.
- Correlation.GetCorrelation: requires a square root that is positive on positive arguments, and equal pixel
  counts. The two cursor strategies of the source (same iteration order, or random access at the cursor's
  position) both pair the pixels at the same position, so they are modelled as one pass over two sequences.
- Correlation.Correlation: the bound −1 ≤ r ≤ 1 is not proved, because it needs the Cauchy–Schwarz inequality and
  more properties of the square root.
- Correlation.GetMean: an empty image gives NaN in the source. Here it gives `None`, and the correlation of
  empty images is 0, as in the source, because no pixel is visited.
- Shannon.ComputeSSIM: requires at least one slice. For an empty box the source fails allocating an array of
  length −1. `computeSSIM` is not called by `run`.
- The rFRC sample depths are counted from 0, as the source writes them, whatever the box's first slice. How the
  FRC scorer interprets those depths is library code and is not part of this model.
