# WEPL sweep: a Dafny model

WEPL (water-equivalent path length) is computed from planning CT images for
proton therapy. The program loads DICOM series and structure sets. For every
selected series, every slice on which a chosen structure has a contour, every
beam rotation and every contour on that slice, it:

1. converts the image from Hounsfield units (HU) to relative stopping power
   (RSP) with the Schneider et al. (1996) calibration;
2. accumulates RSP times the pixel spacing down each column into a WEPL map;
3. rasterises the contour into a pixel mask by vertical ray casting;
4. collects the WEPL values under the mask into a data frame of samples
   (WEPL, breathing phase, structure index, rotation), together with the
   study date.

This project models that core and proves properties of it:

- `Base.dfy`:
  - optional values and failures;
  - Python's `int()` on floats, which truncates toward zero;
  - numpy's slice-bound rules;
  - rectangular grids.
- `Raster.dfy`:
  - `Line`, an immutable value;
  - `LinearContour`, a class whose `lines` and bounding box its methods update;
  - the column-by-column mask, specified by functions.
- `Radiology.dfy`: the HU→RSP calibration and the WEPL prefix sum.
- `SliceGeometry.dfy`:
  - the world-to-pixel mapping of contour points;
  - contour extents, the crop and the slice index formula;
  - the `Series` class, whose fields (`image`, `imageRSP`, `imageWEPL`, the
    extents, crop bounds and rotation) the pipeline updates in place.
- `Sweep.dfy`:
  - `makeReducedImageCollection`;
  - `makeDataFrame`, as imperative methods. These are its series, UID,
    rotation and contour loops, which drive `Series` and `LinearContour`
    objects.
  - Each method is proved equal to a specification function. Lemmas about
    those functions state what the data frame holds.
- `RasterShapes.dfy`: what the rasteriser does to an axis-aligned rectangle.

Each failure of the Python code (an `IndexError`, a `TypeError` on `None`)
is an `Err` with a `Fault` naming it. The Python loop then stops, and so does
the model. The one exception is the `TypeError` of the contour loop, which
follows from the first-contour selection of `getStructuresInImageCoordinates`;
the model does not make that selection (see `SliceGeometry.ImageCoordinates`
under "Left out").

Three things the program does not compute itself are passed in as function
parameters:

- the DICOM slice read at a depth (`Loader`);
- the image rotation of `scipy.ndimage.rotate` (`Rotator`), required to keep
  the image's shape, as `reshape=False` does (`KeepsShape`);
- the cosine/sine rotation of a contour point (`Spin`).

## Behaviour worth knowing

- Intercepts are paired as they come. They are not sorted.
  `findPixelInsideContourColumn` pairs `ray[2k]` with `ray[2k+1]` in edge
  order, and only then orders each pair's row bounds. As a result a polygon's
  mask depends on the vertex it starts from. `RasterShapes.RectangleFromBottom`
  and `RasterShapes.RectangleFromTop` show this on one rectangle.
- A rectangle with integer corners lying strictly inside the grid, with
  x0 > 0 and y0 > 0, walked from its bottom-left corner, fills
  (x1 − x0) × (y1 − y0 + 1) pixels: one more row than its height. With y0 = 0
  the bottom edge's intercept 0.0 is dropped, and the column fails on an odd
  intercept count.
- At 200 HU the calibration gives 1.153892, and at 300 HU it gives 1.200653.
  These are the values that the coefficients of `classes.py:472-473` compute.
- The rotation centre of `getStructuresInImageCoordinates` is half the image
  shape, unpacked as (x0, y0). So x uses half the number of rows, and y half
  the number of columns.
- `getInterceptingLines` drops an intercept of exactly 0.0 (`if intercept:`).
  `findIntercept` treats column 0 as "no column given" (`if x:`). Both quirks
  are reproduced.

## Model

| member | source | states |
|---|---|---|
| `Base.Trunc` | classes.py:199 | `int()` truncates toward zero: the result is within 1 of x, on x's side of 0 |
| `Base.NpBound` | classes.py:501-502 | a numpy slice bound is counted from the end when negative and clipped to [0, n] |
| `Base.NpSlice` | classes.py:501-502 | `s[a:b]` has the length numpy gives it and equals `s[a..b]` for in-range bounds |
| `Raster.Line.FindIntercept` | classes.py:136-155 | an edge answers a column query exactly on the half-open interval between its endpoints, with the linear interpolation, landing on y1 at x1; a row query likewise; without a truthy query it answers None |
| `Raster.Line.AtColumn` | classes.py:139-140 | the ordinate by the stored slope equals y0 + (x − x0)(y1 − y0)/(x1 − x0) and reaches y1 at x1 |
| `Raster.Line.AtRow` | classes.py:136-137 | the abscissa by the stored slope equals x0 + (y − y0)(x1 − x0)/(y1 − y0) and reaches x1 at y1 |
| `Raster.BoxOfIsTight` | classes.py:166-176 | the recorded box contains every point, and each of its bounds is some point's coordinate |
| `Raster.FoldBounds` | classes.py:171-175 | the running min/max only widens the seed, contains every point seen, and each bound is the seed's or a point's |
| `Raster.Intercepts` | classes.py:180-187 | the intercepts are at most one per edge, never 0.0, each the answer of some edge; no query gives none |
| `Raster.InterceptsAppend` | classes.py:182-185 | intercepts keep edge order: those of a concatenation are those of its parts, in order |
| `Raster.CoveredIsSomePair` | classes.py:197-199 | a row is covered exactly when one of the pairs' ranges holds it |
| `Raster.ColumnFill` | classes.py:189-201 | a column fails exactly on an odd intercept count; otherwise it has h rows and a row is set exactly when it lies in some pair's range [int(a), int(b + 1)), put in order |
| `Raster.SetColumn` | classes.py:206 | `contourMap[:, c] = col` changes column c to col and nothing else |
| `Raster.Columns` | classes.py:205-207 | filling columns keeps the image's shape |
| `Raster.ColumnsContent` | classes.py:203-209 | when the filled range starts at a non-negative column, column c of the mask is the column fill at c inside the range and all false outside it (a negative start wraps onto the right-hand columns, as numpy's `contourMap[:, x]` does) |
| `Raster.ColumnsErrSticks` | classes.py:205-207 | once a column fails, the whole mask fails with that fault |
| `Raster.ColumnsOk` | classes.py:198-206 | the mask succeeds exactly when every column in range has an even intercept count and a valid numpy index |
| `Raster.RasterOutsideBox` | classes.py:205 | when int(xmin) ≥ 0, no pixel outside columns int(xmin) .. int(xmax + 1) − 1 is set (a negative int(xmin) wraps onto the right-hand columns) |
| `Raster.LinearContour.constructor` | classes.py:160-164 | a new contour has no edges and no bounds |
| `Raster.LinearContour.AddLines` | classes.py:166-178 | succeeds exactly on a non-empty point list; then it appends one edge per point (the first from the last point) and records the points' bounding box; otherwise it changes nothing |
| `Raster.LinearContour.GetInterceptingLines` | classes.py:180-187 | returns the intercepts of the recorded edges |
| `Raster.LinearContour.FindPixelInsideContourColumn` | classes.py:189-201 | returns the column fill of the recorded edges' intercepts at column x |
| `Raster.LinearContour.GetListOfPixelsInContour` | classes.py:203-209 | returns the mask over the bounding box's columns, of the image's shape; fails before any points were added |
| `Radiology.Rsp` | classes.py:467-480 | the two-line calibration gives every pixel at or above −1000 HU a positive stopping power |
| `Radiology.RspAtThreshold` | classes.py:472-475 | 200 HU belongs to the upper line (1.153892); 199 HU gives 1.22373853 |
| `Radiology.RspDropsAtThreshold` | classes.py:472-475 | the calibration drops when crossing 200 HU, so it is not monotone |
| `Radiology.RspIncreasingOnEachBranch` | classes.py:472-473 | on each side of the threshold the calibration is strictly increasing |
| `Radiology.RspGrid` | classes.py:475-478 | the RSP map has the image's shape and holds the calibration of each pixel |
| `Radiology.RspGridPositive` | classes.py:475-478 | an image no darker than air gives a positive RSP map |
| `Radiology.WeplRows` | classes.py:504-509 | the WEPL rows written so far have the RSP map's width |
| `Radiology.WeplRowsAreColumnSums` | classes.py:506-509 | row y of the WEPL map is the column sum of RSP times spacing over rows 0 .. y |
| `Radiology.WeplIsPrefixSum` | classes.py:504-511 | WEPL has the RSP shape; row 0 is RSP times spacing, and every later row is the row above plus RSP times spacing |
| `Radiology.WeplStrictlyIncreasing` | classes.py:504-511 | with positive spacing and RSP, WEPL is positive and strictly increasing down each column |
| `Radiology.UniformColumnSum` | classes.py:506-509 | a column of one RSP value k sums to (y + 1)·k·ps |
| `Radiology.WeplOfUniformImage` | classes.py:467-511 | an image of one intensity v has WEPL (y + 1)·Rsp(v)·ps at row y |
| `Radiology.WeplAt300HU` | classes.py:467-511 | 300 HU with 1 mm pixels gives WEPL (y + 1)·1.200653 mm at row y |
| `SliceGeometry.MapContour` | classes.py:429-438 | every contour point is mapped, in order |
| `SliceGeometry.OnSlice` | classes.py:424-427 | the contours kept are non-empty and no more than those given |
| `SliceGeometry.OnSliceFilters` | classes.py:426-427 | a contour is kept exactly when it is given and its first point lies within 0.1 mm of the slice |
| `SliceGeometry.ImageCoordinates` | classes.py:419-444 | fails exactly when a contour has no points or no contour lies on the slice; otherwise it returns, in order, each contour on the slice mapped point by point |
| `SliceGeometry.MappedPrefixIsOnSlice` | classes.py:424-440 | after n contours the loop has failed exactly when one of them was empty; otherwise it holds the mapped contours on the slice among them |
| `SliceGeometry.MappedPrefixErrSticks` | classes.py:424-426 | once a contour without points is met, the mapping fails with that fault |
| `SliceGeometry.UnrotatedMapping` | classes.py:429-438 | without rotation a point maps to ((x − origin − registration)/ps − xOffset, (y − origin − registration)/ps) |
| `SliceGeometry.OffsetShiftsColumns` | classes.py:438 | changing the crop offset shifts every mapped point's x by the difference and nothing else |
| `SliceGeometry.SeqMin` | classes.py:453-462 | `np.min` is at most every element |
| `SliceGeometry.SeqMax` | classes.py:454-463 | `np.max` is at least every element |
| `SliceGeometry.SeqMinAttained` | classes.py:453-462 | the minimum is one of the elements |
| `SliceGeometry.SeqMaxAttained` | classes.py:454-463 | the maximum is one of the elements |
| `SliceGeometry.ContourExtents` | classes.py:460-465 | one contour's extents cover all of its points |
| `SliceGeometry.Union` | classes.py:460-465 | merging extents gives extents containing both |
| `SliceGeometry.WidenContains` | classes.py:450-465 | the running extents only widen, and afterwards they cover every point of every contour merged |
| `SliceGeometry.Crop` | classes.py:497-502 | the cropped image has numpy's slice lengths in rows and columns |
| `SliceGeometry.CropIsShift` | classes.py:501-502 | inside the image, cropped pixel (r, c) is original pixel (r, c + x0) |
| `SliceGeometry.ImageIndexNearest` | classes.py:286-301 | a depth within half a step of slice k (k ≥ 0) gets index k |
| `SliceGeometry.ImageIndexBeforeFirst` | classes.py:301 | because `int()` truncates, depths up to 1.5 steps before the first slice also get index 0 |
| `SliceGeometry.Rescaled` | classes.py:489-490 | the reloaded image is the stored pixels plus int(RescaleIntercept), with their shape |
| `SliceGeometry.Series.constructor` | classes.py:216-247 | a new series has no slice or image, zero crop bounds, unset extents (1e5 .. −1e5) and no rotation |
| `SliceGeometry.Series.ResetImage` | classes.py:482-491 | restores zero crop bounds, unset extents and zero rotation; with reload, the image is the rescaled slice and the RSP/WEPL maps are discarded; without it, they are kept |
| `SliceGeometry.Series.LoadImageFromPosZ` | classes.py:327-354 | positions the series at depth z on the supplied slice and resets the image from it |
| `SliceGeometry.Series.RotateImage` | classes.py:493-495 | the image becomes its rotation, which has the image's shape, and the angle is recorded |
| `SliceGeometry.Series.GetStructuresInImageCoordinates` | classes.py:419-444 | returns the contours on the current slice in the current pixel frame (spacing, origin, registration, rotation, centre, crop offset) |
| `SliceGeometry.Series.RecalculateContourBounds` | classes.py:450-465 | fails exactly when the mapping fails, leaving the extents; otherwise it widens them by every mapped contour |
| `SliceGeometry.Series.WidenBounds` | classes.py:460-465 | after the loop, the extents are the old ones merged with every contour's extents |
| `SliceGeometry.Series.ReduceImageSize` | classes.py:497-502 | sets the crop bounds [int(xmin − pad), int(xmax + pad)] × [0, int(ymax + pad)] and crops the image to them |
| `SliceGeometry.Series.ConvertImageToRSP` | classes.py:467-480 | stores and returns the calibration of the current image |
| `SliceGeometry.Series.ConvertImageToWEPL` | classes.py:504-511 | stores and returns the WEPL map, the column prefix sums of RSP times spacing |
| `Sweep.ReducedSelects` | main.py:589-594 | the reduced collection is ascending and holds exactly the series with a selected description |
| `Sweep.MakeReducedImageCollection` | main.py:589-594 | returns the indices of the series with a selected description, in collection order |
| `Sweep.MinExists` | main.py:629 | a non-empty set of depths has a least element |
| `Sweep.SortedElems` | main.py:629 | `sorted()` of the contour depths is strictly ascending and holds exactly the set's elements |
| `Sweep.MaskedRowCount` | main.py:657 | one value is taken per true cell of a mask row |
| `Sweep.MaskedRowValues` | main.py:657 | a value is taken from a row exactly when some masked cell's WEPL value truncates to it |
| `Sweep.MaskedRowMultiplicity` | main.py:657 | each value is taken from a row as often as there are masked cells whose WEPL value truncates to it |
| `Sweep.MaskedCount` | main.py:657 | `wepl[pixelContourMap]` has one value per true pixel of the mask |
| `Sweep.MaskedValues` | main.py:657 | a value is stored exactly when some pixel under the mask has a WEPL value truncating to it |
| `Sweep.MaskedMultiplicity` | main.py:657 | `wepl[pixelContourMap]` cast to int64 holds each value as often as there are pixels under the mask whose WEPL value truncates to it: the samples are the masked pixels' values, with multiplicity |
| `Sweep.GatherErrSticks` | main.py:633-661 | once a loop step fails, the loop's outcome is that failure |
| `Sweep.GatherOutcome` | main.py:633-661 | a loop succeeds exactly when every step does; otherwise it fails with the first failing step's fault |
| `Sweep.GatherAppends` | main.py:659-660 | rows are only appended: the rows after k steps begin the rows after n ≥ k |
| `Sweep.GatherRows` | main.py:659-660 | every row gathered comes from one of the steps |
| `Sweep.Labelled` | main.py:659-660 | one row per value, each labelled with the phase, structure index and rotation |
| `Sweep.ContourStepRows` | main.py:653-661 | a contour adds one row per true mask pixel, each with the phase, its index and the rotation; its WEPL column holds each value as often as there are masked pixels truncating to it; it fails exactly when its mask fails |
| `Sweep.Measured` | main.py:646-649 | the WEPL map of the cropped image has the cropped image's shape |
| `Sweep.Prepared` | main.py:643-649 | a prepared slice has WEPL and image of the same shape |
| `Sweep.UnitRowsLabels` | main.py:643-661 | every row of one (slice, rotation) has the series' phase, the rotation and the index of a contour on the slice |
| `Sweep.PipelineLabelsRows` | main.py:643-661 | the pipeline labels its rows with the series' phase, its rotation and one of the series' contour indices |
| `Sweep.SliceStepLabels` | main.py:634-661 | every row of one UID has the series' phase and one of the rotations |
| `Sweep.SeriesRowsLabels` | main.py:633-661 | a series only appends rows, each with its phase and one of the rotations |
| `Sweep.SeriesRowsTooFewPositions` | main.py:633-634 | a series with more UIDs than contour depths fails at `zposList[idxUID]` |
| `Sweep.SeriesDateKept` | main.py:636-637 | once the date is a non-empty string, later slices keep it |
| `Sweep.SeriesDateOfFirstSlice` | main.py:636-637 | without a date so far, the date is the study date of the first slice loaded (when non-empty) |
| `Sweep.FrameRowsStep` | main.py:620-622 | the sweep skips a series outside the reduced collection and appends the rows of one inside it |
| `Sweep.FrameRowsErrSticks` | main.py:620-661 | once a series fails, the whole sweep fails with that fault |
| `Sweep.FrameRowsLabels` | main.py:620-661 | every row comes from a reduced series: its phase, one of its contour indices, and one of the rotations |
| `Sweep.FrameRowsAppend` | main.py:659-660 | the data frame only grows: the rows after k series begin the rows after n ≥ k |
| `Sweep.FrameRowsDateKept` | main.py:636-637 | once a non-empty study date is recorded, later series keep it |
| `Sweep.FrameIgnoresUnreduced` | main.py:620-622 | two collections that agree on the reduced series give the same data frame |
| `Sweep.FrameRowsTooFewPositions` | main.py:620-634 | a reduced series with more UIDs than contour depths makes the sweep fail |
| `Sweep.ReducedBySelection` | main.py:592-594 | the reduced collection depends only on which series carry a selected description |
| `Sweep.DataFrameLabels` | main.py:611-664 | every sample carries the phase and a contour index of a series with a selected description, and one of the rotations |
| `Sweep.DataFrameIgnoresUnselected` | main.py:611-622 | series without a selected description do not affect the data frame |
| `Sweep.DataFrameTooFewPositions` | main.py:620-634 | a selected series with more UIDs than contour depths makes `makeDataFrame` fail |
| `Sweep.ContourSamples` | main.py:652-661 | the contour loop returns the gathered rows of its contours |
| `Sweep.ContourSample` | main.py:654-660 | one contour on a fresh `LinearContour`: add its points, take the mask of the cropped image, and label the WEPL values under it |
| `Sweep.PrepareImage` | main.py:643-649 | reset, rotate, recalculate the bounds, crop, RSP and WEPL: the new image and WEPL are those of the specification function `Prepared`, and the frame records the rotation and crop offset |
| `Sweep.MeasureImage` | main.py:646-649 | crop, RSP and WEPL of the current image, as the specification function `Measured` gives them |
| `Sweep.ProcessRotation` | main.py:643-661 | one rotation of the current slice returns the pipeline's rows |
| `Sweep.ProcessSlice` | main.py:639-661 | the rotation loop returns the gathered rows of every rotation |
| `Sweep.ProcessSeries` | main.py:624-661 | one series returns its rows appended to the frame so far, with the date updated |
| `Sweep.ProcessUIDs` | main.py:633-661 | the UID loop loads the u-th smallest depth for UID u, keeps the first study date, and appends each slice's rows |
| `Sweep.SweepSeries` | main.py:620-661 | one pass of the series loop: skip an unreduced series, otherwise process it |
| `Sweep.SweepCollection` | main.py:611-664 | the series loop returns the frame of the specification function `FrameRows` |
| `Sweep.MakeDataFrame` | main.py:611-664 | for a rotation that keeps the image's shape, `makeDataFrame` returns exactly the data frame the specification function `DataFrameOf` defines |
| `RasterShapes.VerticalMisses` | classes.py:144-147 | a vertical edge never yields a column intercept |
| `RasterShapes.HorizontalHits` | classes.py:144-147 | a horizontal edge at y > 0 yields y exactly on the non-zero columns of its half-open interval |
| `RasterShapes.BoundsOfRect` | classes.py:166-176 | the rectangle's recorded box is its corners, whichever vertex it starts from |
| `RasterShapes.RayFromBottom` | classes.py:180-187 | started at the bottom-left corner, each column crosses the bottom edge, then the top |
| `RasterShapes.RayFromTop` | classes.py:180-187 | started at the top-left corner, each column crosses the top edge, then the bottom |
| `RasterShapes.FillOfPair` | classes.py:195-199 | a pair (a, b) of integer intercepts fills the rows from min(a, b + 1) up to max(a, b + 1) |
| `RasterShapes.RectangleFromBottom` | classes.py:166-209 | walked from the bottom-left, the rectangle fills columns x0+1 .. x1 and rows y0 .. y1 |
| `RasterShapes.RectangleFromTop` | classes.py:166-209 | walked from the top-left, the same rectangle fills only rows y0+1 .. y1−1: the mask depends on the start vertex |

The specification functions have no rows of their own. Their meaning is stated
by the lemmas and methods above:

- `Reduced`, `Masked`, `TrueCount`, `CellsWith`, `PixelsWith` and `WeplColumn`;
- `Gather`, `ContourStep`, `UnitRows`, `SliceStep`, `SeriesDate`, `SeriesRows`,
  `FrameRows` and `DataFrameOf`;
- `Widen`, `WeplGrid` and `ImageIndex`.

The ghost parameters `steps` and `unit` of the loop methods (`ContourSamples`,
`ProcessUIDs`, `ProcessRotation`, …) are proof devices and not part of the
program. Each one is required to equal the concrete step function of its
loop, and `MakeDataFrame` passes the pipeline itself.

## Left out

- GUI code is not modelled: the Tk options, `IndexTracker`, the violin
  plots and quantile tables, and the progress bar. None of it influences the
  data frame.
- DICOM and structure-set I/O is not modelled: `loadImages`, `makeImageIndex`,
  `loadStructures`, `loadStructuresFromExternalStructureFile` and
  `loadCheckedStructures`. A series arrives as a `SeriesInput` whose contours
  are already the checked structures. Its UIDs (`getUIDsFromStructures`) and
  contour depths (`getZposFromStructures`) are inputs too. The slice read at a
  depth is the `Loader` parameter.
- Series.LoadImageFromPosZ: the choice of file (the `zposLUT` lookup, or
  `findImageIndex` on the cached first and last slice) belongs to the I/O left
  out. Only its rounding formula is modelled, as `ImageIndex`.
- `getRotationList` is not modelled; it parses the GUI's text field, so the
  rotations are an input.
- `scipy.ndimage.rotate` and the cosine/sine of the point rotation are
  numerical library code, supplied as the `Rotator` and `Spin` parameters.
  Of the rotation the model only assumes that it keeps the image's shape.
- Floating point is modelled as exact reals. IEEE rounding and int64 overflow
  of the WEPL cast are not modelled.
- SliceGeometry.ImageCoordinates: the code ends with `return X[0], Y[0]` (or
  `X[0][structureNumberVar]`), which selects the coordinates of the first
  contour on the slice only. The model returns every contour on the slice
  instead, as `return X, Y` would. It keeps the `IndexError` when no contour
  lies on the slice.
- SliceGeometry.Series.RecalculateContourBounds: because of that substitution
  it widens the extents by every contour on the slice. The code takes its
  one-contour branch (`len(np.shape(X)) == 1`) and widens them by the first
  contour only.
- Sweep.MakeDataFrame: because of that substitution the contour loop produces
  rows. In the code, `zip(*contours)` over one contour's two coordinate arrays
  yields pairs of numbers, and `zip(contourX, contourY)` on two numbers raises
  `TypeError`; that failure is not modelled. The model's contour loop is the
  one the loop's `idx` counter and `structureIdx` column are written for.
- Sweep.SweepSeries: a fresh `Series` object stands for the series object of
  the collection. The fields the sweep reads are all set again by
  `loadImageFromPosZ` and `resetImage`.
- `LinearContour`'s `dicomTranslation` and `pixelSpacing` fields are stored
  but never read, so they are left out.
- A grid with no rows is taken to have no columns, where numpy keeps the
  width of an empty array.
- `createWEPLcurve`, `getImageDate`, `loadImageFromUID` and `setUIDFromZ`
  are not called by `makeDataFrame`, so they are not modelled.
