/** The sweep of `main.py`'s `MainMenu`: the reduced image collection, and the
    data frame of WEPL samples built over the selected series, their slices,
    the rotations and each slice's contours.
 */
module Sweep {
  import opened Base
  import opened Raster
  import opened Radiology
  import opened SliceGeometry

  /** `self.imagePad`, the crop margin in pixels. */
  const Pad: int := 5

  // ---------------------------------------------------------------------
  // makeReducedImageCollection

  /** The indices among the first n series that carry at least one selected
      series description, in collection order. */
  function Reduced(descriptions: seq<set<string>>, selected: set<string>, n: nat): seq<nat>
    requires n <= |descriptions|
  {
    if n == 0 then []
    else Reduced(descriptions, selected, n - 1) + if descriptions[n - 1] * selected != {} then [n - 1] else []
  }

  /** The reduced collection is ascending and holds exactly the series with a
      selected description. */
  lemma {:induction false} ReducedSelects(descriptions: seq<set<string>>, selected: set<string>, n: nat)
    requires n <= |descriptions|
    ensures var r := Reduced(descriptions, selected, n);
      (forall i, j :: 0 <= i < j < |r| ==> r[i] < r[j]) &&
      (forall k :: 0 <= k < |r| ==> r[k] < n) &&
      (forall i: nat :: i in r <==> i < n && descriptions[i] * selected != {})
  {
    if n > 0 {
      ReducedSelects(descriptions, selected, n - 1);
    }
  }

  /** `makeReducedImageCollection`. */
  method MakeReducedImageCollection(descriptions: seq<set<string>>, selected: set<string>) returns (reduced: seq<nat>)
    ensures reduced == Reduced(descriptions, selected, |descriptions|)
  {
    reduced := [];
    var idx := 0;
    while idx < |descriptions|
      invariant 0 <= idx <= |descriptions|
      invariant reduced == Reduced(descriptions, selected, idx)
    {
      if descriptions[idx] * selected != {} {
        reduced := reduced + [idx];
      }
      idx := idx + 1;
    }
  }

  // ---------------------------------------------------------------------
  // sorted(getZposFromStructures())

  predicate Ascending(s: seq<real>)
  {
    forall i, j :: 0 <= i < j < |s| ==> s[i] < s[j]
  }

  lemma {:induction false} MinExists(s: set<real>)
    requires s != {}
    ensures exists m :: m in s && forall y :: y in s ==> m <= y
    decreases |s|
  {
    if forall y :: y !in s {
      assert false;
    }
    var x :| x in s;
    var rest := s - {x};
    if rest == {} {
      forall y | y in s ensures x <= y {
        assert y !in rest;
      }
    } else {
      MinExists(rest);
      var m :| m in rest && forall y :: y in rest ==> m <= y;
      var lo := if x < m then x else m;
      forall y | y in s ensures lo <= y {
        if y != x {
          assert y in rest;
        }
      }
      assert lo in s;
    }
  }

  /** `sorted()` of a set of slice positions: the elements in ascending order. */
  function SortedElems(s: set<real>): (r: seq<real>)
    ensures Ascending(r) && |r| == |s|
    ensures forall v :: v in r <==> v in s
    decreases |s|
  {
    if s == {} then []
    else
      MinExists(s);
      var m :| m in s && forall y :: y in s ==> m <= y;
      SmallerSet(s, m);
      var rest := SortedElems(s - {m});
      SortedCons(s, m, rest);
      [m] + rest
  }

  lemma SmallerSet(s: set<real>, m: real)
    requires m in s
    ensures |s - {m}| == |s| - 1
  {
  }

  lemma SortedCons(s: set<real>, m: real, rest: seq<real>)
    requires m in s && forall y :: y in s ==> m <= y
    requires Ascending(rest) && |rest| == |s| - 1
    requires forall v :: v in rest <==> v in s - {m}
    ensures Ascending([m] + rest) && |[m] + rest| == |s|
    ensures forall v :: v in [m] + rest <==> v in s
  {
    var r := [m] + rest;
    forall i, j | 0 <= i < j < |r| ensures r[i] < r[j] {
      assert r[j] == rest[j - 1] && rest[j - 1] in rest;
      if i > 0 {
        assert r[i] == rest[i - 1];
      }
    }
  }

  // ---------------------------------------------------------------------
  // wepl[pixelContourMap] as int64

  /** The masked values of one row, left to right, truncated to integers. */
  function MaskedRow(row: seq<real>, m: seq<bool>): seq<int>
    requires |m| == |row|
    decreases |row|
  {
    if |row| == 0 then []
    else MaskedRow(row[..|row| - 1], m[..|m| - 1]) + if m[|m| - 1] then [Trunc(row[|row| - 1])] else []
  }

  /** numpy boolean indexing of the first n rows, row by row, cast to int64. */
  function Masked(wepl: Grid<real>, mask: Grid<bool>, h: nat, w: nat, n: nat): seq<int>
    requires HasShape(wepl, h, w) && HasShape(mask, h, w) && n <= h
  {
    if n == 0 then [] else Masked(wepl, mask, h, w, n - 1) + MaskedRow(wepl[n - 1], mask[n - 1])
  }

  /** The number of true pixels in the first n rows. */
  function TrueCount(mask: Grid<bool>, n: nat): nat
    requires n <= |mask|
  {
    if n == 0 then 0 else TrueCount(mask, n - 1) + multiset(mask[n - 1])[true]
  }

  lemma {:induction false} MaskedRowCount(row: seq<real>, m: seq<bool>)
    requires |m| == |row|
    ensures |MaskedRow(row, m)| == multiset(m)[true]
    decreases |row|
  {
    if |row| > 0 {
      MaskedRowCount(row[..|row| - 1], m[..|m| - 1]);
      assert m == m[..|m| - 1] + [m[|m| - 1]];
    }
  }

  /** v is the truncated value of a masked cell of the row. */
  predicate MaskedCell(row: seq<real>, m: seq<bool>, v: int)
    requires |m| == |row|
  {
    exists j :: 0 <= j < |m| && m[j] && v == Trunc(row[j])
  }

  lemma {:induction false} MaskedRowValues(row: seq<real>, m: seq<bool>)
    requires |m| == |row|
    ensures forall v :: v in MaskedRow(row, m) <==> MaskedCell(row, m, v)
    decreases |row|
  {
    if |row| > 0 {
      var n := |row| - 1;
      MaskedRowValues(row[..n], m[..n]);
      forall v ensures v in MaskedRow(row, m) <==> MaskedCell(row, m, v) {
        if v in MaskedRow(row, m) {
          if v in MaskedRow(row[..n], m[..n]) {
            var j :| 0 <= j < n && m[..n][j] && v == Trunc(row[..n][j]);
            assert m[j] && v == Trunc(row[j]);
          } else {
            assert m[n] && v == Trunc(row[n]);
          }
        }
        if MaskedCell(row, m, v) {
          var j :| 0 <= j < |m| && m[j] && v == Trunc(row[j]);
          if j < n {
            assert m[..n][j] && v == Trunc(row[..n][j]);
          }
        }
      }
    }
  }

  /** The masked cells of a row whose truncated value is v. */
  function CellsWith(row: seq<real>, m: seq<bool>, v: int): set<nat>
    requires |m| == |row|
  {
    set j: nat | j < |row| && m[j] && Trunc(row[j]) == v
  }

  /** A value is taken from a row as often as there are masked cells
      truncating to it. */
  lemma {:induction false} MaskedRowMultiplicity(row: seq<real>, m: seq<bool>, v: int)
    requires |m| == |row|
    ensures multiset(MaskedRow(row, m))[v] == |CellsWith(row, m, v)|
    decreases |row|
  {
    if |row| == 0 {
      assert CellsWith(row, m, v) == {};
    } else {
      var n := |row| - 1;
      MaskedRowMultiplicity(row[..n], m[..n], v);
      var last: seq<int> := if m[n] then [Trunc(row[n])] else [];
      assert MaskedRow(row, m) == MaskedRow(row[..n], m[..n]) + last;
      assert multiset(MaskedRow(row, m))[v] == multiset(MaskedRow(row[..n], m[..n]))[v] + multiset(last)[v];
      CellsWithSnoc(row, m, v);
    }
  }

  /** The cells of a row are those of its prefix and possibly the last one. */
  lemma CellsWithSnoc(row: seq<real>, m: seq<bool>, v: int)
    requires |m| == |row| > 0
    ensures var n := |row| - 1;
      |CellsWith(row, m, v)| == |CellsWith(row[..n], m[..n], v)| + if m[n] && Trunc(row[n]) == v then 1 else 0
  {
    var n := |row| - 1;
    var before := CellsWith(row[..n], m[..n], v);
    var last: set<nat> := if m[n] && Trunc(row[n]) == v then {n} else {};
    forall j: nat ensures j in CellsWith(row, m, v) <==> j in before + last {
      if j < n {
        assert row[..n][j] == row[j] && m[..n][j] == m[j];
      }
    }
    assert CellsWith(row, m, v) == before + last;
    assert before * last == {};
  }

  /** One sample is stored per true pixel of the mask. */
  lemma {:induction false} MaskedCount(wepl: Grid<real>, mask: Grid<bool>, h: nat, w: nat, n: nat)
    requires HasShape(wepl, h, w) && HasShape(mask, h, w) && n <= h
    ensures |Masked(wepl, mask, h, w, n)| == TrueCount(mask, n)
  {
    if n > 0 {
      MaskedCount(wepl, mask, h, w, n - 1);
      MaskedRowCount(wepl[n - 1], mask[n - 1]);
    }
  }

  /** v is the truncated WEPL value of a masked pixel in the first n rows. */
  predicate MaskedPixel(wepl: Grid<real>, mask: Grid<bool>, h: nat, w: nat, n: nat, v: int)
    requires HasShape(wepl, h, w) && HasShape(mask, h, w) && n <= h
  {
    exists i, j :: 0 <= i < n && 0 <= j < w && mask[i][j] && v == Trunc(wepl[i][j])
  }

  /** The stored values are exactly the truncated WEPL values of the masked pixels. */
  lemma {:induction false} MaskedValues(wepl: Grid<real>, mask: Grid<bool>, h: nat, w: nat, n: nat)
    requires HasShape(wepl, h, w) && HasShape(mask, h, w) && n <= h
    ensures forall v :: v in Masked(wepl, mask, h, w, n) <==> MaskedPixel(wepl, mask, h, w, n, v)
  {
    if n > 0 {
      MaskedValues(wepl, mask, h, w, n - 1);
      MaskedRowValues(wepl[n - 1], mask[n - 1]);
      forall v ensures v in Masked(wepl, mask, h, w, n) <==> MaskedPixel(wepl, mask, h, w, n, v) {
        MaskedValueStep(wepl, mask, h, w, n, v);
      }
    }
  }

  lemma MaskedValueStep(wepl: Grid<real>, mask: Grid<bool>, h: nat, w: nat, n: nat, v: int)
    requires HasShape(wepl, h, w) && HasShape(mask, h, w) && 0 < n <= h
    requires v in Masked(wepl, mask, h, w, n - 1) <==> MaskedPixel(wepl, mask, h, w, n - 1, v)
    requires v in MaskedRow(wepl[n - 1], mask[n - 1]) <==> MaskedCell(wepl[n - 1], mask[n - 1], v)
    ensures v in Masked(wepl, mask, h, w, n) <==> MaskedPixel(wepl, mask, h, w, n, v)
  {
    if v in MaskedRow(wepl[n - 1], mask[n - 1]) {
      var j :| 0 <= j < |mask[n - 1]| && mask[n - 1][j] && v == Trunc(wepl[n - 1][j]);
      assert 0 <= n - 1 < n && 0 <= j < w;
    }
    if MaskedPixel(wepl, mask, h, w, n, v) {
      var i, j :| 0 <= i < n && 0 <= j < w && mask[i][j] && v == Trunc(wepl[i][j]);
      if i == n - 1 {
        assert v in MaskedRow(wepl[n - 1], mask[n - 1]);
      } else {
        assert MaskedPixel(wepl, mask, h, w, n - 1, v);
      }
    }
  }

  /** The masked pixels of the first n rows whose truncated WEPL value is v. */
  function PixelsWith(wepl: Grid<real>, mask: Grid<bool>, h: nat, w: nat, n: nat, v: int): set<(nat, nat)>
    requires HasShape(wepl, h, w) && HasShape(mask, h, w) && n <= h
  {
    set i: nat, j: nat | i < n && j < w && mask[i][j] && Trunc(wepl[i][j]) == v :: (i, j)
  }

  /** The pixels of row i at the columns of s. */
  function Tagged(i: nat, s: set<nat>): set<(nat, nat)>
  {
    set j | j in s :: (i, j)
  }

  /** Tagging a set of columns with one row index keeps its size. */
  lemma {:induction false} TaggedSize(i: nat, s: set<nat>)
    ensures |Tagged(i, s)| == |s|
    decreases |s|
  {
    if s != {} {
      var j :| j in s;
      TaggedSize(i, s - {j});
      var rest := Tagged(i, s - {j});
      assert Tagged(i, s) == rest + {(i, j)};
      assert (i, j) !in rest;
    }
  }

  /** `wepl[pixelContourMap]` holds each value as often as there are masked
      pixels truncating to it: the stored samples are the masked pixels'
      truncated WEPL values, with multiplicity. */
  lemma {:induction false} MaskedMultiplicity(wepl: Grid<real>, mask: Grid<bool>, h: nat, w: nat, n: nat, v: int)
    requires HasShape(wepl, h, w) && HasShape(mask, h, w) && n <= h
    ensures multiset(Masked(wepl, mask, h, w, n))[v] == |PixelsWith(wepl, mask, h, w, n, v)|
  {
    if n == 0 {
      assert PixelsWith(wepl, mask, h, w, n, v) == {};
    } else {
      MaskedMultiplicity(wepl, mask, h, w, n - 1, v);
      MaskedRowMultiplicity(wepl[n - 1], mask[n - 1], v);
      PixelsWithSnoc(wepl, mask, h, w, n, v);
      var before, row := Masked(wepl, mask, h, w, n - 1), MaskedRow(wepl[n - 1], mask[n - 1]);
      assert Masked(wepl, mask, h, w, n) == before + row;
      assert multiset(before + row)[v] == multiset(before)[v] + multiset(row)[v];
    }
  }

  /** The pixels of n rows are those of n - 1 rows and those of row n - 1. */
  lemma PixelsWithSnoc(wepl: Grid<real>, mask: Grid<bool>, h: nat, w: nat, n: nat, v: int)
    requires HasShape(wepl, h, w) && HasShape(mask, h, w) && 0 < n <= h
    ensures |PixelsWith(wepl, mask, h, w, n, v)|
            == |PixelsWith(wepl, mask, h, w, n - 1, v)| + |CellsWith(wepl[n - 1], mask[n - 1], v)|
  {
    var cells := CellsWith(wepl[n - 1], mask[n - 1], v);
    var before := PixelsWith(wepl, mask, h, w, n - 1, v);
    var last := Tagged(n - 1, cells);
    TaggedSize(n - 1, cells);
    forall p: (nat, nat) ensures p in PixelsWith(wepl, mask, h, w, n, v) <==> p in before + last {
      if p.0 == n - 1 {
        assert p in last <==> p.1 in cells;
      }
    }
    assert PixelsWith(wepl, mask, h, w, n, v) == before + last;
    assert before * last == {};
  }

  // ---------------------------------------------------------------------
  // the data frame

  /** One row of `dfSum`. */
  datatype Sample = Sample(wepl: int, phase: string, structureIdx: nat, rotation: real)

  /** The data frame and the study date of the first slice loaded. */
  datatype DataFrame = DataFrame(rows: seq<Sample>, date: Option<string>)

  /** A series as the sweep sees it: its descriptions (`getAllDatesAndSeriesDescription`),
      its registration vector, its checked contours in structure order, its
      breathing-phase label, the referenced image UIDs and contour z positions. */
  datatype SeriesInput = SeriesInput(descriptions: set<string>, translation: Vec3, contours: seq<Contour>,
                                     amplitude: string, uids: seq<string>, zpositions: set<real>)

  /** The DICOM slice nearest z of series i (`loadImageFromPosZ`). */
  type Loader = (nat, real) -> SliceData

  /** `scipy.ndimage.rotate(image, angle, reshape=False, cval=-1000)`. */
  type Rotator = (Grid<int>, real) -> Grid<int>

  /** With `reshape=False` the rotated image has the shape of the original. */
  ghost predicate KeepsShape(rotate: Rotator)
  {
    forall g: Grid<int>, a: real {:trigger rotate(g, a)} :: HasShape(rotate(g, a), |g|, Width(g))
  }

  // ---------------------------------------------------------------------
  // appending loops

  /** The rows of steps 0 .. n-1 appended in order; the first step that
      fails aborts the loop with its fault. */
  function Gather<T>(step: nat -> Result<seq<T>>, n: nat): Result<seq<T>>
  {
    if n == 0 then Ok([])
    else
      match Gather(step, n - 1)
      case Err(e) => Err(e)
      case Ok(rows) =>
        match step(n - 1)
        case Err(e) => Err(e)
        case Ok(more) => Ok(rows + more)
  }

  lemma {:induction false} GatherErrSticks<T>(step: nat -> Result<seq<T>>, n: nat, m: nat)
    requires n <= m && Gather(step, n).Err?
    ensures Gather(step, m) == Gather(step, n)
    decreases m - n
  {
    if n < m {
      GatherErrSticks(step, n + 1, m);
    }
  }

  /** The loop succeeds exactly when every step does; otherwise it fails
      with the fault of the first step that fails. */
  lemma {:induction false} GatherOutcome<T>(step: nat -> Result<seq<T>>, n: nat)
    ensures Gather(step, n).Ok? <==> forall k :: 0 <= k < n ==> step(k).Ok?
    ensures forall k :: 0 <= k < n && step(k).Err? && (forall j :: 0 <= j < k ==> step(j).Ok?) ==>
      Gather(step, n) == Err(step(k).fault)
  {
    if n > 0 {
      GatherOutcome(step, n - 1);
      forall k | 0 <= k < n && step(k).Err? && (forall j :: 0 <= j < k ==> step(j).Ok?)
        ensures Gather(step, n) == Err(step(k).fault)
      {
        if k < n - 1 {
          GatherErrSticks(step, n - 1, n);
        }
      }
    }
  }

  /** Rows are only ever appended: the rows after k steps begin the rows
      after n >= k steps. */
  lemma {:induction false} GatherAppends<T>(step: nat -> Result<seq<T>>, k: nat, n: nat)
    requires k <= n && Gather(step, n).Ok?
    ensures Gather(step, k).Ok? && Gather(step, k).value <= Gather(step, n).value
    decreases n - k
  {
    if k < n {
      GatherAppends(step, k + 1, n);
    }
  }

  /** Every gathered row is a row of one of the steps. */
  lemma {:induction false} GatherRows<T>(step: nat -> Result<seq<T>>, n: nat, x: T)
    requires Gather(step, n).Ok? && x in Gather(step, n).value
    ensures exists k :: 0 <= k < n && step(k).Ok? && x in step(k).value
  {
    var rows := Gather(step, n - 1).value;
    if x in rows {
      GatherRows(step, n - 1, x);
    } else {
      assert step(n - 1).Ok? && x in step(n - 1).value;
    }
  }

  // ---------------------------------------------------------------------
  // the pipeline of one (slice, rotation)

  /** The rows appended for one contour: one per masked WEPL value. */
  function Labelled(values: seq<int>, phase: string, idx: nat, rot: real): (r: seq<Sample>)
    ensures |r| == |values|
    ensures forall i :: 0 <= i < |r| ==> r[i] == Sample(values[i], phase, idx, rot)
  {
    seq(|values|, i requires 0 <= i < |values| => Sample(values[i], phase, idx, rot))
  }

  /** The WEPL column of a list of samples. */
  function WeplColumn(rows: seq<Sample>): seq<int>
  {
    seq(|rows|, k requires 0 <= k < |rows| => rows[k].wepl)
  }

  /** Contour idx of one (slice, rotation): rasterised on the cropped image,
      its masked WEPL values labelled with the phase, idx and the rotation. */
  function ContourStep(c: seq<Point2>, image: Grid<int>, wepl: Grid<real>, phase: string, idx: nat, rot: real)
    : Result<seq<Sample>>
    requires |c| > 0
    requires HasShape(wepl, |image|, Width(image))
  {
    match ContourMask(Edges(c), BoxOf(c), |image|, Width(image))
    case Err(e) => Err(e)
    case Ok(mask) => Ok(Labelled(Masked(wepl, mask, |image|, Width(image), |image|), phase, idx, rot))
  }

  /** Contour idx adds one row per true pixel of its mask; each row carries
      the phase, idx and the rotation, and the truncated WEPL value of a
      masked pixel. Each value occurs in the WEPL column as often as there
      are masked pixels truncating to it. A contour whose mask fails fails
      the step. */
  lemma ContourStepRows(c: seq<Point2>, image: Grid<int>, wepl: Grid<real>, phase: string, idx: nat, rot: real)
    requires |c| > 0
    requires HasShape(wepl, |image|, Width(image))
    ensures var m := ContourMask(Edges(c), BoxOf(c), |image|, Width(image));
      var r := ContourStep(c, image, wepl, phase, idx, rot);
      (r.Ok? <==> m.Ok?) && (m.Err? ==> r.fault == m.fault) &&
      (m.Ok? ==> |r.value| == TrueCount(m.value, |image|) &&
                 (forall x :: x in r.value ==>
                    (x.phase == phase && x.structureIdx == idx && x.rotation == rot &&
                     MaskedPixel(wepl, m.value, |image|, Width(image), |image|, x.wepl))) &&
                 (forall v :: multiset(WeplColumn(r.value))[v] == |PixelsWith(wepl, m.value, |image|, Width(image), |image|, v)|))
  {
    var h, w := |image|, Width(image);
    var m := ContourMask(Edges(c), BoxOf(c), h, w);
    if m.Ok? {
      MaskedCount(wepl, m.value, h, w, h);
      MaskedValues(wepl, m.value, h, w, h);
      var values := Masked(wepl, m.value, h, w, h);
      var r := ContourStep(c, image, wepl, phase, idx, rot);
      assert WeplColumn(r.value) == values;
      forall v ensures multiset(WeplColumn(r.value))[v] == |PixelsWith(wepl, m.value, h, w, h, v)| {
        MaskedMultiplicity(wepl, m.value, h, w, h, v);
      }
    }
  }

  /** The steps of the contour loop, numbered from 0. */
  function ContourSteps(pts: seq<seq<Point2>>, image: Grid<int>, wepl: Grid<real>, phase: string, rot: real)
    : nat -> Result<seq<Sample>>
    requires forall k :: 0 <= k < |pts| ==> |pts[k]| > 0
    requires HasShape(wepl, |image|, Width(image))
  {
    (k: nat) => if k < |pts| then ContourStep(pts[k], image, wepl, phase, k, rot) else Ok([])
  }

  /** steps agrees with `ContourStep` on every contour. */
  ghost predicate AreContourSteps(steps: nat -> Result<seq<Sample>>, pts: seq<seq<Point2>>, image: Grid<int>,
                                  wepl: Grid<real>, phase: string, rot: real)
    requires forall k :: 0 <= k < |pts| ==> |pts[k]| > 0
    requires HasShape(wepl, |image|, Width(image))
  {
    forall k: nat {:trigger ContourStep(pts[k], image, wepl, phase, k, rot)} :: k < |pts| ==>
      steps(k) == ContourStep(pts[k], image, wepl, phase, k, rot)
  }

  lemma ContourStepsAreContourSteps(pts: seq<seq<Point2>>, image: Grid<int>, wepl: Grid<real>, phase: string, rot: real)
    requires forall k :: 0 <= k < |pts| ==> |pts[k]| > 0
    requires HasShape(wepl, |image|, Width(image))
    ensures AreContourSteps(ContourSteps(pts, image, wepl, phase, rot), pts, image, wepl, phase, rot)
  {
  }

  /** The image one (slice, rotation) is measured on: the cropped image,
      its WEPL map and the column offset of the crop. */
  datatype Preparation = Preparation(image: Grid<int>, wepl: Grid<real>, xOffset: int)

  /** The frame of the rotated, uncropped image of a slice. */
  function SliceFrame(slice: SliceData, translation: Vec3, rot: real): PixelFrame
  {
    PixelFrame(slice.pixelSpacing, slice.origin, translation, rot, Centre(slice.pixels), 0)
  }

  /** The extents of the contours on the slice, in the frame of the rotated
      image, widened from the unset extents (`recalculateContourBounds`
      after `resetImage`). */
  function SliceExtents(slice: SliceData, zpos: real, translation: Vec3, contours: seq<Contour>,
                        rot: real, spin: Spin): Result<Extents>
  {
    match ImageCoordinates(contours, zpos, SliceFrame(slice, translation, rot), spin)
    case Err(e) => Err(e)
    case Ok(pts) => Ok(Widen(Unset, pts, |pts|))
  }

  /** `reduceImageSize(pad)`, `convertImageToRSP` and `convertImageToWEPL`
      on an image with the given extents. */
  function Measured(image: Grid<int>, bounds: Extents, ps: real): (r: Preparation)
    ensures HasShape(r.wepl, |r.image|, Width(r.image))
  {
    var cropped := Crop(image, CropX(bounds, Pad), CropY(bounds, Pad));
    var rsp := RspGrid(cropped);
    WeplIsPrefixSum(rsp, ps);
    Preparation(cropped, WeplGrid(rsp, ps), CropX(bounds, Pad).0)
  }

  /** The first part of the pipeline for one (slice, rotation), in the order
      the sweep runs it: reset with reload, rotate, recompute the extents
      from the contours on the slice, crop with the pad, convert to RSP and
      WEPL. */
  function Prepared(slice: SliceData, zpos: real, translation: Vec3, contours: seq<Contour>,
                    rot: real, rotate: Rotator, spin: Spin): (r: Result<Preparation>)
    ensures r.Ok? ==> HasShape(r.value.wepl, |r.value.image|, Width(r.value.image))
  {
    match SliceExtents(slice, zpos, translation, contours, rot, spin)
    case Err(e) => Err(e)
    case Ok(bounds) =>
      Ok(Measured(rotate(Rescaled(slice.pixels, slice.rescaleIntercept), rot), bounds, slice.pixelSpacing))
  }

  /** The pipeline for one (slice, rotation): prepare the image, map the
      contours into the cropped image and collect each contour's samples. */
  function UnitRows(slice: SliceData, zpos: real, translation: Vec3, contours: seq<Contour>, phase: string,
                    rot: real, rotate: Rotator, spin: Spin): Result<seq<Sample>>
  {
    match Prepared(slice, zpos, translation, contours, rot, rotate, spin)
    case Err(e) => Err(e)
    case Ok(p) =>
      match ImageCoordinates(contours, zpos, SliceFrame(slice, translation, rot).(xOffset := p.xOffset), spin)
      case Err(e) => Err(e)
      case Ok(pts) => Gather(ContourSteps(pts, p.image, p.wepl, phase, rot), |pts|)
  }

  /** Every row of one (slice, rotation) carries the series' phase, the
      rotation, and the index of one of the contours on the slice. */
  lemma UnitRowsLabels(slice: SliceData, zpos: real, translation: Vec3, contours: seq<Contour>, phase: string,
                       rot: real, rotate: Rotator, spin: Spin)
    ensures var r := UnitRows(slice, zpos, translation, contours, phase, rot, rotate, spin);
      r.Ok? ==>
        (forall k :: 0 <= k < |contours| ==> |contours[k]| > 0) &&
        (forall x :: x in r.value ==> x.phase == phase && x.rotation == rot && x.structureIdx < |OnSlice(contours, zpos)|)
  {
    var r := UnitRows(slice, zpos, translation, contours, phase, rot, rotate, spin);
    if r.Ok? {
      var p := Prepared(slice, zpos, translation, contours, rot, rotate, spin).value;
      var pts := ImageCoordinates(contours, zpos, SliceFrame(slice, translation, rot).(xOffset := p.xOffset), spin).value;
      var steps := ContourSteps(pts, p.image, p.wepl, phase, rot);
      forall x | x in r.value
        ensures x.phase == phase && x.rotation == rot && x.structureIdx < |pts|
      {
        GatherRows(steps, |pts|, x);
        var k :| 0 <= k < |pts| && steps(k).Ok? && x in steps(k).value;
        ContourStepRows(pts[k], p.image, p.wepl, phase, k, rot);
      }
    }
  }

  /** What one (slice, rotation) of a series contributes to the data frame,
      given the series, the loaded slice, its z position and the rotation. */
  type UnitFn = (SeriesInput, SliceData, real, real) -> Result<seq<Sample>>

  /** The pipeline `UnitRows` as a unit function. */
  function Pipeline(rotate: Rotator, spin: Spin): UnitFn
  {
    (s: SeriesInput, slice: SliceData, zpos: real, rot: real) =>
      UnitRows(slice, zpos, s.translation, s.contours, s.amplitude, rot, rotate, spin)
  }

  /** unit agrees with the pipeline `UnitRows` on every argument. */
  ghost predicate IsPipeline(unit: UnitFn, rotate: Rotator, spin: Spin)
  {
    forall s: SeriesInput, slice: SliceData, zpos: real, rot: real
      {:trigger UnitRows(slice, zpos, s.translation, s.contours, s.amplitude, rot, rotate, spin)} ::
      unit(s, slice, zpos, rot) == UnitRows(slice, zpos, s.translation, s.contours, s.amplitude, rot, rotate, spin)
  }

  lemma PipelineIsPipeline(rotate: Rotator, spin: Spin)
    ensures IsPipeline(Pipeline(rotate, spin), rotate, spin)
  {
  }

  // ---------------------------------------------------------------------
  // the loops of makeDataFrame

  /** The steps of the rotation loop of one slice. */
  function RotationSteps(slice: SliceData, zpos: real, s: SeriesInput, rotations: seq<real>, unit: UnitFn)
    : nat -> Result<seq<Sample>>
  {
    (j: nat) => if j < |rotations| then unit(s, slice, zpos, rotations[j]) else Ok([])
  }

  /** UID u of series i: the u-th UID is positioned at the u-th smallest
      contour z position zs[u], when there is one, and every rotation runs
      on the slice loaded there. */
  function SliceStep(s: SeriesInput, i: nat, zs: seq<real>, rotations: seq<real>, load: Loader, unit: UnitFn, u: nat)
    : Result<seq<Sample>>
  {
    if u >= |zs| then Err(TooFewSlicePositions)
    else Gather(RotationSteps(load(i, zs[u]), zs[u], s, rotations, unit), |rotations|)
  }

  /** The steps of the UID loop of series i. */
  function SliceSteps(s: SeriesInput, i: nat, zs: seq<real>, rotations: seq<real>, load: Loader, unit: UnitFn)
    : nat -> Result<seq<Sample>>
  {
    (u: nat) => SliceStep(s, i, zs, rotations, load, unit, u)
  }

  /** steps agrees with `SliceStep` on every UID. */
  ghost predicate AreSliceSteps(steps: nat -> Result<seq<Sample>>, s: SeriesInput, i: nat, zs: seq<real>,
                                rotations: seq<real>, load: Loader, unit: UnitFn)
  {
    forall u: nat {:trigger SliceStep(s, i, zs, rotations, load, unit, u)} ::
      steps(u) == SliceStep(s, i, zs, rotations, load, unit, u)
  }

  lemma SliceStepsAreSliceSteps(s: SeriesInput, i: nat, zs: seq<real>, rotations: seq<real>, load: Loader, unit: UnitFn)
    ensures AreSliceSteps(SliceSteps(s, i, zs, rotations, load, unit), s, i, zs, rotations, load, unit)
  {
  }

  /** `if not thisDate: thisDate = s.ds.StudyDate`. */
  function NextDate(date: Option<string>, slice: SliceData): Option<string>
  {
    if date.Some? && date.value != "" then date else Some(slice.studyDate)
  }

  /** The date after the first n UIDs of series i. */
  function SeriesDate(date: Option<string>, i: nat, zs: seq<real>, load: Loader, n: nat): Option<string>
  {
    if n == 0 then date
    else
      var d := SeriesDate(date, i, zs, load, n - 1);
      if n - 1 < |zs| then NextDate(d, load(i, zs[n - 1])) else d
  }

  /** acc with rows appended and the date replaced, unless rows failed. */
  function Appended(acc: DataFrame, rows: Result<seq<Sample>>, date: Option<string>): Result<DataFrame>
  {
    match rows
    case Err(e) => Err(e)
    case Ok(more) => Ok(DataFrame(acc.rows + more, date))
  }

  /** Series i of the sweep, appended to acc. */
  function SeriesRows(acc: DataFrame, s: SeriesInput, i: nat, rotations: seq<real>, load: Loader, unit: UnitFn)
    : Result<DataFrame>
  {
    var zs := SortedElems(s.zpositions);
    Appended(acc, Gather(SliceSteps(s, i, zs, rotations, load, unit), |s.uids|), SeriesDate(acc.date, i, zs, load, |s.uids|))
  }

  /** The series loop of `makeDataFrame` over the first n series; series
      outside the reduced collection are skipped. */
  function FrameRows(series: seq<SeriesInput>, reduced: seq<nat>, rotations: seq<real>, n: nat,
                     load: Loader, unit: UnitFn): Result<DataFrame>
    requires n <= |series|
  {
    if n == 0 then Ok(DataFrame([], None))
    else
      match FrameRows(series, reduced, rotations, n - 1, load, unit)
      case Err(e) => Err(e)
      case Ok(df) =>
        if n - 1 !in reduced then Ok(df)
        else SeriesRows(df, series[n - 1], n - 1, rotations, load, unit)
  }

  function Descriptions(series: seq<SeriesInput>): (r: seq<set<string>>)
    ensures |r| == |series|
  {
    seq(|series|, i requires 0 <= i < |series| => series[i].descriptions)
  }

  /** The whole of `makeDataFrame`. */
  function DataFrameOf(series: seq<SeriesInput>, selected: set<string>, rotations: seq<real>,
                       load: Loader, rotate: Rotator, spin: Spin): Result<DataFrame>
  {
    FrameRows(series, Reduced(Descriptions(series), selected, |series|), rotations, |series|, load, Pipeline(rotate, spin))
  }

  lemma {:induction false} FrameRowsErrSticks(series: seq<SeriesInput>, reduced: seq<nat>, rotations: seq<real>,
                                              n: nat, m: nat, load: Loader, unit: UnitFn)
    requires n <= m <= |series|
    requires FrameRows(series, reduced, rotations, n, load, unit).Err?
    ensures FrameRows(series, reduced, rotations, m, load, unit) == FrameRows(series, reduced, rotations, n, load, unit)
    decreases m - n
  {
    if n < m {
      FrameRowsErrSticks(series, reduced, rotations, n + 1, m, load, unit);
    }
  }

  /** One more series: skipped when outside the reduced collection, appended otherwise. */
  lemma FrameRowsStep(series: seq<SeriesInput>, reduced: seq<nat>, rotations: seq<real>, n: nat,
                      load: Loader, unit: UnitFn, df: DataFrame)
    requires n < |series| && FrameRows(series, reduced, rotations, n, load, unit) == Ok(df)
    ensures FrameRows(series, reduced, rotations, n + 1, load, unit)
         == if n in reduced then SeriesRows(df, series[n], n, rotations, load, unit) else Ok(df)
  {
  }

  /** unit labels its rows with the series' phase, the rotation it was
      given and the index of one of the series' contours. */
  ghost predicate LabelsRows(unit: UnitFn)
  {
    forall s: SeriesInput, slice: SliceData, zpos: real, rot: real {:trigger unit(s, slice, zpos, rot)} ::
      unit(s, slice, zpos, rot).Ok? ==>
        forall x :: x in unit(s, slice, zpos, rot).value ==>
          x.phase == s.amplitude && x.rotation == rot && x.structureIdx < |s.contours|
  }

  lemma PipelineLabelsRows(rotate: Rotator, spin: Spin)
    ensures LabelsRows(Pipeline(rotate, spin))
  {
    var unit := Pipeline(rotate, spin);
    forall s: SeriesInput, slice: SliceData, zpos: real, rot: real | unit(s, slice, zpos, rot).Ok?
      ensures forall x :: x in unit(s, slice, zpos, rot).value ==>
                x.phase == s.amplitude && x.rotation == rot && x.structureIdx < |s.contours|
    {
      UnitRowsLabels(slice, zpos, s.translation, s.contours, s.amplitude, rot, rotate, spin);
    }
  }

  /** The rows of one UID carry the series' phase and one of the rotations. */
  lemma SliceStepLabels(s: SeriesInput, i: nat, zs: seq<real>, rotations: seq<real>, load: Loader, unit: UnitFn, u: nat)
    requires LabelsRows(unit)
    ensures var r := SliceStep(s, i, zs, rotations, load, unit, u);
      r.Ok? ==> forall x :: x in r.value ==>
        x.phase == s.amplitude && x.rotation in rotations && x.structureIdx < |s.contours|
  {
    var r := SliceStep(s, i, zs, rotations, load, unit, u);
    if r.Ok? {
      var steps := RotationSteps(load(i, zs[u]), zs[u], s, rotations, unit);
      forall x | x in r.value
        ensures x.phase == s.amplitude && x.rotation in rotations && x.structureIdx < |s.contours|
      {
        GatherRows(steps, |rotations|, x);
        var j :| 0 <= j < |rotations| && steps(j).Ok? && x in steps(j).value;
        var rows := unit(s, load(i, zs[u]), zs[u], rotations[j]);
        assert rows.Ok? && x in rows.value;
        assert x.rotation == rotations[j];
        assert x.phase == s.amplitude;
      }
    }
  }

  /** A series appends to the rows so far, and every row it appends carries
      its phase and one of the rotations. */
  lemma SeriesRowsLabels(acc: DataFrame, s: SeriesInput, i: nat, rotations: seq<real>, load: Loader, unit: UnitFn)
    requires LabelsRows(unit)
    ensures var r := SeriesRows(acc, s, i, rotations, load, unit);
      r.Ok? ==>
        acc.rows <= r.value.rows &&
        (forall x :: x in r.value.rows ==>
           (x in acc.rows || (x.phase == s.amplitude && x.rotation in rotations && x.structureIdx < |s.contours|)))
  {
    var zs := SortedElems(s.zpositions);
    var steps := SliceSteps(s, i, zs, rotations, load, unit);
    var r := SeriesRows(acc, s, i, rotations, load, unit);
    if r.Ok? {
      var more := Gather(steps, |s.uids|).value;
      assert r.value.rows == acc.rows + more;
      forall x | x in more
        ensures x.phase == s.amplitude && x.rotation in rotations && x.structureIdx < |s.contours|
      {
        GatherRows(steps, |s.uids|, x);
        var u :| 0 <= u < |s.uids| && steps(u).Ok? && x in steps(u).value;
        SliceStepLabels(s, i, zs, rotations, load, unit, u);
        var rows := SliceStep(s, i, zs, rotations, load, unit, u);
        assert rows.Ok? && x in rows.value;
      }
    }
  }

  /** A series with more referenced UIDs than contour z positions fails
      (`zposList[idxUID]` out of range). */
  lemma SeriesRowsTooFewPositions(acc: DataFrame, s: SeriesInput, i: nat, rotations: seq<real>, load: Loader, unit: UnitFn)
    requires |s.uids| > |s.zpositions|
    ensures SeriesRows(acc, s, i, rotations, load, unit).Err?
  {
    var zs := SortedElems(s.zpositions);
    var steps := SliceSteps(s, i, zs, rotations, load, unit);
    GatherOutcome(steps, |s.uids|);
    assert steps(|zs|).Err?;
  }

  /** Once set to a non-empty date, the date is kept. */
  lemma {:induction false} SeriesDateKept(d: string, i: nat, zs: seq<real>, load: Loader, n: nat)
    requires d != ""
    ensures SeriesDate(Some(d), i, zs, load, n) == Some(d)
  {
    if n > 0 {
      SeriesDateKept(d, i, zs, load, n - 1);
    }
  }

  /** Without a date so far, the date is the study date of the first slice,
      when that is not empty. */
  lemma {:induction false} SeriesDateOfFirstSlice(date: Option<string>, i: nat, zs: seq<real>, load: Loader, n: nat)
    requires date.None? || date.value == ""
    requires 0 < n && 0 < |zs| && load(i, zs[0]).studyDate != ""
    ensures SeriesDate(date, i, zs, load, n) == Some(load(i, zs[0]).studyDate)
  {
    if n > 1 {
      SeriesDateOfFirstSlice(date, i, zs, load, n - 1);
      SeriesDateKept(load(i, zs[0]).studyDate, i, zs, load, n - 1);
    }
  }

  /** Every row of the data frame comes from a series in the reduced
      collection: it carries that series' phase, one of the rotations and
      the index of one of that series' contours. */
  lemma {:induction false} FrameRowsLabels(series: seq<SeriesInput>, reduced: seq<nat>, rotations: seq<real>, n: nat,
                                           load: Loader, unit: UnitFn)
    requires n <= |series| && LabelsRows(unit)
    ensures var r := FrameRows(series, reduced, rotations, n, load, unit);
      r.Ok? ==> forall x :: x in r.value.rows ==> FromReduced(series, reduced, rotations, n, x)
  {
    if n > 0 {
      FrameRowsLabels(series, reduced, rotations, n - 1, load, unit);
      var prev := FrameRows(series, reduced, rotations, n - 1, load, unit);
      var r := FrameRows(series, reduced, rotations, n, load, unit);
      if prev.Err? {
        FrameRowsErrSticks(series, reduced, rotations, n - 1, n, load, unit);
      } else if r.Ok? {
        FrameRowsStep(series, reduced, rotations, n - 1, load, unit, prev.value);
        if n - 1 in reduced {
          SeriesRowsLabels(prev.value, series[n - 1], n - 1, rotations, load, unit);
        }
        forall x | x in r.value.rows ensures FromReduced(series, reduced, rotations, n, x) {
          if x in prev.value.rows {
            assert FromReduced(series, reduced, rotations, n - 1, x);
          } else {
            assert n - 1 in reduced && x.phase == series[n - 1].amplitude;
          }
        }
      }
    }
  }

  /** x carries the phase and a contour index of a series among the first n
      of the reduced collection, and one of the rotations. */
  ghost predicate FromReduced(series: seq<SeriesInput>, reduced: seq<nat>, rotations: seq<real>, n: nat, x: Sample)
    requires n <= |series|
  {
    x.rotation in rotations &&
    exists i :: 0 <= i < n && i in reduced && x.phase == series[i].amplitude && x.structureIdx < |series[i].contours|
  }

  /** Rows are only appended: the rows after k series begin the rows after n >= k. */
  lemma {:induction false} FrameRowsAppend(series: seq<SeriesInput>, reduced: seq<nat>, rotations: seq<real>,
                                           k: nat, n: nat, load: Loader, unit: UnitFn)
    requires k <= n <= |series|
    requires FrameRows(series, reduced, rotations, n, load, unit).Ok?
    ensures FrameRows(series, reduced, rotations, k, load, unit).Ok?
    ensures FrameRows(series, reduced, rotations, k, load, unit).value.rows
         <= FrameRows(series, reduced, rotations, n, load, unit).value.rows
    decreases n - k
  {
    if k < n {
      FrameRowsAppend(series, reduced, rotations, k + 1, n, load, unit);
      var prev := FrameRows(series, reduced, rotations, k, load, unit);
      if prev.Err? {
        FrameRowsErrSticks(series, reduced, rotations, k, n, load, unit);
      }
    }
  }

  /** Once a non-empty study date is recorded, later series keep it. */
  lemma {:induction false} FrameRowsDateKept(series: seq<SeriesInput>, reduced: seq<nat>, rotations: seq<real>,
                                             k: nat, n: nat, load: Loader, unit: UnitFn, d: string)
    requires k <= n <= |series| && d != ""
    requires FrameRows(series, reduced, rotations, k, load, unit) .Ok?
    requires FrameRows(series, reduced, rotations, k, load, unit).value.date == Some(d)
    ensures FrameRows(series, reduced, rotations, n, load, unit).Ok? ==>
      FrameRows(series, reduced, rotations, n, load, unit).value.date == Some(d)
    decreases n - k
  {
    if k < n {
      var prev := FrameRows(series, reduced, rotations, k, load, unit).value;
      if k in reduced {
        var s := series[k];
        SeriesDateKept(d, k, SortedElems(s.zpositions), load, |s.uids|);
      }
      var next := FrameRows(series, reduced, rotations, k + 1, load, unit);
      if next.Ok? {
        FrameRowsDateKept(series, reduced, rotations, k + 1, n, load, unit, d);
      } else {
        FrameRowsErrSticks(series, reduced, rotations, k + 1, n, load, unit);
      }
    }
  }

  /** Series outside the reduced collection play no part: two collections
      that agree on the reduced series give the same data frame. */
  lemma {:induction false} FrameIgnoresUnreduced(series: seq<SeriesInput>, other: seq<SeriesInput>, reduced: seq<nat>,
                                                 rotations: seq<real>, n: nat, load: Loader, unit: UnitFn)
    requires n <= |series| && n <= |other|
    requires forall i :: 0 <= i < n && i in reduced ==> series[i] == other[i]
    ensures FrameRows(series, reduced, rotations, n, load, unit) == FrameRows(other, reduced, rotations, n, load, unit)
  {
    if n > 0 {
      FrameIgnoresUnreduced(series, other, reduced, rotations, n - 1, load, unit);
    }
  }

  /** A series in the reduced collection with more UIDs than contour z
      positions makes the whole sweep fail. */
  lemma FrameRowsTooFewPositions(series: seq<SeriesInput>, reduced: seq<nat>, rotations: seq<real>, n: nat,
                                 load: Loader, unit: UnitFn, i: nat)
    requires i < n <= |series| && i in reduced
    requires |series[i].uids| > |series[i].zpositions|
    ensures FrameRows(series, reduced, rotations, n, load, unit).Err?
  {
    var prev := FrameRows(series, reduced, rotations, i, load, unit);
    if prev.Ok? {
      SeriesRowsTooFewPositions(prev.value, series[i], i, rotations, load, unit);
    }
    FrameRowsErrSticks(series, reduced, rotations, i + 1, n, load, unit);
  }

  /** The reduced collection depends only on which series carry a selected description. */
  lemma {:induction false} ReducedBySelection(descriptions: seq<set<string>>, other: seq<set<string>>, selected: set<string>, n: nat)
    requires n <= |descriptions| && n <= |other|
    requires forall i :: 0 <= i < n ==> (descriptions[i] * selected != {} <==> other[i] * selected != {})
    ensures Reduced(descriptions, selected, n) == Reduced(other, selected, n)
  {
    if n > 0 {
      ReducedBySelection(descriptions, other, selected, n - 1);
    }
  }

  /** Every row of `makeDataFrame`'s frame comes from a series with a
      selected description: it carries that series' phase and the index of
      one of its contours, and one of the rotations. */
  lemma DataFrameLabels(series: seq<SeriesInput>, selected: set<string>, rotations: seq<real>,
                        load: Loader, rotate: Rotator, spin: Spin)
    ensures var r := DataFrameOf(series, selected, rotations, load, rotate, spin);
      r.Ok? ==> forall x :: x in r.value.rows ==>
        (x.rotation in rotations &&
         exists i :: 0 <= i < |series| && series[i].descriptions * selected != {} &&
                     x.phase == series[i].amplitude && x.structureIdx < |series[i].contours|)
  {
    var reduced := Reduced(Descriptions(series), selected, |series|);
    ReducedSelects(Descriptions(series), selected, |series|);
    PipelineLabelsRows(rotate, spin);
    FrameRowsLabels(series, reduced, rotations, |series|, load, Pipeline(rotate, spin));
  }

  /** Series without a selected description do not affect the frame. */
  lemma DataFrameIgnoresUnselected(series: seq<SeriesInput>, other: seq<SeriesInput>, selected: set<string>,
                                   rotations: seq<real>, load: Loader, rotate: Rotator, spin: Spin)
    requires |series| == |other|
    requires forall i :: 0 <= i < |series| ==>
      (series[i].descriptions * selected != {} <==> other[i].descriptions * selected != {})
    requires forall i :: 0 <= i < |series| && series[i].descriptions * selected != {} ==> series[i] == other[i]
    ensures DataFrameOf(series, selected, rotations, load, rotate, spin) == DataFrameOf(other, selected, rotations, load, rotate, spin)
  {
    var n := |series|;
    ReducedBySelection(Descriptions(series), Descriptions(other), selected, n);
    var reduced := Reduced(Descriptions(series), selected, n);
    ReducedSelects(Descriptions(series), selected, n);
    FrameIgnoresUnreduced(series, other, reduced, rotations, n, load, Pipeline(rotate, spin));
  }

  /** A selected series with more UIDs than contour z positions makes
      `makeDataFrame` fail. */
  lemma DataFrameTooFewPositions(series: seq<SeriesInput>, selected: set<string>, rotations: seq<real>,
                                 load: Loader, rotate: Rotator, spin: Spin, i: nat)
    requires i < |series| && series[i].descriptions * selected != {}
    requires |series[i].uids| > |series[i].zpositions|
    ensures DataFrameOf(series, selected, rotations, load, rotate, spin).Err?
  {
    ReducedSelects(Descriptions(series), selected, |series|);
    FrameRowsTooFewPositions(series, Reduced(Descriptions(series), selected, |series|), rotations, |series|,
                             load, Pipeline(rotate, spin), i);
  }

  /** The contour loop of one (slice, rotation), for steps equal to `ContourStep`. */
  method ContourSamples(pts: seq<seq<Point2>>, image: Grid<int>, wepl: Grid<real>, phase: string, rot: real,
                        ghost steps: nat -> Result<seq<Sample>>)
    returns (r: Result<seq<Sample>>)
    requires forall k :: 0 <= k < |pts| ==> |pts[k]| > 0
    requires HasShape(wepl, |image|, Width(image))
    requires AreContourSteps(steps, pts, image, wepl, phase, rot)
    ensures r == Gather(steps, |pts|)
  {
    var rows: seq<Sample> := [];
    var idx := 0;
    while idx < |pts|
      invariant 0 <= idx <= |pts|
      invariant Gather(steps, idx) == Ok(rows)
    {
      var more := ContourSample(pts, image, wepl, phase, idx, rot, steps);
      if more.Err? {
        GatherErrSticks(steps, idx + 1, |pts|);
        return more;
      }
      rows := rows + more.value;
      idx := idx + 1;
    }
    return Ok(rows);
  }

  /** Contour idx: a new `LinearContour` through its points, rasterised on
      the cropped image; its masked WEPL values labelled with idx. */
  method ContourSample(pts: seq<seq<Point2>>, image: Grid<int>, wepl: Grid<real>, phase: string, idx: nat, rot: real,
                       ghost steps: nat -> Result<seq<Sample>>)
    returns (r: Result<seq<Sample>>)
    requires idx < |pts| && forall k :: 0 <= k < |pts| ==> |pts[k]| > 0
    requires HasShape(wepl, |image|, Width(image))
    requires AreContourSteps(steps, pts, image, wepl, phase, rot)
    ensures r == steps(idx)
  {
    var linearContour := new LinearContour();
    var ok := linearContour.AddLines(pts[idx]);
    assert [] + Edges(pts[idx]) == Edges(pts[idx]);
    var pixelContourMap := linearContour.GetListOfPixelsInContour(image);
    if pixelContourMap.Err? {
      r := Err(pixelContourMap.fault);
    } else {
      var weplImageBinned := Masked(wepl, pixelContourMap.value, |image|, Width(image), |image|);
      r := Ok(Labelled(weplImageBinned, phase, idx, rot));
    }
    assert r == ContourStep(pts[idx], image, wepl, phase, idx, rot);
  }

  /** The first part of one (slice, rotation), run on the series object:
      `resetImage`, `rotateImage`, `recalculateContourBounds`, then the crop
      and the conversions. */
  method PrepareImage(s: Series, rot: real, rotate: Rotator, spin: Spin) returns (r: Result<Preparation>)
    requires s.ds.Some? && KeepsShape(rotate)
    modifies s
    ensures s.ds == old(s.ds) && s.zpos == old(s.zpos)
    ensures r == Prepared(s.ds.value, s.zpos, s.translation, s.contours, rot, rotate, spin)
    ensures r.Ok? ==> s.image == Some(r.value.image)
                      && s.Frame() == SliceFrame(s.ds.value, s.translation, rot).(xOffset := r.value.xOffset)
  {
    s.ResetImage(true);
    s.RotateImage(rot, rotate(s.image.value, rot));
    assert s.Frame() == SliceFrame(s.ds.value, s.translation, rot);
    var bounded := s.RecalculateContourBounds(spin);
    if bounded.Err? {
      return Err(bounded.fault);
    }
    assert SliceExtents(s.ds.value, s.zpos, s.translation, s.contours, rot, spin) == Ok(s.Bounds());
    r := MeasureImage(s);
  }

  /** `reduceImageSize(pad)`, `convertImageToRSP`, `convertImageToWEPL`. */
  method MeasureImage(s: Series) returns (r: Result<Preparation>)
    requires s.ds.Some? && s.image.Some?
    modifies s
    ensures s.ds == old(s.ds) && s.zpos == old(s.zpos) && s.dicomRotation == old(s.dicomRotation)
    ensures r == Ok(Measured(old(s.image.value), old(s.Bounds()), s.ds.value.pixelSpacing))
    ensures s.image == Some(r.value.image) && s.xbounds.0 == r.value.xOffset
  {
    s.ReduceImageSize(Pad);
    var rsp := s.ConvertImageToRSP();
    var wepl := s.ConvertImageToWEPL();
    return Ok(Preparation(s.image.value, wepl, s.xbounds.0));
  }

  /** One (slice, rotation) of the sweep, run on the series object: the
      pipeline `UnitRows`, reached through a unit function equal to it. */
  method ProcessRotation(s: Series, rot: real, rotate: Rotator, spin: Spin, ghost input: SeriesInput, ghost unit: UnitFn)
    returns (r: Result<seq<Sample>>)
    requires s.ds.Some? && IsPipeline(unit, rotate, spin) && KeepsShape(rotate)
    requires s.translation == input.translation && s.contours == input.contours && s.amplitude == input.amplitude
    modifies s
    ensures s.ds == old(s.ds) && s.zpos == old(s.zpos)
    ensures r == unit(input, s.ds.value, s.zpos, rot)
  {
    var prepared := PrepareImage(s, rot, rotate, spin);
    if prepared.Err? {
      r := Err(prepared.fault);
    } else {
      var contours := s.GetStructuresInImageCoordinates(spin);
      if contours.Err? {
        r := Err(contours.fault);
      } else {
        ContourStepsAreContourSteps(contours.value, s.image.value, prepared.value.wepl, s.amplitude, rot);
        r := ContourSamples(contours.value, s.image.value, prepared.value.wepl, s.amplitude, rot,
                            ContourSteps(contours.value, s.image.value, prepared.value.wepl, s.amplitude, rot));
      }
    }
    assert r == UnitRows(s.ds.value, s.zpos, s.translation, s.contours, s.amplitude, rot, rotate, spin);
  }

  /** The rotation loop of one slice, loaded into the series object. */
  method ProcessSlice(s: Series, slice: SliceData, z: real, input: SeriesInput, rotations: seq<real>,
                      rotate: Rotator, spin: Spin, ghost unit: UnitFn) returns (r: Result<seq<Sample>>)
    requires s.ds == Some(slice) && s.zpos == z && IsPipeline(unit, rotate, spin) && KeepsShape(rotate)
    requires s.translation == input.translation && s.contours == input.contours && s.amplitude == input.amplitude
    modifies s
    ensures r == Gather(RotationSteps(slice, z, input, rotations, unit), |rotations|)
  {
    ghost var units := RotationSteps(slice, z, input, rotations, unit);
    var rows: seq<Sample> := [];
    var j := 0;
    while j < |rotations|
      invariant 0 <= j <= |rotations|
      invariant s.ds == Some(slice) && s.zpos == z
      invariant Gather(units, j) == Ok(rows)
    {
      var more := ProcessRotation(s, rotations[j], rotate, spin, input, unit);
      if more.Err? {
        GatherErrSticks(units, j + 1, |rotations|);
        return more;
      }
      rows := rows + more.value;
      j := j + 1;
    }
    return Ok(rows);
  }

  /** One series: its contour z positions sorted, then the UID loop. */
  method ProcessSeries(s: Series, i: nat, input: SeriesInput, rotations: seq<real>, acc: DataFrame,
                       load: Loader, rotate: Rotator, spin: Spin, ghost unit: UnitFn) returns (r: Result<DataFrame>)
    requires IsPipeline(unit, rotate, spin) && KeepsShape(rotate)
    requires s.translation == input.translation && s.contours == input.contours && s.amplitude == input.amplitude
    modifies s
    ensures r == SeriesRows(acc, input, i, rotations, load, unit)
  {
    var zposList := SortedElems(input.zpositions);
    SliceStepsAreSliceSteps(input, i, zposList, rotations, load, unit);
    r := ProcessUIDs(s, i, input, zposList, rotations, acc, load, rotate, spin, unit,
                     SliceSteps(input, i, zposList, rotations, load, unit));
  }

  /** The UID loop of one series: load the slice at each sorted z position,
      record the first study date, then run every rotation. */
  method ProcessUIDs(s: Series, i: nat, input: SeriesInput, zposList: seq<real>, rotations: seq<real>, acc: DataFrame,
                     load: Loader, rotate: Rotator, spin: Spin, ghost unit: UnitFn, ghost steps: nat -> Result<seq<Sample>>)
    returns (r: Result<DataFrame>)
    requires IsPipeline(unit, rotate, spin) && KeepsShape(rotate)
    requires AreSliceSteps(steps, input, i, zposList, rotations, load, unit)
    requires s.translation == input.translation && s.contours == input.contours && s.amplitude == input.amplitude
    modifies s
    ensures r == Appended(acc, Gather(steps, |input.uids|), SeriesDate(acc.date, i, zposList, load, |input.uids|))
  {
    ghost var gathered: seq<Sample> := [];
    var df := acc;
    var idxUID := 0;
    while idxUID < |input.uids|
      invariant 0 <= idxUID <= |input.uids|
      invariant Gather(steps, idxUID) == Ok(gathered)
      invariant df == DataFrame(acc.rows + gathered, SeriesDate(acc.date, i, zposList, load, idxUID))
    {
      if idxUID >= |zposList| {
        assert steps(idxUID) == SliceStep(input, i, zposList, rotations, load, unit, idxUID);
        GatherErrSticks(steps, idxUID + 1, |input.uids|);
        return Err(TooFewSlicePositions);
      }
      var z := zposList[idxUID];
      var slice := load(i, z);
      s.LoadImageFromPosZ(z, slice);
      var thisDate := NextDate(df.date, slice);
      var rows := ProcessSlice(s, slice, z, input, rotations, rotate, spin, unit);
      assert steps(idxUID) == SliceStep(input, i, zposList, rotations, load, unit, idxUID);
      if rows.Err? {
        GatherErrSticks(steps, idxUID + 1, |input.uids|);
        return Err(rows.fault);
      }
      gathered := gathered + rows.value;
      df := DataFrame(df.rows + rows.value, thisDate);
      idxUID := idxUID + 1;
    }
    return Ok(df);
  }

  /** The series loop of `makeDataFrame`, for a unit function equal to the pipeline. */
  method SweepCollection(series: seq<SeriesInput>, selected: set<string>, rotations: seq<real>,
                         load: Loader, rotate: Rotator, spin: Spin, ghost unit: UnitFn) returns (r: Result<DataFrame>)
    requires IsPipeline(unit, rotate, spin) && KeepsShape(rotate)
    ensures r == FrameRows(series, Reduced(Descriptions(series), selected, |series|), rotations, |series|, load, unit)
  {
    var reduced := MakeReducedImageCollection(Descriptions(series), selected);
    var dfSum := DataFrame([], None);
    var icIdx := 0;
    while icIdx < |series|
      invariant 0 <= icIdx <= |series|
      invariant FrameRows(series, reduced, rotations, icIdx, load, unit) == Ok(dfSum)
    {
      var res := SweepSeries(series, reduced, rotations, icIdx, dfSum, load, rotate, spin, unit);
      if res.Err? {
        FrameRowsErrSticks(series, reduced, rotations, icIdx + 1, |series|, load, unit);
        return res;
      }
      dfSum := res.value;
      icIdx := icIdx + 1;
    }
    return Ok(dfSum);
  }

  /** One pass of the series loop: series icIdx is skipped when outside the
      reduced collection and processed on a fresh `Series` otherwise. */
  method SweepSeries(series: seq<SeriesInput>, reduced: seq<nat>, rotations: seq<real>, icIdx: nat, dfSum: DataFrame,
                     load: Loader, rotate: Rotator, spin: Spin, ghost unit: UnitFn) returns (r: Result<DataFrame>)
    requires IsPipeline(unit, rotate, spin) && KeepsShape(rotate)
    requires icIdx < |series| && FrameRows(series, reduced, rotations, icIdx, load, unit) == Ok(dfSum)
    ensures r == FrameRows(series, reduced, rotations, icIdx + 1, load, unit)
  {
    FrameRowsStep(series, reduced, rotations, icIdx, load, unit, dfSum);
    if icIdx !in reduced {
      return Ok(dfSum);
    }
    var input := series[icIdx];
    var s := new Series(input.translation, input.contours, input.amplitude, 0.0);
    r := ProcessSeries(s, icIdx, input, rotations, dfSum, load, rotate, spin, unit);
  }

  /** `makeDataFrame`: the samples of every selected series, slice, rotation
      and contour, with the study date of the first slice loaded. */
  method MakeDataFrame(series: seq<SeriesInput>, selected: set<string>, rotations: seq<real>,
                       load: Loader, rotate: Rotator, spin: Spin) returns (r: Result<DataFrame>)
    requires KeepsShape(rotate)
    ensures r == DataFrameOf(series, selected, rotations, load, rotate, spin)
  {
    PipelineIsPipeline(rotate, spin);
    r := SweepCollection(series, selected, rotations, load, rotate, spin, Pipeline(rotate, spin));
  }
}
