/** The slice geometry of `classes.py`'s `Series`: world-to-pixel mapping of
    contour points, the running contour extents, the crop, the slice index
    formula, and the `Series` object whose fields the pipeline updates.
 */
module SliceGeometry {
  import opened Base
  import opened Raster
  import opened Radiology

  /** A point or vector in patient (world) coordinates, in millimetres. */
  datatype Vec3 = Vec3(x: real, y: real, z: real)

  /** A contour as the structure set stores it: points (x, y, z). */
  type Contour = seq<Vec3>

  /** A pixel spacing; DICOM requires it to be positive. */
  type Spacing = r: real | r > 0.0 witness 1.0

  /** One CT slice as the DICOM reader supplies it: the stored pixel values,
      the rescale intercept, the pixel spacing, the image position (origin)
      and the study date. */
  datatype SliceData = SliceData(pixels: Grid<int>, rescaleIntercept: real, pixelSpacing: Spacing,
                                 origin: Vec3, studyDate: string)

  function Abs(x: real): real { if x < 0.0 then -x else x }

  /** A contour lies on the slice at depth zpos when its first point is within 0.1 mm. */
  predicate AtSlice(c: Contour, zpos: real)
    requires |c| > 0
  {
    Abs(c[0].z - zpos) <= 0.1
  }

  /** Everything that fixes where a world point lands in the current image:
      the pixel spacing, the slice origin, the registration vector, the
      rotation angle in degrees, the rotation centre and the column crop
      offset `xbounds[0]`. */
  datatype PixelFrame = PixelFrame(spacing: Spacing, origin: Vec3, registration: Vec3, rotation: real,
                                   centre: Point2, xOffset: int)

  /** A rotation of a point about (0, 0) by minus the given angle in degrees;
      the cosine and sine are computed by the numerical library. */
  type Spin = (real, Point2) -> Point2

  /** The rotation centre of `getStructuresInImageCoordinates`: half the
      image shape, with the row count halved for x and the column count for y. */
  function Centre(pixels: Grid<int>): Point2
  {
    Point2(|pixels| as real / 2.0, Width(pixels) as real / 2.0)
  }

  /** Translate by the slice origin and the registration vector, then scale. */
  function ToPixel(p: Vec3, f: PixelFrame): Point2
  {
    Point2((p.x - f.origin.x - f.registration.x) / f.spacing, (p.y - f.origin.y - f.registration.y) / f.spacing)
  }

  /** One contour point in the pixel frame of the rotated, column-cropped
      image: when the angle is non-zero the point is turned about the centre. */
  function MapPoint(p: Vec3, f: PixelFrame, spin: Spin): Point2
  {
    var q := ToPixel(p, f);
    var q' := if f.rotation != 0.0 then
                var t := spin(f.rotation, Point2(q.x - f.centre.x, q.y - f.centre.y));
                Point2(t.x + f.centre.x, t.y + f.centre.y)
              else q;
    Point2(q'.x - f.xOffset as real, q'.y)
  }

  function MapContour(c: Contour, f: PixelFrame, spin: Spin): (r: seq<Point2>)
    ensures |r| == |c|
  {
    seq(|c|, i requires 0 <= i < |c| => MapPoint(c[i], f, spin))
  }

  /** The contours within 0.1 mm of zpos, in order. */
  function OnSlice(contours: seq<Contour>, zpos: real): (r: seq<Contour>)
    requires forall k :: 0 <= k < |contours| ==> |contours[k]| > 0
    ensures forall k :: 0 <= k < |r| ==> |r[k]| > 0
    ensures |r| <= |contours|
  {
    if contours == [] then []
    else
      var init := OnSlice(contours[..|contours| - 1], zpos);
      var c := contours[|contours| - 1];
      if AtSlice(c, zpos) then init + [c] else init
  }

  /** The loop of `getStructuresInImageCoordinates` over the first n
      contours: contours off the slice are skipped; a contour without points
      fails at contour[0, 2]. */
  function MappedPrefix(contours: seq<Contour>, n: nat, zpos: real, f: PixelFrame, spin: Spin): Result<seq<seq<Point2>>>
    requires n <= |contours|
  {
    if n == 0 then Ok([])
    else
      match MappedPrefix(contours, n - 1, zpos, f, spin)
      case Err(e) => Err(e)
      case Ok(pts) =>
        var c := contours[n - 1];
        if |c| == 0 then Err(EmptyContour)
        else if !AtSlice(c, zpos) then Ok(pts)
        else Ok(pts + [MapContour(c, f, spin)])
  }

  /** `getStructuresInImageCoordinates`: every contour on the slice, mapped
      point by point to pixel coordinates; it fails when a contour has no
      points or when no contour lies on the slice (X[0]). */
  function ImageCoordinates(contours: seq<Contour>, zpos: real, f: PixelFrame, spin: Spin): (r: Result<seq<seq<Point2>>>)
    ensures r.Err? <==> (exists k :: 0 <= k < |contours| && |contours[k]| == 0)
                        || OnSlice(contours, zpos) == []
    ensures r.Ok? ==> forall k :: 0 <= k < |r.value| ==> |r.value[k]| > 0
    ensures r.Ok? ==> var sel := OnSlice(contours, zpos);
      |r.value| == |sel| &&
      forall k :: 0 <= k < |sel| ==> r.value[k] == MapContour(sel[k], f, spin)
  {
    MappedPrefixIsOnSlice(contours, |contours|, zpos, f, spin);
    assert contours[..|contours|] == contours;
    match MappedPrefix(contours, |contours|, zpos, f, spin)
    case Err(e) => Err(e)
    case Ok(pts) => if pts == [] then Err(NoContourAtSlice) else Ok(pts)
  }

  lemma {:induction false} MappedPrefixIsOnSlice(contours: seq<Contour>, n: nat, zpos: real, f: PixelFrame, spin: Spin)
    requires n <= |contours|
    ensures var r := MappedPrefix(contours, n, zpos, f, spin);
      (r.Err? <==> exists k :: 0 <= k < n && |contours[k]| == 0) &&
      (r.Err? ==> r.fault == EmptyContour) &&
      (r.Ok? ==> var sel := OnSlice(contours[..n], zpos);
        |r.value| == |sel| &&
        forall k :: 0 <= k < |sel| ==> r.value[k] == MapContour(sel[k], f, spin))
  {
    if n > 0 {
      MappedPrefixIsOnSlice(contours, n - 1, zpos, f, spin);
      assert contours[..n][..n - 1] == contours[..n - 1];
    }
  }

  lemma {:induction false} MappedPrefixErrSticks(contours: seq<Contour>, n: nat, m: nat, zpos: real, f: PixelFrame, spin: Spin)
    requires n <= m <= |contours|
    requires MappedPrefix(contours, n, zpos, f, spin).Err?
    ensures MappedPrefix(contours, m, zpos, f, spin) == MappedPrefix(contours, n, zpos, f, spin)
    decreases m - n
  {
    if n < m {
      MappedPrefixErrSticks(contours, n + 1, m, zpos, f, spin);
    }
  }

  /** Unrotated, a contour point on the slice maps to
      ((x - origin.x - registration.x) / ps - xOffset, (y - origin.y - registration.y) / ps). */
  lemma UnrotatedMapping(contours: seq<Contour>, zpos: real, f: PixelFrame, spin: Spin)
    requires f.rotation == 0.0
    requires ImageCoordinates(contours, zpos, f, spin).Ok?
    ensures var pts := ImageCoordinates(contours, zpos, f, spin).value;
      var sel := OnSlice(contours, zpos);
      forall k, i :: 0 <= k < |sel| && 0 <= i < |sel[k]| ==>
        pts[k][i] == Point2((sel[k][i].x - f.origin.x - f.registration.x) / f.spacing - f.xOffset as real,
                            (sel[k][i].y - f.origin.y - f.registration.y) / f.spacing)
  {
  }

  /** Where the contours map does not depend on the column crop offset except
      through a shift of x: a different offset moves every point by the difference. */
  lemma OffsetShiftsColumns(contours: seq<Contour>, zpos: real, f: PixelFrame, spin: Spin, xOffset: int)
    requires ImageCoordinates(contours, zpos, f, spin).Ok?
    ensures var g := f.(xOffset := xOffset);
      var a := ImageCoordinates(contours, zpos, f, spin).value;
      var b := ImageCoordinates(contours, zpos, g, spin);
      b.Ok? && |b.value| == |a| &&
      forall k, i :: 0 <= k < |a| && 0 <= i < |a[k]| ==>
        b.value[k][i] == Point2(a[k][i].x + (f.xOffset - xOffset) as real, a[k][i].y)
  {
  }

  /** Only contours within 0.1 mm of the slice are kept, each one whole. */
  lemma {:induction false} OnSliceFilters(contours: seq<Contour>, zpos: real)
    requires forall k :: 0 <= k < |contours| ==> |contours[k]| > 0
    ensures forall c :: c in OnSlice(contours, zpos) <==> c in contours && AtSlice(c, zpos)
  {
    if contours != [] {
      var init := contours[..|contours| - 1];
      OnSliceFilters(init, zpos);
      assert contours == init + [contours[|contours| - 1]];
    }
  }

  /** The running contour extents `xminRot`, `xmaxRot`, `yminRot`, `ymaxRot`. */
  datatype Extents = Extents(xmin: real, xmax: real, ymin: real, ymax: real)
  {
    predicate Contains(p: Point2)
    {
      xmin <= p.x <= xmax && ymin <= p.y <= ymax
    }

    /** This box lies inside `other`. */
    predicate Within(other: Extents)
    {
      other.xmin <= xmin && xmax <= other.xmax && other.ymin <= ymin && ymax <= other.ymax
    }
  }

  /** The extents `resetImage` restores: empty, 1e5 .. -1e5. */
  const Unset := Extents(100000.0, -100000.0, 100000.0, -100000.0)

  function RealMin(a: real, b: real): real { if b < a then b else a }
  function RealMax(a: real, b: real): real { if b > a then b else a }

  /** `np.min` of a non-empty sequence. */
  function SeqMin(s: seq<real>): (m: real)
    requires |s| > 0
    ensures forall i :: 0 <= i < |s| ==> m <= s[i]
  {
    if |s| == 1 then s[0] else RealMin(SeqMin(s[..|s| - 1]), s[|s| - 1])
  }

  /** `np.max` of a non-empty sequence. */
  function SeqMax(s: seq<real>): (m: real)
    requires |s| > 0
    ensures forall i :: 0 <= i < |s| ==> s[i] <= m
  {
    if |s| == 1 then s[0] else RealMax(SeqMax(s[..|s| - 1]), s[|s| - 1])
  }

  /** The minimum is one of the elements. */
  lemma {:induction false} SeqMinAttained(s: seq<real>)
    requires |s| > 0
    ensures exists i :: 0 <= i < |s| && SeqMin(s) == s[i]
  {
    if |s| > 1 {
      SeqMinAttained(s[..|s| - 1]);
      var i :| 0 <= i < |s| - 1 && SeqMin(s[..|s| - 1]) == s[..|s| - 1][i];
      if SeqMin(s) == s[|s| - 1] {
        assert 0 <= |s| - 1 < |s|;
      } else {
        assert s[..|s| - 1][i] == s[i];
      }
    } else {
      assert SeqMin(s) == s[0];
    }
  }

  /** The maximum is one of the elements. */
  lemma {:induction false} SeqMaxAttained(s: seq<real>)
    requires |s| > 0
    ensures exists i :: 0 <= i < |s| && SeqMax(s) == s[i]
  {
    if |s| > 1 {
      SeqMaxAttained(s[..|s| - 1]);
      var i :| 0 <= i < |s| - 1 && SeqMax(s[..|s| - 1]) == s[..|s| - 1][i];
      if SeqMax(s) == s[|s| - 1] {
        assert 0 <= |s| - 1 < |s|;
      } else {
        assert s[..|s| - 1][i] == s[i];
      }
    } else {
      assert SeqMax(s) == s[0];
    }
  }

  function Xs(c: seq<Point2>): (r: seq<real>)
    ensures |r| == |c|
  {
    seq(|c|, i requires 0 <= i < |c| => c[i].x)
  }

  function Ys(c: seq<Point2>): (r: seq<real>)
    ensures |r| == |c|
  {
    seq(|c|, i requires 0 <= i < |c| => c[i].y)
  }

  /** Every point of c lies inside b. */
  predicate Covers(b: Extents, c: seq<Point2>)
  {
    forall i :: 0 <= i < |c| ==> b.Contains(c[i])
  }

  /** `np.min` and `np.max` of one contour's coordinates. */
  function ContourExtents(c: seq<Point2>): (r: Extents)
    requires |c| > 0
    ensures Covers(r, c)
  {
    var xs, ys := Xs(c), Ys(c);
    assert forall i :: 0 <= i < |c| ==> xs[i] == c[i].x && ys[i] == c[i].y;
    Extents(SeqMin(xs), SeqMax(xs), SeqMin(ys), SeqMax(ys))
  }

  /** The smallest extents holding both. */
  function Union(a: Extents, b: Extents): (r: Extents)
    ensures a.Within(r) && b.Within(r)
  {
    Extents(RealMin(a.xmin, b.xmin), RealMax(a.xmax, b.xmax), RealMin(a.ymin, b.ymin), RealMax(a.ymax, b.ymax))
  }

  /** `recalculateContourBounds` over the first n contours: each one's
      extents are merged into the running extents. */
  function Widen(e: Extents, cs: seq<seq<Point2>>, n: nat): Extents
    requires n <= |cs|
    requires forall k :: 0 <= k < |cs| ==> |cs[k]| > 0
  {
    if n == 0 then e else Union(Widen(e, cs, n - 1), ContourExtents(cs[n - 1]))
  }

  /** The extents only widen, and afterwards every point of every contour lies
      inside them. */
  lemma {:induction false} WidenContains(e: Extents, cs: seq<seq<Point2>>, n: nat)
    requires n <= |cs|
    requires forall k :: 0 <= k < |cs| ==> |cs[k]| > 0
    ensures e.Within(Widen(e, cs, n))
    ensures forall k :: 0 <= k < n ==> Covers(Widen(e, cs, n), cs[k])
  {
    if n > 0 {
      WidenContains(e, cs, n - 1);
      var prev := Widen(e, cs, n - 1);
      var next := Widen(e, cs, n);
      assert prev.Within(next);
      forall k | 0 <= k < n ensures Covers(next, cs[k]) {
        if k < n - 1 {
          assert Covers(prev, cs[k]);
        }
      }
    }
  }

  /** The column bounds of `reduceImageSize`: [int(xmin - pad), int(xmax + pad)]. */
  function CropX(e: Extents, pad: int): (int, int)
  {
    (Trunc(e.xmin - pad as real), Trunc(e.xmax + pad as real))
  }

  /** The row bounds of `reduceImageSize`: [0, int(ymax + pad)]; ymin is not used. */
  function CropY(e: Extents, pad: int): (int, int)
  {
    (0, Trunc(e.ymax + pad as real))
  }

  /** `image[y0:y1, x0:x1]` with numpy's slice rules. */
  function Crop(image: Grid<int>, xb: (int, int), yb: (int, int)): (r: Grid<int>)
    ensures |r| == SliceLength(|image|, yb.0, yb.1)
    ensures forall i :: 0 <= i < |r| ==> |r[i]| == SliceLength(Width(image), xb.0, xb.1)
  {
    var rows := NpSlice(image, yb.0, yb.1);
    assert forall i :: 0 <= i < |rows| ==> rows[i] in image;
    seq(|rows|, i requires 0 <= i < |rows| => NpSlice(rows[i], xb.0, xb.1))
  }

  /** Inside the image, the crop is a shift by the column origin: cropped
      pixel (r, c) is pixel (r, c + x0) of the original. */
  lemma CropIsShift(image: Grid<int>, xb: (int, int), yb: (int, int))
    requires yb.0 == 0 && 0 <= yb.1 <= |image|
    requires 0 <= xb.0 <= xb.1 <= Width(image)
    ensures HasShape(Crop(image, xb, yb), yb.1, xb.1 - xb.0)
    ensures forall r, c :: 0 <= r < yb.1 && 0 <= c < xb.1 - xb.0 ==> Crop(image, xb, yb)[r][c] == image[r][c + xb.0]
  {
  }

  /** The rounding of `findImageIndex`: the step is the slice thickness with the
      sign of (last - first); the index is int((zpos - first) / step + 0.5). */
  function ImageIndex(zpos: real, zFirst: real, zLast: real, thickness: real): Result<int>
  {
    var step := if zLast - zFirst < 0.0 then -Abs(thickness) else Abs(thickness);
    if step == 0.0 then Err(ZeroSliceStep) else Ok(Trunc((zpos - zFirst) / step + 0.5))
  }

  /** A depth within half a step of slice k (k >= 0) gets index k. */
  lemma ImageIndexNearest(zpos: real, zFirst: real, zLast: real, thickness: real, k: nat)
    requires thickness != 0.0
    requires var step := if zLast - zFirst < 0.0 then -Abs(thickness) else Abs(thickness);
      k as real - 0.5 <= (zpos - zFirst) / step < k as real + 0.5
    ensures ImageIndex(zpos, zFirst, zLast, thickness) == Ok(k)
  {
  }

  /** Because int() truncates toward zero, depths up to one and a half steps
      before the first slice also get index 0. */
  lemma ImageIndexBeforeFirst(zpos: real, zFirst: real, zLast: real, thickness: real)
    requires thickness != 0.0
    requires var step := if zLast - zFirst < 0.0 then -Abs(thickness) else Abs(thickness);
      -1.5 < (zpos - zFirst) / step < 0.5
    ensures ImageIndex(zpos, zFirst, zLast, thickness) == Ok(0)
  {
  }

  /** `resetImage`'s reload: the stored pixels plus int(RescaleIntercept). */
  function Rescaled(pixels: Grid<int>, intercept: real): (r: Grid<int>)
    ensures HasShape(r, |pixels|, Width(pixels))
    ensures forall i, j :: 0 <= i < |pixels| && 0 <= j < Width(pixels) ==> r[i][j] == pixels[i][j] + Trunc(intercept)
  {
    seq(|pixels|, i requires 0 <= i < |pixels| =>
      seq(Width(pixels), j requires 0 <= j < Width(pixels) => pixels[i][j] + Trunc(intercept)))
  }

  /** `Series`: one image series, positioned on one slice at a time. */
  class Series {
    const translation: Vec3          // the registration vector
    const contours: seq<Contour>     // the selected structures' contours, in structure order
    const amplitude: string          // the series description: the breathing-phase label
    var zpos: real
    var ds: Option<SliceData>        // the slice loaded last: pixels, spacing and origin
    var image: Option<Grid<int>>
    var imageRSP: Option<Grid<real>>
    var imageWEPL: Option<Grid<real>>
    var xbounds: (int, int)
    var ybounds: (int, int)
    var xminRot: real
    var xmaxRot: real
    var yminRot: real
    var ymaxRot: real
    var dicomRotation: real

    function Bounds(): Extents
      reads this
    {
      Extents(xminRot, xmaxRot, yminRot, ymaxRot)
    }

    constructor (translation: Vec3, contours: seq<Contour>, amplitude: string, zpos: real)
      ensures this.translation == translation && this.contours == contours && this.amplitude == amplitude
      ensures this.zpos == zpos && ds == None
      ensures image == None && imageRSP == None && imageWEPL == None
      ensures xbounds == (0, 0) && ybounds == (0, 0) && Bounds() == Unset && dicomRotation == 0.0
    {
      this.translation, this.contours, this.amplitude := translation, contours, amplitude;
      this.zpos, ds := zpos, None;
      image, imageRSP, imageWEPL := None, None, None;
      xbounds, ybounds := (0, 0), (0, 0);
      xminRot, yminRot := 100000.0, 100000.0;
      xmaxRot, ymaxRot := -100000.0, -100000.0;
      dicomRotation := 0.0;
    }

    /** `resetImage`: restores the unset extents, zero crop bounds and zero
        rotation; with `reloadImage` it also reloads the rescaled pixels and
        discards the RSP and WEPL maps. */
    method ResetImage(reloadImage: bool)
      requires reloadImage ==> ds.Some?
      modifies this`xbounds, this`ybounds, this`xminRot, this`xmaxRot, this`yminRot, this`ymaxRot,
               this`dicomRotation, this`image, this`imageRSP, this`imageWEPL
      ensures xbounds == (0, 0) && ybounds == (0, 0) && Bounds() == Unset && dicomRotation == 0.0
      ensures reloadImage ==> image == Some(Rescaled(ds.value.pixels, ds.value.rescaleIntercept))
                              && imageRSP == None && imageWEPL == None
      ensures !reloadImage ==> image == old(image) && imageRSP == old(imageRSP) && imageWEPL == old(imageWEPL)
    {
      xbounds, ybounds := (0, 0), (0, 0);
      xminRot, yminRot := 100000.0, 100000.0;
      xmaxRot, ymaxRot := -100000.0, -100000.0;
      dicomRotation := 0.0;
      if reloadImage {
        image := Some(Rescaled(ds.value.pixels, ds.value.rescaleIntercept));
        imageWEPL, imageRSP := None, None;
      }
    }

    /** `loadImageFromPosZ`: positions the series on the slice at depth z,
        supplied by the DICOM reader, and resets the image. */
    method LoadImageFromPosZ(z: real, slice: SliceData)
      modifies this`zpos, this`ds, this`xbounds, this`ybounds, this`xminRot, this`xmaxRot, this`yminRot,
               this`ymaxRot, this`dicomRotation, this`image, this`imageRSP, this`imageWEPL
      ensures zpos == z && ds == Some(slice)
      ensures xbounds == (0, 0) && ybounds == (0, 0) && Bounds() == Unset && dicomRotation == 0.0
      ensures image == Some(Rescaled(slice.pixels, slice.rescaleIntercept)) && imageRSP == None && imageWEPL == None
    {
      zpos := z;
      ds := Some(slice);
      ResetImage(true);
    }

    /** `rotateImage`: the image is replaced by its rotation (computed by the
        interpolation routine and passed in; `reshape=False` keeps the
        image's shape) and the angle is recorded. */
    method RotateImage(angle: real, rotated: Grid<int>)
      requires image.Some? && HasShape(rotated, |image.value|, Width(image.value))
      modifies this`image, this`dicomRotation
      ensures image == Some(rotated) && dicomRotation == angle
    {
      image := Some(rotated);
      dicomRotation := angle;
    }

    /** The pixel frame of the current state: the loaded slice's spacing,
        origin and shape, the registration vector, the recorded rotation and
        the column crop offset. */
    function Frame(): PixelFrame
      reads this
      requires ds.Some?
    {
      PixelFrame(ds.value.pixelSpacing, ds.value.origin, translation, dicomRotation, Centre(ds.value.pixels), xbounds.0)
    }

    /** `getStructuresInImageCoordinates`. */
    method GetStructuresInImageCoordinates(spin: Spin) returns (r: Result<seq<seq<Point2>>>)
      requires ds.Some?
      ensures r == ImageCoordinates(contours, zpos, Frame(), spin)
    {
      var f := Frame();
      var pts: seq<seq<Point2>> := [];
      var k := 0;
      while k < |contours|
        invariant 0 <= k <= |contours|
        invariant MappedPrefix(contours, k, zpos, f, spin) == Ok(pts)
      {
        var contour := contours[k];
        if |contour| == 0 {
          MappedPrefixErrSticks(contours, k + 1, |contours|, zpos, f, spin);
          return Err(EmptyContour);
        }
        if AtSlice(contour, zpos) {
          pts := pts + [MapContour(contour, f, spin)];
        }
        k := k + 1;
      }
      if pts == [] {
        return Err(NoContourAtSlice);
      }
      return Ok(pts);
    }

    /** `recalculateContourBounds`: widens the extents by every point of every
        contour on the slice. */
    method RecalculateContourBounds(spin: Spin) returns (outcome: Result<()>)
      requires ds.Some?
      modifies this`xminRot, this`xmaxRot, this`yminRot, this`ymaxRot
      ensures var pts := ImageCoordinates(contours, zpos, Frame(), spin);
        (outcome.Ok? <==> pts.Ok?) && (pts.Err? ==> outcome.fault == pts.fault) &&
        Bounds() == if pts.Ok? then Widen(old(Bounds()), pts.value, |pts.value|) else old(Bounds())
    {
      var r := GetStructuresInImageCoordinates(spin);
      if r.Err? {
        return Err(r.fault);
      }
      WidenBounds(r.value);
      return Ok(());
    }

    /** The loop of `recalculateContourBounds`: merges each contour's
        extents into the running extents. */
    method WidenBounds(pts: seq<seq<Point2>>)
      requires forall k :: 0 <= k < |pts| ==> |pts[k]| > 0
      modifies this`xminRot, this`xmaxRot, this`yminRot, this`ymaxRot
      ensures Bounds() == Widen(old(Bounds()), pts, |pts|)
    {
      var k := 0;
      while k < |pts|
        invariant 0 <= k <= |pts|
        invariant Bounds() == Widen(old(Bounds()), pts, k)
      {
        var c := ContourExtents(pts[k]);
        ghost var before := Bounds();
        xminRot := RealMin(xminRot, c.xmin);
        xmaxRot := RealMax(xmaxRot, c.xmax);
        yminRot := RealMin(yminRot, c.ymin);
        ymaxRot := RealMax(ymaxRot, c.ymax);
        assert Bounds() == Union(before, c);
        k := k + 1;
      }
    }

    /** `reduceImageSize(pad)`: crops columns [int(xmin - pad), int(xmax + pad))
        and rows [0, int(ymax + pad)). */
    method ReduceImageSize(pad: int)
      requires image.Some?
      modifies this`xbounds, this`ybounds, this`image
      ensures xbounds == CropX(Bounds(), pad) && ybounds == CropY(Bounds(), pad)
      ensures image == Some(Crop(old(image).value, xbounds, ybounds))
    {
      xbounds := (Trunc(xminRot - pad as real), Trunc(xmaxRot + pad as real));
      ybounds := (0, Trunc(ymaxRot + pad as real));
      image := Some(Crop(image.value, xbounds, ybounds));
    }

    /** `convertImageToRSP`. */
    method ConvertImageToRSP() returns (rsp: Grid<real>)
      requires image.Some?
      modifies this`imageRSP
      ensures rsp == RspGrid(image.value) && imageRSP == Some(rsp)
    {
      rsp := RspGrid(image.value);
      imageRSP := Some(rsp);
    }

    /** `convertImageToWEPL`: fills the WEPL map row by row. */
    method ConvertImageToWEPL() returns (wepl: Grid<real>)
      requires imageRSP.Some? && ds.Some?
      modifies this`imageWEPL
      ensures wepl == WeplGrid(imageRSP.value, ds.value.pixelSpacing) && imageWEPL == Some(wepl)
    {
      var rsp, ps := imageRSP.value, ds.value.pixelSpacing;
      var rows: seq<seq<real>> := [];
      var y := 0;
      while y < |rsp|
        invariant 0 <= y <= |rsp|
        invariant rows == WeplRows(rsp, ps, y)
      {
        var row := Scale(rsp[y], ps);
        if y > 0 {
          row := AddRows(row, rows[y - 1]);
        }
        rows := rows + [row];
        y := y + 1;
      }
      wepl := rows;
      imageWEPL := Some(wepl);
    }
  }
}
