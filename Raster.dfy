/** The scanline polygon rasteriser of `classes.py`: `Line` (one polygon edge)
    and `LinearContour` (the edge list and the boolean membership mask).
    Intercepts are paired in edge order, as the code does; they are not sorted.
 */
module Raster {
  import opened Base

  /** A contour point in pixel coordinates (column x, row y). */
  datatype Point2 = Point2(x: real, y: real)

  /** An edge from (x0, y0) to (x1, y1); its slopes are fixed when it is built. */
  datatype Line = Line(x0: real, y0: real, x1: real, y1: real)
  {
    /** dx/dy, 0 for a horizontal edge. */
    function Dxdy(): real
    {
      if y1 == y0 then 0.0 else (x1 - x0) / (y1 - y0)
    }

    /** dy/dx, the sentinel 1e5 for a vertical edge. */
    function Dydx(): real
    {
      if x1 == x0 then 100000.0 else (y1 - y0) / (x1 - x0)
    }

    /** Where the edge crosses column x (when x is given and non-zero) or
        row y (otherwise). Each query interval is half-open, so a vertex
        shared by two edges is counted once. */
    function FindIntercept(x: Option<real>, y: Option<real>): (r: Option<real>)
      ensures Truthy(x) ==> (r.Some? <==> (x0 < x.value <= x1 || x1 < x.value <= x0))
      ensures Truthy(x) && r.Some? ==> r.value == y0 + (x.value - x0) * (y1 - y0) / (x1 - x0)
      ensures Truthy(x) && r.Some? && x.value == x1 ==> r.value == y1
      ensures !Truthy(x) && Truthy(y) ==> (r.Some? <==> (y0 < y.value <= y1 || y1 < y.value <= y0))
      ensures !Truthy(x) && Truthy(y) && r.Some? ==> y1 != y0 && r.value == AtRow(y.value)
      ensures !Truthy(x) && !Truthy(y) ==> r.None?
    {
      if Truthy(x) then
        if x0 < x.value <= x1 || x1 < x.value <= x0 then Some(AtColumn(x.value)) else None
      else if Truthy(y) then
        if y0 < y.value <= y1 || y1 < y.value <= y0 then Some(AtRow(y.value)) else None
      else None
    }

    /** The ordinate at column x, by the stored slope. */
    function AtColumn(x: real): (v: real)
      requires x1 != x0
      ensures v == y0 + (x - x0) * (y1 - y0) / (x1 - x0)
      ensures x == x1 ==> v == y1
    {
      Interpolation(x - x0, y1 - y0, x1 - x0, y0);
      (x - x0) * Dydx() + y0
    }

    /** The abscissa at row y, by the stored slope. */
    function AtRow(y: real): (v: real)
      requires y1 != y0
      ensures v == x0 + (y - y0) * (x1 - x0) / (y1 - y0)
      ensures y == y1 ==> v == x1
    {
      Interpolation(y - y0, x1 - x0, y1 - y0, x0);
      (y - y0) * Dxdy() + x0
    }
  }

  lemma Interpolation(t: real, num: real, den: real, base: real)
    requires den != 0.0
    ensures t * (num / den) + base == base + t * num / den
    ensures t == den ==> t * (num / den) + base == base + num
  {
  }

  /** The edge that `addLines` builds for point i: from the previous point
      (the last one, for the first point) to point i. */
  function EdgeTo(points: seq<Point2>, i: nat): Line
    requires i < |points|
  {
    var from := if i == 0 then points[|points| - 1] else points[i - 1];
    Line(from.x, from.y, points[i].x, points[i].y)
  }

  /** The edges of the closed polygon through `points`, one per point. */
  function Edges(points: seq<Point2>): seq<Line>
  {
    seq(|points|, i requires 0 <= i < |points| => EdgeTo(points, i))
  }

  /** The bounding box of a contour: `xmin`, `ymin`, `xmax`, `ymax`. */
  datatype Box = Box(xmin: real, ymin: real, xmax: real, ymax: real)
  {
    function Include(p: Point2): Box
    {
      Box(if p.x < xmin then p.x else xmin, if p.y < ymin then p.y else ymin,
          if p.x > xmax then p.x else xmax, if p.y > ymax then p.y else ymax)
    }

    predicate Contains(p: Point2)
    {
      xmin <= p.x <= xmax && ymin <= p.y <= ymax
    }
  }

  /** The box after the running min/max of `addLines` has seen `points`. */
  function Fold(b: Box, points: seq<Point2>): Box
  {
    if points == [] then b else Fold(b, points[..|points| - 1]).Include(points[|points| - 1])
  }

  /** The box `addLines` records: seeded with the last point, widened by all. */
  function BoxOf(points: seq<Point2>): Box
    requires |points| > 0
  {
    var last := points[|points| - 1];
    Fold(Box(last.x, last.y, last.x, last.y), points)
  }

  /** The running min/max contains the seed and every point, and each of its
      four bounds is the seed's or some point's coordinate. */
  lemma {:induction false} FoldBounds(b: Box, points: seq<Point2>)
    requires b.xmin <= b.xmax && b.ymin <= b.ymax
    ensures var r := Fold(b, points);
      && r.xmin <= b.xmin && r.ymin <= b.ymin && r.xmax >= b.xmax && r.ymax >= b.ymax
      && (forall i :: 0 <= i < |points| ==> r.Contains(points[i]))
      && (r.xmin == b.xmin || exists i :: 0 <= i < |points| && r.xmin == points[i].x)
      && (r.ymin == b.ymin || exists i :: 0 <= i < |points| && r.ymin == points[i].y)
      && (r.xmax == b.xmax || exists i :: 0 <= i < |points| && r.xmax == points[i].x)
      && (r.ymax == b.ymax || exists i :: 0 <= i < |points| && r.ymax == points[i].y)
  {
    if points != [] {
      var init := points[..|points| - 1];
      FoldBounds(b, init);
      var r0 := Fold(b, init);
      forall i | 0 <= i < |init| ensures points[i] == init[i] { }
    }
  }

  /** `addLines` records exactly the coordinate-wise min and max of the points. */
  lemma BoxOfIsTight(points: seq<Point2>)
    requires |points| > 0
    ensures forall i :: 0 <= i < |points| ==> BoxOf(points).Contains(points[i])
    ensures exists i :: 0 <= i < |points| && BoxOf(points).xmin == points[i].x
    ensures exists i :: 0 <= i < |points| && BoxOf(points).ymin == points[i].y
    ensures exists i :: 0 <= i < |points| && BoxOf(points).xmax == points[i].x
    ensures exists i :: 0 <= i < |points| && BoxOf(points).ymax == points[i].y
  {
    var last := points[|points| - 1];
    FoldBounds(Box(last.x, last.y, last.x, last.y), points);
  }

  /** `getInterceptingLines`: the intercepts of the edges, in edge order,
      dropping the edges that miss and the intercepts equal to 0.0. */
  function Intercepts(lines: seq<Line>, x: Option<real>, y: Option<real>): (r: seq<real>)
    ensures |r| <= |lines|
    ensures forall k :: 0 <= k < |r| ==> r[k] != 0.0
    ensures forall k :: 0 <= k < |r| ==>
      exists j :: 0 <= j < |lines| && lines[j].FindIntercept(x, y) == Some(r[k])
    ensures !Truthy(x) && !Truthy(y) ==> r == []
  {
    if lines == [] then []
    else
      var init := Intercepts(lines[..|lines| - 1], x, y);
      match lines[|lines| - 1].FindIntercept(x, y)
      case Some(v) => if v != 0.0 then init + [v] else init
      case None => init
  }

  /** Intercepts keep edge order: those of a concatenation are those of the
      first part followed by those of the second. */
  lemma {:induction false} InterceptsAppend(a: seq<Line>, b: seq<Line>, x: Option<real>, y: Option<real>)
    ensures Intercepts(a + b, x, y) == Intercepts(a, x, y) + Intercepts(b, x, y)
  {
    if b != [] {
      var b' := b[..|b| - 1];
      assert (a + b)[..|a + b| - 1] == a + b';
      assert (a + b)[|a + b| - 1] == b[|b| - 1];
      InterceptsAppend(a, b', x, y);
    } else {
      assert a + b == a;
    }
  }

  function Min(a: int, b: int): int { if a <= b then a else b }
  function Max(a: int, b: int): int { if a <= b then b else a }

  /** The row range pair k marks: [int(a), int(b + 1)) put in order, with the
      bounds placed by numpy's slice rules on a column of n rows. */
  function PairLo(ray: seq<real>, k: nat, n: nat): nat
    requires 2 * k + 1 < |ray|
  {
    NpBound(Min(Trunc(ray[2 * k]), Trunc(ray[2 * k + 1] + 1.0)), n)
  }

  function PairHi(ray: seq<real>, k: nat, n: nat): nat
    requires 2 * k + 1 < |ray|
  {
    NpBound(Max(Trunc(ray[2 * k]), Trunc(ray[2 * k + 1] + 1.0)), n)
  }

  predicate InPair(ray: seq<real>, k: nat, n: nat, row: int)
    requires 2 * k + 1 < |ray|
  {
    PairLo(ray, k, n) <= row < PairHi(ray, k, n)
  }

  /** Row `row` lies in one of the first k pairs' ranges. */
  predicate Covered(ray: seq<real>, n: nat, k: nat, row: int)
    requires 2 * k <= |ray|
  {
    k > 0 && (Covered(ray, n, k - 1, row) || InPair(ray, k - 1, n, row))
  }

  lemma {:induction false} CoveredIsSomePair(ray: seq<real>, n: nat, k: nat, row: int)
    requires 2 * k <= |ray|
    ensures Covered(ray, n, k, row) <==> exists j :: 0 <= j < k && InPair(ray, j, n, row)
  {
    if k > 0 {
      CoveredIsSomePair(ray, n, k - 1, row);
    }
  }

  /** `findPixelInsideContourColumn` on a given intercept list: consecutive
      intercepts (2k, 2k+1) are paired as they come, without sorting; a row is
      set exactly when some pair's range holds it; an odd count is an error. */
  function ColumnFill(n: nat, ray: seq<real>): (r: Result<seq<bool>>)
    ensures r.Err? <==> |ray| % 2 == 1
    ensures r.Err? ==> r.fault == OddInterceptCount
    ensures r.Ok? ==> |r.value| == n
    ensures r.Ok? ==> forall row :: 0 <= row < n ==>
      (r.value[row] <==> exists k :: 0 <= k < |ray| / 2 && InPair(ray, k, n, row))
  {
    if |ray| % 2 == 1 then Err(OddInterceptCount)
    else
      var col := seq(n, row => Covered(ray, n, |ray| / 2, row));
      assert forall row :: 0 <= row < n ==>
        (col[row] <==> exists k :: 0 <= k < |ray| / 2 && InPair(ray, k, n, row)) by {
        forall row | 0 <= row < n {
          CoveredIsSomePair(ray, n, |ray| / 2, row);
        }
      }
      Ok(col)
  }

  /** The all-false mask of shape (h, w). */
  function AllFalse(h: nat, w: nat): (m: Grid<bool>)
    ensures HasShape(m, h, w)
  {
    seq(h, _ => seq(w, _ => false))
  }

  /** numpy's column index: negative indices count from the end. */
  function Wrap(x: int, w: nat): (c: nat)
    requires -(w as int) <= x < w
    ensures c < w
  {
    if x < 0 then x + w else x
  }

  /** `contourMap[:, c] = col`. */
  function SetColumn(m: Grid<bool>, h: nat, w: nat, c: nat, col: seq<bool>): (r: Grid<bool>)
    requires HasShape(m, h, w) && c < w && |col| == h
    ensures HasShape(r, h, w)
    ensures forall i, j :: 0 <= i < h && 0 <= j < w ==> r[i][j] == if j == c then col[i] else m[i][j]
  {
    seq(h, i requires 0 <= i < h => m[i][c := col[i]])
  }

  /** The mask after the columns lo .. hi-1 of `getListOfPixelsInContour`
      have been filled, in that order. */
  function Columns(lines: seq<Line>, lo: int, hi: int, h: nat, w: nat): (r: Result<Grid<bool>>)
    ensures r.Ok? ==> HasShape(r.value, h, w)
    decreases hi - lo
  {
    if hi <= lo then Ok(AllFalse(h, w))
    else
      match Columns(lines, lo, hi - 1, h, w)
      case Err(f) => Err(f)
      case Ok(m) =>
        match ColumnFill(h, Intercepts(lines, Some((hi - 1) as real), None))
        case Err(f) => Err(f)
        case Ok(col) =>
          if -(w as int) <= hi - 1 < w then Ok(SetColumn(m, h, w, Wrap(hi - 1, w), col))
          else Err(ColumnOutOfRange)
  }

  /** `getListOfPixelsInContour` for a contour with box b on an image of
      shape (h, w): every column from int(xmin) to int(xmax + 1) - 1. */
  function ContourMask(lines: seq<Line>, b: Box, h: nat, w: nat): Result<Grid<bool>>
  {
    Columns(lines, Trunc(b.xmin), Trunc(b.xmax + 1.0), h, w)
  }

  /** With no negative column in range, column c of the mask is the column
      fill at c when lo <= c < hi and all false otherwise. */
  lemma {:induction false} ColumnsContent(lines: seq<Line>, lo: int, hi: int, h: nat, w: nat)
    requires 0 <= lo
    requires Columns(lines, lo, hi, h, w).Ok?
    ensures forall i, c :: 0 <= i < h && 0 <= c < w ==>
      MaskCell(lines, lo, hi, h, w, Columns(lines, lo, hi, h, w).value, i, c)
    decreases hi - lo
  {
    var r := Columns(lines, lo, hi, h, w).value;
    if hi > lo {
      var x := hi - 1;
      ColumnsContent(lines, lo, x, h, w);
      var m := Columns(lines, lo, x, h, w).value;
      var col := ColumnFill(h, Intercepts(lines, Some(x as real), None));
      assert col.Ok? && -(w as int) <= x < w;
      assert r == SetColumn(m, h, w, x, col.value);
      forall i, c | 0 <= i < h && 0 <= c < w
        ensures MaskCell(lines, lo, hi, h, w, r, i, c)
      {
        assert MaskCell(lines, lo, x, h, w, m, i, c);
      }
    } else {
      forall i, c | 0 <= i < h && 0 <= c < w
        ensures MaskCell(lines, lo, hi, h, w, r, i, c)
      {
      }
    }
  }

  /** Cell (i, c) of a mask m whose columns lo .. hi-1 have been filled. */
  predicate MaskCell(lines: seq<Line>, lo: int, hi: int, h: nat, w: nat, m: Grid<bool>, i: nat, c: nat)
    requires HasShape(m, h, w) && i < h && c < w
  {
    if lo <= c < hi then
      var col := ColumnFill(h, Intercepts(lines, Some(c as real), None));
      col.Ok? && m[i][c] == col.value[i]
    else !m[i][c]
  }

  /** Once a column fails, the whole mask fails with that column's fault. */
  lemma {:induction false} ColumnsErrSticks(lines: seq<Line>, lo: int, x: int, hi: int, h: nat, w: nat)
    requires lo <= x <= hi
    requires Columns(lines, lo, x, h, w).Err?
    ensures Columns(lines, lo, hi, h, w) == Columns(lines, lo, x, h, w)
    decreases hi - x
  {
    if x < hi {
      ColumnsErrSticks(lines, lo, x + 1, hi, h, w);
    }
  }

  predicate ColumnOk(lines: seq<Line>, x: int, w: nat)
  {
    |Intercepts(lines, Some(x as real), None)| % 2 == 0 && -(w as int) <= x < w
  }

  /** When int(xmin) >= 0, the mask is false in every column outside
      int(xmin) .. int(xmax + 1) - 1. (A negative int(xmin) wraps onto the
      right-hand columns, as numpy indexing does.) */
  lemma RasterOutsideBox(lines: seq<Line>, b: Box, h: nat, w: nat)
    requires 0 <= Trunc(b.xmin)
    requires ContourMask(lines, b, h, w).Ok?
    ensures forall i, c :: 0 <= i < h && 0 <= c < w && (c < Trunc(b.xmin) || Trunc(b.xmax + 1.0) <= c) ==>
      !ContourMask(lines, b, h, w).value[i][c]
  {
    var lo, hi := Trunc(b.xmin), Trunc(b.xmax + 1.0);
    ColumnsContent(lines, lo, hi, h, w);
    forall i, c | 0 <= i < h && 0 <= c < w && (c < lo || hi <= c)
      ensures !ContourMask(lines, b, h, w).value[i][c]
    {
      assert MaskCell(lines, lo, hi, h, w, Columns(lines, lo, hi, h, w).value, i, c);
    }
  }

  /** The mask fails exactly when some column in range has an odd number of
      intercepts or lies outside [-w, w). */
  lemma {:induction false} ColumnsOk(lines: seq<Line>, lo: int, hi: int, h: nat, w: nat)
    ensures Columns(lines, lo, hi, h, w).Ok? <==>
      forall x :: lo <= x < hi ==> ColumnOk(lines, x, w)
    decreases hi - lo
  {
    if hi > lo {
      ColumnsOk(lines, lo, hi - 1, h, w);
      var ray := Intercepts(lines, Some((hi - 1) as real), None);
      assert ColumnFill(h, ray).Ok? <==> |ray| % 2 == 0;
      assert (forall x :: lo <= x < hi ==> ColumnOk(lines, x, w)) <==>
        (forall x :: lo <= x < hi - 1 ==> ColumnOk(lines, x, w)) && ColumnOk(lines, hi - 1, w);
    }
  }

  /** `LinearContour`: the edges of the contours added so far and the bounding
      box of the last one (`None` before any). */
  class LinearContour {
    var lines: seq<Line>
    var bounds: Option<Box>

    constructor ()
      ensures lines == [] && bounds == None
    {
      lines := [];
      bounds := None;
    }

    /** `addLines`: appends one edge per point, the first from the last point
        to the first, and records the points' bounding box. An empty point
        list fails (listOfPoints[-1]) and changes nothing. */
    method AddLines(points: seq<Point2>) returns (ok: bool)
      modifies this
      ensures ok <==> |points| > 0
      ensures ok ==> lines == old(lines) + Edges(points) && bounds == Some(BoxOf(points))
      ensures !ok ==> lines == old(lines) && bounds == old(bounds)
    {
      if |points| == 0 {
        return false;
      }
      var lastPoint := points[|points| - 1];
      var seed := Box(lastPoint.x, lastPoint.y, lastPoint.x, lastPoint.y);
      bounds := Some(seed);
      var i := 0;
      while i < |points|
        invariant 0 <= i <= |points|
        invariant lines == old(lines) + Edges(points)[..i]
        invariant bounds == Some(Fold(seed, points[..i]))
        invariant lastPoint == if i == 0 then points[|points| - 1] else points[i - 1]
      {
        var point := points[i];
        assert points[..i + 1][..i] == points[..i];
        bounds := Some(bounds.value.Include(point));
        assert Edges(points)[..i + 1] == Edges(points)[..i] + [EdgeTo(points, i)];
        lines := lines + [Line(lastPoint.x, lastPoint.y, point.x, point.y)];
        lastPoint := point;
        i := i + 1;
      }
      assert points[..i] == points;
      assert Edges(points)[..i] == Edges(points);
      return true;
    }

    /** `getInterceptingLines`. */
    method GetInterceptingLines(x: Option<real>, y: Option<real>) returns (r: seq<real>)
      ensures r == Intercepts(lines, x, y)
    {
      r := [];
      var i := 0;
      while i < |lines|
        invariant 0 <= i <= |lines|
        invariant r == Intercepts(lines[..i], x, y)
      {
        assert lines[..i + 1][..i] == lines[..i];
        var intercept := lines[i].FindIntercept(x, y);
        if intercept.Some? && intercept.value != 0.0 {
          r := r + [intercept.value];
        }
        i := i + 1;
      }
      assert lines[..i] == lines;
    }

    /** `findPixelInsideContourColumn(x, sh)` for an image with h rows. */
    method FindPixelInsideContourColumn(x: int, h: nat) returns (r: Result<seq<bool>>)
      ensures r == ColumnFill(h, Intercepts(lines, Some(x as real), None))
    {
      var ray := GetInterceptingLines(Some(x as real), None);
      if |ray| % 2 == 1 {
        return Err(OddInterceptCount);
      }
      var column := new bool[h](_ => false);
      var k := 0;
      while k < |ray| / 2
        invariant 0 <= k <= |ray| / 2
        invariant forall row :: 0 <= row < h ==> column[row] == Covered(ray, h, k, row)
      {
        var lo, hi := PairLo(ray, k, h), PairHi(ray, k, h);
        forall row | lo <= row < hi {
          column[row] := true;
        }
        k := k + 1;
      }
      assert column[..] == seq(h, row => Covered(ray, h, |ray| / 2, row));
      return Ok(column[..]);
    }

    /** `getListOfPixelsInContour(image)`: the mask of the image's shape. */
    method GetListOfPixelsInContour(image: Grid<int>) returns (r: Result<Grid<bool>>)
      ensures bounds.None? ==> r == Err(NoBounds)
      ensures bounds.Some? ==> r == ContourMask(lines, bounds.value, |image|, Width(image))
    {
      if bounds.None? {
        return Err(NoBounds);
      }
      var h, w := |image|, Width(image);
      var lo, hi := Trunc(bounds.value.xmin), Trunc(bounds.value.xmax + 1.0);
      var contourMap := AllFalse(h, w);
      if hi <= lo {
        return Ok(contourMap);
      }
      var x := lo;
      while x < hi
        invariant lo <= x <= hi
        invariant Columns(lines, lo, x, h, w) == Ok(contourMap)
      {
        var column := FindPixelInsideContourColumn(x, h);
        if column.Err? {
          ColumnsErrSticks(lines, lo, x + 1, hi, h, w);
          return Err(column.fault);
        }
        if !(-(w as int) <= x < w) {
          ColumnsErrSticks(lines, lo, x + 1, hi, h, w);
          return Err(ColumnOutOfRange);
        }
        contourMap := SetColumn(contourMap, h, w, Wrap(x, w), column.value);
        x := x + 1;
      }
      return Ok(contourMap);
    }
  }
}
