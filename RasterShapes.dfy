/** What the rasteriser of `classes.py` makes of an axis-aligned rectangle
    with integer corners, traversed from two different start vertices. */
module RasterShapes {
  import opened Base
  import opened Raster

  function P(x: int, y: int): Point2 { Point2(x as real, y as real) }

  /** The rectangle (x0, y0) → (x1, y0) → (x1, y1) → (x0, y1). */
  function RectFromBottom(x0: int, y0: int, x1: int, y1: int): seq<Point2>
  {
    [P(x0, y0), P(x1, y0), P(x1, y1), P(x0, y1)]
  }

  /** The same rectangle, started at (x0, y1): (x0, y1) → (x0, y0) → (x1, y0) → (x1, y1). */
  function RectFromTop(x0: int, y0: int, x1: int, y1: int): seq<Point2>
  {
    [P(x0, y1), P(x0, y0), P(x1, y0), P(x1, y1)]
  }

  lemma InterceptsOfFour(l0: Line, l1: Line, l2: Line, l3: Line, x: Option<real>)
    ensures Intercepts([l0, l1, l2, l3], x, None)
         == Intercepts([l0], x, None) + Intercepts([l1], x, None)
          + Intercepts([l2], x, None) + Intercepts([l3], x, None)
  {
    InterceptsAppend([l0], [l1], x, None);
    assert [l0] + [l1] == [l0, l1];
    InterceptsAppend([l0, l1], [l2], x, None);
    assert [l0, l1] + [l2] == [l0, l1, l2];
    InterceptsAppend([l0, l1, l2], [l3], x, None);
    assert [l0, l1, l2] + [l3] == [l0, l1, l2, l3];
  }

  /** A vertical edge at column a never yields a column intercept. */
  lemma VerticalMisses(a: int, ya: int, yb: int, c: int)
    ensures Intercepts([Line(a as real, ya as real, a as real, yb as real)], Some(c as real), None) == []
  {
    assert [Line(a as real, ya as real, a as real, yb as real)][..0] == [];
  }

  /** A horizontal edge at row y > 0 between columns a and b yields y exactly
      on the columns of its half-open interval. */
  lemma HorizontalHits(a: int, b: int, y: int, c: int)
    requires a != b && 0 < y
    ensures Intercepts([Line(a as real, y as real, b as real, y as real)], Some(c as real), None)
         == if (a < c <= b || b < c <= a) && c != 0 then [y as real] else []
  {
    var l := Line(a as real, y as real, b as real, y as real);
    assert [l][..0] == [];
    if (a < c <= b || b < c <= a) && c != 0 {
      assert l.AtColumn(c as real) == y as real;
    }
  }

  lemma BoundsOfRect(x0: int, y0: int, x1: int, y1: int)
    requires x0 < x1 && y0 < y1
    ensures BoxOf(RectFromBottom(x0, y0, x1, y1)) == Box(x0 as real, y0 as real, x1 as real, y1 as real)
    ensures BoxOf(RectFromTop(x0, y0, x1, y1)) == Box(x0 as real, y0 as real, x1 as real, y1 as real)
  {
    FoldOfFour(P(x0, y0), P(x1, y0), P(x1, y1), P(x0, y1), P(x0, y1));
    FoldOfFour(P(x0, y1), P(x0, y0), P(x1, y0), P(x1, y1), P(x1, y1));
  }

  lemma FoldOfFour(p0: Point2, p1: Point2, p2: Point2, p3: Point2, s: Point2)
    ensures var b := Box(s.x, s.y, s.x, s.y);
      Fold(b, [p0, p1, p2, p3]) == b.Include(p0).Include(p1).Include(p2).Include(p3)
  {
    var b := Box(s.x, s.y, s.x, s.y);
    assert [p0, p1, p2, p3][..3] == [p0, p1, p2];
    assert [p0, p1, p2][..2] == [p0, p1];
    assert [p0, p1][..1] == [p0];
    assert [p0][..0] == [];
    assert Fold(b, [p0]) == b.Include(p0);
    assert Fold(b, [p0, p1]) == b.Include(p0).Include(p1);
    assert Fold(b, [p0, p1, p2]) == b.Include(p0).Include(p1).Include(p2);
  }

  /** Started at the bottom-left corner, each column x0 < c <= x1 crosses the
      bottom edge, then the top edge. */
  lemma RayFromBottom(x0: int, y0: int, x1: int, y1: int, c: int)
    requires 0 < x0 < x1 && 0 < y0 < y1
    ensures Intercepts(Edges(RectFromBottom(x0, y0, x1, y1)), Some(c as real), None)
         == if x0 < c <= x1 then [y0 as real, y1 as real] else []
  {
    var x0r, y0r, x1r, y1r := x0 as real, y0 as real, x1 as real, y1 as real;
    assert Edges(RectFromBottom(x0, y0, x1, y1))
        == [Line(x0r, y1r, x0r, y0r), Line(x0r, y0r, x1r, y0r), Line(x1r, y0r, x1r, y1r), Line(x1r, y1r, x0r, y1r)];
    InterceptsOfFour(Line(x0r, y1r, x0r, y0r), Line(x0r, y0r, x1r, y0r), Line(x1r, y0r, x1r, y1r),
                     Line(x1r, y1r, x0r, y1r), Some(c as real));
    VerticalMisses(x0, y1, y0, c);
    HorizontalHits(x0, x1, y0, c);
    VerticalMisses(x1, y0, y1, c);
    HorizontalHits(x1, x0, y1, c);
  }

  /** Started at the top-left corner, the same columns cross the top edge
      first, then the bottom edge. */
  lemma RayFromTop(x0: int, y0: int, x1: int, y1: int, c: int)
    requires 0 < x0 < x1 && 0 < y0 < y1
    ensures Intercepts(Edges(RectFromTop(x0, y0, x1, y1)), Some(c as real), None)
         == if x0 < c <= x1 then [y1 as real, y0 as real] else []
  {
    var x0r, y0r, x1r, y1r := x0 as real, y0 as real, x1 as real, y1 as real;
    assert Edges(RectFromTop(x0, y0, x1, y1))
        == [Line(x1r, y1r, x0r, y1r), Line(x0r, y1r, x0r, y0r), Line(x0r, y0r, x1r, y0r), Line(x1r, y0r, x1r, y1r)];
    InterceptsOfFour(Line(x1r, y1r, x0r, y1r), Line(x0r, y1r, x0r, y0r), Line(x0r, y0r, x1r, y0r),
                     Line(x1r, y0r, x1r, y1r), Some(c as real));
    HorizontalHits(x1, x0, y1, c);
    VerticalMisses(x0, y1, y0, c);
    HorizontalHits(x0, x1, y0, c);
    VerticalMisses(x1, y0, y1, c);
  }

  /** The column fill of a pair of integer intercepts (a, b): rows from
      min(a, b + 1) up to, not including, max(a, b + 1). */
  lemma FillOfPair(h: nat, a: int, b: int, row: nat)
    requires 0 <= a <= h && 0 <= b + 1 <= h && row < h
    ensures ColumnFill(h, [a as real, b as real]).Ok?
    ensures ColumnFill(h, [a as real, b as real]).value[row] <==> Min(a, b + 1) <= row < Max(a, b + 1)
  {
    TruncOfInt(a);
    TruncOfInt(b + 1);
    assert b as real + 1.0 == (b + 1) as real;
    var ray := [a as real, b as real];
    assert (exists k :: 0 <= k < |ray| / 2 && InPair(ray, k, h, row)) <==> InPair(ray, 0, h, row);
  }

  /** Walked from the bottom-left corner, the rectangle with integer corners
      rasterises to columns x0+1 .. x1 and rows y0 .. y1: (x1 - x0) by
      (y1 - y0 + 1) pixels, one row more than the rectangle's height. */
  lemma RectangleFromBottom(x0: int, y0: int, x1: int, y1: int, h: nat, w: nat)
    requires 0 < x0 < x1 < w && 0 < y0 < y1 < h
    ensures var pts := RectFromBottom(x0, y0, x1, y1);
      var m := ContourMask(Edges(pts), BoxOf(pts), h, w);
      m.Ok? && forall i, c :: 0 <= i < h && 0 <= c < w ==>
        (m.value[i][c] <==> x0 < c <= x1 && y0 <= i <= y1)
  {
    var lines := Edges(RectFromBottom(x0, y0, x1, y1));
    BottomMaskColumns(x0, y0, x1, y1, h, w, x1 + 1);
    var m := Columns(lines, x0, x1 + 1, h, w).value;
    forall i, c | 0 <= i < h && 0 <= c < w
      ensures m[i][c] <==> x0 < c <= x1 && y0 <= i <= y1
    {
      BottomCell(x0, y0, x1, y1, h, w, m, i, c);
    }
  }

  /** The mask of the rectangle walked from the bottom-left corner is the
      column fill of columns x0 .. x1, and it succeeds. */
  lemma BottomMaskColumns(x0: int, y0: int, x1: int, y1: int, h: nat, w: nat, hi: int)
    requires 0 < x0 < x1 < w && 0 < y0 < y1 < h && hi == x1 + 1
    ensures var pts := RectFromBottom(x0, y0, x1, y1);
      var lines := Edges(pts);
      ContourMask(lines, BoxOf(pts), h, w) == Columns(lines, x0, hi, h, w) &&
      Columns(lines, x0, hi, h, w).Ok? &&
      forall i, c :: 0 <= i < h && 0 <= c < w ==>
        MaskCell(lines, x0, hi, h, w, Columns(lines, x0, hi, h, w).value, i, c)
  {
    var pts := RectFromBottom(x0, y0, x1, y1);
    var lines := Edges(pts);
    BoundsOfRect(x0, y0, x1, y1);
    TruncOfInt(x0);
    TruncOfInt(x1 + 1);
    assert x1 as real + 1.0 == (x1 + 1) as real;
    BottomColumnsOk(x0, y0, x1, y1, w, hi);
    ColumnsOk(lines, x0, hi, h, w);
    ColumnsContent(lines, x0, hi, h, w);
  }

  lemma BottomColumnsOk(x0: int, y0: int, x1: int, y1: int, w: nat, hi: int)
    requires 0 < x0 < x1 < w && 0 < y0 < y1 && hi == x1 + 1
    ensures forall x :: x0 <= x < hi ==> ColumnOk(Edges(RectFromBottom(x0, y0, x1, y1)), x, w)
  {
    forall x | x0 <= x < hi ensures ColumnOk(Edges(RectFromBottom(x0, y0, x1, y1)), x, w) {
      RayFromBottom(x0, y0, x1, y1, x);
    }
  }

  lemma BottomCell(x0: int, y0: int, x1: int, y1: int, h: nat, w: nat, m: Grid<bool>, i: nat, c: nat)
    requires 0 < x0 < x1 < w && 0 < y0 < y1 < h
    requires HasShape(m, h, w) && i < h && c < w
    requires MaskCell(Edges(RectFromBottom(x0, y0, x1, y1)), x0, x1 + 1, h, w, m, i, c)
    ensures m[i][c] <==> x0 < c <= x1 && y0 <= i <= y1
  {
    if x0 <= c < x1 + 1 {
      var ray := Intercepts(Edges(RectFromBottom(x0, y0, x1, y1)), Some(c as real), None);
      RayFromBottom(x0, y0, x1, y1, c);
      if c != x0 {
        assert ray == [y0 as real, y1 as real];
        FillOfPair(h, y0, y1, i);
        assert ColumnFill(h, ray).value[i] <==> y0 <= i <= y1;
      } else {
        assert ray == [];
      }
    }
  }

  /** Walked from the top-left corner, the same rectangle rasterises to rows
      y0+1 .. y1-1 only: the pairing is not sorted, so the second intercept's
      "+1" lands on the other edge. The mask depends on the start vertex. */
  lemma RectangleFromTop(x0: int, y0: int, x1: int, y1: int, h: nat, w: nat)
    requires 0 < x0 < x1 < w && 0 < y0 < y1 < h
    ensures var pts := RectFromTop(x0, y0, x1, y1);
      var m := ContourMask(Edges(pts), BoxOf(pts), h, w);
      m.Ok? && forall i, c :: 0 <= i < h && 0 <= c < w ==>
        (m.value[i][c] <==> x0 < c <= x1 && y0 < i < y1)
  {
    var lines := Edges(RectFromTop(x0, y0, x1, y1));
    TopMaskColumns(x0, y0, x1, y1, h, w, x1 + 1);
    var m := Columns(lines, x0, x1 + 1, h, w).value;
    forall i, c | 0 <= i < h && 0 <= c < w
      ensures m[i][c] <==> x0 < c <= x1 && y0 < i < y1
    {
      TopCell(x0, y0, x1, y1, h, w, m, i, c);
    }
  }

  /** The mask of the rectangle walked from the top-left corner is the
      column fill of columns x0 .. x1, and it succeeds. */
  lemma TopMaskColumns(x0: int, y0: int, x1: int, y1: int, h: nat, w: nat, hi: int)
    requires 0 < x0 < x1 < w && 0 < y0 < y1 < h && hi == x1 + 1
    ensures var pts := RectFromTop(x0, y0, x1, y1);
      var lines := Edges(pts);
      ContourMask(lines, BoxOf(pts), h, w) == Columns(lines, x0, hi, h, w) &&
      Columns(lines, x0, hi, h, w).Ok? &&
      forall i, c :: 0 <= i < h && 0 <= c < w ==>
        MaskCell(lines, x0, hi, h, w, Columns(lines, x0, hi, h, w).value, i, c)
  {
    var pts := RectFromTop(x0, y0, x1, y1);
    var lines := Edges(pts);
    BoundsOfRect(x0, y0, x1, y1);
    TruncOfInt(x0);
    TruncOfInt(x1 + 1);
    assert x1 as real + 1.0 == (x1 + 1) as real;
    TopColumnsOk(x0, y0, x1, y1, w, hi);
    ColumnsOk(lines, x0, hi, h, w);
    ColumnsContent(lines, x0, hi, h, w);
  }

  lemma TopColumnsOk(x0: int, y0: int, x1: int, y1: int, w: nat, hi: int)
    requires 0 < x0 < x1 < w && 0 < y0 < y1 && hi == x1 + 1
    ensures forall x :: x0 <= x < hi ==> ColumnOk(Edges(RectFromTop(x0, y0, x1, y1)), x, w)
  {
    forall x | x0 <= x < hi ensures ColumnOk(Edges(RectFromTop(x0, y0, x1, y1)), x, w) {
      RayFromTop(x0, y0, x1, y1, x);
    }
  }

  lemma TopCell(x0: int, y0: int, x1: int, y1: int, h: nat, w: nat, m: Grid<bool>, i: nat, c: nat)
    requires 0 < x0 < x1 < w && 0 < y0 < y1 < h
    requires HasShape(m, h, w) && i < h && c < w
    requires MaskCell(Edges(RectFromTop(x0, y0, x1, y1)), x0, x1 + 1, h, w, m, i, c)
    ensures m[i][c] <==> x0 < c <= x1 && y0 < i < y1
  {
    if x0 <= c < x1 + 1 {
      var ray := Intercepts(Edges(RectFromTop(x0, y0, x1, y1)), Some(c as real), None);
      RayFromTop(x0, y0, x1, y1, c);
      if c != x0 {
        assert ray == [y1 as real, y0 as real];
        FillOfPair(h, y1, y0, i);
        assert ColumnFill(h, ray).value[i] <==> y0 < i < y1;
      } else {
        assert ray == [];
      }
    }
  }
}
