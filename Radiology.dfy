/** The radiological conversion of `Series`: Hounsfield units to relative
    stopping power (RSP) by the Schneider et al. (1996) calibration, and RSP to
    water-equivalent path length (WEPL) by a running sum down each column.
 */
module Radiology {
  import opened Base

  /** The calibration of `convertImageToRSP`: one line from 200 HU up, another
      below; the two lines do not meet at 200. */
  function Rsp(hu: int): (r: real)
    ensures hu >= -1000 ==> r > 0.0
  {
    if hu >= 200 then 1.06037 + 0.00046761 * hu as real
    else 1.02365 + 0.00100547 * hu as real
  }

  /** The threshold belongs to the upper line. */
  lemma RspAtThreshold()
    ensures Rsp(200) == 1.153892
    ensures Rsp(199) == 1.22373853
  {
  }

  /** The calibration is not monotone: it drops when crossing 200 HU. */
  lemma RspDropsAtThreshold()
    ensures Rsp(199) > Rsp(200)
  {
  }

  /** On each side of the threshold the calibration is increasing. */
  lemma RspIncreasingOnEachBranch(a: int, b: int)
    requires a < b
    requires b < 200 || 200 <= a
    ensures Rsp(a) < Rsp(b)
  {
  }

  /** `convertImageToRSP`: the calibration applied to every pixel. */
  function RspGrid(image: Grid<int>): (r: Grid<real>)
    ensures HasShape(r, |image|, Width(image))
    ensures forall i, j :: 0 <= i < |image| && 0 <= j < Width(image) ==> r[i][j] == Rsp(image[i][j])
  {
    seq(|image|, i requires 0 <= i < |image| => seq(Width(image), j requires 0 <= j < Width(image) => Rsp(image[i][j])))
  }

  /** Every pixel at or above -1000 HU (air) gets a positive RSP. */
  lemma RspGridPositive(image: Grid<int>)
    requires forall i, j :: 0 <= i < |image| && 0 <= j < Width(image) ==> image[i][j] >= -1000
    ensures forall i, j :: 0 <= i < |image| && 0 <= j < Width(image) ==> RspGrid(image)[i][j] > 0.0
  {
  }

  function Scale(row: seq<real>, k: real): (r: seq<real>)
    ensures |r| == |row|
  {
    seq(|row|, j requires 0 <= j < |row| => row[j] * k)
  }

  function AddRows(a: seq<real>, b: seq<real>): (r: seq<real>)
    requires |a| == |b|
    ensures |r| == |a|
  {
    seq(|a|, j requires 0 <= j < |a| => a[j] + b[j])
  }

  /** The first n rows of `imageWEPL` as `convertImageToWEPL` writes them:
      row y is RSP row y times the pixel spacing, plus row y - 1 when y > 0. */
  function WeplRows(rsp: Grid<real>, ps: real, n: nat): (r: Grid<real>)
    requires n <= |rsp|
    ensures HasShape(r, n, Width(rsp))
  {
    if n == 0 then []
    else
      var prev := WeplRows(rsp, ps, n - 1);
      var row := Scale(rsp[n - 1], ps);
      prev + [if n == 1 then row else AddRows(row, prev[n - 2])]
  }

  function WeplGrid(rsp: Grid<real>, ps: real): Grid<real>
  {
    WeplRows(rsp, ps, |rsp|)
  }

  /** Sum of RSP times spacing over rows 0 .. y of column c. */
  function ColumnSum(rsp: Grid<real>, ps: real, y: nat, c: nat): real
    requires y < |rsp| && c < Width(rsp)
  {
    rsp[y][c] * ps + if y == 0 then 0.0 else ColumnSum(rsp, ps, y - 1, c)
  }

  lemma {:induction false} WeplRowsAreColumnSums(rsp: Grid<real>, ps: real, n: nat)
    requires n <= |rsp|
    ensures forall y, c :: 0 <= y < n && 0 <= c < Width(rsp) ==> WeplRows(rsp, ps, n)[y][c] == ColumnSum(rsp, ps, y, c)
  {
    if n > 0 {
      WeplRowsAreColumnSums(rsp, ps, n - 1);
      var prev := WeplRows(rsp, ps, n - 1);
      var r := WeplRows(rsp, ps, n);
      forall y, c | 0 <= y < n && 0 <= c < Width(rsp)
        ensures r[y][c] == ColumnSum(rsp, ps, y, c)
      {
        if y < n - 1 {
          assert r[y] == prev[y];
        }
      }
    }
  }

  /** WEPL is the per-column prefix sum of RSP times the pixel spacing:
      WEPL[0][c] = RSP[0][c]·ps and WEPL[y][c] = WEPL[y-1][c] + RSP[y][c]·ps. */
  lemma WeplIsPrefixSum(rsp: Grid<real>, ps: real)
    ensures HasShape(WeplGrid(rsp, ps), |rsp|, Width(rsp))
    ensures forall y, c :: 0 <= y < |rsp| && 0 <= c < Width(rsp) ==> WeplGrid(rsp, ps)[y][c] == ColumnSum(rsp, ps, y, c)
    ensures forall c :: 0 < |rsp| && 0 <= c < Width(rsp) ==> WeplGrid(rsp, ps)[0][c] == rsp[0][c] * ps
    ensures forall y, c :: 0 < y < |rsp| && 0 <= c < Width(rsp) ==> Accumulates(rsp, ps, y, c)
  {
    WeplRowsAreColumnSums(rsp, ps, |rsp|);
  }

  /** Row y of column c is row y - 1 plus this row's RSP times the spacing. */
  predicate Accumulates(rsp: Grid<real>, ps: real, y: nat, c: nat)
    requires 0 < y < |rsp| && c < Width(rsp)
  {
    var wepl := WeplGrid(rsp, ps);
    wepl[y][c] == wepl[y - 1][c] + rsp[y][c] * ps
  }

  /** Row y of column c holds more than row y - 1. */
  predicate IncreasesAt(rsp: Grid<real>, ps: real, y: nat, c: nat)
    requires 0 < y < |rsp| && c < Width(rsp)
  {
    var wepl := WeplGrid(rsp, ps);
    wepl[y - 1][c] < wepl[y][c]
  }

  /** With a positive spacing and positive RSP, WEPL is positive and strictly
      increasing down each column. */
  lemma WeplStrictlyIncreasing(rsp: Grid<real>, ps: real)
    requires ps > 0.0
    requires forall i, j :: 0 <= i < |rsp| && 0 <= j < Width(rsp) ==> rsp[i][j] > 0.0
    ensures forall c :: 0 < |rsp| && 0 <= c < Width(rsp) ==> WeplGrid(rsp, ps)[0][c] > 0.0
    ensures forall y, c :: 0 < y < |rsp| && 0 <= c < Width(rsp) ==> IncreasesAt(rsp, ps, y, c)
  {
    WeplIsPrefixSum(rsp, ps);
    forall y, c | 0 <= y < |rsp| && 0 <= c < Width(rsp)
      ensures rsp[y][c] * ps > 0.0
    {
      PositiveProduct(rsp[y][c], ps);
    }
  }

  lemma PositiveProduct(a: real, b: real)
    requires a > 0.0 && b > 0.0
    ensures a * b > 0.0
  {
  }

  /** On an image of one intensity v, WEPL at row y is (y + 1)·Rsp(v)·ps. */
  lemma {:induction false} WeplOfUniformImage(image: Grid<int>, v: int, ps: real, y: nat, c: nat)
    requires forall i, j :: 0 <= i < |image| && 0 <= j < Width(image) ==> image[i][j] == v
    requires y < |image| && c < Width(image)
    ensures WeplGrid(RspGrid(image), ps)[y][c] == (y + 1) as real * Rsp(v) * ps
  {
    var rsp := RspGrid(image);
    WeplIsPrefixSum(rsp, ps);
    UniformColumnSum(rsp, Rsp(v), ps, y, c);
  }

  lemma {:induction false} UniformColumnSum(rsp: Grid<real>, k: real, ps: real, y: nat, c: nat)
    requires forall i, j :: 0 <= i < |rsp| && 0 <= j < Width(rsp) ==> rsp[i][j] == k
    requires y < |rsp| && c < Width(rsp)
    ensures ColumnSum(rsp, ps, y, c) == (y + 1) as real * k * ps
  {
    if y > 0 {
      UniformColumnSum(rsp, k, ps, y - 1, c);
    }
  }

  /** An image of 300 HU everywhere, with 1 mm pixels. */
  lemma WeplAt300HU(image: Grid<int>, y: nat, c: nat)
    requires forall i, j :: 0 <= i < |image| && 0 <= j < Width(image) ==> image[i][j] == 300
    requires y < |image| && c < Width(image)
    ensures WeplGrid(RspGrid(image), 1.0)[y][c] == (y + 1) as real * 1.200653
  {
    WeplOfUniformImage(image, 300, 1.0, y, c);
  }
}
