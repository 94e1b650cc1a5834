/** Shared vocabulary of the model: optional values and failures, Python's
    `int()` on floats, numpy's slice-bound normalisation and rectangular grids
    (numpy 2-D arrays).
 */
module Base {

  datatype Option<+T> = None | Some(value: T)

  /** The exceptions the pipeline can raise; each one aborts the operation. */
  datatype Fault =
    | OddInterceptCount     // ray[2k+1] past the end of an odd intercept list
    | ColumnOutOfRange      // contourMap[:, x] with x outside [-width, width)
    | EmptyContour          // contour[0, 2] on a contour without points
    | NoContourAtSlice      // X[0] when no contour lies at the slice depth
    | TooFewSlicePositions  // zposList[idxUID] past the end of the list
    | NoBounds              // int(None) before any contour was added
    | ZeroSliceStep         // division by a zero slice spacing

  datatype Result<+T> = Ok(value: T) | Err(fault: Fault)

  /** Python truthiness of an optional number: `None` and `0` are false. */
  predicate Truthy(x: Option<real>)
  {
    x.Some? && x.value != 0.0
  }

  /** Python's `int()` on a float: truncation toward zero. */
  function Trunc(x: real): (r: int)
    ensures x >= 0.0 ==> r as real <= x < r as real + 1.0
    ensures x < 0.0 ==> r as real - 1.0 < x <= r as real
  {
    if x >= 0.0 then x.Floor else -((-x).Floor)
  }

  lemma TruncOfInt(k: int)
    ensures Trunc(k as real) == k
  {
  }

  /** Where numpy puts a slice bound `i` on an axis of length `n`: a negative
      bound counts from the end, and every bound is clipped to [0, n]. */
  function NpBound(i: int, n: nat): (b: nat)
    ensures b <= n
    ensures 0 <= i <= n ==> b == i
    ensures -(n as int) <= i < 0 ==> b == i + n
    ensures i < -(n as int) ==> b == 0
    ensures n < i ==> b == n
  {
    if i < 0 then (if i + n < 0 then 0 else i + n) else if i > n then n else i
  }

  /** `s[a:b]` with numpy's (and Python's) slice semantics. */
  function NpSlice<T>(s: seq<T>, a: int, b: int): (r: seq<T>)
    ensures |r| == SliceLength(|s|, a, b)
    ensures 0 <= a <= b <= |s| ==> r == s[a..b]
  {
    var lo, hi := NpBound(a, |s|), NpBound(b, |s|);
    if lo < hi then s[lo..hi] else []
  }

  /** The length of `s[a:b]` depends on `|s|` only. */
  function SliceLength(n: nat, a: int, b: int): nat
  {
    var lo, hi := NpBound(a, n), NpBound(b, n);
    if lo < hi then hi - lo else 0
  }

  /** Every row of a numpy 2-D array has the same length. */
  predicate IsRect<T>(g: seq<seq<T>>)
  {
    forall i :: 0 <= i < |g| ==> |g[i]| == |g[0]|
  }

  type Grid<T> = g: seq<seq<T>> | IsRect(g) witness []

  /** The number of columns; a grid without rows is taken to have none. */
  function Width<T>(g: Grid<T>): nat
  {
    if |g| == 0 then 0 else |g[0]|
  }

  /** A grid of shape (h, w). */
  predicate HasShape<T>(g: seq<seq<T>>, h: nat, w: nat)
  {
    |g| == h && forall i :: 0 <= i < h ==> |g[i]| == w
  }
}
