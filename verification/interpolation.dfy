/**
 * One-dimensional piecewise-linear interpolation with linear extrapolation,
 * the behaviour of `interp1d(x, y, kind="linear", bounds_error=False,
 * fill_value="extrapolate")` on a strictly increasing grid `x`: the query
 * point selects the segment [x[hi-1], x[hi]] where `hi` is the first grid
 * index at or above the query, clipped to 1 .. |x|-1, and the value is read
 * off the straight line through that segment.  Below the grid the first
 * segment is extended, above it the last one.
 */
module Interpolation {

  predicate StrictlyIncreasing(xs: seq<real>) {
    forall i, j :: 0 <= i < j < |xs| ==> xs[i] < xs[j]
  }

  /** A grid and values the interpolator accepts: at least two points, one
      value per point, grid strictly increasing. */
  predicate IsCurve(xs: seq<real>, ys: seq<real>) {
    |xs| == |ys| >= 2 && StrictlyIncreasing(xs)
  }

  /** Right end of the segment used at `x`, searching upward from `j`. */
  function UpperIndex(xs: seq<real>, x: real, j: nat): (hi: nat)
    requires 1 <= j < |xs|
    decreases |xs| - j
    ensures j <= hi < |xs|
    ensures forall k :: j <= k < hi ==> xs[k] < x
    ensures hi < |xs| - 1 ==> x <= xs[hi]
  {
    if j == |xs| - 1 || x <= xs[j] then j else UpperIndex(xs, x, j + 1)
  }

  /** The straight line through nodes j and j + 1, evaluated at x. */
  function SegmentLine(xs: seq<real>, ys: seq<real>, j: nat, x: real): real
    requires IsCurve(xs, ys) && j + 1 < |xs|
  {
    ys[j] + (ys[j + 1] - ys[j]) / (xs[j + 1] - xs[j]) * (x - xs[j])
  }

  /** Linear interpolation of (xs, ys) at `x`, extrapolating beyond the
      grid; never fails for a valid curve.  The value lies on the line of
      a segment j that contains x, where the first segment also covers
      everything below the grid and the last everything above it. */
  function Interp(xs: seq<real>, ys: seq<real>, x: real): (y: real)
    requires IsCurve(xs, ys)
    ensures exists j: nat ::
      && j + 1 < |xs| && (j == 0 || xs[j] < x) && (j + 2 == |xs| || x <= xs[j + 1])
      && y == SegmentLine(xs, ys, j, x)
  {
    var hi := UpperIndex(xs, x, 1);
    var lo := hi - 1;
    var slope := (ys[hi] - ys[lo]) / (xs[hi] - xs[lo]);
    assert slope * (x - xs[lo]) + ys[lo] == SegmentLine(xs, ys, lo, x);
    slope * (x - xs[lo]) + ys[lo]
  }

  /** The segment chosen for a query inside [xs[j], xs[j+1]] is j (or j-1
      when the query sits exactly on xs[j]). */
  lemma SegmentOf(xs: seq<real>, x: real, j: nat)
    requires |xs| >= 2 && StrictlyIncreasing(xs)
    requires j + 1 < |xs| && xs[j] <= x <= xs[j + 1]
    ensures var hi := UpperIndex(xs, x, 1);
      hi == j + 1 || (j >= 1 && x == xs[j] && hi == j)
  {
  }

  /** At a grid node the interpolant returns that node's value. */
  lemma InterpAtNode(xs: seq<real>, ys: seq<real>, j: nat)
    requires IsCurve(xs, ys) && j < |xs|
    ensures Interp(xs, ys, xs[j]) == ys[j]
  {
    var hi := UpperIndex(xs, xs[j], 1);
    if j == 0 {
      assert hi == 1;
    } else {
      SegmentOf(xs, xs[j], j - 1);
      assert hi == j;
      var dx := xs[j] - xs[j - 1];
      assert (ys[j] - ys[j - 1]) / dx * dx == ys[j] - ys[j - 1];
    }
  }

  /** Between two adjacent nodes the interpolant is the convex combination
      of their values with weight t = (x - xs[j]) / (xs[j+1] - xs[j]). */
  lemma InterpBetweenNodes(xs: seq<real>, ys: seq<real>, j: nat, x: real)
    requires IsCurve(xs, ys) && j + 1 < |xs|
    requires xs[j] <= x <= xs[j + 1]
    ensures var t := (x - xs[j]) / (xs[j + 1] - xs[j]);
      0.0 <= t <= 1.0 && Interp(xs, ys, x) == (1.0 - t) * ys[j] + t * ys[j + 1]
  {
    InterpOnSegment(xs, ys, j, x);
    ConvexOnSegment(xs[j], xs[j + 1], ys[j], ys[j + 1], x);
  }

  /** Inside [xs[j], xs[j+1]] the interpolant is the line of segment j,
      also when the query sits on xs[j] and the search stops one segment
      earlier. */
  lemma InterpOnSegment(xs: seq<real>, ys: seq<real>, j: nat, x: real)
    requires IsCurve(xs, ys) && j + 1 < |xs|
    requires xs[j] <= x <= xs[j + 1]
    ensures Interp(xs, ys, x) == SegmentLine(xs, ys, j, x)
  {
    SegmentOf(xs, x, j);
    InterpIsSegmentLine(xs, ys, x);
    if UpperIndex(xs, x, 1) == j {
      InterpAtNode(xs, ys, j);
      assert x - xs[j] == 0.0;
    }
  }

  /** The interpolant is the line of the segment ending at UpperIndex. */
  lemma InterpIsSegmentLine(xs: seq<real>, ys: seq<real>, x: real)
    requires IsCurve(xs, ys)
    ensures var hi := UpperIndex(xs, x, 1);
      Interp(xs, ys, x) == SegmentLine(xs, ys, hi - 1, x)
  {
  }

  /** On [x0, x1] the line through (x0, y0) and (x1, y1) is the convex
      combination of y0 and y1 with weight (x - x0) / (x1 - x0). */
  lemma ConvexOnSegment(x0: real, x1: real, y0: real, y1: real, x: real)
    requires x0 < x1 && x0 <= x <= x1
    ensures var t := (x - x0) / (x1 - x0);
      0.0 <= t <= 1.0 && y0 + (y1 - y0) / (x1 - x0) * (x - x0) == (1.0 - t) * y0 + t * y1
  {
    var dx := x1 - x0;
    var t := (x - x0) / dx;
    assert t * dx == x - x0 <= dx;
    assert (y1 - y0) / dx * (x - x0) == (y1 - y0) * t;
  }

  /** The line through two points of the line a * x + b is that line. */
  lemma LineThroughLine(x0: real, x1: real, y0: real, y1: real, a: real, b: real, x: real)
    requires x0 < x1 && y0 == a * x0 + b && y1 == a * x1 + b
    ensures y0 + (y1 - y0) / (x1 - x0) * (x - x0) == a * x + b
  {
    var dx := x1 - x0;
    assert y1 - y0 == a * dx;
    assert (y1 - y0) / dx == a;
  }

  /** Below the grid the first segment is extended. */
  lemma InterpBelowGrid(xs: seq<real>, ys: seq<real>, x: real)
    requires IsCurve(xs, ys) && x < xs[0]
    ensures Interp(xs, ys, x) == ys[0] + (ys[1] - ys[0]) / (xs[1] - xs[0]) * (x - xs[0])
  {
    assert UpperIndex(xs, x, 1) == 1;
  }

  /** Above the grid the last segment is extended. */
  lemma InterpAboveGrid(xs: seq<real>, ys: seq<real>, x: real)
    requires IsCurve(xs, ys) && x > xs[|xs| - 1]
    ensures var n := |xs|;
      Interp(xs, ys, x) == ys[n - 2] + (ys[n - 1] - ys[n - 2]) / (xs[n - 1] - xs[n - 2]) * (x - xs[n - 2])
  {
  }

  /** Values sampled from a straight line are reproduced exactly everywhere,
      inside the grid and outside it. */
  lemma InterpReproducesLine(xs: seq<real>, ys: seq<real>, a: real, b: real, x: real)
    requires IsCurve(xs, ys)
    requires forall k :: 0 <= k < |xs| ==> ys[k] == a * xs[k] + b
    ensures Interp(xs, ys, x) == a * x + b
  {
    InterpIsSegmentLine(xs, ys, x);
    SegmentOfLine(xs, ys, a, b, UpperIndex(xs, x, 1) - 1, x);
  }

  /** Every segment line of values sampled from a * x + b is that line. */
  lemma SegmentOfLine(xs: seq<real>, ys: seq<real>, a: real, b: real, j: nat, x: real)
    requires IsCurve(xs, ys) && j + 1 < |xs|
    requires forall k :: 0 <= k < |xs| ==> ys[k] == a * xs[k] + b
    ensures SegmentLine(xs, ys, j, x) == a * x + b
  {
    LineThroughLine(xs[j], xs[j + 1], ys[j], ys[j + 1], a, b, x);
  }
}
