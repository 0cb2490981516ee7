/** The line chart: the segment structure of the smoothed SVG path, the value
    range used for vertical scaling, the horizontal placement of points and
    the choice of x-axis labels. Coordinates are reals; the spline control
    points and the SVG text are not modelled, only which points each segment
    joins. */
module Chart {
  import opened Wrappers

  // ---------------------------------------------------------------------------
  // The smoothed path

  /** One command of the SVG path, naming points by their index. A cubic
      segment from `p1` to `p2` is shaped by the neighbours `p0` and `p3`. */
  datatype Segment =
    | Move(at: nat)
    | Line(to: nat)
    | Curve(p0: nat, p1: nat, p2: nat, p3: nat)

  /** Where a segment leaves the pen. */
  function EndPoint(s: Segment): nat {
    match s
    case Move(a) => a
    case Line(t) => t
    case Curve(_, _, p2, _) => p2
  }

  /** Every point a segment refers to is one of the `n` points. */
  predicate InBounds(s: Segment, n: nat) {
    match s
    case Move(a) => a < n
    case Line(t) => t < n
    case Curve(p0, p1, p2, p3) => p0 < n && p1 < n && p2 < n && p3 < n
  }

  /** `createSmoothPath` over `n` points: nothing for fewer than two, one
      straight line for two, otherwise a move to the first point and one
      curve per following point. */
  method CreateSmoothPath(n: nat) returns (path: seq<Segment>)
    ensures n < 2 ==> path == []
    ensures n == 2 ==> path == [Move(0), Line(1)]
    ensures n >= 3 ==> |path| == n && path[0] == Move(0)
    ensures n >= 3 ==> forall k :: 1 <= k < n ==>
      path[k] == Curve(if k == 1 then 0 else k - 2, k - 1, k, if k + 1 >= n then k else k + 1)
    ensures forall k :: 0 <= k < |path| ==> InBounds(path[k], n)
    ensures forall k :: 1 <= k < |path| ==> path[k].Curve? ==> path[k].p1 == EndPoint(path[k - 1])
  {
    if n < 2 {
      return [];
    }
    if n == 2 {
      return [Move(0), Line(1)];
    }
    path := [Move(0)];
    var i := 0;
    while i < n - 1
      invariant 0 <= i <= n - 1
      invariant |path| == i + 1 && path[0] == Move(0)
      invariant forall k :: 1 <= k <= i ==>
        path[k] == Curve(if k == 1 then 0 else k - 2, k - 1, k, if k + 1 >= n then k else k + 1)
    {
      var p0 := if i == 0 then i else i - 1;
      var p3 := if i + 2 >= n then i + 1 else i + 2;
      path := path + [Curve(p0, i, i + 1, p3)];
      i := i + 1;
    }
  }

  // ---------------------------------------------------------------------------
  // Vertical scaling

  function MaxOf(values: seq<real>): (m: real)
    requires values != []
    ensures m in values && forall v :: v in values ==> v <= m
  {
    if |values| == 1 then values[0]
    else
      var rest := MaxOf(values[1..]);
      assert forall v :: v in values ==> v == values[0] || v in values[1..];
      if values[0] >= rest then values[0] else rest
  }

  function MinOf(values: seq<real>): (m: real)
    requires values != []
    ensures m in values && forall v :: v in values ==> m <= v
  {
    if |values| == 1 then values[0]
    else
      var rest := MinOf(values[1..]);
      assert forall v :: v in values ==> v == values[0] || v in values[1..];
      if values[0] <= rest then values[0] else rest
  }

  /** The top and bottom of the scale: 5% above the largest value and 5% below the smallest. */
  function ScaleTop(values: seq<real>): real
    requires values != []
  {
    MaxOf(values) * 1.05
  }

  function ScaleBottom(values: seq<real>): real
    requires values != []
  {
    MinOf(values) * 0.95
  }

  /** `maxValue - minValue || 1`: a zero span falls back to 1. */
  function Range(values: seq<real>): (r: real)
    requires values != []
    ensures r != 0.0
    ensures ScaleTop(values) != ScaleBottom(values) ==> r == ScaleTop(values) - ScaleBottom(values)
    ensures ScaleTop(values) == ScaleBottom(values) ==> r == 1.0
  {
    var span := ScaleTop(values) - ScaleBottom(values);
    if span == 0.0 then 1.0 else span
  }

  const PaddingTop: real := 8.0
  const PaddingLeft: real := 8.0
  const ChartWidth: real := 384.0
  const ChartHeight: real := 88.0

  /** The vertical position of a value: the bottom of the scale on the bottom
      edge of the plot area and, when the scale has a span, its top on the top edge. */
  function PointY(values: seq<real>, v: real): (y: real)
    requires values != []
    ensures v == ScaleBottom(values) ==> y == PaddingTop + ChartHeight
    ensures ScaleTop(values) != ScaleBottom(values) && v == ScaleTop(values) ==> y == PaddingTop
  {
    var r := Range(values);
    assert ScaleTop(values) != ScaleBottom(values) ==> (ScaleTop(values) - ScaleBottom(values)) / r == 1.0;
    PaddingTop + ChartHeight - ((v - ScaleBottom(values)) / r) * ChartHeight
  }

  /** For non-negative data every point lies inside the plot area. */
  lemma NonNegativeDataStaysInPlotArea(values: seq<real>, v: real)
    requires values != [] && v in values
    requires forall w :: w in values ==> w >= 0.0
    ensures PaddingTop <= PointY(values, v) <= PaddingTop + ChartHeight
  {
    var top, bottom, r := ScaleTop(values), ScaleBottom(values), Range(values);
    var mx, mn := MaxOf(values), MinOf(values);
    assert 0.0 <= bottom <= mn <= v <= mx <= top;
    var t := (v - bottom) / r;
    if top == bottom {
      assert v - bottom == 0.0;
      assert t == 0.0;
    } else {
      assert 0.0 <= v - bottom <= r;
      assert 0.0 <= t <= 1.0 by {
        FractionInUnit(v - bottom, r);
      }
    }
    assert 0.0 <= t * ChartHeight <= ChartHeight;
  }

  lemma FractionInUnit(a: real, b: real)
    requires 0.0 <= a <= b && b > 0.0
    ensures 0.0 <= a / b <= 1.0
  {
    assert a / b * b == a;
  }

  /** With negative data the 5% margins shrink the scale instead of widening
      it: the top of the scale falls below the largest value and the bottom
      rises above the smallest, so the smallest value is drawn below the plot
      area whenever the range is positive. */
  lemma NegativeDataLeavesPlotArea(values: seq<real>)
    requires values != [] && MaxOf(values) < 0.0
    ensures ScaleTop(values) < MaxOf(values) && MinOf(values) < ScaleBottom(values)
    ensures Range(values) > 0.0 ==> PointY(values, MinOf(values)) > PaddingTop + ChartHeight
  {
    var mn, bottom, r := MinOf(values), ScaleBottom(values), Range(values);
    assert mn < 0.0;
    if r > 0.0 {
      NegativeOverPositive(mn - bottom, r);
    }
  }

  lemma NegativeOverPositive(a: real, b: real)
    requires a < 0.0 && b > 0.0
    ensures a / b < 0.0
  {
    assert a / b * b == a;
  }

  /** When the shrunken top falls below the shrunken bottom the range is
      negative and the chart is drawn upside down: a smaller value sits higher. */
  lemma InvertedScaleIsUpsideDown(values: seq<real>, v: real, w: real)
    requires values != [] && ScaleTop(values) < ScaleBottom(values) && v < w
    ensures Range(values) < 0.0
    ensures PointY(values, v) < PointY(values, w)
  {
    var r := Range(values);
    assert (w - ScaleBottom(values)) / r - (v - ScaleBottom(values)) / r == (w - v) / r;
    assert (w - v) / r < 0.0 by {
      assert (w - v) / r * r == w - v;
    }
  }

  /** Closely spaced negative data inverts the scale: [-10, -9.9]. */
  lemma CloseNegativeDataInvertsScale()
    ensures ScaleTop([-10.0, -9.9]) < ScaleBottom([-10.0, -9.9])
    ensures PointY([-10.0, -9.9], -10.0) < PointY([-10.0, -9.9], -9.9)
  {
    var values := [-10.0, -9.9];
    assert MaxOf(values) == -9.9;
    assert MinOf(values) == -10.0;
    InvertedScaleIsUpsideDown(values, -10.0, -9.9);
  }

  // ---------------------------------------------------------------------------
  // Horizontal placement

  /** `padding.left + (i / Math.max(n - 1, 1)) * chartWidth` */
  function PointX(i: nat, n: nat): (x: real)
    requires i < n
    ensures i == 0 ==> x == PaddingLeft
    ensures n >= 2 && i == n - 1 ==> x == PaddingLeft + ChartWidth
  {
    var last := if n - 1 > 1 then n - 1 else 1;
    PaddingLeft + ((i as real) / (last as real)) * ChartWidth
  }

  /** Points are placed left to right in index order, within the plot area. */
  lemma PointXIncreasing(i: nat, j: nat, n: nat)
    requires i < j < n
    ensures PointX(i, n) < PointX(j, n)
    ensures PaddingLeft <= PointX(i, n) && PointX(j, n) <= PaddingLeft + ChartWidth
  {
    var last := (n - 1) as real;
    assert (i as real) / last < (j as real) / last;
    FractionInUnit(i as real, last);
    FractionInUnit(j as real, last);
  }

  // ---------------------------------------------------------------------------
  // Labels

  /** `a.indexOf(v)`: the first position of `v`, or -1. */
  function FirstIndex(a: seq<int>, v: int): (r: int)
    ensures r == -1 <==> v !in a
    ensures r != -1 ==> 0 <= r < |a| && a[r] == v && v !in a[..r]
  {
    if a == [] then -1
    else if a[0] == v then 0
    else
      var rest := FirstIndex(a[1..], v);
      if rest == -1 then -1
      else
        assert a[..rest + 1] == [a[0]] + a[1..][..rest];
        rest + 1
  }

  /** `a.filter((v, i, a) => a.indexOf(v) === i)` from position `from` on. */
  function KeepFirstFrom(a: seq<int>, from: nat): (r: seq<int>)
    requires from <= |a|
    ensures forall v :: v in r <==> v in a[from..] && FirstIndex(a, v) >= from
    decreases |a| - from
  {
    if from == |a| then []
    else
      var rest := KeepFirstFrom(a, from + 1);
      assert forall v :: v in a[from..] <==> v == a[from] || v in a[from + 1..];
      (if FirstIndex(a, a[from]) == from then [a[from]] else []) + rest
  }

  function KeepFirst(a: seq<int>): seq<int> {
    KeepFirstFrom(a, 0)
  }

  /** Keeping first occurrences drops repeats and nothing else. */
  lemma {:induction false} KeepFirstFromDistinct(a: seq<int>, from: nat)
    requires from <= |a|
    ensures forall i, j :: 0 <= i < j < |KeepFirstFrom(a, from)| ==>
      KeepFirstFrom(a, from)[i] != KeepFirstFrom(a, from)[j]
    decreases |a| - from
  {
    if from < |a| {
      KeepFirstFromDistinct(a, from + 1);
      var rest := KeepFirstFrom(a, from + 1);
      if FirstIndex(a, a[from]) == from {
        assert a[from] !in rest;
      }
    }
  }

  lemma KeepFirstKeepsValues(a: seq<int>)
    ensures forall v :: v in KeepFirst(a) <==> v in a
    ensures forall i, j :: 0 <= i < j < |KeepFirst(a)| ==> KeepFirst(a)[i] != KeepFirst(a)[j]
  {
    assert a[0..] == a;
    KeepFirstFromDistinct(a, 0);
  }

  /** `labelIndices`: first, middle and last point, without repeats. */
  function LabelIndices(n: nat): (r: seq<int>)
    ensures n == 1 ==> r == [0]
    ensures n == 2 ==> r == [0, 1]
    ensures n >= 3 ==> r == [0, n / 2, n - 1]
    ensures n >= 1 ==> forall k :: k in r ==> 0 <= k < n
    ensures forall i, j :: 0 <= i < j < |r| ==> r[i] != r[j]
  {
    LabelCandidatesByCount(n);
    KeepFirstKeepsValues([0, n / 2, n - 1]);
    KeepFirst([0, n / 2, n - 1])
  }

  /** Keeping the first occurrences of the three candidates, by point count. */
  lemma LabelCandidatesByCount(n: nat)
    ensures n == 1 ==> KeepFirst([0, n / 2, n - 1]) == [0]
    ensures n == 2 ==> KeepFirst([0, n / 2, n - 1]) == [0, 1]
    ensures n >= 3 ==> KeepFirst([0, n / 2, n - 1]) == [0, n / 2, n - 1]
  {
    var a := [0, n / 2, n - 1];
    assert FirstIndex(a, 0) == 0;
    assert KeepFirstFrom(a, 3) == [];
    if n >= 3 {
      assert FirstIndex(a, n / 2) == 1;
      assert FirstIndex(a, n - 1) == 2;
      assert KeepFirstFrom(a, 2) == [n - 1];
      assert KeepFirstFrom(a, 1) == [n / 2, n - 1];
    } else if n == 2 {
      assert FirstIndex(a, n / 2) == 1;
      assert FirstIndex(a, n - 1) == 1;
      assert KeepFirstFrom(a, 2) == [];
      assert KeepFirstFrom(a, 1) == [1];
    } else if n == 1 {
      assert FirstIndex(a, n / 2) == 0;
      assert FirstIndex(a, n - 1) == 0;
      assert KeepFirstFrom(a, 2) == [];
      assert KeepFirstFrom(a, 1) == [];
    }
  }

  // ---------------------------------------------------------------------------
  // What the chart draws

  /** The numbers the chart is drawn from; `None` is the empty chart (`null`). */
  datatype Layout = Layout(range: real, xs: seq<real>, ys: seq<real>, labels: seq<int>)

  function LayoutOf(values: seq<real>): (r: Option<Layout>)
    ensures r.None? <==> values == []
    ensures r.Some? ==> |r.value.xs| == |values| == |r.value.ys| && r.value.range != 0.0
    ensures r.Some? ==> r.value.range == Range(values) && r.value.labels == LabelIndices(|values|)
    ensures r.Some? ==> forall i :: 0 <= i < |values| ==>
      r.value.xs[i] == PointX(i, |values|) && r.value.ys[i] == PointY(values, values[i])
    ensures r.Some? ==> forall k :: k in r.value.labels ==> 0 <= k < |values|
  {
    if values == [] then None
    else
      var n := |values|;
      Some(Layout(
        Range(values),
        seq(n, i requires 0 <= i < n => PointX(i, n)),
        seq(n, i requires 0 <= i < n => PointY(values, values[i])),
        LabelIndices(n)))
  }
}
