/**
 Fitting a generated path into the workspace and keeping it there through the later transformations.
 Rounding to two decimals is any function that moves a value by at most 0.005.
 */
module Workspace {
  import opened Basics
  import opened PathGeometry
  import opened PathSimplify

  const MARGIN: real := 2.0
  const HALF_CENT: real := 0.005
  const DEFAULT_TOLERANCE: real := 0.5
  const DEFAULT_ITERATIONS: int := 2

  ghost predicate Rounds(rnd: real -> real) {
    forall v :: v - HALF_CENT <= rnd(v) <= v + HALF_CENT
  }

  datatype Fitted = Fits(path: seq<Point>) | OutOfWorkspace(index: nat)

  predicate Inside(p: Point, width: real, height: real) {
    InBox(p, 0.0, 0.0, width, height)
  }

  /** The first point that is outside, if any. */
  ghost predicate Checked(path: seq<Point>, width: real, height: real, r: Fitted) {
    match r
    case Fits(q) => q == path && AllInBox(path, 0.0, 0.0, width, height)
    case OutOfWorkspace(i) =>
      i < |path| && !Inside(path[i], width, height) && forall j :: 0 <= j < i ==> Inside(path[j], width, height)
  }

  /** The bounds assertion. */
  method AssertWithin(path: seq<Point>, width: real, height: real) returns (r: Fitted)
    ensures Checked(path, width, height, r)
    ensures r.Fits? <==> forall i :: 0 <= i < |path| ==> 0.0 <= path[i].x <= width && 0.0 <= path[i].y <= height
  {
    for i := 0 to |path|
      invariant forall j :: 0 <= j < i ==> Inside(path[j], width, height)
    {
      if !Inside(path[i], width, height) { return OutOfWorkspace(i); }
    }
    return Fits(path);
  }

  // ---------------------------------------------------------------- the scaling

  function MinOf(s: seq<real>): (r: real)
    requires s != []
    ensures r in s && forall i :: 0 <= i < |s| ==> r <= s[i]
  {
    if |s| == 1 then s[0]
    else
      var m := MinOf(s[..|s| - 1]);
      if s[|s| - 1] < m then s[|s| - 1] else m
  }

  function MaxOf(s: seq<real>): (r: real)
    requires s != []
    ensures r in s && forall i :: 0 <= i < |s| ==> s[i] <= r
  {
    if |s| == 1 then s[0]
    else
      var m := MaxOf(s[..|s| - 1]);
      if s[|s| - 1] > m then s[|s| - 1] else m
  }

  function Xs(path: seq<Point>): (r: seq<real>)
    ensures |r| == |path| && forall i :: 0 <= i < |r| ==> r[i] == path[i].x
  {
    seq(|path|, i requires 0 <= i < |path| => path[i].x)
  }

  function Ys(path: seq<Point>): (r: seq<real>)
    ensures |r| == |path| && forall i :: 0 <= i < |r| ==> r[i] == path[i].y
  {
    seq(|path|, i requires 0 <= i < |path| => path[i].y)
  }

  function Span(s: seq<real>): (r: real)
    requires s != []
    ensures r >= 0.0
  {
    MaxOf(s) - MinOf(s)
  }

  /** min(available / span, bound), a span of zero imposing nothing. */
  function Limited(available: real, span: real, bound: real): real
    requires span >= 0.0
  {
    if span > 0.0 && available / span < bound then available / span else bound
  }

  function ScaleOf(path: seq<Point>, width: real, height: real): real
    requires path != []
  {
    Limited(width - 2.0 * MARGIN, Span(Xs(path)), Limited(height - 2.0 * MARGIN, Span(Ys(path)), 1.0))
  }

  /** One coordinate after scaling and moving, before rounding. */
  function Axis(v: real, low: real, k: real): real {
    MARGIN - Times(low, k) + Times(v, k)
  }

  function Placed(p: Point, k: real, minX: real, minY: real, rnd: real -> real): Point {
    Point(rnd(Axis(p.x, minX, k)), rnd(Axis(p.y, minY, k)), p.z, false)
  }

  function PlacedPath(path: seq<Point>, width: real, height: real, rnd: real -> real): (r: seq<Point>)
    requires path != []
    ensures |r| == |path|
  {
    var k, minX, minY := ScaleOf(path, width, height), MinOf(Xs(path)), MinOf(Ys(path));
    seq(|path|, i requires 0 <= i < |path| => Placed(path[i], k, minX, minY, rnd))
  }

  method Normalize(path: seq<Point>, width: real, height: real, rnd: real -> real) returns (r: Fitted)
    ensures path == [] ==> r == Fits(path)
    ensures path != [] ==> Checked(PlacedPath(path, width, height, rnd), width, height, r)
  {
    if path == [] { return Fits(path); }
    r := AssertWithin(PlacedPath(path, width, height, rnd), width, height);
  }

  lemma QuotientSign(a: real, s: real)
    requires a >= 0.0 && s > 0.0
    ensures a / s >= 0.0
  {
    var q := a / s;
    QuotientTimes(a, s);
    if q < 0.0 { MulStrict(q, 0.0, s); }
  }

  lemma LimitedFits(available: real, span: real, bound: real)
    requires span >= 0.0 && available >= 0.0 && bound >= 0.0
    ensures 0.0 <= Limited(available, span, bound) <= bound
    ensures Limited(available, span, bound) * span <= available
    ensures Limited(available, span, bound) == bound || Limited(available, span, bound) * span == available
  {
    if span > 0.0 {
      QuotientTimes(available, span);
      QuotientSign(available, span);
      if available / span >= bound { MulOrder(bound, available / span, span); }
    }
  }

  lemma LimitedLargest(available: real, span: real, bound: real, k: real)
    requires span >= 0.0 && k <= bound && k * span <= available
    ensures k <= Limited(available, span, bound)
  {
    if span > 0.0 {
      QuotientTimes(available, span);
      if available / span < k { MulStrict(available / span, k, span); }
    }
  }

  /** The scale lies in [0, 1], fits both axes, and is the largest such number. */
  lemma ScaleIsBest(path: seq<Point>, width: real, height: real, k: real)
    requires path != [] && width >= 2.0 * MARGIN && height >= 2.0 * MARGIN
    ensures var s := ScaleOf(path, width, height);
      0.0 <= s <= 1.0 && s * Span(Xs(path)) <= width - 2.0 * MARGIN && s * Span(Ys(path)) <= height - 2.0 * MARGIN
    ensures k <= 1.0 && k * Span(Xs(path)) <= width - 2.0 * MARGIN && k * Span(Ys(path)) <= height - 2.0 * MARGIN
      ==> k <= ScaleOf(path, width, height)
  {
    hide Span, Limited;
    var sx, sy, w, h := Span(Xs(path)), Span(Ys(path)), width - 2.0 * MARGIN, height - 2.0 * MARGIN;
    var inner := Limited(h, sy, 1.0);
    LimitedFits(h, sy, 1.0);
    LimitedFits(w, sx, inner);
    var s := ScaleOf(path, width, height);
    MulOrder(s, inner, sy);
    if k <= 1.0 && k * sx <= w && k * sy <= h {
      LimitedLargest(h, sy, 1.0, k);
      LimitedLargest(w, sx, inner, k);
    }
  }

  /** One coordinate of a placed point, before rounding, relative to the margin. */
  lemma AxisFits(v: real, low: real, span: real, k: real, available: real)
    requires low <= v <= low + span && k >= 0.0 && k * span <= available
    ensures MARGIN <= Axis(v, low, k) <= MARGIN + available
  {
    TimesMinus(v, low, k);
    TimesWithin(v - low, span, k, available);
    hide Times;
  }

  lemma TimesWithin(v: real, span: real, k: real, available: real)
    requires 0.0 <= v <= span && k >= 0.0 && k * span <= available
    ensures 0.0 <= Times(v, k) <= available
  {
    MulOrder(0.0, v, k);
    MulOrder(v, span, k);
    assert span * k == k * span;
  }

  lemma PlacedAt(path: seq<Point>, width: real, height: real, rnd: real -> real, i: nat)
    requires i < |path|
    ensures PlacedPath(path, width, height, rnd)[i]
      == Placed(path[i], ScaleOf(path, width, height), MinOf(Xs(path)), MinOf(Ys(path)), rnd)
  {
    hide ScaleOf, MinOf, Placed;
  }

  lemma InSpan(s: seq<real>, i: nat)
    requires i < |s|
    ensures MinOf(s) <= s[i] <= MinOf(s) + Span(s)
  {
  }

  /** With room for twice the margin, normalisation never raises, and leaves the margin up to rounding. */
  lemma NormalizeFits(path: seq<Point>, width: real, height: real, rnd: real -> real)
    requires path != [] && width >= 2.0 * MARGIN && height >= 2.0 * MARGIN && Rounds(rnd)
    ensures AllInBox(PlacedPath(path, width, height, rnd), MARGIN - HALF_CENT, MARGIN - HALF_CENT,
                     width - MARGIN + HALF_CENT, height - MARGIN + HALF_CENT)
    ensures AllInBox(PlacedPath(path, width, height, rnd), 0.0, 0.0, width, height)
  {
    hide ScaleOf, Span, MinOf, PlacedPath, Axis;
    var k, q := ScaleOf(path, width, height), PlacedPath(path, width, height, rnd);
    ScaleIsBest(path, width, height, 0.0);
    forall i | 0 <= i < |q|
      ensures InBox(q[i], MARGIN - HALF_CENT, MARGIN - HALF_CENT, width - MARGIN + HALF_CENT, height - MARGIN + HALF_CENT)
    {
      InSpan(Xs(path), i);
      InSpan(Ys(path), i);
      AxisFits(path[i].x, MinOf(Xs(path)), Span(Xs(path)), k, width - 2.0 * MARGIN);
      AxisFits(path[i].y, MinOf(Ys(path)), Span(Ys(path)), k, height - 2.0 * MARGIN);
      PlacedAt(path, width, height, rnd, i);
      Rounded(rnd, Axis(path[i].x, MinOf(Xs(path)), k));
      Rounded(rnd, Axis(path[i].y, MinOf(Ys(path)), k));
    }
  }

  lemma Rounded(rnd: real -> real, v: real)
    requires Rounds(rnd)
    ensures v - HALF_CENT <= rnd(v) <= v + HALF_CENT
  {
  }

  lemma AxisDifference(u: real, v: real, low: real, k: real)
    ensures Axis(u, low, k) - Axis(v, low, k) == Times(u - v, k)
  {
    TimesMinus(u, v, k);
    hide Times;
  }

  predicate Near(a: real, b: real) {
    b - 2.0 * HALF_CENT <= a <= b + 2.0 * HALF_CENT
  }

  /** Normalisation is one uniform scaling of both axes: every difference of two points is scaled by the
      same number, up to rounding, and heights are kept. */
  lemma NormalizeIsUniform(path: seq<Point>, width: real, height: real, rnd: real -> real, i: nat, j: nat)
    requires i < |path| && j < |path| && Rounds(rnd)
    ensures var (q, k) := (PlacedPath(path, width, height, rnd), ScaleOf(path, width, height));
      Near(q[i].x - q[j].x, Times(path[i].x - path[j].x, k)) && Near(q[i].y - q[j].y, Times(path[i].y - path[j].y, k))
      && q[i].z == path[i].z
  {
    hide ScaleOf, Span, MinOf, PlacedPath, Axis, Times;
    var k, minX, minY := ScaleOf(path, width, height), MinOf(Xs(path)), MinOf(Ys(path));
    PlacedAt(path, width, height, rnd, i);
    PlacedAt(path, width, height, rnd, j);
    AxisDifference(path[i].x, path[j].x, minX, k);
    AxisDifference(path[i].y, path[j].y, minY, k);
    Rounded(rnd, Axis(path[i].x, minX, k));
    Rounded(rnd, Axis(path[i].y, minY, k));
    Rounded(rnd, Axis(path[j].x, minX, k));
    Rounded(rnd, Axis(path[j].y, minY, k));
  }

  /** A workspace narrower than twice the margin rejects some path: a step across it with a long rise. */
  lemma NarrowRejects(width: real, height: real, rnd: real -> real) returns (path: seq<Point>)
    requires Rounds(rnd) && (width < 2.0 * MARGIN || height < 2.0 * MARGIN)
    ensures path != [] && !AllInBox(PlacedPath(path, width, height, rnd), 0.0, 0.0, width, height)
  {
    hide PlacedPath, ScaleOf, InBox, Step;
    if width < 2.0 * MARGIN {
      path := NarrowWidth(width, height, rnd);
    } else {
      path := NarrowHeight(width, height, rnd);
    }
  }

  ghost predicate AcceptsAll(width: real, height: real, rnd: real -> real) {
    forall path: seq<Point> :: path != [] ==> AllInBox(PlacedPath(path, width, height, rnd), 0.0, 0.0, width, height)
  }

  /** Normalisation raises for no path exactly when the workspace is at least twice the margin each way. */
  lemma AcceptsAllIff(width: real, height: real, rnd: real -> real)
    requires Rounds(rnd)
    ensures AcceptsAll(width, height, rnd) <==> width >= 4.0 && height >= 4.0
  {
    hide PlacedPath, AllInBox;
    if width >= 2.0 * MARGIN && height >= 2.0 * MARGIN {
      forall path: seq<Point> | path != [] ensures AllInBox(PlacedPath(path, width, height, rnd), 0.0, 0.0, width, height) {
        NormalizeFits(path, width, height, rnd);
      }
    } else {
      var path := NarrowRejects(width, height, rnd);
    }
  }

  lemma NarrowWidth(width: real, height: real, rnd: real -> real) returns (path: seq<Point>)
    requires Rounds(rnd) && width < 2.0 * MARGIN
    ensures |path| == 2 && !InBox(PlacedPath(path, width, height, rnd)[1], 0.0, 0.0, width, height)
  {
    hide PlacedPath, ScaleOf, InBox;
    var rise := 3.0 / -(width - 2.0 * MARGIN);
    path := Step(1.0, rise);
    QuotientPositive(-(width - 2.0 * MARGIN));
    StepScale(1.0, rise, width, height);
    NegativeRise(path, width, height, rise, width - 2.0 * MARGIN, rnd);
  }

  lemma NarrowHeight(width: real, height: real, rnd: real -> real) returns (path: seq<Point>)
    requires Rounds(rnd) && height < 2.0 * MARGIN
    ensures |path| == 2 && !InBox(PlacedPath(path, width, height, rnd)[1], 0.0, 0.0, width, height)
  {
    hide PlacedPath, ScaleOf, InBox;
    var run := 3.0 / -(height - 2.0 * MARGIN);
    path := Step(run, 1.0);
    QuotientPositive(-(height - 2.0 * MARGIN));
    StepScale(run, 1.0, width, height);
    NegativeRun(path, width, height, run, height - 2.0 * MARGIN, rnd);
  }

  lemma QuotientPositive(s: real)
    requires s > 0.0
    ensures 3.0 / s > 0.0
  {
    QuotientTimes(3.0, s);
    QuotientSign(3.0, s);
  }

  function Step(run: real, rise: real): seq<Point> {
    [Point(0.0, 0.0, 0.0, false), Point(run, rise, 0.0, false)]
  }

  lemma StepScale(run: real, rise: real, width: real, height: real)
    requires run > 0.0 && rise > 0.0
    ensures MinOf(Xs(Step(run, rise))) == 0.0 && MinOf(Ys(Step(run, rise))) == 0.0
    ensures var k := ScaleOf(Step(run, rise), width, height);
      k <= (width - 2.0 * MARGIN) / run && k <= (height - 2.0 * MARGIN) / rise
  {
    assert Xs(Step(run, rise)) == [0.0, run];
    assert Ys(Step(run, rise)) == [0.0, rise];
    TwoEnds(run);
    TwoEnds(rise);
  }

  lemma TwoEnds(v: real)
    requires v > 0.0
    ensures MinOf([0.0, v]) == 0.0 && MaxOf([0.0, v]) == v
  {
  }

  lemma NegativeRise(path: seq<Point>, width: real, height: real, rise: real, slack: real, rnd: real -> real)
    requires slack < 0.0 && rise == 3.0 / -slack && path == Step(1.0, rise) && Rounds(rnd)
    requires MinOf(Ys(path)) == 0.0 && ScaleOf(path, width, height) <= slack
    ensures !InBox(PlacedPath(path, width, height, rnd)[1], 0.0, 0.0, width, height)
  {
    hide ScaleOf, MinOf, PlacedPath;
    var k := ScaleOf(path, width, height);
    PlacedAt(path, width, height, rnd, 1);
    ThreeDown(k, slack, rise);
    Rounded(rnd, Axis(rise, 0.0, k));
  }

  lemma NegativeRun(path: seq<Point>, width: real, height: real, run: real, slack: real, rnd: real -> real)
    requires slack < 0.0 && run == 3.0 / -slack && path == Step(run, 1.0) && Rounds(rnd)
    requires MinOf(Xs(path)) == 0.0 && ScaleOf(path, width, height) <= slack
    ensures !InBox(PlacedPath(path, width, height, rnd)[1], 0.0, 0.0, width, height)
  {
    hide ScaleOf, MinOf, PlacedPath;
    var k := ScaleOf(path, width, height);
    PlacedAt(path, width, height, rnd, 1);
    ThreeDown(k, slack, run);
    Rounded(rnd, Axis(run, 0.0, k));
  }

  lemma ThreeDown(k: real, slack: real, v: real)
    requires slack < 0.0 && v == 3.0 / -slack && k <= slack
    ensures v > 0.0 && v * k <= -3.0
  {
    QuotientTimes(3.0, -slack);
    assert v * -slack == 3.0;
    if v <= 0.0 {
      MulOrder(v, 0.0, -slack);
      assert false;
    }
    MulOrder(k, slack, v);
    assert slack * v == -3.0;
  }

  // ---------------------------------------------------------------- the render pipeline

  function Shifted(path: seq<Point>, shift: real, rnd: real -> real): (r: seq<Point>)
    ensures |r| == |path|
  {
    seq(|path|, i requires 0 <= i < |path| => path[i].(x := rnd(path[i].x + shift)))
  }

  /** Copies 0 .. n-1 of the path, each moved by its number times the offset. */
  function Passes(path: seq<Point>, n: nat, offset: real, rnd: real -> real): seq<Point> {
    if n == 0 then [] else Passes(path, n - 1, offset, rnd) + Shifted(path, (n - 1) as real * offset, rnd)
  }

  method ApplyMultiPass(path: seq<Point>, passes: int, offset: real, rnd: real -> real) returns (result: seq<Point>)
    ensures result == if passes <= 1 then path else Passes(path, passes, offset, rnd)
  {
    if passes <= 1 { return path; }
    result := [];
    for n := 0 to passes
      invariant result == Passes(path, n, offset, rnd)
    {
      var shift := n as real * offset;
      ghost var before := result;
      for i := 0 to |path|
        invariant result == before + Shifted(path, shift, rnd)[..i]
      {
        result := result + [path[i].(x := rnd(path[i].x + shift))];
      }
      assert Shifted(path, shift, rnd)[..|path|] == Shifted(path, shift, rnd);
      assert Passes(path, n + 1, offset, rnd) == Passes(path, n, offset, rnd) + Shifted(path, (n + 1 - 1) as real * offset, rnd);
    }
  }

  /** Point `i` of copy `c` is point `i` of the path, to the right by `c` offsets and rounded; height and `y` stay. */
  lemma {:induction false} PassesAt(path: seq<Point>, n: nat, offset: real, rnd: real -> real, c: nat, i: nat)
    requires c < n && i < |path|
    ensures |Passes(path, n, offset, rnd)| == n * |path| && 0 <= c * |path| + i < n * |path|
    ensures Passes(path, n, offset, rnd)[c * |path| + i] == path[i].(x := rnd(path[i].x + c as real * offset))
  {
    PassesSize(path, n, offset, rnd);
    PassesSize(path, n - 1, offset, rnd);
    RowOf(n, c, i, |path|);
    var front := Passes(path, n - 1, offset, rnd);
    if c < n - 1 {
      PassesAt(path, n - 1, offset, rnd, c, i);
    } else {
      SameProducts(c, n - 1, |path|, offset);
      var last, shift := (n - 1) as real * offset, c as real * offset;
      assert Passes(path, n, offset, rnd) == front + Shifted(path, last, rnd);
      assert last == shift;
      var copy := Shifted(path, shift, rnd);
      ShiftedAt(path, shift, rnd, i);
      assert (front + copy)[|front| + i] == copy[i];
      assert Passes(path, n, offset, rnd) == front + copy;
    }
  }

  lemma {:induction false} PassesSize(path: seq<Point>, n: nat, offset: real, rnd: real -> real)
    ensures |Passes(path, n, offset, rnd)| == n * |path|
  {
    if n > 0 { PassesSize(path, n - 1, offset, rnd); }
  }

  lemma RowOf(n: nat, c: nat, i: nat, width: nat)
    requires c < n && i < width
    ensures 0 <= c * width + i < n * width && n * width == (n - 1) * width + width
    ensures c < n - 1 ==> c * width + i < (n - 1) * width
  {
    if c < n - 1 { RowMono(c + 1, n - 1, width); }
    assert (n - 1) * width + width == n * width;
    RowMono(c + 1, n, width);
    assert (c + 1) * width == c * width + width;
    RowMono(0, c, width);
  }

  lemma ShiftedAt(path: seq<Point>, shift: real, rnd: real -> real, i: nat)
    requires i < |path|
    ensures Shifted(path, shift, rnd)[i] == path[i].(x := rnd(path[i].x + shift))
  {
  }

  lemma SameProducts(a: nat, b: nat, width: nat, offset: real)
    requires a == b
    ensures a * width == b * width && a as real * offset == b as real * offset
  {
  }

  lemma RowMono(a: nat, b: nat, width: nat)
    requires a <= b
    ensures a * width <= b * width
  {
  }

  /** The lowest coordinate in each direction is placed on the margin of 2, and no marker is kept. */
  lemma NormalizeTouches(path: seq<Point>, width: real, height: real, rnd: real -> real, i: nat)
    requires i < |path|
    ensures var q := PlacedPath(path, width, height, rnd);
      && ((forall j :: 0 <= j < |path| ==> path[i].x <= path[j].x) ==> q[i].x == rnd(2.0))
      && ((forall j :: 0 <= j < |path| ==> path[i].y <= path[j].y) ==> q[i].y == rnd(2.0))
      && !q[i].penUp
  {
    hide ScaleOf, PlacedPath, Axis, MinOf;
    PlacedAt(path, width, height, rnd, i);
    var k := ScaleOf(path, width, height);
    if forall j :: 0 <= j < |path| ==> path[i].x <= path[j].x { LowestIs(Xs(path), i); AxisLow(path[i].x, k); }
    if forall j :: 0 <= j < |path| ==> path[i].y <= path[j].y { LowestIs(Ys(path), i); AxisLow(path[i].y, k); }
  }

  lemma LowestIs(s: seq<real>, i: nat)
    requires i < |s| && forall j :: 0 <= j < |s| ==> s[i] <= s[j]
    ensures MinOf(s) == s[i]
  {
  }

  lemma AxisLow(v: real, k: real)
    ensures Axis(v, v, k) == 2.0
  {
  }

  /** Everything after the path exists: normalise, repeat, optimise, and check again. */
  method Render(path: seq<Point>, width: real, height: real, passes: int, offset: real, optimize: bool, rnd: real -> real)
    returns (r: Fitted)
    requires Rounds(rnd)
    ensures r.Fits? ==> AllInBox(r.path, 0.0, 0.0, width, height)
    ensures width >= 2.0 * MARGIN && height >= 2.0 * MARGIN && StaysIn(passes, offset) ==> r.Fits?
    ensures path != [] && r.Fits? ==>
      var placed := PlacedPath(path, width, height, rnd);
      var drawn := if passes <= 1 then placed else Passes(placed, passes, offset, rnd);
      r.path == if optimize then Smoothed(Simplified(drawn, 0.5), 2) else drawn
  {
    hide Smoothed, Simplified, PlacedPath;
    r := Normalize(path, width, height, rnd);
    if path != [] && width >= 2.0 * MARGIN && height >= 2.0 * MARGIN { NormalizeFits(path, width, height, rnd); }
    if r.OutOfWorkspace? { return; }
    var q := r.path;
    if passes > 1 {
      var base := q;
      q := ApplyMultiPass(base, passes, offset, rnd);
      if width >= 2.0 * MARGIN && height >= 2.0 * MARGIN && StaysIn(passes, offset) {
        PassesFit(base, passes, passes, offset, rnd, width, height);
      }
    }
    if optimize {
      ghost var before := q;
      q := Compress(q, DEFAULT_TOLERANCE);
      ghost var fewer := q;
      q := Smooth(q, DEFAULT_ITERATIONS);
      if AllInBox(before, 0.0, 0.0, width, height) { OptimizedStays(before, width, height); }
    }
    r := AssertWithin(q, width, height);
  }

  /** No copy is moved by more than the margin allows for. */
  predicate StaysIn(passes: int, offset: real) {
    passes <= 1 || (offset >= 0.0 && (passes - 1) as real * offset <= MARGIN - 2.0 * HALF_CENT)
  }

  lemma {:induction false} PassesFit(path: seq<Point>, n: nat, passes: int, offset: real, rnd: real -> real, width: real,
                                     height: real)
    requires Rounds(rnd) && n <= passes && passes > 1 && StaysIn(passes, offset)
    requires path == [] || AllInBox(path, MARGIN - HALF_CENT, MARGIN - HALF_CENT, width - MARGIN + HALF_CENT, height - MARGIN + HALF_CENT)
    ensures AllInBox(Passes(path, n, offset, rnd), 0.0, 0.0, width, height)
  {
    if n > 0 {
      PassesFit(path, n - 1, passes, offset, rnd, width, height);
      var shift := (n - 1) as real * offset;
      MulOrder(0.0, (n - 1) as real, offset);
      MulOrder((n - 1) as real, (passes - 1) as real, offset);
      assert 0.0 <= shift <= MARGIN - 2.0 * HALF_CENT;
      ShiftedFits(path, shift, rnd, width, height);
    }
  }

  lemma ShiftedFits(path: seq<Point>, shift: real, rnd: real -> real, width: real, height: real)
    requires Rounds(rnd) && 0.0 <= shift <= MARGIN - 2.0 * HALF_CENT
    requires path == [] || AllInBox(path, MARGIN - HALF_CENT, MARGIN - HALF_CENT, width - MARGIN + HALF_CENT, height - MARGIN + HALF_CENT)
    ensures AllInBox(Shifted(path, shift, rnd), 0.0, 0.0, width, height)
  {
    var copy := Shifted(path, shift, rnd);
    forall i | 0 <= i < |copy| ensures InBox(copy[i], 0.0, 0.0, width, height) {
      assert InBox(path[i], MARGIN - HALF_CENT, MARGIN - HALF_CENT, width - MARGIN + HALF_CENT, height - MARGIN + HALF_CENT);
    }
  }

  /** Simplifying and smoothing keep every point inside the box of the path. */
  lemma OptimizedStays(path: seq<Point>, width: real, height: real)
    requires AllInBox(path, 0.0, 0.0, width, height)
    ensures AllInBox(Smoothed(Simplified(path, DEFAULT_TOLERANCE), 2), 0.0, 0.0, width, height)
  {
    hide KeptIndices, Smoothed;
    var fewer := Simplified(path, DEFAULT_TOLERANCE);
    assert AllInBox(fewer, 0.0, 0.0, width, height);
    SmoothingStays(fewer, 2, 0.0, 0.0, width, height);
  }
}
