/**
 Path points and the distance from a point to a segment.  Distances are kept squared: the program's
 comparisons of square roots are comparisons of the squares.
 */
module PathGeometry {
  import opened Basics

  /** A path point; `penUp` is the marker of a travel move. */
  datatype Point = Point(x: real, y: real, z: real, penUp: bool)

  function Square(a: real): real { a * a }

  /** Squared distance of two points in the plane. */
  function Apart(p: Point, q: Point): (d: real)
    ensures d >= 0.0
  {
    Square(q.x - p.x) + Square(q.y - p.y)
  }

  function Clamp01(t: real): (r: real)
    ensures 0.0 <= r <= 1.0
  {
    if t < 0.0 then 0.0 else if t > 1.0 then 1.0 else t
  }

  /** The point at fraction `t` of the way from `a` to `b`. */
  function Along(a: Point, b: Point, t: real): Point {
    Point(a.x + t * (b.x - a.x), a.y + t * (b.y - a.y), a.z, a.penUp)
  }

  function Dot(p: Point, a: Point, b: Point): real {
    (p.x - a.x) * (b.x - a.x) + (p.y - a.y) * (b.y - a.y)
  }

  /** The fraction at which the program projects `p`; zero for a segment of length zero. */
  function Foot(p: Point, a: Point, b: Point): (t: real)
    ensures 0.0 <= t <= 1.0
  {
    if b.x == a.x && b.y == a.y then 0.0
    else
      SquareSum(b.x - a.x, b.y - a.y);
      Clamp01(Dot(p, a, b) / Apart(a, b))
  }

  lemma SquarePositive(u: real)
    ensures Square(u) >= 0.0 && (u != 0.0 ==> Square(u) > 0.0)
  {
    if u != 0.0 {
      var v := u;
      assert u * v / v == u;
    }
  }

  lemma SquareSum(u: real, v: real)
    requires u != 0.0 || v != 0.0
    ensures Square(u) + Square(v) > 0.0
  {
    SquarePositive(u);
    SquarePositive(v);
  }

  /** Squared distance from `p` to the segment from `a` to `b`, as the program computes it. */
  function SegmentDistance(p: Point, a: Point, b: Point): (d: real)
    ensures d >= 0.0
  {
    Apart(p, Along(a, b, Foot(p, a, b)))
  }

  /** The part of the squared distance to `Along(a, b, t)` that depends on `t`. */
  function Varying(p: Point, a: Point, b: Point, t: real): real {
    t * t * Apart(a, b) - 2.0 * t * Dot(p, a, b)
  }

  lemma Quadratic(p: Point, a: Point, b: Point, t: real)
    ensures Apart(p, Along(a, b, t)) == Apart(p, a) + Varying(p, a, b, t)
  {
    var dx, dy, px, py := b.x - a.x, b.y - a.y, p.x - a.x, p.y - a.y;
    SquareOfDifference(px, t, dx);
    SquareOfDifference(py, t, dy);
    assert Square(a.x + t * dx - p.x) == Square(px - t * dx);
    assert Square(a.y + t * dy - p.y) == Square(py - t * dy);
    assert Apart(p, a) == Square(px) + Square(py);
    Distribute(t, px * dx, py * dy);
    Distribute(t * t, Square(dx), Square(dy));
  }

  lemma SquareOfDifference(p: real, t: real, d: real)
    ensures Square(p - t * d) == Square(p) - 2.0 * t * (p * d) + t * t * Square(d)
  {
    var e := t * d;
    assert Square(p - e) == p * p - 2.0 * (p * e) + e * e;
    assert p * e == t * (p * d);
    assert e * e == t * t * (d * d);
  }

  /** The projected point is the nearest one: no point of the segment is closer. */
  lemma NearestOfSegment(p: Point, a: Point, b: Point, u: real)
    requires 0.0 <= u <= 1.0
    ensures SegmentDistance(p, a, b) <= Apart(p, Along(a, b, u))
  {
    Quadratic(p, a, b, Foot(p, a, b));
    Quadratic(p, a, b, u);
    if b.x == a.x && b.y == a.y {
      assert Along(a, b, u) == Along(a, b, 0.0);
    } else {
      FootIsBest(p, a, b, u);
    }
  }

  lemma FootIsBest(p: Point, a: Point, b: Point, u: real)
    requires 0.0 <= u <= 1.0 && (b.x != a.x || b.y != a.y)
    ensures Varying(p, a, b, Foot(p, a, b)) <= Varying(p, a, b, u)
  {
    SquareSum(b.x - a.x, b.y - a.y);
    MinimumAtFoot(Dot(p, a, b), Apart(a, b), u);
  }

  /** A parabola 'l u^2 - 2 c u' on [0, 1] is smallest at the clamped vertex. */
  lemma MinimumAtFoot(c: real, l: real, u: real)
    requires l > 0.0 && 0.0 <= u <= 1.0
    ensures var t := Clamp01(c / l); t * t * l - 2.0 * t * c <= u * u * l - 2.0 * u * c
  {
    var v := c / l;
    assert c == v * l;
    var t := Clamp01(v);
    VertexForm(u, v, l);
    VertexForm(t, v, l);
    Closer(t, u, v);
    MulOrder(Square(t - v), Square(u - v), l);
  }

  lemma VertexForm(u: real, v: real, l: real)
    ensures u * u * l - 2.0 * u * (v * l) == Square(u - v) * l - v * v * l
  {
    assert Square(u - v) == u * u - 2.0 * (u * v) + v * v;
    var a, b, c := u * u, u * v, v * v;
    assert (a - 2.0 * b + c) * l == a * l - 2.0 * (b * l) + c * l;
    assert u * (v * l) == b * l;
  }

  /** Clamping to [0, 1] brings no point of [0, 1] further away. */
  lemma Closer(t: real, u: real, v: real)
    requires t == Clamp01(v) && 0.0 <= u <= 1.0
    ensures Square(t - v) <= Square(u - v)
  {
    if v < 0.0 {
      SquareMono(-v, u - v);
      assert Square(t - v) == Square(-v);
    } else if v > 1.0 {
      SquareMono(v - 1.0, v - u);
      assert Square(t - v) == Square(v - 1.0) && Square(u - v) == Square(v - u);
    } else {
      assert Square(t - v) == 0.0;
      SquarePositive(u - v);
    }
  }

  lemma SquareMono(a: real, b: real)
    requires 0.0 <= a <= b
    ensures Square(a) <= Square(b)
  {
    assert a * a <= a * b <= b * b;
  }

  /** Over a horizontal segment the distance is the height. */
  lemma HeightOver(p: Point, a: Point, b: Point)
    requires a.y == b.y && a.x <= p.x <= b.x
    ensures SegmentDistance(p, a, b) == (p.y - a.y) * (p.y - a.y)
  {
    var u := if a.x == b.x then 0.0 else (p.x - a.x) / (b.x - a.x);
    if a.x < b.x { Fraction(p.x - a.x, b.x - a.x); }
    NearestOfSegment(p, a, b, u);
    assert Along(a, b, u).x == p.x && Along(a, b, u).y == a.y;
    SquarePositive(Along(a, b, Foot(p, a, b)).x - p.x);
    assert Square(a.y - p.y) == (p.y - a.y) * (p.y - a.y);
  }

  lemma Fraction(part: real, whole: real)
    requires 0.0 <= part <= whole && whole > 0.0
    ensures 0.0 <= part / whole <= 1.0 && part / whole * whole == part
  {
    var u := part / whole;
    if u < 0.0 { MulStrict(u, 0.0, whole); }
    if u > 1.0 { MulStrict(1.0, u, whole); }
  }

  /** Before the segment begins the distance is that to its first point. */
  lemma DistanceBefore(p: Point, a: Point, b: Point)
    requires a.y == b.y && p.x <= a.x <= b.x
    ensures SegmentDistance(p, a, b) == (a.x - p.x) * (a.x - p.x) + (a.y - p.y) * (a.y - p.y)
  {
    NearestOfSegment(p, a, b, 0.0);
    var q := Along(a, b, Foot(p, a, b));
    NonNegative(Foot(p, a, b), b.x - a.x);
    SquareMono(a.x - p.x, q.x - p.x);
    assert Along(a, b, 0.0).x == a.x && Along(a, b, 0.0).y == a.y && q.y == a.y;
  }
}
