/**
 * Pixel geometry used by the tools: integer points, the two helper functions the tools
 * import (`distance`, `constructTriangleFromLine`), the translation that replays a
 * previous polygon, pygame's `Rect` with `normalize` and `center`, and the symmetric
 * stretch the triangle tool applies to a short baseline.
 */
module Geometry {

  /** A pixel position as pygame reports it: integer coordinates. */
  datatype Point = Point(x: int, y: int) {
    /** The vector from `q` to this point. */
    function Minus(q: Point): Point { Point(x - q.x, y - q.y) }
  }

  /** A point with real coordinates; the triangle tool computes in floating point. */
  datatype RPoint = RPoint(x: real, y: real)

  function ToReal(p: Point): RPoint { RPoint(p.x as real, p.y as real) }

  function Sq(n: int): (r: int)
    ensures r >= 0
    ensures r == 0 <==> n == 0
  {
    n * n
  }

  /** Squared Euclidean distance between two pixel positions. */
  function DistSq(p: Point, q: Point): (r: int)
    ensures r >= 0
    ensures r == 0 <==> p == q
  {
    Sq(p.x - q.x) + Sq(p.y - q.y)
  }

  function RDistSq(p: RPoint, q: RPoint): real
  {
    (p.x - q.x) * (p.x - q.x) + (p.y - q.y) * (p.y - q.y)
  }

  function Max(a: real, b: real): real { if a >= b then a else b }

  function MaxInt(a: int, b: int): int { if a >= b then a else b }

  function Abs(n: int): int { if n < 0 then -n else n }

  /**
   * The helper functions the tools take from a module that is not part of this model:
   * `distance(p, q)` and `constructTriangleFromLine(p, q)`. They are left uninterpreted.
   */
  datatype Helpers = Helpers(
    distance: (Point, Point) -> real,
    triangleFromLine: (RPoint, RPoint) -> seq<RPoint>)

  /** `distance` is the Euclidean distance: non-negative, and its square is `DistSq`. */
  ghost predicate Euclidean(distance: (Point, Point) -> real)
  {
    forall p: Point, q: Point :: 0.0 <= distance(p, q) && distance(p, q) * distance(p, q) == DistSq(p, q) as real
  }

  lemma SquareLess(a: real, b: real)
    requires 0.0 <= a < b
    ensures a * a < b * b
  {
    calc {
      a * a;
    <= a * b;
    < b * b;
    }
  }

  /** A non-negative real has only one non-negative square root. */
  lemma RootUnique(a: real, b: real)
    requires 0.0 <= a && 0.0 <= b && a * a == b * b
    ensures a == b
  {
    if a < b {
      SquareLess(a, b);
    } else if b < a {
      SquareLess(b, a);
    }
  }

  /** Under a Euclidean `distance`, a threshold on it is the same test on the squared distance. */
  lemma WithinIff(distance: (Point, Point) -> real, p: Point, q: Point, r: nat)
    requires Euclidean(distance)
    ensures distance(p, q) < r as real <==> DistSq(p, q) < r * r
  {
    var d := distance(p, q);
    assert 0.0 <= d && d * d == DistSq(p, q) as real;
    assert (r * r) as real == (r as real) * (r as real);
    if d < r as real {
      SquareLess(d, r as real);
    } else {
      if r as real < d {
        SquareLess(r as real, d);
      }
    }
  }

  /** Under a Euclidean `distance`, two positions are at distance 0 exactly when they coincide. */
  lemma ZeroIff(distance: (Point, Point) -> real, p: Point, q: Point)
    requires Euclidean(distance)
    ensures distance(p, q) == 0.0 <==> p == q
  {
    var d := distance(p, q);
    assert 0.0 <= d && d * d == DistSq(p, q) as real;
    if p == q {
      RootUnique(d, 0.0);
    }
  }

  /** Under a Euclidean `distance`, the distance is the root of the squared distance. */
  lemma DistanceIs(distance: (Point, Point) -> real, p: Point, q: Point, r: nat)
    requires Euclidean(distance) && DistSq(p, q) == r * r
    ensures distance(p, q) == r as real
  {
    var d := distance(p, q);
    assert 0.0 <= d && d * d == DistSq(p, q) as real;
    assert (r * r) as real == (r as real) * (r as real);
    RootUnique(d, r as real);
  }

  /** Every vertex moved by minus `delta`. */
  function Shift(vs: seq<Point>, delta: Point): (r: seq<Point>)
    ensures |r| == |vs|
  {
    if vs == [] then [] else [vs[0].Minus(delta)] + Shift(vs[1..], delta)
  }

  /** The `i`-th vertex of a shift is the `i`-th vertex moved. */
  lemma {:induction false} ShiftAt(vs: seq<Point>, delta: Point, i: nat)
    requires i < |vs|
    ensures Shift(vs, delta)[i] == vs[i].Minus(delta)
  {
    if i > 0 {
      ShiftAt(vs[1..], delta, i - 1);
    }
  }

  /**
   * The "repeat the last shape" translation of the polygon tools: every vertex of `previous`
   * moved by the vector that takes its last vertex to `p`.
   */
  function Translate(previous: seq<Point>, p: Point): (r: seq<Point>)
    requires |previous| > 0
    ensures |r| == |previous|
    ensures r[|r| - 1] == p
  {
    ShiftAt(previous, previous[|previous| - 1].Minus(p), |previous| - 1);
    Shift(previous, previous[|previous| - 1].Minus(p))
  }

  /** The translation keeps the offset between every two vertices: the shape is only moved. */
  lemma TranslateKeepsOffsets(previous: seq<Point>, p: Point, i: nat, j: nat)
    requires |previous| > 0 && i < |previous| && j < |previous|
    ensures Translate(previous, p)[i].Minus(Translate(previous, p)[j]) == previous[i].Minus(previous[j])
  {
    var delta := previous[|previous| - 1].Minus(p);
    ShiftAt(previous, delta, i);
    ShiftAt(previous, delta, j);
  }

  /** The translation is the only sequence with the same length, last vertex `p` and offsets. */
  lemma TranslateUnique(previous: seq<Point>, p: Point, r: seq<Point>)
    requires |previous| > 0 && |r| == |previous| && r[|r| - 1] == p
    requires forall i :: 0 <= i < |r| ==> r[i].Minus(r[|r| - 1]) == previous[i].Minus(previous[|r| - 1])
    ensures r == Translate(previous, p)
  {
    var t := Translate(previous, p);
    forall i | 0 <= i < |r|
      ensures r[i] == t[i]
    {
      TranslateKeepsOffsets(previous, p, i, |r| - 1);
    }
  }

  /** Translating a closed outline (first vertex repeated as last) gives a closed outline at `p`. */
  lemma TranslateClosed(previous: seq<Point>, p: Point)
    requires |previous| > 0 && previous[0] == previous[|previous| - 1]
    ensures Translate(previous, p)[0] == p
  {
    TranslateKeepsOffsets(previous, p, 0, |previous| - 1);
  }

  /** A pygame `Rect`: a corner and a size that may be negative until it is normalised. */
  datatype Rect = Rect(left: int, top: int, width: int, height: int)

  /**
   * pygame's `Rect.normalize`: a negative size is flipped and the corner moved, so the
   * rectangle covers the same two corners with a non-negative size.
   */
  function Normalize(r: Rect): (n: Rect)
    ensures n.width == Abs(r.width) && n.height == Abs(r.height)
    ensures n.left <= r.left <= n.left + n.width && n.left <= r.left + r.width <= n.left + n.width
    ensures n.top <= r.top <= n.top + n.height && n.top <= r.top + r.height <= n.top + n.height
  {
    var (x, w) := if r.width < 0 then (r.left + r.width, -r.width) else (r.left, r.width);
    var (y, h) := if r.height < 0 then (r.top + r.height, -r.height) else (r.top, r.height);
    Rect(x, y, w, h)
  }

  /** pygame's `Rect.center` of a normalised rectangle, with integer division. */
  function Center(r: Rect): (c: Point)
    requires r.width >= 0 && r.height >= 0
    ensures r.left <= c.x <= r.left + r.width && r.top <= c.y <= r.top + r.height
    ensures r.width - 1 <= 2 * (c.x - r.left) <= r.width
    ensures r.height - 1 <= 2 * (c.y - r.top) <= r.height
  {
    Point(r.left + r.width / 2, r.top + r.height / 2)
  }

  const MinBoxSide: int := 10

  /** The box tool's half-extent `max(side, 10) / 2` (Python 2 integer division). */
  function HalfExtent(side: int): (h: int)
    ensures h >= MinBoxSide / 2
    ensures side <= MinBoxSide ==> h == MinBoxSide / 2
    ensures side >= MinBoxSide ==> 2 * h <= side <= 2 * h + 1
  {
    MaxInt(side, MinBoxSide) / 2
  }

  const MinBaseline: real := 20.0

  /**
   * The triangle tool's fix for a short baseline from `a` to `m` of length `d`: both
   * endpoints are moved along the line, symmetrically about the midpoint, so that the
   * baseline keeps its midpoint and direction and is scaled by `20 / d`.
   */
  function Stretch(a: Point, m: Point, d: real): (r: (RPoint, RPoint))
    requires d != 0.0
    ensures r.0.x + r.1.x == (a.x + m.x) as real && r.0.y + r.1.y == (a.y + m.y) as real
    ensures r.1.x - r.0.x == (m.x - a.x) as real * (MinBaseline / d)
    ensures r.1.y - r.0.y == (m.y - a.y) as real * (MinBaseline / d)
  {
    var midX := (a.x + m.x) as real / 2.0;
    var midY := (a.y + m.y) as real / 2.0;
    (RPoint(midX - ((midX - a.x as real) / d) * MinBaseline, midY - ((midY - a.y as real) / d) * MinBaseline),
     RPoint(midX - ((midX - m.x as real) / d) * MinBaseline, midY - ((midY - m.y as real) / d) * MinBaseline))
  }

  /** When `d` is the length of the baseline, the stretched baseline is exactly 20 long. */
  lemma StretchedLength(a: Point, m: Point, d: real)
    requires d > 0.0 && d * d == DistSq(a, m) as real
    ensures RDistSq(Stretch(a, m, d).0, Stretch(a, m, d).1) == MinBaseline * MinBaseline
  {
    var (p, q) := Stretch(a, m, d);
    var k := MinBaseline / d;
    var dx := (m.x - a.x) as real;
    var dy := (m.y - a.y) as real;
    assert q.x - p.x == dx * k && q.y - p.y == dy * k;
    assert DistSq(a, m) as real == dx * dx + dy * dy;
    calc {
      RDistSq(p, q);
      (p.x - q.x) * (p.x - q.x) + (p.y - q.y) * (p.y - q.y);
      (dx * k) * (dx * k) + (dy * k) * (dy * k);
      (dx * dx + dy * dy) * (k * k);
      (d * d) * (k * k);
      (d * k) * (d * k);
      { assert d * k == MinBaseline; }
      MinBaseline * MinBaseline;
    }
  }
}
