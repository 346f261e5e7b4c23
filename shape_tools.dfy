/**
 * The two-point drag tools: press anchors `pt1`, `draw()` follows the pointer and keeps
 * the last non-degenerate drag, release commits one primitive. A release at the anchor
 * itself replays the last drag (box, triangle) or keeps the last radius (circle).
 */
module ShapeTools {
  import opened Wrappers
  import opened Geometry
  import opened Engine
  import opened Events

  const InitialRadius: real := 40.0
  const MinRadius: real := 5.0
  const InitialBoxSide: int := 80

  class CircleTool {
    const helpers: Helpers
    var pt1: Option<Point>
    var radius: real

    /** The radius starts at 40 and is only ever set to `max(delta, 5)`. */
    ghost predicate Valid()
      reads this
    {
      radius >= MinRadius
    }

    constructor (helpers: Helpers)
      ensures Valid() && this.helpers == helpers
      ensures pt1 == None && radius == InitialRadius
    {
      this.helpers := helpers;
      pt1 := None;
      radius := InitialRadius;
    }

    /**
     * What `handleToolEvent` does: a left press anchors; a left release adds a ball at the
     * anchor with the current radius and clears the anchor, or raises with no anchor; any
     * other event changes nothing. The radius is never changed here.
     */
    twostate predicate Handled(ev: Event, w: World, new fault: Option<Fault>)
      reads this, w
    {
      && radius == old(radius)
      && (ev.Down? && ev.button == 1 ==> pt1 == Some(ev.pos) && w.log == old(w.log) && fault == None)
      && (ev.Up? && ev.button == 1 && old(pt1).Some? ==>
            fault == None && pt1 == None && w.log == old(w.log) + [AddBall(old(pt1).value, radius, Standard)])
      && (ev.Up? && ev.button == 1 && old(pt1).None? ==>
            fault == Some(BallWithoutCenter) && pt1 == None && w.log == old(w.log))
      && (!ev.ButtonIs(1) ==> fault == None && pt1 == old(pt1) && w.log == old(w.log))
    }

    method HandleToolEvent(ev: Event, w: World) returns (fault: Option<Fault>)
      requires Valid()
      modifies this`pt1, w`log
      ensures Valid() && Handled(ev, w, fault)
    {
      fault := None;
      if ev.Down? && ev.button == 1 {
        pt1 := Some(ev.pos);
      } else if ev.Up? && ev.button == 1 {
        if pt1.None? {
          fault := Some(BallWithoutCenter);
          return;
        }
        w.log := w.log + [AddBall(pt1.value, radius, Standard)];
        pt1 := None;
      }
    }

    /** The state-updating part of `draw()`, at pointer position `mouse`. */
    method Draw(mouse: Point)
      requires Valid()
      modifies this`radius
      ensures Valid()
      ensures pt1.Some? && helpers.distance(pt1.value, mouse) > 0.0 ==>
        radius == Max(helpers.distance(pt1.value, mouse), MinRadius)
      ensures !(pt1.Some? && helpers.distance(pt1.value, mouse) > 0.0) ==> radius == old(radius)
      ensures Euclidean(helpers.distance) && pt1 == Some(mouse) ==> radius == old(radius)
    {
      if pt1.Some? {
        var delta := helpers.distance(pt1.value, mouse);
        if Euclidean(helpers.distance) {
          ZeroIff(helpers.distance, pt1.value, mouse);
        }
        if delta > 0.0 {
          radius := Max(delta, MinRadius);
        }
      }
    }

    method Cancel()
      modifies this`pt1
      ensures pt1 == None
    {
      pt1 := None;
    }
  }

  /** The request the box tool makes for a normalised rectangle. */
  function BoxCommand(r: Rect): (c: Command)
    requires r.width >= 0 && r.height >= 0
    ensures c.AddRect? && c.material == Standard
    ensures c.halfWidth >= MinBoxSide / 2 && c.halfHeight >= MinBoxSide / 2
    ensures r.width >= MinBoxSide ==> 2 * c.halfWidth <= r.width <= 2 * c.halfWidth + 1
    ensures r.height >= MinBoxSide ==> 2 * c.halfHeight <= r.height <= 2 * c.halfHeight + 1
    ensures r.left <= c.center.x <= r.left + r.width && r.top <= c.center.y <= r.top + r.height
  {
    AddRect(Center(r), HalfExtent(r.width), HalfExtent(r.height), Standard)
  }

  class BoxTool {
    var pt1: Option<Point>
    var rect: Option<Rect>
    var width: int
    var height: int

    /** Every stored rectangle has been normalised. */
    ghost predicate Valid()
      reads this
    {
      rect.Some? ==> rect.value.width >= 0 && rect.value.height >= 0
    }

    constructor ()
      ensures Valid()
      ensures pt1 == None && rect == None && width == InitialBoxSide && height == InitialBoxSide
    {
      pt1 := None;
      rect := None;
      width := InitialBoxSide;
      height := InitialBoxSide;
    }

    /**
     * What `handleToolEvent` does: a left press anchors; a left release with an anchor first
     * rebuilds the rectangle from the reversed last drag when it is on the anchor, then
     * commits the rectangle, or raises when there is none. The drag size is never changed here.
     */
    twostate predicate Handled(ev: Event, w: World, new fault: Option<Fault>)
      requires old(Valid())
      reads this, w
    {
      && width == old(width) && height == old(height)
      && (ev.Down? && ev.button == 1 ==>
            pt1 == Some(ev.pos) && rect == old(rect) && w.log == old(w.log) && fault == None)
      && (ev.Up? && ev.button == 1 && old(pt1).Some? ==>
            var r := if ev.pos == old(pt1).value
                     then Some(Normalize(Rect(ev.pos.x, ev.pos.y, -width, -height)))
                     else old(rect);
            rect == r &&
            if r.None? then fault == Some(RectIsNone) && pt1 == old(pt1) && w.log == old(w.log)
            else fault == None && pt1 == None && w.log == old(w.log) + [BoxCommand(r.value)])
      && (!(ev.Down? && ev.button == 1) && !(ev.Up? && ev.button == 1 && old(pt1).Some?) ==>
            fault == None && pt1 == old(pt1) && rect == old(rect) && w.log == old(w.log))
    }

    method HandleToolEvent(ev: Event, w: World) returns (fault: Option<Fault>)
      requires Valid()
      modifies this`pt1, this`rect, w`log
      ensures Valid() && Handled(ev, w, fault)
    {
      fault := None;
      if ev.Down? && ev.button == 1 {
        pt1 := Some(ev.pos);
      } else if ev.Up? && ev.button == 1 && pt1.Some? {
        var p := pt1.value;
        if ev.pos == p {
          rect := Some(Normalize(Rect(p.x, p.y, -width, -height)));
        }
        if rect.None? {
          fault := Some(RectIsNone);
          return;
        }
        w.log := w.log + [BoxCommand(rect.value)];
        pt1 := None;
      }
    }

    /** The state-updating part of `draw()`: the signed drag and its normalised rectangle. */
    method Draw(mouse: Point)
      requires Valid()
      modifies this`width, this`height, this`rect
      ensures Valid()
      ensures pt1.Some? && mouse != pt1.value ==>
        width == mouse.x - pt1.value.x && height == mouse.y - pt1.value.y &&
        rect == Some(Normalize(Rect(pt1.value.x, pt1.value.y, width, height)))
      ensures !(pt1.Some? && mouse != pt1.value) ==>
        width == old(width) && height == old(height) && rect == old(rect)
    {
      if pt1.Some? && mouse != pt1.value {
        var p := pt1.value;
        width := mouse.x - p.x;
        height := mouse.y - p.y;
        rect := Some(Normalize(Rect(p.x, p.y, width, height)));
      }
    }

    method Cancel()
      modifies this`pt1, this`rect
      ensures Valid() && pt1 == None && rect == None
    {
      pt1 := None;
      rect := None;
    }
  }

  /**
   * A degenerate box release rebuilds the rectangle from the anchor and the reversed last
   * drag: it has the last drag's size and one corner at the anchor, the other at the anchor
   * minus the drag.
   */
  lemma ReplayedBox(p: Point, width: int, height: int)
    ensures var n := Normalize(Rect(p.x, p.y, -width, -height));
      n.width == Abs(width) && n.height == Abs(height) &&
      (n.left == p.x || n.left == p.x - width) && n.left + n.width == MaxInt(p.x, p.x - width) &&
      (n.top == p.y || n.top == p.y - height) && n.top + n.height == MaxInt(p.y, p.y - height)
  {
  }

  const InitialLineDelta: Point := Point(0, -80)

  class TriangleTool {
    const helpers: Helpers
    var pt1: Option<Point>
    var vertices: Option<seq<RPoint>>
    var lineDelta: Point

    /** The remembered drag vector starts at (0, -80) and is only replaced by a non-zero one. */
    ghost predicate Valid()
      reads this
    {
      lineDelta != Point(0, 0)
    }

    constructor (helpers: Helpers)
      ensures Valid() && this.helpers == helpers
      ensures pt1 == None && vertices == None && lineDelta == InitialLineDelta
    {
      this.helpers := helpers;
      pt1 := None;
      vertices := None;
      lineDelta := InitialLineDelta;
    }

    /**
     * What `handleToolEvent` does: a left press anchors; a left release with an anchor moves
     * the anchor back by the last drag vector when it is on the anchor, stretches a baseline
     * shorter than 20 (raising on length 0), and commits the triangle, or raises when none
     * was drawn. The drag vector is never changed here.
     */
    twostate predicate Handled(ev: Event, w: World, new fault: Option<Fault>)
      reads this, w
    {
      && lineDelta == old(lineDelta)
      && (ev.Down? && ev.button == 1 ==>
            pt1 == Some(ev.pos) && vertices == old(vertices) && w.log == old(w.log) && fault == None)
      && (ev.Up? && ev.button == 1 && old(pt1).Some? ==>
            var m := ev.pos;
            var degenerate := m == old(pt1).value;
            var a := if degenerate then m.Minus(lineDelta) else old(pt1).value;
            var drawn := if degenerate then Some(helpers.triangleFromLine(ToReal(a), ToReal(m))) else old(vertices);
            var d := helpers.distance(a, m);
            if d < MinBaseline && d == 0.0 then
              fault == Some(ZeroBaseline) && pt1 == Some(a) && vertices == drawn && w.log == old(w.log)
            else if d < MinBaseline then
              fault == None && pt1 == None && vertices == None &&
              w.log == old(w.log) + [AddConvexPoly(helpers.triangleFromLine(Stretch(a, m, d).0, Stretch(a, m, d).1), Standard)]
            else if drawn.None? then
              fault == Some(ConvexPolyWithoutVertices) && pt1 == old(pt1) && vertices == None && w.log == old(w.log)
            else
              fault == None && pt1 == None && vertices == None && w.log == old(w.log) + [AddConvexPoly(drawn.value, Standard)])
      && (!(ev.Down? && ev.button == 1) && !(ev.Up? && ev.button == 1 && old(pt1).Some?) ==>
            fault == None && pt1 == old(pt1) && vertices == old(vertices) && w.log == old(w.log))
    }

    method HandleToolEvent(ev: Event, w: World) returns (fault: Option<Fault>)
      requires Valid()
      modifies this`pt1, this`vertices, w`log
      ensures Valid() && Handled(ev, w, fault)
      // With a Euclidean distance the scaling divisor is never zero.
      ensures Euclidean(helpers.distance) ==> fault != Some(ZeroBaseline)
    {
      fault := None;
      if ev.Down? && ev.button == 1 {
        pt1 := Some(ev.pos);
      } else if ev.Up? && ev.button == 1 && pt1.Some? {
        var m := ev.pos;
        var a := pt1.value;
        if m == a {
          a := m.Minus(lineDelta);
          pt1 := Some(a);
          vertices := Some(helpers.triangleFromLine(ToReal(a), ToReal(m)));
        }
        assert a != m;
        var d := helpers.distance(a, m);
        if Euclidean(helpers.distance) {
          ZeroIff(helpers.distance, a, m);
        }
        if d < MinBaseline {
          if d == 0.0 {
            fault := Some(ZeroBaseline);
            return;
          }
          var (a', m') := Stretch(a, m, d);
          vertices := Some(helpers.triangleFromLine(a', m'));
        }
        if vertices.None? {
          fault := Some(ConvexPolyWithoutVertices);
          return;
        }
        w.log := w.log + [AddConvexPoly(vertices.value, Standard)];
        pt1 := None;
        vertices := None;
      }
    }

    /** The state-updating part of `draw()`: the triangle on the current drag and its vector. */
    method Draw(mouse: Point)
      requires Valid()
      modifies this`vertices, this`lineDelta
      ensures Valid()
      ensures pt1.Some? && mouse != pt1.value ==>
        vertices == Some(helpers.triangleFromLine(ToReal(pt1.value), ToReal(mouse))) &&
        lineDelta == mouse.Minus(pt1.value)
      ensures !(pt1.Some? && mouse != pt1.value) ==> vertices == old(vertices) && lineDelta == old(lineDelta)
    {
      if pt1.Some? && mouse != pt1.value {
        vertices := Some(helpers.triangleFromLine(ToReal(pt1.value), ToReal(mouse)));
        lineDelta := mouse.Minus(pt1.value);
      }
    }

    method Cancel()
      modifies this`pt1, this`vertices
      ensures pt1 == None && vertices == None
    {
      pt1 := None;
      vertices := None;
    }
  }

  /**
   * A triangle committed from a short baseline has, for a Euclidean distance, a baseline of
   * exactly 20 with the same midpoint as the drag.
   */
  lemma ShortBaselineBecomesMinimum(helpers: Helpers, a: Point, m: Point)
    requires Euclidean(helpers.distance) && a != m && helpers.distance(a, m) < MinBaseline
    ensures var (p, q) := Stretch(a, m, helpers.distance(a, m));
      RDistSq(p, q) == MinBaseline * MinBaseline &&
      p.x + q.x == (a.x + m.x) as real && p.y + q.y == (a.y + m.y) as real
  {
    var d := helpers.distance(a, m);
    ZeroIff(helpers.distance, a, m);
    assert d * d == DistSq(a, m) as real;
    StretchedLength(a, m, d);
  }
}
