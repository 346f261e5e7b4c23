/**
 * The freeform polygon tools. Polygon collects one vertex per press or release at a new
 * position and closes on a click near its first vertex; MagicPen collects one vertex per
 * motion event while a sketch is open and closes on release. Both become "safe" to close
 * once a vertex lies 55 or more from the first one, and both replay the previous shape,
 * translated to the pointer, on a release that recorded no other point.
 */
module PolygonTools {
  import opened Wrappers
  import opened Geometry
  import opened Engine
  import opened Events

  const CloseRadius: real := 15.0
  const SafeDistance: real := 55.0
  /** MagicPen becomes safe only once it holds more than this many points. */
  const MagicPenMinPoints: nat := 3

  /** No two consecutive vertices coincide. */
  ghost predicate NoRepeats(vs: seq<Point>)
  {
    forall i :: 0 <= i < |vs| - 1 ==> vs[i] != vs[i + 1]
  }

  /** Some vertex at index `from` or later lies at least 55 from the first vertex. */
  ghost predicate ReachedSafe(distance: (Point, Point) -> real, vs: seq<Point>, from: nat)
    requires |vs| > 0
  {
    exists i :: from <= i < |vs| && distance(vs[i], vs[0]) >= SafeDistance
  }

  /** Appending a point makes the outline safe iff it was safe or the new point reaches 55. */
  lemma ReachedSafeAppend(distance: (Point, Point) -> real, vs: seq<Point>, p: Point, from: nat)
    requires |vs| > 0
    ensures ReachedSafe(distance, vs + [p], from) <==>
      ReachedSafe(distance, vs, from) || (from <= |vs| && distance(p, vs[0]) >= SafeDistance)
  {
    var ws := vs + [p];
    if ReachedSafe(distance, vs, from) {
      var i :| from <= i < |vs| && distance(vs[i], vs[0]) >= SafeDistance;
      assert ws[i] == vs[i] && ws[0] == vs[0];
    }
    if from <= |vs| && distance(p, vs[0]) >= SafeDistance {
      assert ws[|vs|] == p && ws[0] == vs[0];
    }
    if ReachedSafe(distance, ws, from) {
      var i :| from <= i < |ws| && distance(ws[i], ws[0]) >= SafeDistance;
      if i < |vs| {
        assert ws[i] == vs[i];
      }
    }
  }

  class PolygonTool {
    const helpers: Helpers
    var vertices: Option<seq<Point>>
    var previous: Option<seq<Point>>
    var safe: bool

    /**
     * An open outline has a first vertex, no repeated consecutive vertex, no later vertex
     * within 15 of the first, and is safe exactly when a later vertex reached 55 from the
     * first. The previous outline is closed: its first vertex is repeated as its last.
     */
    ghost predicate Valid()
      reads this
    {
      && (vertices.Some? ==>
            var vs := vertices.value;
            && |vs| >= 1
            && NoRepeats(vs)
            && (forall i :: 1 <= i < |vs| ==> helpers.distance(vs[i], vs[0]) >= CloseRadius)
            && (safe <==> ReachedSafe(helpers.distance, vs, 1)))
      && (previous.Some? ==> |previous.value| >= 3 && previous.value[0] == previous.value[|previous.value| - 1])
    }

    constructor (helpers: Helpers)
      ensures Valid() && this.helpers == helpers
      ensures vertices == None && previous == None && !safe
    {
      this.helpers := helpers;
      vertices := None;
      previous := None;
      safe := false;
    }

    /**
     * What `handleToolEvent` does: a press opens an outline or adds a vertex; a press or
     * release within 15 of the first vertex closes the outline, committing it once it is safe;
     * a release at a lone first vertex replays the previous outline there.
     */
    twostate predicate Handled(ev: Event, w: World)
      requires old(Valid())
      reads this, w
    {
      // Anything but a press or release of the left button is ignored.
      && (!ev.ButtonIs(1) ==>
            vertices == old(vertices) && previous == old(previous) && safe == old(safe) && w.log == old(w.log))
      // A press with no outline open starts one, not yet safe.
      && (ev.Down? && ev.button == 1 && old(vertices).None? ==>
            vertices == Some([ev.pos]) && !safe && previous == old(previous) && w.log == old(w.log))
      // A release with no outline open is ignored.
      && (ev.Up? && ev.button == 1 && old(vertices).None? ==>
            vertices == None && safe == old(safe) && previous == old(previous) && w.log == old(w.log))
      // A release at the only vertex replays the previous outline translated to it, if any.
      && (ev.Up? && ev.button == 1 && old(vertices) == Some([ev.pos]) ==>
            vertices == None && previous == old(previous) &&
            if old(previous).Some? then
              safe && w.log == old(w.log) + [AddComplexPoly(Translate(old(previous).value, ev.pos), Standard)]
            else
              safe == old(safe) && w.log == old(w.log))
      // Any other press or release with an outline open.
      && (ev.ButtonIs(1) && old(vertices).Some? && !(ev.Up? && old(vertices) == Some([ev.pos])) ==>
            var vs := old(vertices).value;
            var d := helpers.distance(ev.pos, vs[0]);
            if ev.pos == vs[|vs| - 1] then
              vertices == old(vertices) && safe == old(safe) && previous == old(previous) && w.log == old(w.log)
            else if d < CloseRadius && old(safe) then
              vertices == None && previous == Some(vs + [vs[0]]) && safe == old(safe) &&
              w.log == old(w.log) + [AddComplexPoly(vs + [vs[0]], Standard)]
            else if d < CloseRadius then
              vertices == None && previous == old(previous) && safe == old(safe) && w.log == old(w.log)
            else
              vertices == Some(vs + [ev.pos]) && previous == old(previous) &&
              safe == (old(safe) || d >= SafeDistance) && w.log == old(w.log))
    }

    method HandleToolEvent(ev: Event, w: World)
      requires Valid()
      modifies this, w`log
      ensures Valid() && Handled(ev, w)
    {
      if !ev.ButtonIs(1) {
        return;
      }
      var p := ev.pos;
      if ev.Down? && vertices.None? {
        vertices := Some([p]);
        safe := false;
      }
      if ev.Up? && vertices.Some? && |vertices.value| == 1 && p == vertices.value[0] {
        assert vertices.value == [p];
        if previous.Some? {
          vertices := Some(Translate(previous.value, p));
          safe := true;
          w.log := w.log + [AddComplexPoly(vertices.value, Standard)];
        }
        vertices := None;
      } else {
        if vertices.None? || p == vertices.value[|vertices.value| - 1] {
          // Skip a position equal to the last vertex.
          return;
        }
        var vs := vertices.value;
        if helpers.distance(p, vs[0]) < CloseRadius && safe {
          vs := vs + [vs[0]];
          w.log := w.log + [AddComplexPoly(vs, Standard)];
          previous := Some(vs);
          vertices := None;
        } else if helpers.distance(p, vs[0]) < CloseRadius {
          vertices := None;
        } else {
          ReachedSafeAppend(helpers.distance, vs, p, 1);
          vertices := Some(vs + [p]);
          if helpers.distance(p, vs[0]) >= SafeDistance {
            safe := true;
          }
          assert vertices.value[|vs|] == p;
        }
      }
    }

    method Cancel()
      requires Valid()
      modifies this`vertices
      ensures Valid() && vertices == None
    {
      vertices := None;
    }
  }

  class MagicPenTool {
    const helpers: Helpers
    var vertices: Option<seq<Point>>
    var previous: Option<seq<Point>>
    var safe: bool

    /**
     * An open sketch has a first point and is safe exactly when a point recorded after the
     * third one lay 55 or more from the first. A committed sketch is never empty.
     */
    ghost predicate Valid()
      reads this
    {
      && (vertices.Some? ==>
            |vertices.value| >= 1 && (safe <==> ReachedSafe(helpers.distance, vertices.value, MagicPenMinPoints)))
      && (previous.Some? ==> |previous.value| >= 1)
    }

    constructor (helpers: Helpers)
      ensures Valid() && this.helpers == helpers
      ensures vertices == None && previous == None && !safe
    {
      this.helpers := helpers;
      vertices := None;
      previous := None;
      safe := false;
    }

    /**
     * What `handleToolEvent` does: a left press starts a sketch; a left release commits the
     * sketch, or the previous one translated to the release point, when safe, and clears it;
     * motion while a sketch is open records the point.
     */
    twostate predicate Handled(ev: Event, w: World, new fault: Option<Fault>)
      requires old(Valid())
      reads this, w
    {
      // A left press starts a new sketch, not yet safe.
      && (ev.Down? && ev.button == 1 ==>
            fault == None && vertices == Some([ev.pos]) && !safe && previous == old(previous) && w.log == old(w.log))
      // A left release with no sketch open raises (`len(None)`).
      && (ev.Up? && ev.button == 1 && old(vertices).None? ==>
            fault == Some(LenOfNone) && vertices == old(vertices) && safe == old(safe) &&
            previous == old(previous) && w.log == old(w.log))
      // A left release commits the sketch (or the translated previous one) iff it is safe,
      // without adding a closing vertex, and always clears the sketch.
      && (ev.Up? && ev.button == 1 && old(vertices).Some? ==>
            var replay := |old(vertices).value| == 1 && old(previous).Some?;
            var shape := if replay then Translate(old(previous).value, ev.pos) else old(vertices).value;
            var commit := replay || old(safe);
            fault == None && vertices == None && safe == commit &&
            (commit ==> previous == Some(shape) && w.log == old(w.log) + [AddComplexPoly(shape, Standard)]) &&
            (!commit ==> previous == old(previous) && w.log == old(w.log)))
      // Motion while a sketch is open records the point; safe once a point past the third is 55 away.
      && (ev.Motion? && old(vertices).Some? ==>
            var vs := old(vertices).value;
            fault == None && vertices == Some(vs + [ev.pos]) && previous == old(previous) && w.log == old(w.log) &&
            safe == (old(safe) || (helpers.distance(ev.pos, vs[0]) >= SafeDistance && |vs| + 1 > MagicPenMinPoints)))
      && (!ev.ButtonIs(1) && !(ev.Motion? && old(vertices).Some?) ==>
            fault == None && vertices == old(vertices) && safe == old(safe) && previous == old(previous) && w.log == old(w.log))
    }

    method HandleToolEvent(ev: Event, w: World) returns (fault: Option<Fault>)
      requires Valid()
      modifies this, w`log
      ensures Valid() && Handled(ev, w, fault)
    {
      fault := None;
      if ev.Down? && ev.button == 1 {
        vertices := Some([ev.pos]);
        safe := false;
      } else if ev.Up? && ev.button == 1 {
        if vertices.None? {
          fault := Some(LenOfNone);
          return;
        }
        if |vertices.value| == 1 && previous.Some? {
          vertices := Some(Translate(previous.value, ev.pos));
          safe := true;
        }
        if safe {
          w.log := w.log + [AddComplexPoly(vertices.value, Standard)];
          previous := vertices;
        }
        vertices := None;
      } else if ev.Motion? && vertices.Some? {
        var vs := vertices.value;
        ReachedSafeAppend(helpers.distance, vs, ev.pos, MagicPenMinPoints);
        vertices := Some(vs + [ev.pos]);
        if helpers.distance(ev.pos, vs[0]) >= SafeDistance && |vs| + 1 > MagicPenMinPoints {
          safe := true;
        }
        assert vertices.value[|vs|] == ev.pos && vertices.value[0] == vs[0];
      }
    }

    method Cancel()
      requires Valid()
      modifies this`vertices
      ensures Valid() && vertices == None
    {
      vertices := None;
    }
  }
}
