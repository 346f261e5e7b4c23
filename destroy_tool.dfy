/**
 * The erase tool: while the left button is held, every event adds its position to a trail
 * of at most 10 points and destroys the topmost object under it, preferring the body's
 * first joint over the body itself; a left release clears the trail.
 */
module DestroyTools {
  import opened Wrappers
  import opened Geometry
  import opened Engine
  import opened Events

  const MaxTrail: nat := 10

  /** `append` followed by `pop(0)` when the trail grew past 10. */
  function PushTrail(trail: seq<Point>, p: Point): (r: seq<Point>)
    requires |trail| <= MaxTrail
    ensures |r| <= MaxTrail && |r| > 0 && r[|r| - 1] == p
    ensures |r| == if |trail| < MaxTrail then |trail| + 1 else MaxTrail
  {
    var t := trail + [p];
    if |t| > MaxTrail then t[1..] else t
  }

  /** The pushed trail is the old trail and `p`, less the oldest point when that exceeds 10. */
  lemma PushTrailKeepsNewest(trail: seq<Point>, p: Point)
    requires |trail| <= MaxTrail
    ensures var r := PushTrail(trail, p); r == (trail + [p])[|trail| + 1 - |r|..]
  {
  }

  function MinNat(a: nat, b: nat): nat { if a <= b then a else b }

  /** The trail left by pushing `points` one by one onto an empty trail. */
  function TrailOf(points: seq<Point>): (r: seq<Point>)
    ensures |r| <= MaxTrail
  {
    if points == [] then [] else PushTrail(TrailOf(points[..|points| - 1]), points[|points| - 1])
  }

  /** Pushing onto the last (at most 10) points of `xs` gives the last (at most 10) points of `xs + [p]`. */
  lemma PushOntoSuffix(xs: seq<Point>, p: Point)
    ensures PushTrail(xs[|xs| - MinNat(|xs|, MaxTrail)..], p) == (xs + [p])[|xs| + 1 - MinNat(|xs| + 1, MaxTrail)..]
  {
    var s := |xs| - MinNat(|xs|, MaxTrail);
    PushTrailKeepsNewest(xs[s..], p);
    assert xs[s..] + [p] == (xs + [p])[s..];
  }

  /** The trail is always the last (at most 10) points of the gesture, oldest first. */
  lemma {:induction false} TrailIsSuffix(points: seq<Point>)
    ensures TrailOf(points) == points[|points| - MinNat(|points|, MaxTrail)..]
  {
    if points != [] {
      var init := points[..|points| - 1];
      var p := points[|points| - 1];
      TrailIsSuffix(init);
      assert TrailOf(points) == PushTrail(init[|init| - MinNat(|init|, MaxTrail)..], p);
      PushOntoSuffix(init, p);
      assert init + [p] == points;
    }
  }

  /** The one object a trail point destroys: the hit body's first joint, else the body. */
  function DestroyCommands(hits: seq<BodyId>, firstJoint: BodyId -> Option<JointId>): (r: seq<Command>)
    ensures |r| <= 1
    ensures |r| == 1 <==> |hits| > 0
    ensures |hits| > 0 && firstJoint(hits[0]).Some? ==> r == [DestroyJoint(firstJoint(hits[0]).value)]
    ensures |hits| > 0 && firstJoint(hits[0]).None? ==> r == [DestroyBody(hits[0])]
  {
    if |hits| == 0 then []
    else match firstJoint(hits[0])
      case Some(j) => [DestroyJoint(j)]
      case None => [DestroyBody(hits[0])]
  }

  class DestroyTool {
    var trail: seq<Point>

    ghost predicate Valid()
      reads this
    {
      |trail| <= MaxTrail
    }

    constructor ()
      ensures Valid() && trail == []
    {
      trail := [];
    }

    /**
     * What `handleToolEvent` does: while the left button is down, each event with a position
     * extends the trail and destroys the first joint of the topmost body there, or the body;
     * a left release with the button up clears the trail.
     */
    twostate predicate Handled(ev: Event, leftPressed: bool, w: World, new fault: Option<Fault>)
      requires old(Valid())
      reads this, w
    {
      && (leftPressed && ev.HasPos() ==>
            fault == None && trail == PushTrail(old(trail), ev.pos) &&
            w.log == old(w.log) + DestroyCommands(w.bodiesAt(ev.pos, DefaultQuery), w.firstJoint))
      && (leftPressed && !ev.HasPos() ==>
            fault == Some(EventWithoutPos) && trail == old(trail) && w.log == old(w.log))
      && (!leftPressed ==>
            && fault == None && w.log == old(w.log)
            && trail == if ev.Up? && ev.button == 1 then [] else old(trail))
    }

    /**
     * `leftPressed` is `pygame.mouse.get_pressed()[0]` when the event is handled: the
     * tool tests the button state, not the event type.
     */
    method HandleToolEvent(ev: Event, leftPressed: bool, w: World) returns (fault: Option<Fault>)
      requires Valid()
      modifies this, w`log
      ensures Valid() && Handled(ev, leftPressed, w, fault)
    {
      fault := None;
      if leftPressed {
        if !ev.HasPos() {
          fault := Some(EventWithoutPos);
          return;
        }
        trail := PushTrail(trail, ev.pos);
        var tokill := w.bodiesAt(ev.pos, DefaultQuery);
        if |tokill| > 0 {
          match w.firstJoint(tokill[0])
          case Some(j) =>
            w.log := w.log + [DestroyJoint(j)];
          case None =>
            w.log := w.log + [DestroyBody(tokill[0])];
        }
      } else if ev.Up? && ev.button == 1 {
        Cancel();
      }
    }

    method Cancel()
      modifies this
      ensures Valid() && trail == []
    {
      trail := [];
    }
  }
}
