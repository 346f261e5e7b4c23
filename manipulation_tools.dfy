/**
 * The tools that act on bodies already in the world, found with `get_bodies_at_pos`:
 * Grab (pointer joint while running, direct repositioning while paused), Joint (distance
 * joint between the bodies under press and release), Pin and Motor (one joint per press),
 * and Roll (marks a body with a roll-motor entry in its user data).
 */
module ManipulationTools {
  import opened Wrappers
  import opened Geometry
  import opened Engine
  import opened Events

  /** The requests the grab tool makes while the simulation runs. */
  predicate PointerJointCommand(c: Command)
  {
    c.AddMouseJoint? || c.MouseMove? || c.RemoveMouseJoint?
  }

  class GrabTool {
    var currentBody: Option<BodyId>

    constructor ()
      ensures currentBody == None
    {
      currentBody := None;
    }

    /**
     * What `handleToolEvent` does: while running, drive a pointer joint; while paused, hold
     * the body under a left press and move it with the pointer until the release.
     */
    twostate predicate Handled(ev: Event, w: World)
      reads this, w
    {
      // While running, only pointer-joint requests are made and no body is held.
      && (w.runPhysics ==>
            && currentBody == old(currentBody)
            && forall i :: |old(w.log)| <= i < |w.log| ==> PointerJointCommand(w.log[i]))
      // While paused, no pointer-joint request is ever made.
      && (!w.runPhysics ==> forall i :: |old(w.log)| <= i < |w.log| ==> w.log[i].SetPosition?)
      && (ev.Down? && ev.button == 1 ==>
            var hits := w.bodiesAt(ev.pos, NonStatic);
            if |hits| == 0 then currentBody == old(currentBody) && w.log == old(w.log)
            else if w.runPhysics then w.log == old(w.log) + [AddMouseJoint(hits[0], ev.pos)]
            else currentBody == Some(hits[0]) && w.log == old(w.log))
      && (ev.Up? && ev.button == 1 ==>
            if w.runPhysics then w.log == old(w.log) + [RemoveMouseJoint]
            else currentBody == None && w.log == old(w.log))
      && (ev.Motion? && ev.leftHeld ==>
            currentBody == old(currentBody) &&
            if w.runPhysics then w.log == old(w.log) + [MouseMove(ev.pos)]
            else if currentBody.Some? then w.log == old(w.log) + [SetPosition(currentBody.value, ev.pos)]
            else w.log == old(w.log))
      && (!ev.ButtonIs(1) && !(ev.Motion? && ev.leftHeld) ==>
            currentBody == old(currentBody) && w.log == old(w.log))
    }

    method HandleToolEvent(ev: Event, w: World)
      modifies this`currentBody, w`log
      ensures Handled(ev, w)
    {
      if ev.Down? && ev.button == 1 {
        var hits := w.bodiesAt(ev.pos, NonStatic);
        if |hits| > 0 {
          if w.runPhysics {
            w.log := w.log + [AddMouseJoint(hits[0], ev.pos)];
          } else {
            currentBody := Some(hits[0]);
          }
        }
      } else if ev.Up? && ev.button == 1 {
        if w.runPhysics {
          w.log := w.log + [RemoveMouseJoint];
        } else {
          currentBody := None;
        }
      } else if ev.Motion? && ev.leftHeld {
        if w.runPhysics {
          w.log := w.log + [MouseMove(ev.pos)];
        } else if currentBody.Some? {
          w.log := w.log + [SetPosition(currentBody.value, ev.pos)];
        }
      }
    }

    /** Cancelling always releases the pointer joint; a body held while paused stays held. */
    method Cancel(w: World)
      modifies w`log
      ensures w.log == old(w.log) + [RemoveMouseJoint]
    {
      w.log := w.log + [RemoveMouseJoint];
    }
  }

  class JointTool {
    var jb1: Option<seq<BodyId>>
    var jb2: Option<seq<BodyId>>
    var jb1pos: Option<Point>
    var jb2pos: Option<Point>

    /** Between events only the first pick may be held, together with its position. */
    ghost predicate Valid()
      reads this
    {
      jb2 == None && jb2pos == None && (jb1.Some? <==> jb1pos.Some?)
    }

    constructor ()
      ensures Valid() && jb1 == None && jb1pos == None
    {
      jb1, jb2, jb1pos, jb2pos := None, None, None, None;
    }

    /**
     * What `handleToolEvent` does: a press records the bodies under the pointer as the first
     * pick; a left release joins the two picks and resets.
     */
    twostate predicate Handled(ev: Event, w: World)
      requires old(Valid())
      reads this, w
    {
      // A press of any button records the first pick.
      && (ev.Down? && ev.button >= 1 ==>
            jb1 == Some(w.bodiesAt(ev.pos, DefaultQuery)) && jb1pos == Some(ev.pos) && w.log == old(w.log))
      // A left release joins the two picks when both are non-empty and differ as lists, then resets.
      && (ev.Up? && ev.button == 1 ==>
            var hits := w.bodiesAt(ev.pos, DefaultQuery);
            jb1 == None && jb1pos == None &&
            if old(jb1).Some? && |old(jb1).value| > 0 && |hits| > 0 && old(jb1).value != hits then
              w.log == old(w.log) + [AddDistanceJoint(old(jb1).value[0], hits[0], old(jb1pos).value, ev.pos)]
            else
              w.log == old(w.log))
      && (!(ev.Down? && ev.button >= 1) && !(ev.Up? && ev.button == 1) ==>
            jb1 == old(jb1) && jb1pos == old(jb1pos) && w.log == old(w.log))
    }

    method HandleToolEvent(ev: Event, w: World)
      requires Valid()
      modifies this, w`log
      ensures Valid() && Handled(ev, w)
    {
      if ev.Down? && ev.button >= 1 {
        jb1pos := Some(ev.pos);
        jb1 := Some(w.bodiesAt(ev.pos, DefaultQuery));
        jb2, jb2pos := None, None;
      } else if ev.Up? && ev.button == 1 {
        jb2pos := Some(ev.pos);
        jb2 := Some(w.bodiesAt(ev.pos, DefaultQuery));
        // The picks are compared as whole lists, not by their first bodies.
        if jb1.Some? && |jb1.value| > 0 && |jb2.value| > 0 && jb1.value != jb2.value {
          w.log := w.log + [AddDistanceJoint(jb1.value[0], jb2.value[0], jb1pos.value, jb2pos.value)];
        }
        jb1, jb2, jb1pos, jb2pos := None, None, None, None;
      }
    }

    method Cancel()
      modifies this
      ensures Valid() && jb1 == None && jb1pos == None
    {
      jb1, jb2, jb1pos, jb2pos := None, None, None, None;
    }
  }

  class PinTool {
    var jb1: Option<seq<BodyId>>
    var jb1pos: Option<Point>

    /** The pin tool holds nothing between events. */
    ghost predicate Valid()
      reads this
    {
      jb1 == None && jb1pos == None
    }

    constructor ()
      ensures Valid()
    {
      jb1, jb1pos := None, None;
    }

    twostate predicate Handled(ev: Event, w: World)
      reads this, w
    {
      && (ev.Down? ==>
            var hits := w.bodiesAt(ev.pos, DefaultQuery);
            w.log == old(w.log) + (if |hits| > 0 then [AddPinJoint(hits[0], ev.pos)] else []))
      && (!ev.Down? ==> w.log == old(w.log))
    }

    /** A press of any button pins the topmost body under the pointer, if there is one. */
    method HandleToolEvent(ev: Event, w: World)
      requires Valid()
      modifies this, w`log
      ensures Valid() && Handled(ev, w)
    {
      if ev.Down? {
        jb1pos := Some(ev.pos);
        jb1 := Some(w.bodiesAt(ev.pos, DefaultQuery));
        if |jb1.value| > 0 {
          w.log := w.log + [AddPinJoint(jb1.value[0], jb1pos.value)];
        }
        jb1, jb1pos := None, None;
      }
    }

    method Cancel()
      modifies this
      ensures Valid()
    {
      jb1, jb1pos := None, None;
    }
  }

  class MotorTool {
    var jb1: Option<seq<BodyId>>
    var jb1pos: Option<Point>

    /** The motor tool holds nothing between events. */
    ghost predicate Valid()
      reads this
    {
      jb1 == None && jb1pos == None
    }

    constructor ()
      ensures Valid()
    {
      jb1, jb1pos := None, None;
    }

    twostate predicate Handled(ev: Event, w: World)
      reads this, w
    {
      && (ev.Down? && ev.button >= 1 ==>
            var hits := w.bodiesAt(ev.pos, DefaultQuery);
            w.log == old(w.log) + (if |hits| > 0 then [AddMotor(hits[0], ev.pos)] else []))
      && (!(ev.Down? && ev.button >= 1) ==> w.log == old(w.log))
    }

    /** A press of a button numbered 1 or more adds a motor to the topmost body, if any. */
    method HandleToolEvent(ev: Event, w: World)
      requires Valid()
      modifies this, w`log
      ensures Valid() && Handled(ev, w)
    {
      if ev.Down? && ev.button >= 1 {
        jb1pos := Some(ev.pos);
        jb1 := Some(w.bodiesAt(ev.pos, DefaultQuery));
        if |jb1.value| > 0 {
          w.log := w.log + [AddMotor(jb1.value[0], jb1pos.value)];
        }
        jb1, jb1pos := None, None;
      }
    }

    method Cancel()
      modifies this
      ensures Valid()
    {
      jb1, jb1pos := None, None;
    }
  }

  /** The roll motor the roll tool attaches: target angular velocity -10, strength 40. */
  const RollTarget: real := -10.0
  const RollStrength: real := 40.0

  class RollTool {
    var jb1: Option<seq<BodyId>>
    var jb1pos: Option<Point>

    /** The roll tool holds nothing between events. */
    ghost predicate Valid()
      reads this
    {
      jb1 == None && jb1pos == None
    }

    constructor ()
      ensures Valid()
    {
      jb1, jb1pos := None, None;
    }

    twostate predicate Handled(ev: Event, w: World)
      reads this, w
    {
      && (ev.Down? && ev.button == 1 ==>
            var hits := w.bodiesAt(ev.pos, DefaultQuery);
            if |hits| > 0 && hits[0] in old(w.userData) && old(w.userData)[hits[0]].Dict? then
              w.userData == old(w.userData)[hits[0] := Dict(Some(RollMotor(RollTarget, RollStrength)))]
            else
              w.userData == old(w.userData))
      && (!(ev.Down? && ev.button == 1) ==> w.userData == old(w.userData))
    }

    /**
     * A left press gives the topmost body under the pointer a roll-motor entry, when that
     * body's user data is a dictionary; no request is made to the world.
     */
    method HandleToolEvent(ev: Event, w: World)
      requires Valid()
      modifies this, w`userData
      ensures Valid() && Handled(ev, w)
    {
      if ev.Down? && ev.button == 1 {
        jb1pos := Some(ev.pos);
        jb1 := Some(w.bodiesAt(jb1pos.value, DefaultQuery));
        if |jb1.value| > 0 {
          var b := jb1.value[0];
          if b in w.userData && w.userData[b].Dict? {
            w.userData := w.userData[b := Dict(Some(RollMotor(RollTarget, RollStrength)))];
          }
        }
        jb1, jb1pos := None, None;
      }
    }

    method Cancel()
      modifies this
      ensures Valid()
    {
      jb1, jb1pos := None, None;
    }
  }
}
