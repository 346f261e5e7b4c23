/**
 * The game: the name -> tool registry, the current tool, the focus flag, the base-class
 * interception of user events, tool switching, and one pass of the main loop (dispatch
 * the pending events, then, when focused, drive the roll motors, step the world and let
 * the current tool draw).
 */
module Physics {
  import opened Wrappers
  import opened Geometry
  import opened Engine
  import opened Events
  import opened Registry
  import opened ShapeTools
  import opened PolygonTools
  import opened ManipulationTools
  import opened DestroyTools

  /** The torque the main loop applies to a body carrying a roll motor: strength * (target - spin) * I. */
  function Torque(strength: real, target: real, angularVelocity: real, inertia: real): (t: real)
    ensures angularVelocity == target || strength == 0.0 || inertia == 0.0 ==> t == 0.0
  {
    strength * (target - angularVelocity) * inertia
  }

  /**
   * The torque drives the spin toward the target: none on target, and with a positive
   * strength and inertia, against the spin's excess and with its shortfall.
   */
  lemma TorqueOpposesError(strength: real, target: real, angularVelocity: real, inertia: real)
    ensures angularVelocity == target ==> Torque(strength, target, angularVelocity, inertia) == 0.0
    ensures strength > 0.0 && inertia > 0.0 ==>
      && (angularVelocity > target <==> Torque(strength, target, angularVelocity, inertia) < 0.0)
      && (angularVelocity < target <==> Torque(strength, target, angularVelocity, inertia) > 0.0)
  {
    var diff := target - angularVelocity;
    if strength > 0.0 && inertia > 0.0 {
      assert Torque(strength, target, angularVelocity, inertia) == (strength * diff) * inertia;
      assert diff > 0.0 ==> strength * diff > 0.0 && (strength * diff) * inertia > 0.0;
      assert diff < 0.0 ==> strength * diff < 0.0 && (strength * diff) * inertia < 0.0;
    }
  }

  /** The torque the main loop applies to body `b` this frame, if its user data holds a roll motor. */
  function TorqueFor(b: BodyId, userData: map<BodyId, UserData>, angularVelocity: BodyId -> real,
                     inertia: BodyId -> real): (r: seq<Command>)
    ensures |r| <= 1 && (|r| == 1 <==> RollMotorOf(userData, b).Some?)
    ensures |r| == 1 ==>
      var m := RollMotorOf(userData, b).value;
      r[0].ApplyTorque? && r[0].body == b
      && r[0].torque == Torque(m.strength, m.targetVelocity, angularVelocity(b), inertia(b))
  {
    match RollMotorOf(userData, b)
    case Some(m) => [ApplyTorque(b, Torque(m.strength, m.targetVelocity, angularVelocity(b), inertia(b)))]
    case None => []
  }

  /** The torque requests of one pass over the body list, in body-list order. */
  function MotorTorques(bodies: seq<BodyId>, userData: map<BodyId, UserData>,
                        angularVelocity: BodyId -> real, inertia: BodyId -> real): (r: seq<Command>)
    ensures |r| <= |bodies|
  {
    if bodies == [] then []
    else
      MotorTorques(bodies[..|bodies| - 1], userData, angularVelocity, inertia)
      + TorqueFor(bodies[|bodies| - 1], userData, angularVelocity, inertia)
  }

  /** Every request of the pass is a torque on a listed body that carries a roll motor, by the formula. */
  lemma {:induction false} MotorTorquesSound(bodies: seq<BodyId>, userData: map<BodyId, UserData>,
                                             angularVelocity: BodyId -> real, inertia: BodyId -> real, i: nat)
    requires i < |MotorTorques(bodies, userData, angularVelocity, inertia)|
    ensures var c := MotorTorques(bodies, userData, angularVelocity, inertia)[i];
      && c.ApplyTorque? && c.body in bodies && RollMotorOf(userData, c.body).Some?
      && c.torque == Torque(RollMotorOf(userData, c.body).value.strength,
                            RollMotorOf(userData, c.body).value.targetVelocity,
                            angularVelocity(c.body), inertia(c.body))
  {
    var init := bodies[..|bodies| - 1];
    var prefix := MotorTorques(init, userData, angularVelocity, inertia);
    if i < |prefix| {
      MotorTorquesSound(init, userData, angularVelocity, inertia, i);
      assert prefix[i] == MotorTorques(bodies, userData, angularVelocity, inertia)[i];
      var b := prefix[i].body;
      assert b in init;
      assert b in bodies by {
        var k :| 0 <= k < |init| && init[k] == b;
        assert bodies[k] == b;
      }
    }
  }

  /** Every listed body that carries a roll motor gets its torque. */
  lemma {:induction false} MotorTorquesComplete(bodies: seq<BodyId>, userData: map<BodyId, UserData>,
                                                angularVelocity: BodyId -> real, inertia: BodyId -> real,
                                                b: BodyId)
    requires b in bodies && RollMotorOf(userData, b).Some?
    ensures var m := RollMotorOf(userData, b).value;
      ApplyTorque(b, Torque(m.strength, m.targetVelocity, angularVelocity(b), inertia(b)))
        in MotorTorques(bodies, userData, angularVelocity, inertia)
  {
    var init := bodies[..|bodies| - 1];
    var m := RollMotorOf(userData, b).value;
    var c := ApplyTorque(b, Torque(m.strength, m.targetVelocity, angularVelocity(b), inertia(b)));
    if bodies[|bodies| - 1] == b {
      assert TorqueFor(b, userData, angularVelocity, inertia) == [c];
    } else {
      var k :| 0 <= k < |bodies| && bodies[k] == b;
      assert init[k] == b;
      MotorTorquesComplete(init, userData, angularVelocity, inertia, b);
    }
  }

  /** The first five classes of `getAllTools()`, freshly instantiated. */
  method NewCreationTools(helpers: Helpers)
    returns (magicPen: MagicPenTool, circle: CircleTool, triangle: TriangleTool, box: BoxTool, polygon: PolygonTool)
    ensures fresh(magicPen) && fresh(circle) && fresh(triangle) && fresh(box) && fresh(polygon)
    ensures magicPen.Valid() && circle.Valid() && triangle.Valid() && box.Valid() && polygon.Valid()
    ensures magicPen.vertices == None && magicPen.previous == None && !magicPen.safe
    ensures circle.pt1 == None && circle.radius == InitialRadius
    ensures triangle.pt1 == None && triangle.vertices == None && triangle.lineDelta == InitialLineDelta
    ensures box.pt1 == None && box.rect == None && box.width == InitialBoxSide && box.height == InitialBoxSide
    ensures polygon.vertices == None && polygon.previous == None && !polygon.safe
  {
    magicPen := new MagicPenTool(helpers);
    circle := new CircleTool(helpers);
    triangle := new TriangleTool(helpers);
    box := new BoxTool();
    polygon := new PolygonTool(helpers);
  }

  /** The last five classes of `getAllTools()`, freshly instantiated. */
  method NewManipulationTools()
    returns (grab: GrabTool, motor: MotorTool, pin: PinTool, joint: JointTool, destroy: DestroyTool)
    ensures fresh(grab) && fresh(motor) && fresh(pin) && fresh(joint) && fresh(destroy)
    ensures motor.Valid() && pin.Valid() && joint.Valid() && destroy.Valid()
    ensures grab.currentBody == None && joint.jb1 == None && joint.jb1pos == None && destroy.trail == []
  {
    grab := new GrabTool();
    motor := new MotorTool();
    pin := new PinTool();
    joint := new JointTool();
    destroy := new DestroyTool();
  }

  /** The motor pass of the main loop: one torque request per body carrying a roll motor, in body-list order. */
  method DriveMotors(w: World)
    modifies w`log
    ensures w.log == old(w.log) + MotorTorques(w.bodyList, w.userData, w.angularVelocity, w.inertia)
  {
    var bodies := w.bodyList;
    var i := 0;
    while i < |bodies|
      invariant 0 <= i <= |bodies|
      invariant w.log == old(w.log) + MotorTorques(bodies[..i], w.userData, w.angularVelocity, w.inertia)
    {
      var b := bodies[i];
      assert bodies[..i + 1][..i] == bodies[..i];
      assert MotorTorques(bodies[..i + 1], w.userData, w.angularVelocity, w.inertia)
        == MotorTorques(bodies[..i], w.userData, w.angularVelocity, w.inertia)
           + TorqueFor(b, w.userData, w.angularVelocity, w.inertia);
      match RollMotorOf(w.userData, b) {
        case Some(m) =>
          w.log := w.log + [ApplyTorque(b, Torque(m.strength, m.targetVelocity, w.angularVelocity(b), w.inertia(b)))];
        case None =>
      }
      i := i + 1;
    }
    assert bodies[..|bodies|] == bodies;
  }

  /**
   * `toolList`: each class of `getAllTools()` under its name; the game holds one instance per
   * class. It holds every registered class, under its own name, and nothing else.
   */
  function ToolList(): (m: map<string, ToolClass>)
    ensures forall c :: c in AllTools() ==> c.Name() in m && m[c.Name()] == c
    ensures forall n :: n in m ==> m[n] in AllTools() && m[n].Name() == n
  {
    AllNamesDistinct();
    map c | c in AllTools() :: c.Name() := c
  }

  /** Every registered class is selected by the user action carrying its name. */
  lemma ToolSwitchable(c: ToolClass)
    requires c in AllTools()
    ensures Intercept(UserAction(c.Name()), ToolList().Keys) == SwitchTool(c.Name())
    ensures ToolList()[c.Name()] == c
  {
  }

  /** A user action naming the roll tool is not a tool switch: nothing is registered under "Roll". */
  lemma RollActionConsumed()
    ensures "Roll" !in ToolList()
    ensures Intercept(UserAction("Roll"), ToolList().Keys) == Consume
  {
    if "Roll" in ToolList() {
      var c :| c in AllTools() && c.Name() == "Roll";
      RollNotRegistered(c);
    }
  }

  /** The part of the game that user events set: the focus flag, the run flag and the current tool. */
  datatype Mode = Mode(inFocus: bool, running: bool, current: ToolClass)

  /** The effect of one event on the mode, as `Tool.handleEvents` intercepts it. */
  function Apply(m: Mode, ev: Event): Mode
  {
    var r := Intercept(ev, ToolList().Keys);
    Mode(if r.SetFocus? then r.focused else m.inFocus,
         if r == ToggleRun then !m.running else m.running,
         if r.SwitchTool? then ToolList()[r.name] else m.current)
  }

  /** The mode after the events `evs`, handled in order from `m`. */
  function Replay(evs: seq<Event>, m: Mode): Mode
  {
    if evs == [] then m else Apply(Replay(evs[..|evs| - 1], m), evs[|evs| - 1])
  }

  /** Handling two batches of events one after the other is handling their concatenation. */
  lemma {:induction false} ReplayAppend(a: seq<Event>, b: seq<Event>, m: Mode)
    ensures Replay(a + b, m) == Replay(b, Replay(a, m))
    decreases |b|
  {
    if b == [] {
      assert a + b == a;
    } else {
      assert (a + b)[..|a + b| - 1] == a + b[..|b| - 1];
      ReplayAppend(a, b[..|b| - 1], m);
    }
  }

  /** Events that are not user events (mouse presses, releases, motion) never change the mode. */
  lemma {:induction false} ReplayToolEventsKeep(evs: seq<Event>, m: Mode)
    requires forall i :: 0 <= i < |evs| ==> !evs[i].IsUserEvent()
    ensures Replay(evs, m) == m
  {
    if evs != [] {
      ReplayToolEventsKeep(evs[..|evs| - 1], m);
    }
  }

  /** The run flag is flipped once per toggle action: it ends flipped exactly when their number is odd. */
  lemma {:induction false} ReplayRunParity(evs: seq<Event>, m: Mode)
    ensures Replay(evs, m).running == (if multiset(evs)[UserAction(ToggleAction)] % 2 == 0 then m.running else !m.running)
  {
    if evs != [] {
      var init := evs[..|evs| - 1];
      assert evs == init + [evs[|evs| - 1]];
      assert multiset(evs) == multiset(init) + multiset{evs[|evs| - 1]};
      ReplayRunParity(init, m);
    }
  }

  /** Without a focus action among the events, the focus flag is kept. */
  lemma {:induction false} ReplayFocusKept(evs: seq<Event>, m: Mode)
    requires forall i :: 0 <= i < |evs| ==> evs[i] != UserAction(FocusInAction) && evs[i] != UserAction(FocusOutAction)
    ensures Replay(evs, m).inFocus == m.inFocus
  {
    if evs != [] {
      ReplayFocusKept(evs[..|evs| - 1], m);
    }
  }

  /** The last focus action decides the focus flag. */
  lemma ReplayFocusLast(a: seq<Event>, focused: bool, b: seq<Event>, m: Mode)
    requires forall i :: 0 <= i < |b| ==> b[i] != UserAction(FocusInAction) && b[i] != UserAction(FocusOutAction)
    ensures Replay(a + [UserAction(if focused then FocusInAction else FocusOutAction)] + b, m).inFocus == focused
  {
    var ev := UserAction(if focused then FocusInAction else FocusOutAction);
    ReplayAppend(a + [ev], b, m);
    ReplayFocusKept(b, Replay(a + [ev], m));
    assert (a + [ev])[..|a + [ev]| - 1] == a;
  }

  /** Without a user action naming a registered tool among the events, the current tool is kept. */
  lemma {:induction false} ReplayCurrentKept(evs: seq<Event>, m: Mode)
    requires forall i :: 0 <= i < |evs| ==> !(evs[i].UserAction? && evs[i].action in ToolList())
    ensures Replay(evs, m).current == m.current
  {
    if evs != [] {
      ReplayCurrentKept(evs[..|evs| - 1], m);
    }
  }

  /** The last user action naming a registered tool decides the current tool. */
  lemma ReplaySwitchLast(a: seq<Event>, c: ToolClass, b: seq<Event>, m: Mode)
    requires c in AllTools()
    requires forall i :: 0 <= i < |b| ==> !(b[i].UserAction? && b[i].action in ToolList())
    ensures Replay(a + [UserAction(c.Name())] + b, m).current == c
  {
    var ev := UserAction(c.Name());
    ToolSwitchable(c);
    ReplayAppend(a + [ev], b, m);
    ReplayCurrentKept(b, Replay(a + [ev], m));
    assert (a + [ev])[..|a + [ev]| - 1] == a;
  }

  class Game {
    /** `in_focus`: set by the focus user events; the world only steps while it is set. */
    var inFocus: bool
    /** The instances `__init__` creates, one per registered class. */
    const magicPen: MagicPenTool
    const circle: CircleTool
    const triangle: TriangleTool
    const box: BoxTool
    const polygon: PolygonTool
    const grab: GrabTool
    const motor: MotorTool
    const pin: PinTool
    const joint: JointTool
    const destroy: DestroyTool
    /** `currentTool`, identified by its class: the instance is `ObjOf(currentClass)`. */
    var currentClass: ToolClass
    const world: World
    const helpers: Helpers

    /** The instance of a registered class. */
    function ObjOf(c: ToolClass): object
      requires c != RollClass
    {
      match c
      case MagicPenClass => magicPen
      case CircleClass => circle
      case TriangleClass => triangle
      case BoxClass => box
      case PolygonClass => polygon
      case GrabClass => grab
      case MotorClass => motor
      case PinClass => pin
      case JointClass => joint
      case DestroyClass => destroy
    }

    ghost function Repr(): set<object>
    {
      {magicPen, circle, triangle, box, polygon, grab, motor, pin, joint, destroy}
    }

    ghost predicate Valid()
      reads this`currentClass, Repr()
    {
      && magicPen.Valid() && circle.Valid() && triangle.Valid() && box.Valid() && polygon.Valid()
      && motor.Valid() && pin.Valid() && joint.Valid() && destroy.Valid()
      && currentClass != RollClass
    }

    /** The focus flag, the world's run flag and the current tool. */
    function CurrentMode(): Mode
      reads this`inFocus, this`currentClass, world`runPhysics
    {
      Mode(inFocus, world.runPhysics, currentClass)
    }

    /** No gesture open in the instance of `c`: the state its `cancel()` leaves. */
    ghost predicate Idle(c: ToolClass)
      requires c != RollClass
      reads ObjOf(c)
    {
      match c
      case MagicPenClass => magicPen.vertices == None
      case CircleClass => circle.pt1 == None
      case TriangleClass => triangle.pt1 == None && triangle.vertices == None
      case BoxClass => box.pt1 == None && box.rect == None
      case PolygonClass => polygon.vertices == None
      case GrabClass => true
      case MotorClass => true
      case PinClass => true
      case JointClass => joint.jb1 == None
      case DestroyClass => destroy.trail == []
    }

    /**
     * The state `__init__` leaves the instances in: no gesture open, nothing remembered from
     * an earlier gesture, the initial ball radius, box size and triangle baseline, and no
     * body held.
     */
    ghost predicate Initial()
      reads Repr()
    {
      && magicPen.vertices == None && magicPen.previous == None && !magicPen.safe
      && circle.pt1 == None && circle.radius == InitialRadius
      && triangle.pt1 == None && triangle.vertices == None && triangle.lineDelta == InitialLineDelta
      && box.pt1 == None && box.rect == None && box.width == InitialBoxSide && box.height == InitialBoxSide
      && polygon.vertices == None && polygon.previous == None && !polygon.safe
      && grab.currentBody == None
      && joint.jb1 == None && joint.jb1pos == None
      && destroy.trail == []
    }

    /**
     * What no `cancel()` resets: the previous outline and the safe flag of the polygon tools,
     * the ball radius, box size and triangle baseline of the last drag, and the body the grab
     * tool holds while paused.
     */
    twostate predicate CancelKeeps()
      reads Repr()
    {
      && magicPen.previous == old(magicPen.previous) && magicPen.safe == old(magicPen.safe)
      && circle.radius == old(circle.radius)
      && triangle.lineDelta == old(triangle.lineDelta)
      && box.width == old(box.width) && box.height == old(box.height)
      && polygon.previous == old(polygon.previous) && polygon.safe == old(polygon.safe)
      && grab.currentBody == old(grab.currentBody)
    }

    /** The current creation tool's handler ran on `ev`, raising `fault`. */
    twostate predicate CreationHandled(ev: Event, new fault: Option<Fault>)
      requires old(Valid())
      reads this`currentClass, Repr(), world
    {
      match currentClass
      case MagicPenClass => magicPen.Handled(ev, world, fault)
      case CircleClass => circle.Handled(ev, world, fault)
      case TriangleClass => triangle.Handled(ev, world, fault)
      case BoxClass => box.Handled(ev, world, fault)
      case PolygonClass => polygon.Handled(ev, world) && fault == None
      case _ => false
    }

    /** The current manipulation tool's handler ran on `ev`, raising `fault`. */
    twostate predicate ManipulationHandled(ev: Event, leftPressed: bool, new fault: Option<Fault>)
      requires old(Valid())
      reads this`currentClass, Repr(), world
    {
      match currentClass
      case GrabClass => grab.Handled(ev, world) && fault == None
      case MotorClass => motor.Handled(ev, world) && fault == None
      case PinClass => pin.Handled(ev, world) && fault == None
      case JointClass => joint.Handled(ev, world) && fault == None
      case DestroyClass => destroy.Handled(ev, leftPressed, world, fault)
      case _ => false
    }

    /** `currentTool.handleToolEvent(event)` ran: the current tool's own handler, on the same tool. */
    twostate predicate Delegated(ev: Event, leftPressed: bool, new fault: Option<Fault>)
      requires old(Valid())
      reads this`currentClass, Repr(), world
    {
      && currentClass == old(currentClass)
      && if currentClass in {MagicPenClass, CircleClass, TriangleClass, BoxClass, PolygonClass}
         then CreationHandled(ev, fault)
         else ManipulationHandled(ev, leftPressed, fault)
    }

    /**
     * `PhysicsGame.__init__`: a fresh instance of every registered class, the first class
     * of the list current, focused, and the ground added to the world.
     */
    constructor (w: World, helpers: Helpers)
      modifies w`log
      ensures Valid() && world == w && this.helpers == helpers && inFocus
      ensures fresh(Repr())
      ensures currentClass == AllTools()[0]
      ensures Initial() && forall c :: c in AllTools() ==> c != RollClass && Idle(c)
      ensures w.log == old(w.log) + [AddGround]
    {
      inFocus := true;
      var mp, ci, tr, bo, po := NewCreationTools(helpers);
      var gr, mo, pi, jo, de := NewManipulationTools();
      magicPen, circle, triangle, box, polygon := mp, ci, tr, bo, po;
      grab, motor, pin, joint, destroy := gr, mo, pi, jo, de;
      currentClass := MagicPenClass;
      world := w;
      this.helpers := helpers;
      new;
      w.log := w.log + [AddGround];
    }

    /** `currentTool.cancel()`: the tool is left idle; only the grab tool makes a request. */
    method CancelCurrent()
      requires Valid()
      modifies ObjOf(currentClass), world`log
      ensures Valid() && Idle(currentClass) && CancelKeeps()
      ensures world.log == old(world.log) + (if currentClass == GrabClass then [RemoveMouseJoint] else [])
    {
      match currentClass
      case MagicPenClass => magicPen.Cancel();
      case CircleClass => circle.Cancel();
      case TriangleClass => triangle.Cancel();
      case BoxClass => box.Cancel();
      case PolygonClass => polygon.Cancel();
      case GrabClass => grab.Cancel(world);
      case MotorClass => motor.Cancel();
      case PinClass => pin.Cancel();
      case JointClass => joint.Cancel();
      case DestroyClass => destroy.Cancel();
    }

    /**
     * `setTool`: cancel the current tool, then make the tool registered under `name` current.
     * Only the cancelled tool changes, and it is left idle.
     */
    method SetTool(name: string)
      requires Valid() && name in ToolList()
      modifies this`currentClass, ObjOf(currentClass), world`log
      ensures Valid() && currentClass == ToolList()[name] && currentClass.Name() == name
      ensures old(currentClass) != RollClass && Idle(old(currentClass)) && CancelKeeps()
      ensures world.log == old(world.log) + (if old(currentClass) == GrabClass then [RemoveMouseJoint] else [])
    {
      CancelCurrent();
      currentClass := ToolList()[name];
    }

    /** `currentTool.handleToolEvent(event)`: only the current tool and the world's log can change. */
    method DelegateToCurrent(ev: Event, leftPressed: bool) returns (fault: Option<Fault>)
      requires Valid()
      modifies ObjOf(currentClass), world`log
      ensures Valid() && Delegated(ev, leftPressed, fault)
      ensures fault.Some? ==> currentClass in {CircleClass, BoxClass, TriangleClass, MagicPenClass, DestroyClass}
    {
      if currentClass in {MagicPenClass, CircleClass, TriangleClass, BoxClass, PolygonClass} {
        fault := DelegateToCreationTool(ev);
      } else {
        fault := DelegateToManipulationTool(ev, leftPressed);
      }
    }

    /** The handlers of the tools that add bodies; all but the polygon tool can raise. */
    method DelegateToCreationTool(ev: Event) returns (fault: Option<Fault>)
      requires Valid() && currentClass in {MagicPenClass, CircleClass, TriangleClass, BoxClass, PolygonClass}
      modifies ObjOf(currentClass), world`log
      ensures Valid() && CreationHandled(ev, fault)
      ensures currentClass == PolygonClass ==> fault == None
    {
      fault := None;
      match currentClass
      case MagicPenClass => fault := magicPen.HandleToolEvent(ev, world);
      case CircleClass => fault := circle.HandleToolEvent(ev, world);
      case TriangleClass => fault := triangle.HandleToolEvent(ev, world);
      case BoxClass => fault := box.HandleToolEvent(ev, world);
      case PolygonClass => polygon.HandleToolEvent(ev, world);
    }

    /** The handlers of the tools that act on existing bodies; only the destroy tool can raise. */
    method DelegateToManipulationTool(ev: Event, leftPressed: bool) returns (fault: Option<Fault>)
      requires Valid() && currentClass in {GrabClass, MotorClass, PinClass, JointClass, DestroyClass}
      modifies ObjOf(currentClass), world`log
      ensures Valid() && ManipulationHandled(ev, leftPressed, fault)
      ensures currentClass != DestroyClass ==> fault == None
    {
      fault := None;
      match currentClass
      case GrabClass => grab.HandleToolEvent(ev, world);
      case MotorClass => motor.HandleToolEvent(ev, world);
      case PinClass => pin.HandleToolEvent(ev, world);
      case JointClass => joint.HandleToolEvent(ev, world);
      case DestroyClass => fault := destroy.HandleToolEvent(ev, leftPressed, world);
    }

    /** `currentTool.draw()`: only the circle, box and triangle tools keep state while drawing. */
    method DrawCurrent(mouse: Point)
      requires Valid()
      modifies ObjOf(currentClass)
      ensures Valid()
      ensures currentClass !in {CircleClass, BoxClass, TriangleClass} ==> unchanged(ObjOf(currentClass))
    {
      match currentClass
      case CircleClass => circle.Draw(mouse);
      case BoxClass => box.Draw(mouse);
      case TriangleClass => triangle.Draw(mouse);
      case _ =>
    }

    /**
     * The part of `Tool.handleEvents` that intercepts an event instead of passing it on:
     * its effect on the game and the world, by reaction. Only a switch touches a tool, the
     * one it cancels.
     */
    method React(r: Reaction)
      requires Valid() && !r.Delegate? && (r.SwitchTool? ==> r.name in ToolList())
      modifies this`currentClass, this`inFocus, ObjOf(currentClass), world`log, world`runPhysics
      ensures Valid()
      ensures world.runPhysics == if r == ToggleRun then !old(world.runPhysics) else old(world.runPhysics)
      ensures inFocus == if r.SetFocus? then r.focused else old(inFocus)
      ensures currentClass == if r.SwitchTool? then ToolList()[r.name] else old(currentClass)
      ensures r.SwitchTool? ==> old(currentClass) != RollClass && Idle(old(currentClass)) && CancelKeeps()
      ensures r.SwitchTool? ==>
        world.log == old(world.log) + (if old(currentClass) == GrabClass then [RemoveMouseJoint] else [])
      ensures r.SaveJournal? ==> world.log == old(world.log) + [RemoveMouseJoint, JsonSave(r.filename)]
      ensures r.LoadJournal? ==> world.log == old(world.log) + [JsonLoad(r.filename)]
      ensures r == ToggleRun || r == Consume || r.SetFocus? ==> world.log == old(world.log)
      ensures !r.SwitchTool? ==> unchanged(Repr())
    {
      match r
      case ToggleRun => world.runPhysics := !world.runPhysics;
      case SetFocus(f) => inFocus := f;
      case SwitchTool(name) => SetTool(name);
      case SaveJournal(filename) => world.log := world.log + [RemoveMouseJoint, JsonSave(filename)];
      case LoadJournal(filename) => world.log := world.log + [JsonLoad(filename)];
      case Consume =>
    }

    /**
     * `Tool.handleEvents` run on the current tool: the interception's effect on the game,
     * or the event passed to the current tool's own handler. Only the current tool's
     * instance can change, and the world only through its log and its run flag.
     */
    method HandleEvents(ev: Event, leftPressed: bool) returns (fault: Option<Fault>)
      requires Valid()
      modifies this`currentClass, this`inFocus, ObjOf(currentClass), world`log, world`runPhysics
      ensures Valid()
      ensures var r := Intercept(ev, ToolList().Keys);
        && (world.runPhysics == if r == ToggleRun then !old(world.runPhysics) else old(world.runPhysics))
        && (inFocus == if r.SetFocus? then r.focused else old(inFocus))
        && (currentClass == if r.SwitchTool? then ToolList()[r.name] else old(currentClass))
        && (r.SwitchTool? ==> old(currentClass) != RollClass && Idle(old(currentClass)) && CancelKeeps())
        && (r.SwitchTool? ==>
              world.log == old(world.log) + (if old(currentClass) == GrabClass then [RemoveMouseJoint] else []))
        && (r.SaveJournal? ==> world.log == old(world.log) + [RemoveMouseJoint, JsonSave(r.filename)])
        && (r.LoadJournal? ==> world.log == old(world.log) + [JsonLoad(r.filename)])
        && (r == ToggleRun || r == Consume || r.SetFocus? ==> world.log == old(world.log))
        && (!r.Delegate? ==> fault == None)
        && (r.Delegate? ==> Delegated(ev, leftPressed, fault))
        && (!r.SwitchTool? && !r.Delegate? ==> unchanged(Repr()))
    {
      var r := Intercept(ev, ToolList().Keys);
      if r.Delegate? {
        fault := DelegateToCurrent(ev, leftPressed);
      } else {
        fault := None;
        React(r);
      }
    }

    /** One event of the frame's loop, seen from the loop: its effect on the mode, and where a fault can come from. */
    method DispatchOne(ev: Event, leftPressed: bool) returns (fault: Option<Fault>)
      requires Valid()
      modifies this`currentClass, this`inFocus, Repr(), world`log, world`runPhysics
      ensures Valid() && CurrentMode() == Apply(old(CurrentMode()), ev)
      ensures fault.Some? ==> !ev.IsUserEvent()
    {
      fault := HandleEvents(ev, leftPressed);
    }

    /**
     * The event loop of one frame: handle `events` in order, stopping after the first one
     * whose handler raises. `handled` is the number of events handled; the mode is the one
     * they leave, and a fault comes from an event passed on to the current tool.
     */
    method DispatchPending(events: seq<Event>, leftPressed: bool) returns (fault: Option<Fault>, handled: nat)
      requires Valid()
      modifies this`currentClass, this`inFocus, Repr(), world`log, world`runPhysics
      ensures Valid() && handled <= |events|
      ensures CurrentMode() == Replay(events[..handled], old(CurrentMode()))
      ensures fault.None? ==> handled == |events|
      ensures fault.Some? ==> handled > 0 && !events[handled - 1].IsUserEvent()
    {
      fault := None;
      handled := 0;
      while handled < |events|
        invariant handled <= |events|
        invariant fault.None? && Valid()
        invariant CurrentMode() == Replay(events[..handled], old(CurrentMode()))
      {
        fault := DispatchOne(events[handled], leftPressed);
        assert events[..handled + 1][..handled] == events[..handled];
        handled := handled + 1;
        if fault.Some? {
          return;
        }
      }
    }

    /**
     * The rest of the frame: nothing while unfocused; otherwise the roll-motor torques (only
     * while the simulation runs), one world step, and the current tool's drawing.
     */
    method Advance(mouse: Point)
      requires Valid()
      modifies ObjOf(currentClass), world`log
      ensures Valid()
      ensures !inFocus ==> world.log == old(world.log) && unchanged(Repr())
      ensures currentClass !in {CircleClass, BoxClass, TriangleClass} ==> unchanged(ObjOf(currentClass))
      ensures inFocus ==>
        world.log == old(world.log)
          + (if world.runPhysics then MotorTorques(world.bodyList, world.userData, world.angularVelocity, world.inertia)
             else [])
          + [Update]
    {
      if !inFocus {
        return;
      }
      if world.runPhysics {
        DriveMotors(world);
      }
      world.log := world.log + [Update];
      DrawCurrent(mouse);
    }

    /**
     * One pass of `run()`: the pending events, then, unless a handler raised, the rest of
     * the frame, which ends with the motor requests and one world step when focused.
     */
    method Frame(events: seq<Event>, leftPressed: bool, mouse: Point) returns (fault: Option<Fault>, handled: nat)
      requires Valid()
      modifies this`currentClass, this`inFocus, Repr(), world`log, world`runPhysics
      ensures Valid() && handled <= |events|
      ensures CurrentMode() == Replay(events[..handled], old(CurrentMode()))
      ensures fault.None? ==> handled == |events|
      ensures fault.Some? ==> handled > 0 && !events[handled - 1].IsUserEvent()
      ensures fault.None? && inFocus ==>
        var tail := (if world.runPhysics then MotorTorques(world.bodyList, world.userData, world.angularVelocity, world.inertia)
                     else []) + [Update];
        |tail| <= |world.log| && world.log[|world.log| - |tail|..] == tail
    {
      fault, handled := DispatchPending(events, leftPressed);
      if fault.None? {
        ghost var dispatched := world.log;
        ghost var mode := CurrentMode();
        Advance(mouse);
        assert CurrentMode() == mode;
        if inFocus {
          ghost var tail := (if world.runPhysics then MotorTorques(world.bodyList, world.userData, world.angularVelocity, world.inertia)
                             else []) + [Update];
          assert world.log == dispatched + tail;
          assert world.log[|dispatched|..] == tail;
        }
      }
    }
  }
}
