/**
 * Concrete gestures driven through the tools, each with the exact requests the world
 * receives. The world is fresh and, unless stated, running; the body lookup is a fixed
 * function of the position.
 */
module Scenarios {
  import opened Wrappers
  import opened Geometry
  import opened Engine
  import opened Events
  import opened Registry
  import opened ShapeTools
  import opened PolygonTools
  import opened ManipulationTools
  import opened DestroyTools
  import opened Physics

  /** A fresh world with no bodies of its own, no joints and no user data. */
  method NewWorld(running: bool, bodiesAt: (Point, Query) -> seq<BodyId>) returns (w: World)
    ensures fresh(w) && w.runPhysics == running && w.log == [] && w.bodiesAt == bodiesAt
    ensures (forall b :: w.firstJoint(b) == None) && w.userData == map[]
  {
    w := new World(running, bodiesAt, (b: BodyId) => None, [], (b: BodyId) => 0.0, (b: BodyId) => 0.0, map[]);
  }

  /** Press at (100, 100), drag to (130, 140), release: one ball of radius 50 at the press point. */
  method CircleDrag(helpers: Helpers) returns (log: seq<Command>)
    requires helpers.distance(Point(100, 100), Point(130, 140)) == 50.0
    ensures log == [AddBall(Point(100, 100), 50.0, Standard)]
  {
    var w := NewWorld(true, (p: Point, q: Query) => []);
    var t := new CircleTool(helpers);
    var f := t.HandleToolEvent(Down(1, Point(100, 100)), w);
    t.Draw(Point(130, 140));
    f := t.HandleToolEvent(Up(1, Point(130, 140)), w);
    log := w.log;
  }

  /** The Euclidean distance meets what the circle and triangle scenarios require of it. */
  lemma EuclideanShapeDistances(d: (Point, Point) -> real)
    requires Euclidean(d)
    ensures d(Point(100, 100), Point(130, 140)) == 50.0
    ensures d(Point(0, 0), Point(50, 0)) >= MinBaseline
  {
    DistanceIs(d, Point(100, 100), Point(130, 140), 50);
    WithinIff(d, Point(0, 0), Point(50, 0), 20);
  }

  /** A click on the spot with no drag: the box of the initial 80 x 80 drag, reversed, centred at (10, 10). */
  method BoxClick() returns (log: seq<Command>)
    ensures log == [AddRect(Point(10, 10), 40, 40, Standard)]
  {
    var w := NewWorld(true, (p: Point, q: Query) => []);
    var t := new BoxTool();
    var f := t.HandleToolEvent(Down(1, Point(50, 50)), w);
    f := t.HandleToolEvent(Up(1, Point(50, 50)), w);
    log := w.log;
  }

  /** Press at (0, 0), then a frame with the pointer at (100, 0): the triangle on that drag is drawn, nothing is sent. */
  method TriangleDrawn(helpers: Helpers, w: World) returns (t: TriangleTool)
    modifies w`log
    ensures fresh(t) && t.helpers == helpers && t.Valid()
    ensures t.pt1 == Some(Point(0, 0))
    ensures t.vertices == Some(helpers.triangleFromLine(RPoint(0.0, 0.0), RPoint(100.0, 0.0)))
    ensures w.log == old(w.log)
  {
    t := new TriangleTool(helpers);
    var f := t.HandleToolEvent(Down(1, Point(0, 0)), w);
    assert t.pt1 == Some(Point(0, 0)) && w.log == old(w.log);
    assert ToReal(Point(0, 0)) == RPoint(0.0, 0.0) && ToReal(Point(100, 0)) == RPoint(100.0, 0.0);
    t.Draw(Point(100, 0));
  }

  /**
   * Press at (0, 0), draw at (100, 0), release at (50, 0) with no frame in between: the
   * triangle committed is the one drawn on (0, 0)-(100, 0), not one on the release point.
   */
  method TriangleStaleBaseline(helpers: Helpers) returns (log: seq<Command>)
    requires helpers.distance(Point(0, 0), Point(50, 0)) >= MinBaseline
    ensures log == [AddConvexPoly(helpers.triangleFromLine(RPoint(0.0, 0.0), RPoint(100.0, 0.0)), Standard)]
  {
    var w := NewWorld(true, (p: Point, q: Query) => []);
    var t := TriangleDrawn(helpers, w);
    var drawn := helpers.triangleFromLine(RPoint(0.0, 0.0), RPoint(100.0, 0.0));
    ghost var d := helpers.distance(Point(0, 0), Point(50, 0));
    assert !(d < MinBaseline);
    var f := t.HandleToolEvent(Up(1, Point(50, 0)), w);
    assert f == None && t.pt1 == None && w.log == [AddConvexPoly(drawn, Standard)];
    log := w.log;
  }

  /** The closed square outline the polygon scenarios draw. */
  const Square: seq<Point> := [Point(0, 0), Point(100, 0), Point(100, 100), Point(0, 100), Point(0, 0)]

  /**
   * What the polygon scenarios need of the distance: the square's corners against its
   * start, the closing click, and a click 5 pixels off the start diagonally.
   */
  ghost predicate PolygonDistances(d: (Point, Point) -> real)
  {
    && d(Point(100, 0), Point(0, 0)) >= SafeDistance
    && d(Point(100, 100), Point(0, 0)) >= CloseRadius
    && d(Point(0, 100), Point(0, 0)) >= CloseRadius
    && d(Point(1, 1), Point(0, 0)) < CloseRadius
    && d(Point(5, 5), Point(0, 0)) < CloseRadius
  }

  /** Under a Euclidean distance, a squared distance of at least `r * r` is a distance of at least `r`. */
  lemma EuclideanAtLeast(d: (Point, Point) -> real, p: Point, q: Point, r: nat)
    requires Euclidean(d) && DistSq(p, q) >= r * r
    ensures d(p, q) >= r as real
  {
    WithinIff(d, p, q, r);
  }

  /** Under a Euclidean distance, a squared distance below `r * r` is a distance below `r`. */
  lemma EuclideanBelow(d: (Point, Point) -> real, p: Point, q: Point, r: nat)
    requires Euclidean(d) && DistSq(p, q) < r * r
    ensures d(p, q) < r as real
  {
    WithinIff(d, p, q, r);
  }

  /** The Euclidean distance has them. */
  lemma EuclideanPolygonDistances(d: (Point, Point) -> real)
    requires Euclidean(d)
    ensures PolygonDistances(d)
  {
    EuclideanAtLeast(d, Point(100, 0), Point(0, 0), 55);
    EuclideanAtLeast(d, Point(100, 100), Point(0, 0), 15);
    EuclideanAtLeast(d, Point(0, 100), Point(0, 0), 15);
    EuclideanBelow(d, Point(1, 1), Point(0, 0), 15);
    EuclideanBelow(d, Point(5, 5), Point(0, 0), 15);
  }

  /** The square's four corners, before the closing click. */
  const Corners: seq<Point> := [Point(0, 0), Point(100, 0), Point(100, 100), Point(0, 100)]

  /** Press (0, 0), release (100, 0): an open outline of one edge, safe since (100, 0) is 55 or more away. */
  method FirstEdge(helpers: Helpers, w: World) returns (t: PolygonTool)
    requires PolygonDistances(helpers.distance)
    modifies w`log
    ensures fresh(t) && t.helpers == helpers && t.Valid()
    ensures t.vertices == Some([Point(0, 0), Point(100, 0)]) && t.safe && t.previous == None && w.log == old(w.log)
  {
    t := new PolygonTool(helpers);
    t.HandleToolEvent(Down(1, Point(0, 0)), w);
    assert t.vertices == Some([Point(0, 0)]) && t.previous == None && w.log == old(w.log);
    t.HandleToolEvent(Up(1, Point(100, 0)), w);
    assert [Point(0, 0)] + [Point(100, 0)] == [Point(0, 0), Point(100, 0)];
  }

  /**
   * The first edge, then clicks at (100, 100) and (0, 100): an open, safe outline of the four
   * corners (each release repeats its press and is skipped).
   */
  method OutlineSquare(helpers: Helpers, w: World) returns (t: PolygonTool)
    requires PolygonDistances(helpers.distance)
    modifies w`log
    ensures fresh(t) && t.helpers == helpers && t.Valid()
    ensures t.vertices == Some(Corners) && t.safe && t.previous == None && w.log == old(w.log)
  {
    t := FirstEdge(helpers, w);
    t.HandleToolEvent(Down(1, Point(100, 100)), w);
    assert [Point(0, 0), Point(100, 0)] + [Point(100, 100)] == [Point(0, 0), Point(100, 0), Point(100, 100)];
    t.HandleToolEvent(Up(1, Point(100, 100)), w);
    assert t.vertices == Some([Point(0, 0), Point(100, 0), Point(100, 100)]) && t.safe;
    t.HandleToolEvent(Down(1, Point(0, 100)), w);
    assert [Point(0, 0), Point(100, 0), Point(100, 100)] + [Point(0, 100)] == Corners;
    t.HandleToolEvent(Up(1, Point(0, 100)), w);
  }

  /**
   * The outline, then a click at (1, 1) near the start: one closed polygon with the first
   * vertex repeated, which becomes `previous`.
   */
  method PolygonSquare(helpers: Helpers, w: World) returns (t: PolygonTool)
    requires PolygonDistances(helpers.distance)
    modifies w`log
    ensures fresh(t) && t.helpers == helpers && t.Valid() && t.vertices == None && t.previous == Some(Square)
    ensures w.log == old(w.log) + [AddComplexPoly(Square, Standard)]
  {
    t := OutlineSquare(helpers, w);
    t.HandleToolEvent(Down(1, Point(1, 1)), w);
    assert Corners + [Corners[0]] == Square;
    t.HandleToolEvent(Up(1, Point(1, 1)), w);
  }

  /** The square moved so that it closes at `p`. */
  function SquareAt(p: Point): seq<Point>
  {
    [p, Point(p.x + 100, p.y), Point(p.x + 100, p.y + 100), Point(p.x, p.y + 100), p]
  }

  /** Replaying the square at `p` moves every corner by `p`: the square closes at `p`. */
  lemma SquareMoved(p: Point)
    ensures Translate(Square, p) == SquareAt(p)
  {
    var delta := Square[|Square| - 1].Minus(p);
    forall i | 0 <= i < 5
      ensures Translate(Square, p)[i] == SquareAt(p)[i]
    {
      ShiftAt(Square, delta, i);
    }
  }

  /**
   * With the square as the previous outline, a single click at `p`: the square again,
   * translated so it closes there.
   */
  method ReplaySquare(t: PolygonTool, w: World, p: Point)
    requires t.Valid() && t.vertices == None && t.previous == Some(Square)
    modifies t, w`log
    ensures w.log == old(w.log) + [AddComplexPoly(SquareAt(p), Standard)]
  {
    t.HandleToolEvent(Down(1, p), w);
    assert t.vertices == Some([p]) && t.previous == Some(Square) && w.log == old(w.log);
    SquareMoved(p);
    t.HandleToolEvent(Up(1, p), w);
  }

  /** The square, then its replay at (200, 200). */
  method PolygonReplay(helpers: Helpers) returns (log: seq<Command>)
    requires PolygonDistances(helpers.distance)
    ensures log == [AddComplexPoly(Square, Standard),
                    AddComplexPoly([Point(200, 200), Point(300, 200), Point(300, 300), Point(200, 300), Point(200, 200)],
                                   Standard)]
  {
    var w := NewWorld(true, (p: Point, q: Query) => []);
    var t := PolygonSquare(helpers, w);
    ReplaySquare(t, w, Point(200, 200));
    log := w.log;
  }

  /** Press (0, 0), release (5, 5) before any vertex reached 55: the outline is dropped, nothing is added. */
  method PolygonEarlyClose(helpers: Helpers) returns (log: seq<Command>, open: bool)
    requires PolygonDistances(helpers.distance)
    ensures log == [] && !open
  {
    var w := NewWorld(true, (p: Point, q: Query) => []);
    var t := new PolygonTool(helpers);
    t.HandleToolEvent(Down(1, Point(0, 0)), w);
    assert t.vertices == Some([Point(0, 0)]) && !t.safe;
    t.HandleToolEvent(Up(1, Point(5, 5)), w);
    log, open := w.log, t.vertices.Some?;
  }

  /** The body every position hits in the manipulation scenarios. */
  const Crate: BodyId := BodyId(7)

  /** A grab-and-drag over a body: pointer-joint requests while running, repositioning while paused. */
  method GrabDrag(running: bool) returns (log: seq<Command>)
    ensures running ==>
      log == [AddMouseJoint(Crate, Point(10, 10)), MouseMove(Point(20, 20)), MouseMove(Point(30, 30)), RemoveMouseJoint]
    ensures !running ==> log == [SetPosition(Crate, Point(20, 20)), SetPosition(Crate, Point(30, 30))]
  {
    var w := NewWorld(running, (p: Point, q: Query) => [Crate]);
    var t := new GrabTool();
    t.HandleToolEvent(Down(1, Point(10, 10)), w);
    t.HandleToolEvent(Motion(Point(20, 20), true), w);
    t.HandleToolEvent(Motion(Point(30, 30), true), w);
    t.HandleToolEvent(Up(1, Point(30, 30)), w);
    log := w.log;
  }

  /**
   * Press over body 1 alone, release where bodies 1 and 2 overlap: the pick lists differ, so
   * body 1 is jointed to itself.
   */
  method JointSameFirstBody() returns (log: seq<Command>)
    ensures log == [AddDistanceJoint(BodyId(1), BodyId(1), Point(0, 0), Point(50, 50))]
  {
    var w := NewWorld(true, (p: Point, q: Query) => if p == Point(0, 0) then [BodyId(1)] else [BodyId(1), BodyId(2)]);
    var t := new JointTool();
    t.HandleToolEvent(Down(1, Point(0, 0)), w);
    t.HandleToolEvent(Up(1, Point(50, 50)), w);
    log := w.log;
  }

  /**
   * A left-held stroke from a body with a joint to a body without one: the joint goes first,
   * then the second body itself; the release clears the trail.
   */
  method DestroyPass(w: World) returns (trail: seq<Point>)
    requires w.log == []
    requires w.bodiesAt(Point(10, 10), DefaultQuery) == [BodyId(1)] && w.firstJoint(BodyId(1)) == Some(JointId(3))
    requires w.bodiesAt(Point(60, 10), DefaultQuery) == [BodyId(2)] && w.firstJoint(BodyId(2)) == None
    modifies w`log
    ensures w.log == [DestroyJoint(JointId(3)), DestroyBody(BodyId(2))]
    ensures trail == []
  {
    var t := new DestroyTool();
    var f := t.HandleToolEvent(Down(1, Point(10, 10)), true, w);
    assert w.log == [DestroyJoint(JointId(3))];
    f := t.HandleToolEvent(Motion(Point(60, 10), true), true, w);
    assert w.log == [DestroyJoint(JointId(3)), DestroyBody(BodyId(2))];
    f := t.HandleToolEvent(Up(1, Point(60, 10)), false, w);
    trail := t.trail;
  }

  /** A body carrying the roll tool's motor, at rest with inertia 2, receives the torque 40 * (-10 - 0) * 2. */
  method MotorFrame() returns (log: seq<Command>)
    ensures log == [ApplyTorque(BodyId(1), -800.0)]
  {
    var w := new World(true, (p: Point, q: Query) => [BodyId(1)], (b: BodyId) => None, [BodyId(1), BodyId(2)],
                       (b: BodyId) => 0.0, (b: BodyId) => 2.0, map[BodyId(1) := Dict(None)]);
    var roll := new RollTool();
    roll.HandleToolEvent(Down(1, Point(0, 0)), w);
    assert w.userData == map[BodyId(1) := Dict(Some(RollMotor(RollTarget, RollStrength)))];
    assert MotorTorques([BodyId(1)], w.userData, w.angularVelocity, w.inertia) == [ApplyTorque(BodyId(1), -800.0)];
    assert [BodyId(1), BodyId(2)][..1] == [BodyId(1)];
    DriveMotors(w);
    log := w.log;
  }

  /**
   * A magic-pen stroke left open, then a switch to the circle tool: the press opens the
   * sketch, the switch drops it, and nothing is sent to the world.
   */
  method SwitchMidGesture(g: Game) returns (sketch: Option<seq<Point>>)
    requires g.Valid() && g.currentClass == MagicPenClass
    modifies g`currentClass, g`inFocus, g.Repr(), g.world`log, g.world`runPhysics
    ensures sketch == Some([Point(0, 0)])
    ensures g.magicPen.vertices == None && g.currentClass == CircleClass && g.world.log == old(g.world.log)
  {
    var f := g.HandleEvents(Down(1, Point(0, 0)), true);
    sketch := g.magicPen.vertices;
    ToolSwitchable(CircleClass);
    f := g.HandleEvents(UserAction("Circle"), true);
  }

  /**
   * From the polygon tool to the circle tool and back: the switches cancel the open outline
   * but keep the previous one, so the next lone click still replays it.
   */
  method SwitchKeepsPrevious(g: Game)
    requires g.Valid() && g.currentClass == PolygonClass && g.polygon.previous == Some(Square)
    modifies g`currentClass, g`inFocus, g.Repr(), g.world`log, g.world`runPhysics
    ensures g.currentClass == PolygonClass && g.polygon.vertices == None && g.polygon.previous == Some(Square)
    ensures g.world.log == old(g.world.log)
  {
    ToolSwitchable(CircleClass);
    var f := g.HandleEvents(UserAction("Circle"), true);
    assert g.currentClass == CircleClass && g.polygon.vertices == None && g.polygon.previous == Some(Square);
    assert g.world.log == old(g.world.log);
    ToolSwitchable(PolygonClass);
    f := g.HandleEvents(UserAction("Polygon"), true);
  }

  /**
   * One frame whose pending events are the run/pause toggle and a focus-out: both are
   * handled, in order, without a fault; the simulation is paused or resumed, the game loses
   * focus, and the current tool stays.
   */
  method PauseAndLeave(g: Game, mouse: Point) returns (fault: Option<Fault>, handled: nat)
    requires g.Valid()
    modifies g`currentClass, g`inFocus, g.Repr(), g.world`log, g.world`runPhysics
    ensures fault == None && handled == 2
    ensures !g.inFocus && g.world.runPhysics == !old(g.world.runPhysics) && g.currentClass == old(g.currentClass)
  {
    var events := [UserAction(ToggleAction), UserAction(FocusOutAction)];
    ghost var m := g.CurrentMode();
    fault, handled := g.Frame(events, false, mouse);
    assert forall i :: 0 <= i < |events| ==> events[i].IsUserEvent();
    assert events[..2] == events && events[..2][..1] == events[..1] && events[..1][..0] == [];
    assert Replay(events[..1], m) == Apply(m, events[0]);
    assert g.CurrentMode() == Apply(Apply(m, events[0]), events[1]);
  }

  /** A user action naming the roll tool switches nothing and touches neither the tools nor the world. */
  method RollActionIgnored(g: Game)
    requires g.Valid()
    modifies g`currentClass, g`inFocus, g.Repr(), g.world`log, g.world`runPhysics
    ensures g.currentClass == old(g.currentClass) && g.world.log == old(g.world.log)
    ensures unchanged(g.Repr())
  {
    RollActionConsumed();
    var f := g.HandleEvents(UserAction("Roll"), true);
  }
}
