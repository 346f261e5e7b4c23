# Physics activity: tool state machines and game loop

This project models the pointer-driven core of the Physics activity, a 2D physics
playground. `tools.py` holds one class per tool. Each class keeps only the gesture state
it needs between events (an anchor, the vertices collected so far, a picked body, a
"safe to close" flag). It turns mouse presses, releases and motion into requests to the
physics world: add a ball, a box, a triangle or a polygon; add a pointer, distance, pin or
motor joint; destroy a joint or a body. `physics.py` holds the game:
- it builds a name -> tool registry from `getAllTools()` and makes the first tool current;
- it passes every event of a frame to the current tool, whose inherited handler consumes
  the user events (run/pause, focus, tool switch, journal save/load);
- while focused it drives the roll motors, steps the world and lets the tool draw.

The Dafny model follows that structure:

- `Geometry`: integer pixel points and their squared distance. The two helper functions
  the tools call (`distance`, `constructTriangleFromLine`) are left uninterpreted, and a
  predicate `Euclidean` states the assumption used where a threshold matters. The module
  also holds the translation that replays the previous polygon, pygame's `Rect` with
  `normalize` and `center`, and the symmetric stretch of a short triangle baseline.
- `Engine`: the world as a collaborator. Every request is appended to `World.log`. The
  answers the tools read from the world (bodies under a point, a body's first joint, its
  angular velocity and inertia) are fixed functions. The run flag and the bodies' user
  data are fields that the core changes.
- `Events`: the event datatype, the faults a handler can raise, and `Intercept`, the
  default handling every tool inherits.
- `ShapeTools`, `PolygonTools`, `ManipulationTools`, `DestroyTools`: one class per tool,
  with the Python fields, `HandleToolEvent`, `Draw` where drawing changes state, and
  `Cancel`.
- `Registry`: the tool classes, their `name` attributes and `getAllTools()`.
- `Physics`: the roll-motor torques, the registry map, the fold `Replay` of the focus, run
  flag and current tool over a batch of events, and class `Game`, whose members
  cover the constructor, `setTool`, the base-class dispatch and one frame of `run()`.
- `Scenarios`: concrete gestures driven through the tools, each with the exact requests
  the world receives.

A Python exception raised by a handler is a `Fault` result. The frame stops at the first
one, as the uncaught exception ends `run()`. The faults are: a circle released with no
anchor, a box released before any rectangle existed, a zero-length triangle baseline, a
triangle released before any triangle was drawn, a magic-pen release with no sketch
open, and a destroy-tool event without a position while the button is held.

These behaviours are modelled as the code has them:
- the joint tool compares the two pick lists as whole lists;
- a magic-pen stroke is committed without a closing vertex;
- the polygon tool's replay does not update the previous outline;
- the pin tool reacts to a press of any button, and the motor tool to any button numbered 1
  or more;
- the roll tool is defined but not in `getAllTools()`, so no user action can select it;
- `world.update()` is requested whenever the game is focused, even while paused (only the
  motors depend on the run flag in this loop).

## Model

| member | source | states |
|---|---|---|
| Geometry.Translate | tools.py:329-334 | the replayed shape has as many vertices as the previous one and ends at the release point |
| Geometry.TranslateKeepsOffsets | tools.py:265-269 | the replay keeps the vector between every two vertices: the shape is moved, not deformed |
| Geometry.TranslateUnique | tools.py:330-334 | any sequence with the previous shape's length and offsets that ends at the release point is the replay |
| Geometry.TranslateClosed | tools.py:264-270 | replaying a closed outline gives a closed outline starting at the release point |
| Geometry.Normalize | tools.py:149-150 | a normalised rectangle has the absolute size and spans both corners of the signed one |
| Geometry.Center | tools.py:151 | the centre lies inside the rectangle, at its midpoint up to integer division |
| Geometry.HalfExtent | tools.py:151-153 | a box half-extent is at least 5; it is exactly 5 for a side up to 10, otherwise half the side rounded down |
| Geometry.Stretch | tools.py:204-215 | the stretched baseline keeps the midpoint and direction and is scaled by 20 / d |
| Geometry.StretchedLength | tools.py:204-217 | when d is the baseline's length, the stretched baseline is exactly 20 long |
| Geometry.ZeroIff | tools.py:114-116 | under a Euclidean distance, two points are at distance 0 exactly when they coincide |
| Geometry.WithinIff | tools.py:280-292 | under a Euclidean distance, a distance threshold is the same test on the squared distance |
| Engine.RollMotorOf | physics.py:89-90 | a body has a roll motor exactly when its user data is a dictionary holding that entry |
| Events.Intercept | tools.py:43-73 | an event is delegated to the tool exactly when it is not a user event; each user action or code maps to its effect, a switch only for a registered name other than the three reserved actions |
| Registry.AllTools | tools.py:571-581 | ten classes, the magic pen first |
| Registry.RegisteredIffNotRoll | tools.py:571-581 | a class is in the list exactly when it is not the roll tool |
| Registry.NamesDistinct | physics.py:52-54 | two classes with the same name are the same class, so the registry loses no tool |
| Registry.RollNotRegistered | tools.py:504-505 | the class named "Roll" is not in the list |
| Registry.ToolClass.Name | tools.py:90-532 | every class's `name` attribute is non-empty and none is one of the three reserved actions, so selecting a tool never clashes with run/pause or focus |
| ShapeTools.CircleTool.constructor | tools.py:95-98 | no anchor, radius 40 |
| ShapeTools.CircleTool.HandleToolEvent | tools.py:100-109 | a left press anchors; a left release adds a ball at the anchor with the current radius and clears it, or faults with no anchor; other events change nothing |
| ShapeTools.CircleTool.Draw | tools.py:111-117 | with an anchor and a positive distance to the pointer, the radius becomes max(distance, 5); otherwise it is kept, in particular when the pointer is on the anchor |
| ShapeTools.CircleTool.Cancel | tools.py:123-124 | the anchor is cleared |
| ShapeTools.BoxCommand | tools.py:151-157 | the request is a standard-material rectangle centred inside the box, with half-extents at least 5 and half the sides otherwise |
| ShapeTools.BoxTool.constructor | tools.py:134-139 | no anchor, no rectangle, an 80 x 80 drag |
| ShapeTools.BoxTool.HandleToolEvent | tools.py:141-158 | a left press anchors; a left release on the anchor rebuilds the rectangle from the reversed last drag; the rectangle present is committed, or the release faults when there is none; the stored rectangle stays normalised |
| ShapeTools.BoxTool.Draw | tools.py:160-168 | with the pointer off the anchor, the signed drag and its normalised rectangle are stored; otherwise nothing changes |
| ShapeTools.BoxTool.Cancel | tools.py:172-174 | anchor and rectangle are cleared |
| ShapeTools.ReplayedBox | tools.py:148-150 | the replayed box has the last drag's size, with corners at the anchor and at the anchor minus the drag |
| ShapeTools.TriangleTool.constructor | tools.py:184-188 | no anchor, no triangle, drag vector (0, -80) |
| ShapeTools.TriangleTool.HandleToolEvent | tools.py:190-225 | a left press anchors; a left release on the anchor moves the anchor back by the last drag vector; a baseline shorter than 20 is stretched, one of length 0 faults; the drawn triangle is committed, or the release faults when none exists; a Euclidean distance never gives the zero fault |
| ShapeTools.TriangleTool.Draw | tools.py:227-234 | with the pointer off the anchor, the triangle on the drag and the drag vector are stored; the vector is never zero |
| ShapeTools.TriangleTool.Cancel | tools.py:240-242 | anchor and triangle are cleared |
| ShapeTools.ShortBaselineBecomesMinimum | tools.py:203-217 | for a Euclidean distance, a short baseline is replaced by one exactly 20 long about the same midpoint |
| PolygonTools.ReachedSafeAppend | tools.py:291-293 | appending a vertex makes the outline safe exactly when it was safe or the new vertex is 55 or more from the first |
| PolygonTools.PolygonTool.constructor | tools.py:252-256 | no outline, no previous outline, not safe |
| PolygonTools.PolygonTool.HandleToolEvent | tools.py:258-293 | non-left events are ignored. A press starts an outline. A release on the only vertex replays the previous outline at the pointer. A repeated point is skipped. A safe outline closes within 15 of its start, gaining a closing vertex and becoming the previous outline. An unsafe one is dropped there. Otherwise the vertex is appended, and the outline is safe exactly when some vertex reached 55 |
| PolygonTools.PolygonTool.Cancel | tools.py:307-308 | the open outline is dropped |
| PolygonTools.MagicPenTool.constructor | tools.py:318-322 | no sketch, no previous sketch, not safe |
| PolygonTools.MagicPenTool.HandleToolEvent | tools.py:324-346 | a left press starts a sketch; motion appends the point and makes it safe once a point after the third is 55 from the first; a release commits the sketch (or the previous one translated, for a bare click) exactly when safe, with no closing vertex, or faults with no sketch open |
| PolygonTools.MagicPenTool.Cancel | tools.py:361-362 | the open sketch is dropped |
| ManipulationTools.GrabTool.constructor | tools.py:372-374 | no body held |
| ManipulationTools.GrabTool.HandleToolEvent | tools.py:376-406 | while running only pointer-joint requests are made (joint on the topmost non-static body, move, release); while paused a press holds the body and motion with the button held repositions it |
| ManipulationTools.GrabTool.Cancel | tools.py:408-409 | the pointer joint is always released |
| ManipulationTools.JointTool.constructor | tools.py:419-421 | no picks |
| ManipulationTools.JointTool.HandleToolEvent | tools.py:423-445 | a press of any button records the bodies under the pointer; a left release joins the first bodies of both picks when each is non-empty and the two lists differ, then clears the picks |
| ManipulationTools.JointTool.Cancel | tools.py:452-453 | the picks are cleared |
| ManipulationTools.PinTool.constructor | tools.py:463-465 | no picked bodies, no position |
| ManipulationTools.PinTool.HandleToolEvent | tools.py:467-473 | any press pins the topmost body under the pointer, if any; nothing else makes a request |
| ManipulationTools.PinTool.Cancel | tools.py:475-476 | nothing is held |
| ManipulationTools.MotorTool.constructor | tools.py:486-488 | no picked bodies, no position |
| ManipulationTools.MotorTool.HandleToolEvent | tools.py:490-498 | a press of a button 1 or more adds a motor to the topmost body, if any |
| ManipulationTools.MotorTool.Cancel | tools.py:500-501 | nothing is held |
| ManipulationTools.RollTool.constructor | tools.py:510-512 | no picked bodies, no position |
| ManipulationTools.RollTool.HandleToolEvent | tools.py:514-524 | a left press gives the topmost body, when its user data is a dictionary, a roll motor (target -10, strength 40); no other user data changes |
| ManipulationTools.RollTool.Cancel | tools.py:526-527 | nothing is held |
| DestroyTools.PushTrail | tools.py:543-546 | the trail grows by one point up to 10 and then keeps its length, ending at the new point |
| DestroyTools.PushTrailKeepsNewest | tools.py:543-546 | the pushed trail is the old trail plus the point, less the oldest point past 10 |
| DestroyTools.TrailIsSuffix | tools.py:541-546 | the trail of a gesture is its last (at most 10) points, oldest first |
| DestroyTools.DestroyCommands | tools.py:548-556 | one request exactly when a body is under the point: its first joint if it has one, otherwise the body |
| DestroyTools.DestroyTool.constructor | tools.py:537-539 | empty trail |
| DestroyTools.DestroyTool.HandleToolEvent | tools.py:541-558 | with the button held, every event with a position extends the trail and destroys what is under it, and one without a position faults; with the button up, a left release clears the trail |
| DestroyTools.DestroyTool.Cancel | tools.py:567-568 | the trail is cleared |
| Physics.Torque | physics.py:91-92 | the torque is strength x (target - spin) x inertia, so it is zero at the target spin and with zero strength or inertia |
| Physics.TorqueOpposesError | physics.py:91-92 | zero torque at the target spin; with positive strength and inertia, the torque opposes the spin's excess over the target in both directions |
| Physics.TorqueFor | physics.py:89-92 | a body gets exactly one torque request when it carries a roll motor, none otherwise; the request is on that body with strength x (target - spin) x inertia |
| Physics.MotorTorques | physics.py:88-92 | the motor pass makes at most one request per listed body |
| Physics.MotorTorquesSound | physics.py:88-92 | every torque request is on a listed body carrying a roll motor, with the formula's value |
| Physics.MotorTorquesComplete | physics.py:88-92 | every listed body carrying a roll motor gets its torque request |
| Physics.DriveMotors | physics.py:87-92 | the loop appends exactly the motor pass's requests, in body-list order |
| Physics.NewCreationTools | physics.py:53-54 | five fresh drawing tools, each valid and idle, with their constructors' values: no sketch, outline or previous shape and not safe for the magic pen and polygon tools, radius 40, an 80 x 80 box drag, a (0, -80) triangle drag |
| Physics.NewManipulationTools | physics.py:53-54 | five fresh manipulation tools, valid and idle: no body held, no joint picks, an empty destroy trail |
| Physics.ToolList | physics.py:52-54 | every listed class is in the map under its own name, and every key maps to a listed class of that name |
| Physics.ToolSwitchable | physics.py:52-54 | the user action carrying a listed class's name switches to that class; the name is a registry key for that class |
| Physics.ReplayAppend | physics.py:82-83 | handling two batches of events in turn leaves the same focus, run flag and current tool as handling them together |
| Physics.ReplayToolEventsKeep | tools.py:66-73 | mouse events never change the focus, the run flag or the current tool |
| Physics.ReplayRunParity | tools.py:48-50 | after a batch of events the run flag is flipped exactly when it held an odd number of toggle actions |
| Physics.ReplayFocusKept | tools.py:51-54 | without a focus action among the events, the focus flag is kept |
| Physics.ReplayFocusLast | tools.py:51-54 | the last focus action among the events decides the focus flag |
| Physics.ReplayCurrentKept | tools.py:55-56 | without a user action naming a registered tool, the current tool is kept |
| Physics.ReplaySwitchLast | tools.py:55-56 | the last user action naming a registered tool decides the current tool |
| Physics.RollActionConsumed | tools.py:55-56 | "Roll" is not a registry key, so that user action is consumed without a switch |
| Physics.Game.constructor | physics.py:45-62 | all ten tools fresh and idle with their constructors' values (radius 40, 80 x 80 box drag, (0, -80) triangle drag, no previous shapes, no body held, empty trail), the magic pen current, focused, and the ground added |
| Physics.Game.CancelCurrent | physics.py:113 | the current tool is left idle; only the grab tool makes a request; what cancel keeps is unchanged: the previous outlines and safe flags, the circle radius, the box and triangle drags, the grab tool's held body |
| Physics.Game.SetTool | physics.py:112-114 | the previous tool is cancelled and idle, keeping what cancel keeps; the tool under the name is current, and only a cancelled grab tool makes a request |
| Physics.Game.DelegateToCurrent | tools.py:70-73 | a non-user event goes to the current tool, which stays current: the tool's new state, the world's requests and the fault are those of that tool's `HandleToolEvent` contract; the polygon, grab, joint, pin and motor tools never fault |
| Physics.Game.DelegateToCreationTool | tools.py:73 | the current drawing tool's handler runs: its new state, requests and fault meet that tool's handler contract, the game stays valid, and the polygon tool never faults |
| Physics.Game.DelegateToManipulationTool | tools.py:73 | the current manipulation tool's handler runs: its new state, requests and fault meet that tool's handler contract, the game stays valid, and only the destroy tool can fault |
| Physics.Game.DrawCurrent | physics.py:100 | drawing changes state only for the circle, box and triangle tools |
| Physics.Game.React | tools.py:47-65 | each consumed user event has its effect: the toggle flips the run flag, the focus actions set focus, a registered name switches tools after cancelling the old one, the journal codes make their requests; no tool changes without a switch |
| Physics.Game.HandleEvents | tools.py:43-73 | the run flag toggles only on the toggle action; focus changes only with the focus actions; a registered name switches tools after cancelling the old one, keeping what cancel keeps; journal codes make their requests; a delegated event meets the current tool's handler contract; only delegated events can fault; without a switch or delegation no tool changes |
| Physics.Game.DispatchOne | tools.py:43-73 | one event changes the focus, run flag and current tool as its interception says, and can fault only when passed on to the tool |
| Physics.Game.DispatchPending | physics.py:82-83 | the events are handled in order: the focus, run flag and current tool are those the handled events leave, one after the other; with no fault all were handled, otherwise handling stopped at an event passed on to the tool |
| Physics.Game.Advance | physics.py:85-100 | unfocused, nothing happens; focused, the motor requests (only while running) then one world step; a current tool other than circle, box and triangle keeps its state |
| Physics.Game.Frame | physics.py:81-100 | the pending events are handled in order, leaving the focus, run flag and current tool they set; a fault ends the frame at an event passed on to the tool; otherwise a focused frame ends with the motor requests and one world step |
| Scenarios.CircleDrag | tools.py:100-117 | press, drag 50 away and release make one ball of radius 50 at the press point |
| Scenarios.BoxClick | tools.py:141-157 | a click with no drag makes the 80 x 80 box of the reversed initial drag |
| Scenarios.EuclideanAtLeast | tools.py:280-292 | under a Euclidean distance, a squared distance of at least r squared gives a distance of at least r |
| Scenarios.EuclideanBelow | tools.py:280-292 | under a Euclidean distance, a squared distance below r squared gives a distance below r |
| Scenarios.TriangleDrawn | tools.py:190-234 | a press at (0, 0) and a frame with the pointer at (100, 0) leave the anchor and the triangle on that drag, with no request |
| Scenarios.TriangleStaleBaseline | tools.py:190-225 | a release with no frame after the last drag commits the triangle drawn on that drag |
| Scenarios.FirstEdge | tools.py:258-293 | a press at (0, 0) and a release at (100, 0) give the open two-vertex outline, already safe since (100, 0) is 55 or more from the start, with no request and no previous outline |
| Scenarios.OutlineSquare | tools.py:258-293 | four corners of a square give an open, safe outline of those corners |
| Scenarios.PolygonSquare | tools.py:276-287 | a click near the start closes the square, adds it and keeps it as the previous outline |
| Scenarios.SquareMoved | tools.py:264-269 | the square replayed at any point p is the square moved so that its last corner is at p |
| Scenarios.ReplaySquare | tools.py:263-274 | with the square as previous outline, a bare click at p adds the square moved to p as a complex polygon |
| Scenarios.PolygonReplay | tools.py:263-274 | a bare click after the square adds the translated square |
| Scenarios.PolygonEarlyClose | tools.py:288-289 | a return near the start before the outline is safe drops it without a request |
| Scenarios.GrabDrag | tools.py:376-406 | a drag over a body gives pointer-joint requests while running and repositioning while paused |
| Scenarios.JointSameFirstBody | tools.py:436-438 | picks that differ as lists but share their first body join that body to itself |
| Scenarios.DestroyPass | tools.py:541-558 | a held stroke destroys a body's joint, then another body, and the release clears the trail |
| Scenarios.MotorFrame | physics.py:87-92 | a body given the roll motor at rest with inertia 2 receives the torque -800 |
| Scenarios.SwitchMidGesture | physics.py:112-114 | a press opens a sketch of that one point; switching to the circle tool then drops it, and the whole sequence makes no request |
| Scenarios.SwitchKeepsPrevious | physics.py:112-114 | switching away from the polygon tool and back keeps its previous outline, so a later bare click can still replay it |
| Scenarios.PauseAndLeave | physics.py:82-83 | a frame carrying a toggle and a focus-out handles both without a fault: the run flag flips, the game loses focus, the tool stays |
| Scenarios.RollActionIgnored | tools.py:55-56 | the action "Roll" changes neither the current tool, the tools nor the world |

## Left out

- Drawing is not modelled: `pygame.draw` calls, the screen fill, `world.draw()`,
  `display.flip()`, the fake cursor and its callbacks (physics.py:64-78 and 102-104), and
  the canvas's `grab_focus()`. Only the state that the tools' `draw()` methods change is
  modelled.
- The frame clock (`clock.tick(30)`), the endless `while True` loop and `main()` are left
  out. One pass of the loop is `Physics.Game.Frame`, and the events arrive as a parameter.
- The pointer position that `draw()` reads and the button state that the destroy tool reads
  are parameters (`mouse`, `leftPressed`).
- `helpers.py` is not part of this model. `distance` and `constructTriangleFromLine` are
  uninterpreted functions. `cast_tuple_to_int` is the identity on integer points, and the
  model assumes it returns a list that the triangle tool may assign into.
- The Box2D engine and the Elements wrapper are not modelled. The world records the
  requests it receives. What it answers is fixed for the life of a `World`, so the effect of
  a destroyed body or a new joint on later picks is not modelled.
- Floating point is modelled as exact real arithmetic.
- The tools' icons, tooltips and accelerators are left out, since no modelled operation
  reads them.
- The registry is held as one field per class plus the current class, instead of a
  dictionary of instances. `ToolList` gives the name -> class map and `ObjOf` the instance.
- The destroy tool's `None` trail and its empty trail are both the empty sequence, because
  every use of the trail treats them alike.
- The circle tool's release with no anchor (`BallWithoutCenter`) and the triangle tool's
  release with no triangle (`ConvexPolyWithoutVertices`) are modelled as faults, on the assumption that the Elements wrapper's `add.ball` and
  `add.convexPoly` raise when given `None`. That code is not part of this model.
- Physics.Game.DispatchPending: states the combined effect of the events on the focus, run
  flag and current tool, but not on the tools' gesture state or on the world's requests;
  those are stated one event at a time by `Physics.Game.HandleEvents`.
- Physics.Game.Frame: the same as `DispatchPending` for the events. Of the rest of the frame
  it states the requests it ends with, not what the tool's drawing did.
- Physics.Game.DrawCurrent: states only that the other tools keep their state. What drawing
  does to the circle, box and triangle tools is stated by their `Draw` methods.
- ManipulationTools.GrabTool.HandleToolEvent: the paused repositioning carries the pixel
  position. The conversion to world coordinates (`to_world`, division by `ppm`) is left out.
- ManipulationTools.JointTool.HandleToolEvent: `str(jb1) != str(jb2)` is modelled as
  inequality of the pick lists, assuming that a body's printed form identifies it.
