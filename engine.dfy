/**
 * The physics world the tools talk to, modelled as a collaborator: what the tools ask of
 * it is appended to a command log, and what they read from it (bodies under a point, a
 * body's joints, its angular velocity and moment of inertia, its user data) are readings
 * held in fields. How the engine evolves those readings is not part of this model.
 */
module Engine {
  import opened Wrappers
  import opened Geometry

  /** An opaque handle to a body of the simulation. */
  datatype BodyId = BodyId(id: nat)

  /** An opaque handle to a joint of the simulation. */
  datatype JointId = JointId(id: nat)

  datatype Material = Material(dynamic: bool, density: real, restitution: real, friction: real)

  /** The material every drawing tool passes: dynamic, density 1.0, restitution 0.16, friction 0.5. */
  const Standard: Material := Material(true, 1.0, 0.16, 0.5)

  /** A request made to the world, in the order the core makes them. */
  datatype Command =
    | AddGround
    | AddBall(center: Point, radius: real, material: Material)
    | AddRect(center: Point, halfWidth: int, halfHeight: int, material: Material)
    | AddConvexPoly(vertices: seq<RPoint>, material: Material)
    | AddComplexPoly(points: seq<Point>, material: Material)
    | AddMouseJoint(body: BodyId, pos: Point)
    | MouseMove(pos: Point)
    | RemoveMouseJoint
    | SetPosition(body: BodyId, pos: Point)
    | AddDistanceJoint(body1: BodyId, body2: BodyId, pos1: Point, pos2: Point)
    | AddPinJoint(body: BodyId, pos: Point)
    | AddMotor(body: BodyId, pos: Point)
    | DestroyJoint(joint: JointId)
    | DestroyBody(body: BodyId)
    | ApplyTorque(body: BodyId, torque: real)
    | Update
    | JsonSave(filename: string)
    | JsonLoad(filename: string)

  /**
   * The two forms of `get_bodies_at_pos` the tools use: the grab tool passes
   * `include_static=False`; the others leave the argument at the world's default.
   */
  datatype Query = NonStatic | DefaultQuery

  /** The roll-motor entry a body's dictionary user data may carry. */
  datatype RollMotor = RollMotor(targetVelocity: real, strength: real)

  /** A body's user data: a dictionary (with or without a roll-motor entry) or anything else. */
  datatype UserData = Dict(rollMotor: Option<RollMotor>) | NotDict

  /** The roll motor of body `b`, present only when its user data is a dictionary with that entry. */
  function RollMotorOf(userData: map<BodyId, UserData>, b: BodyId): (r: Option<RollMotor>)
    ensures r.Some? <==> b in userData && userData[b].Dict? && userData[b].rollMotor.Some?
  {
    if b in userData && userData[b].Dict? then userData[b].rollMotor else None
  }

  /**
   * The Box2D world as the tools see it: the requests made to it, and its answers to the
   * queries the tools ask, which are fixed for the life of the model.
   */
  class World {
    /** `run_physics`: whether the simulation steps. */
    var runPhysics: bool
    /** Every request made to the world so far. */
    var log: seq<Command>
    /** The user data of each body; a body missing here has user data that is not a dictionary. */
    var userData: map<BodyId, UserData>
    /** `get_bodies_at_pos`: the bodies under a pixel position, topmost first. */
    const bodiesAt: (Point, Query) -> seq<BodyId>
    /** The joint at the head of a body's `GetJointList()`, if it has one. */
    const firstJoint: BodyId -> Option<JointId>
    /** `GetBodyList()`. */
    const bodyList: seq<BodyId>
    /** `GetAngularVelocity()` of each body. */
    const angularVelocity: BodyId -> real
    /** `getMassData().I` of each body. */
    const inertia: BodyId -> real

    constructor (running: bool, bodiesAt: (Point, Query) -> seq<BodyId>, firstJoint: BodyId -> Option<JointId>,
                 bodyList: seq<BodyId>, angularVelocity: BodyId -> real, inertia: BodyId -> real,
                 userData: map<BodyId, UserData>)
      ensures runPhysics == running && log == [] && this.userData == userData
      ensures this.bodiesAt == bodiesAt && this.firstJoint == firstJoint && this.bodyList == bodyList
      ensures this.angularVelocity == angularVelocity && this.inertia == inertia
    {
      runPhysics := running;
      log := [];
      this.userData := userData;
      this.bodiesAt := bodiesAt;
      this.firstJoint := firstJoint;
      this.bodyList := bodyList;
      this.angularVelocity := angularVelocity;
      this.inertia := inertia;
    }
  }
}
