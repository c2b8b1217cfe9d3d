/** The physics engine as the core sees it: a world that hands out handles for
    rigid bodies, colliders and joints, holds each body's pose, advances by an
    opaque step that may throw, and serialises itself into an opaque snapshot.
    Nothing of the solver's mathematics is modelled. */
module Engine {
  import opened Common

  /** The engine's rigid-body kinds. */
  datatype RigidBodyType = Dynamic | Static | KinematicPositionBased | KinematicVelocityBased

  /** A rigid-body description as `Body.initialize` builds it. */
  datatype RigidBodyDesc = RigidBodyDesc(
    kind: RigidBodyType,
    translation: Vec3,
    rotation: Vec4,
    linvel: Vec3,
    angvel: Vec3,
    linearDamping: real,
    angularDamping: real,
    gravityScale: real,
    canSleep: bool,
    ccdEnabled: bool)

  datatype Shape = Cuboid(hx: real, hy: real, hz: real) | Ball(radius: real)

  datatype CombineRule = Average | Min | Multiply | Max

  /** A collider description as `getColliderDesc` builds it. The active
      collision types and active events it also sets are the same constants
      for every collider and are not represented. */
  datatype ColliderDesc = ColliderDesc(
    shape: Shape,
    translation: Vec3,
    density: real,
    friction: real,
    restitution: real,
    restitutionCombineRule: CombineRule,
    sensor: bool)

  /** Joint descriptions: each kind takes its own subset of parameters. */
  datatype JointDesc =
    | FixedJoint(anchor1: Vec3, frame1: Vec4, anchor2: Vec3, frame2: Vec4)
    | SphericalJoint(anchor1: Vec3, anchor2: Vec3)
    | RevoluteJoint(anchor1: Vec3, anchor2: Vec3, axis: Vec3)
    | PrismaticJoint(anchor1: Vec3, anchor2: Vec3, axis: Vec3)

  datatype ColliderRecord = ColliderRecord(desc: ColliderDesc, parent: BodyHandle)
  datatype JointRecord = JointRecord(desc: JointDesc, body1: BodyHandle, body2: BodyHandle)

  /** The engine's serialised state: opaque to the core, which only stores it
      and hands it to a writer. */
  datatype Snapshot = Snapshot(
    bodies: map<BodyHandle, Pose>,
    colliders: map<ColliderHandle, ColliderRecord>,
    joints: map<JointHandle, JointRecord>)

  /** An intersection event drained from the event queue. */
  datatype IntersectionEvent = IntersectionEvent(collider1: ColliderHandle, collider2: ColliderHandle, intersecting: bool)

  /** What one call of the engine's world step did: it moved some bodies and
      then either threw, leaving the bodies where it had got to, or finished
      and produced intersection events. */
  datatype SolverRun =
    | Crashed(moved: map<BodyHandle, Pose>)
    | Advanced(moved: map<BodyHandle, Pose>, events: seq<IntersectionEvent>)

  /** The bodies after a step: every body the solver reports takes the reported
      pose, every other body keeps its own, and no body appears or vanishes. */
  function Moved(bodies: map<BodyHandle, Pose>, moved: map<BodyHandle, Pose>): (r: map<BodyHandle, Pose>)
    ensures r.Keys == bodies.Keys
    ensures forall h :: h in bodies && h in moved ==> r[h] == moved[h]
    ensures forall h :: h in bodies && h !in moved ==> r[h] == bodies[h]
  {
    map h | h in bodies :: if h in moved then moved[h] else bodies[h]
  }

  /** Reading a body's pose fails only for a handle the world does not hold. */
  function PoseOf(bodies: map<BodyHandle, Pose>, h: BodyHandle): (r: Result<Pose>)
    ensures r.Ok? <==> h in bodies
    ensures r.Ok? ==> r.value == bodies[h]
    ensures r.Err? ==> r.error == StaleBody(h)
  {
    if h in bodies then Ok(bodies[h]) else Err(StaleBody(h))
  }

  /** `RigidBody.setTranslation`: only that body's position changes. */
  function SetTranslation(bodies: map<BodyHandle, Pose>, h: BodyHandle, p: Vec3): (r: Result<map<BodyHandle, Pose>>)
    ensures r.Ok? <==> h in bodies
    ensures r.Ok? ==> r.value.Keys == bodies.Keys && r.value[h] == Pose(p, bodies[h].rotation)
    ensures r.Ok? ==> forall g :: g in bodies && g != h ==> r.value[g] == bodies[g]
    ensures r.Err? ==> r.error == StaleBody(h)
  {
    if h in bodies then Ok(bodies[h := bodies[h].(position := p)]) else Err(StaleBody(h))
  }

  /** `RigidBody.setRotation`: only that body's rotation changes. */
  function SetRotation(bodies: map<BodyHandle, Pose>, h: BodyHandle, q: Vec4): (r: Result<map<BodyHandle, Pose>>)
    ensures r.Ok? <==> h in bodies
    ensures r.Ok? ==> r.value.Keys == bodies.Keys && r.value[h] == Pose(bodies[h].position, q)
    ensures r.Ok? ==> forall g :: g in bodies && g != h ==> r.value[g] == bodies[g]
    ensures r.Err? ==> r.error == StaleBody(h)
  {
    if h in bodies then Ok(bodies[h := bodies[h].(rotation := q)]) else Err(StaleBody(h))
  }

  /** The engine world. Handles come from counters that only grow, so a
      handle is never handed out twice. */
  class World {
    var bodies: map<BodyHandle, Pose>
    var nextBody: nat
    var colliders: map<ColliderHandle, ColliderRecord>
    var nextCollider: nat
    var joints: map<JointHandle, JointRecord>
    var nextJoint: nat

    ghost predicate Valid()
      reads this
    {
      && (forall h :: h in bodies ==> h < nextBody)
      && (forall c :: c in colliders ==> c < nextCollider)
      && (forall j :: j in joints ==> j < nextJoint)
    }

    constructor ()
      ensures Valid()
      ensures bodies == map[] && colliders == map[] && joints == map[]
      ensures nextBody == 0 && nextCollider == 0 && nextJoint == 0
    {
      bodies, colliders, joints := map[], map[], map[];
      nextBody, nextCollider, nextJoint := 0, 0, 0;
    }

    /** `world.takeSnapshot()`: the whole world state as one value. */
    function TakeSnapshot(): (r: Snapshot)
      reads this
      ensures r.bodies == bodies && r.colliders == colliders && r.joints == joints
    {
      Snapshot(bodies, colliders, joints)
    }

    /** `world.createRigidBody`: a fresh handle, placed at the description's pose. */
    method CreateRigidBody(desc: RigidBodyDesc) returns (h: BodyHandle)
      requires Valid()
      modifies this`bodies, this`nextBody
      ensures Valid()
      ensures h == old(nextBody) && nextBody == h + 1 && h !in old(bodies)
      ensures bodies == old(bodies)[h := Pose(desc.translation, desc.rotation)]
    {
      h := nextBody;
      bodies := bodies[h := Pose(desc.translation, desc.rotation)];
      nextBody := nextBody + 1;
    }

    /** `world.createCollider(desc, parent)`: a fresh handle attached to `parent`. */
    method CreateCollider(desc: ColliderDesc, parent: BodyHandle) returns (c: ColliderHandle)
      requires Valid()
      modifies this`colliders, this`nextCollider
      ensures Valid()
      ensures c == old(nextCollider) && nextCollider == c + 1 && c !in old(colliders)
      ensures colliders == old(colliders)[c := ColliderRecord(desc, parent)]
    {
      c := nextCollider;
      colliders := colliders[c := ColliderRecord(desc, parent)];
      nextCollider := nextCollider + 1;
    }

    /** `impulseJoints.createJoint(bodies, desc, body1, body2)`. */
    method CreateJoint(desc: JointDesc, body1: BodyHandle, body2: BodyHandle) returns (j: JointHandle)
      requires Valid()
      modifies this`joints, this`nextJoint
      ensures Valid()
      ensures j == old(nextJoint) && nextJoint == j + 1 && j !in old(joints)
      ensures joints == old(joints)[j := JointRecord(desc, body1, body2)]
    {
      j := nextJoint;
      joints := joints[j := JointRecord(desc, body1, body2)];
      nextJoint := nextJoint + 1;
    }

    /** `impulseJoints.remove(id, islands, bodies, wakeUp)`: exactly that joint goes. */
    method RemoveJoint(j: JointHandle)
      requires Valid()
      modifies this`joints
      ensures Valid()
      ensures joints == old(joints) - {j}
    {
      joints := joints - {j};
    }

    /** `world.step(eventQueue)`: `ok` is false when the engine threw. Nothing
        rolls a failed step back, so either way the bodies are where the
        step left them. */
    method Advance(run: SolverRun) returns (ok: bool)
      requires Valid()
      modifies this`bodies
      ensures Valid()
      ensures ok <==> run.Advanced?
      ensures bodies == Moved(old(bodies), run.moved)
    {
      ok := run.Advanced?;
      bodies := Moved(bodies, run.moved);
    }

    /** `rigidBody.setTranslation(p)`; throws for a body the world does not hold. */
    method SetBodyTranslation(h: BodyHandle, p: Vec3) returns (r: Outcome)
      requires Valid()
      modifies this`bodies
      ensures Valid()
      ensures r.Done? <==> SetTranslation(old(bodies), h, p).Ok?
      ensures bodies == if r.Done? then SetTranslation(old(bodies), h, p).value else old(bodies)
      ensures r.Failed? ==> r.error == StaleBody(h)
    {
      var s := SetTranslation(bodies, h, p);
      if s.Ok? {
        bodies := s.value;
        r := Done;
      } else {
        r := Failed(s.error);
      }
    }

    /** `rigidBody.setRotation(q)`; throws for a body the world does not hold. */
    method SetBodyRotation(h: BodyHandle, q: Vec4) returns (r: Outcome)
      requires Valid()
      modifies this`bodies
      ensures Valid()
      ensures r.Done? <==> SetRotation(old(bodies), h, q).Ok?
      ensures bodies == if r.Done? then SetRotation(old(bodies), h, q).value else old(bodies)
      ensures r.Failed? ==> r.error == StaleBody(h)
    {
      var s := SetRotation(bodies, h, q);
      if s.Ok? {
        bodies := s.value;
        r := Done;
      } else {
        r := Failed(s.error);
      }
    }
  }
}
