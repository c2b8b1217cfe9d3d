/** Values shared by every part of the model: optional values, results carrying
    the errors the source raises, opaque vectors and the handle types. */
module Common {

  datatype Option<+T> = None | Some(value: T)

  /** The source signals failure by throwing; the model returns `Err`. */
  datatype Result<+T> = Ok(value: T) | Err(error: Error)

  /** A step of the stepper either completes or throws. */
  datatype Outcome = Done | Failed(error: Error)

  /** Every error the modelled core raises. */
  datatype Error =
    | UnknownBodyType(bodyType: string)        // body.ts getBodyType, and the stepper's writeback
    | UnknownShape(shape: string)              // collider.ts getColliderDesc
    | ZeroSize                                 // collider.ts: `size` required if `wrap` is not set
    | UnknownCombineRule(rule: string)         // collider.ts getRestitutionCombineRule
    | UnknownJointType(jointType: string)      // joint.ts getJointData
    | MissingBody                              // a component needs a "body" on its own entity
    | MissingTargetBody                        // joint/track: the referenced entity has no "body"
    | NoTarget                                 // joint/track: the selector matched no entity
    | NoSnapshot                               // saveSnapshot before any snapshot
    | SolverCrashed                            // the engine's world step threw
    | StaleBody(handle: BodyHandle)            // an engine call on a rigid body the world does not hold

  /** Positions and rotations are opaque to the core: it only copies them. */
  datatype Vec3 = Vec3(x: real, y: real, z: real)
  datatype Vec4 = Vec4(x: real, y: real, z: real, w: real)

  /** A translation and a rotation (quaternion). */
  datatype Pose = Pose(position: Vec3, rotation: Vec4)

  /** Integers the engine or the stepper hand out. */
  type EntityId = nat
  type BodyHandle = nat
  type ColliderHandle = nat
  type JointHandle = nat
}
