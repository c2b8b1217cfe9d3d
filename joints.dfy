/** The "joint" component (src/components/joint.ts): the joint-kind
    dispatcher, and the joint object's creation between the owner's body and
    the target's body and its removal from the engine's joint set. */
module Joints {
  import opened Common
  import opened Engine
  import opened RapierSystem

  /** The configuration of a "joint" component after defaults are filled in;
      `target` is the entity the selector matched, if any. */
  datatype JointData = JointData(
    jointType: string,
    target: Entity?,
    anchor1: Vec3,
    anchor2: Vec3,
    frame1: Vec4,
    frame2: Vec4,
    axis: Vec3)

  /** The schema's default kind. */
  const DefaultJointType := "dynamic"

  /** The kind names `getJointData` accepts. */
  const JointTypeNames: set<string> := {"fixed", "spherical", "revolute", "prismatic"}

  /** The configuration name of each joint kind. */
  function JointTypeName(desc: JointDesc): string
  {
    match desc
    case FixedJoint(_, _, _, _) => "fixed"
    case SphericalJoint(_, _) => "spherical"
    case RevoluteJoint(_, _, _) => "revolute"
    case PrismaticJoint(_, _, _) => "prismatic"
  }

  /** `getJointData`: exactly the four names succeed, each taking its own
      parameters from the configuration; anything else raises. */
  function GetJointData(data: JointData): (r: Result<JointDesc>)
    ensures r.Ok? <==> data.jointType in JointTypeNames
    ensures r.Ok? ==> JointTypeName(r.value) == data.jointType
    ensures r.Err? ==> r.error == UnknownJointType(data.jointType)
    ensures data.jointType == "fixed" ==> r == Ok(FixedJoint(data.anchor1, data.frame1, data.anchor2, data.frame2))
    ensures data.jointType == "spherical" ==> r == Ok(SphericalJoint(data.anchor1, data.anchor2))
    ensures data.jointType == "revolute" ==> r == Ok(RevoluteJoint(data.anchor1, data.anchor2, data.axis))
    ensures data.jointType == "prismatic" ==> r == Ok(PrismaticJoint(data.anchor1, data.anchor2, data.axis))
  {
    match data.jointType
    case "fixed" => Ok(FixedJoint(data.anchor1, data.frame1, data.anchor2, data.frame2))
    case "spherical" => Ok(SphericalJoint(data.anchor1, data.anchor2))
    case "revolute" => Ok(RevoluteJoint(data.anchor1, data.anchor2, data.axis))
    case "prismatic" => Ok(PrismaticJoint(data.anchor1, data.anchor2, data.axis))
    case _ => Err(UnknownJointType(data.jointType))
  }

  /** A joint left at the schema's default kind cannot be built: "dynamic"
      is not a joint kind. */
  lemma DefaultJointTypeRejected(data: JointData)
    requires data.jointType == DefaultJointType
    ensures GetJointData(data) == Err(UnknownJointType("dynamic"))
  {
    assert "dynamic" !in JointTypeNames;
  }

  /** The joint object. */
  class Joint {
    const el: Entity
    const target: Entity
    const thisBody: BodyHandle
    const targetBody: BodyHandle
    const jointId: JointHandle
    const jointDesc: JointDesc

    constructor (el: Entity, target: Entity, thisBody: BodyHandle, targetBody: BodyHandle, jointId: JointHandle, jointDesc: JointDesc)
      ensures this.el == el && this.target == target && this.thisBody == thisBody
      ensures this.targetBody == targetBody && this.jointId == jointId && this.jointDesc == jointDesc
    {
      this.el := el;
      this.target := target;
      this.thisBody := thisBody;
      this.targetBody := targetBody;
      this.jointId := jointId;
      this.jointDesc := jointDesc;
    }

    /** `Joint.initialize`: the owner's body is awaited first, then the
        target's; a missing one raises. Then the joint description is
        built and a fresh joint joins the owner's body to the target's. */
    static method Initialize(el: Entity, data: JointData, rapier: Rapier) returns (r: Result<Joint>)
      requires rapier.Valid()
      modifies rapier.world`joints, rapier.world`nextJoint
      ensures rapier.Valid()
      ensures el.bodySlot.NoBody? ==> r == Err(MissingBody)
      ensures el.bodySlot.Rejected? ==> r == Err(el.bodySlot.error)
      ensures el.bodySlot.Resolved? && data.target == null ==> r == Err(NoTarget)
      ensures el.bodySlot.Resolved? && data.target != null && data.target.bodySlot.NoBody? ==> r == Err(MissingTargetBody)
      ensures el.bodySlot.Resolved? && data.target != null && data.target.bodySlot.Rejected? ==>
        r == Err(data.target.bodySlot.error)
      ensures el.bodySlot.Resolved? && data.target != null && data.target.bodySlot.Resolved? ==>
        && (r.Ok? <==> GetJointData(data).Ok?)
        && (r.Err? ==> r == Err(UnknownJointType(data.jointType)))
      ensures r.Err? ==> rapier.world.joints == old(rapier.world.joints) && rapier.world.nextJoint == old(rapier.world.nextJoint)
      ensures r.Ok? ==> var j := r.value;
        && fresh(j) && el.bodySlot.Resolved? && data.target != null && data.target.bodySlot.Resolved?
        && j.el == el && j.target == data.target && j.jointDesc == GetJointData(data).value
        && j.thisBody == el.bodySlot.body.handle && j.targetBody == data.target.bodySlot.body.handle
        && j.jointId == old(rapier.world.nextJoint) && j.jointId !in old(rapier.world.joints)
        && rapier.world.joints == old(rapier.world.joints)[j.jointId := JointRecord(j.jointDesc, j.thisBody, j.targetBody)]
    {
      var thisBody: Body;
      match el.bodySlot {
        case NoBody => return Err(MissingBody);
        case Rejected(e) => return Err(e);
        case Resolved(b) => thisBody := b;
      }
      if data.target == null {
        return Err(NoTarget);
      }
      var targetBody: Body;
      match data.target.bodySlot {
        case NoBody => return Err(MissingTargetBody);
        case Rejected(e) => return Err(e);
        case Resolved(b) => targetBody := b;
      }
      var desc := GetJointData(data);
      if desc.Err? {
        return Err(desc.error);
      }
      var id := rapier.world.CreateJoint(desc.value, thisBody.handle, targetBody.handle);
      var j := new Joint(el, data.target, thisBody.handle, targetBody.handle, id, desc.value);
      r := Ok(j);
    }

    /** `remove`: exactly this joint leaves the engine's joint set. */
    method Remove(rapier: Rapier)
      requires rapier.Valid()
      modifies rapier.world`joints
      ensures rapier.Valid()
      ensures rapier.world.joints == old(rapier.world.joints) - {jointId}
    {
      rapier.world.RemoveJoint(jointId);
    }
  }
}
