/** The pure part of the "body" component (src/components/body.ts): the
    body-kind dispatcher, the description it builds, and the three kind
    predicates the stepper branches on. */
module BodyKinds {
  import opened Common
  import opened Engine

  /** The configuration of a "body" component after defaults are filled in. */
  datatype BodyData = BodyData(
    bodyType: string,
    follow: bool,
    linVel: Vec3,
    angVel: Vec3,
    linDamp: real,
    angDamp: real,
    gravityScale: real,
    canSleep: bool,
    ccd: bool)

  /** The kind names `getBodyType` accepts. */
  const BodyTypeNames: set<string> := {"dynamic", "static", "position", "velocity"}

  /** The configuration name of each engine kind: the inverse of `GetBodyType`. */
  function BodyTypeName(t: RigidBodyType): string
  {
    match t
    case Dynamic => "dynamic"
    case Static => "static"
    case KinematicPositionBased => "position"
    case KinematicVelocityBased => "velocity"
  }

  /** `getBodyType`: exactly the four names succeed, anything else raises. */
  function GetBodyType(name: string): (r: Result<RigidBodyType>)
    ensures r.Ok? <==> name in BodyTypeNames
    ensures r.Ok? ==> BodyTypeName(r.value) == name
    ensures r.Err? ==> r.error == UnknownBodyType(name)
  {
    match name
    case "dynamic" => Ok(Dynamic)
    case "static" => Ok(Static)
    case "position" => Ok(KinematicPositionBased)
    case "velocity" => Ok(KinematicVelocityBased)
    case _ => Err(UnknownBodyType(name))
  }

  /** Every engine kind is reachable from its name, so the two maps are inverse. */
  lemma GetBodyTypeRoundTrip(t: RigidBodyType)
    ensures GetBodyType(BodyTypeName(t)) == Ok(t)
  {
  }

  /** Distinct accepted names give distinct engine kinds. */
  lemma GetBodyTypeInjective(a: string, b: string)
    requires GetBodyType(a).Ok? && GetBodyType(b).Ok? && a != b
    ensures GetBodyType(a).value != GetBodyType(b).value
  {
    assert BodyTypeName(GetBodyType(a).value) == a;
    assert BodyTypeName(GetBodyType(b).value) == b;
  }

  /** `getBodyDesc` followed by the builder chain in `Body.initialize`: the
      kind comes from the configured name, the pose from the entity's mesh,
      and every other parameter straight from the configuration. */
  function GetBodyDesc(data: BodyData, spawn: Pose): (r: Result<RigidBodyDesc>)
    ensures r.Ok? <==> data.bodyType in BodyTypeNames
    ensures r.Err? ==> r.error == UnknownBodyType(data.bodyType)
    ensures r.Ok? ==> BodyTypeName(r.value.kind) == data.bodyType
    ensures r.Ok? ==> r.value.translation == spawn.position && r.value.rotation == spawn.rotation
    ensures r.Ok? ==> r.value.linvel == data.linVel && r.value.angvel == data.angVel
    ensures r.Ok? ==> r.value.linearDamping == data.linDamp && r.value.angularDamping == data.angDamp
    ensures r.Ok? ==> r.value.gravityScale == data.gravityScale
    ensures r.Ok? ==> r.value.canSleep == data.canSleep && r.value.ccdEnabled == data.ccd
  {
    match GetBodyType(data.bodyType)
    case Err(e) => Err(e)
    case Ok(kind) =>
      Ok(RigidBodyDesc(kind, spawn.position, spawn.rotation, data.linVel, data.angVel,
                       data.linDamp, data.angDamp, data.gravityScale, data.canSleep, data.ccd))
  }

  /** `Body.isStatic`, `Body.isDynamic`, `Body.isPositionBased` on the body's
      kind string. */
  predicate IsStaticKind(bodyType: string) { bodyType == "static" }
  predicate IsDynamicKind(bodyType: string) { bodyType == "dynamic" }
  predicate IsPositionKind(bodyType: string) { bodyType == "position" }

  /** The kinds the stepper knows how to write back. */
  predicate IsSteppableKind(bodyType: string)
  {
    IsStaticKind(bodyType) || IsDynamicKind(bodyType) || IsPositionKind(bodyType)
  }

  /** At most one kind predicate holds for any string, and for an accepted
      kind name they agree with the engine kind it was built with; the
      "velocity" kind, accepted at construction, satisfies none of them. */
  lemma KindPredicatesAgree(bodyType: string)
    ensures !(IsStaticKind(bodyType) && IsDynamicKind(bodyType))
    ensures !(IsStaticKind(bodyType) && IsPositionKind(bodyType))
    ensures !(IsDynamicKind(bodyType) && IsPositionKind(bodyType))
    ensures GetBodyType(bodyType).Ok? ==>
      && (IsStaticKind(bodyType) <==> GetBodyType(bodyType).value == Static)
      && (IsDynamicKind(bodyType) <==> GetBodyType(bodyType).value == Dynamic)
      && (IsPositionKind(bodyType) <==> GetBodyType(bodyType).value == KinematicPositionBased)
      && (!IsSteppableKind(bodyType) <==> GetBodyType(bodyType).value == KinematicVelocityBased)
  {
  }
}
