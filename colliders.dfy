/** The "collider" component (src/components/collider.ts): the description
    builder with its size check and shape dispatch, the restitution
    combine-rule dispatcher, and the component's `init`, which needs a body
    and either builds the collider at once or waits for the model to load. */
module Colliders {
  import opened Common
  import opened Engine
  import opened RapierSystem

  /** The configuration of a "collider" component after defaults are filled in. */
  datatype ColliderData = ColliderData(
    shape: string,
    wrap: bool,
    size: Vec3,
    translation: Vec3,
    density: real,
    friction: real,
    restitution: real,
    restitutionCombineRule: string,
    sensor: bool)

  /** What wrap mode measures on the loaded mesh: the size of its scaled
      bounding box and the box's centre relative to the mesh. */
  datatype Bounds = Bounds(size: Vec3, center: Vec3)

  /** The rule names `getRestitutionCombineRule` accepts. */
  const CombineRuleNames: set<string> := {"average", "min", "multiply", "max"}

  /** The configuration name of each rule: the inverse of `GetRestitutionCombineRule`. */
  function CombineRuleName(rule: CombineRule): string
  {
    match rule
    case Average => "average"
    case Min => "min"
    case Multiply => "multiply"
    case Max => "max"
  }

  /** `getRestitutionCombineRule`: exactly the four names succeed, anything
      else raises. */
  function GetRestitutionCombineRule(name: string): (r: Result<CombineRule>)
    ensures r.Ok? <==> name in CombineRuleNames
    ensures r.Ok? ==> CombineRuleName(r.value) == name
    ensures r.Err? ==> r.error == UnknownCombineRule(name)
  {
    match name
    case "average" => Ok(Average)
    case "min" => Ok(Min)
    case "multiply" => Ok(Multiply)
    case "max" => Ok(Max)
    case _ => Err(UnknownCombineRule(name))
  }

  /** Every rule is reachable from its name, and distinct accepted names give
      distinct rules. */
  lemma CombineRuleRoundTrip(rule: CombineRule, a: string, b: string)
    ensures GetRestitutionCombineRule(CombineRuleName(rule)) == Ok(rule)
    ensures GetRestitutionCombineRule(a).Ok? && GetRestitutionCombineRule(b).Ok? && a != b ==>
      GetRestitutionCombineRule(a).value != GetRestitutionCombineRule(b).value
  {
    if GetRestitutionCombineRule(a).Ok? && GetRestitutionCombineRule(b).Ok? && a != b {
      assert CombineRuleName(GetRestitutionCombineRule(a).value) == a;
      assert CombineRuleName(GetRestitutionCombineRule(b).value) == b;
    }
  }

  /** The shape names the description builder accepts. */
  const ShapeNames: set<string> := {"box", "ball"}

  /** `getColliderDesc`. In wrap mode the size and translation come from the
      mesh's `bounds`; otherwise from the configuration, and a zero-length
      size raises before anything else is looked at. A box takes half the
      size on each axis, a ball half the size's length; the remaining
      parameters pass through. `length` is the vector length, left
      uninterpreted. */
  function GetColliderDesc(data: ColliderData, bounds: Bounds, length: Vec3 -> real): (r: Result<ColliderDesc>)
    ensures !data.wrap && length(data.size) == 0.0 ==> r == Err(ZeroSize)
    ensures (data.wrap || length(data.size) != 0.0) && data.shape !in ShapeNames ==> r == Err(UnknownShape(data.shape))
    ensures (data.wrap || length(data.size) != 0.0) && data.shape in ShapeNames && data.restitutionCombineRule !in CombineRuleNames ==>
      r == Err(UnknownCombineRule(data.restitutionCombineRule))
    ensures r.Ok? <==>
      (data.wrap || length(data.size) != 0.0) && data.shape in ShapeNames && data.restitutionCombineRule in CombineRuleNames
    ensures r.Ok? ==>
      var size := if data.wrap then bounds.size else data.size;
      && (data.shape == "box" ==> r.value.shape == Cuboid(size.x / 2.0, size.y / 2.0, size.z / 2.0))
      && (data.shape == "ball" ==> r.value.shape == Ball(length(size) / 2.0))
      && r.value.translation == (if data.wrap then bounds.center else data.translation)
      && r.value.density == data.density && r.value.friction == data.friction
      && r.value.restitution == data.restitution && r.value.sensor == data.sensor
      && CombineRuleName(r.value.restitutionCombineRule) == data.restitutionCombineRule
  {
    if !data.wrap && length(data.size) == 0.0 then Err(ZeroSize)
    else
      var size := if data.wrap then bounds.size else data.size;
      var translation := if data.wrap then bounds.center else data.translation;
      var shape :=
        if data.shape == "box" then Ok(Cuboid(size.x / 2.0, size.y / 2.0, size.z / 2.0))
        else if data.shape == "ball" then Ok(Ball(length(size) / 2.0))
        else Err(UnknownShape(data.shape));
      match shape
      case Err(e) => Err(e)
      case Ok(s) =>
        match GetRestitutionCombineRule(data.restitutionCombineRule)
        case Err(e) => Err(e)
        case Ok(rule) => Ok(ColliderDesc(s, translation, data.density, data.friction, data.restitution, rule, data.sensor))
  }

  /** A built collider: its engine handle and the description it was made from. */
  datatype Built = Built(handle: ColliderHandle, desc: ColliderDesc)

  /** One "collider" component on an entity. */
  class ColliderComponent {
    const el: Entity
    const data: ColliderData
    /** The entity's body, once `init` found it. */
    var body: Body?
    /** The built collider, once built. */
    var collider: Option<Built>
    /** Whether a "model-loaded" listener is waiting to build the collider. */
    var awaitingModel: bool

    constructor (el: Entity, data: ColliderData)
      ensures this.el == el && this.data == data
      ensures body == null && collider == None && !awaitingModel
    {
      this.el := el;
      this.data := data;
      body := null;
      collider := None;
      awaitingModel := false;
    }

    /** `buildCollider`: the description from the current mesh bounds, then a
        fresh engine collider bound to the body. */
    method Build(rapier: Rapier, bounds: Bounds, length: Vec3 -> real) returns (r: Outcome)
      requires rapier.Valid() && body != null
      modifies rapier.world`colliders, rapier.world`nextCollider, rapier`colliderMap, this`collider
      ensures rapier.Valid()
      ensures var desc := GetColliderDesc(data, bounds, length);
        && (r.Done? <==> desc.Ok?)
        && (desc.Err? ==> && r == Failed(desc.error) && collider == old(collider)
                          && rapier.colliderMap == old(rapier.colliderMap)
                          && rapier.world.colliders == old(rapier.world.colliders))
        && (desc.Ok? ==> && collider == Some(Built(old(rapier.world.nextCollider), desc.value))
                         && rapier.colliderMap == old(rapier.colliderMap)[collider.value.handle := body.handle]
                         && rapier.world.colliders == old(rapier.world.colliders)[collider.value.handle := ColliderRecord(desc.value, body.handle)])
    {
      var desc := GetColliderDesc(data, bounds, length);
      if desc.Err? {
        return Failed(desc.error);
      }
      var c := rapier.GenerateCollider(desc.value, body);
      collider := Some(Built(c, desc.value));
      r := Done;
    }

    /** `init`: the entity must have a body; the collider is built now when
        wrap is off or the mesh is already there, and otherwise once the
        model has loaded. */
    method Init(rapier: Rapier, meshLoaded: bool, bounds: Bounds, length: Vec3 -> real) returns (r: Outcome)
      requires rapier.Valid()
      modifies rapier.world`colliders, rapier.world`nextCollider, rapier`colliderMap, this`collider, this`body, this`awaitingModel
      ensures rapier.Valid()
      // No body on the entity, or a body whose initialisation threw: the
      // error propagates and nothing is built.
      ensures el.bodySlot.NoBody? ==> && r == Failed(MissingBody)
                                      && collider == old(collider) && awaitingModel == old(awaitingModel)
                                      && rapier.colliderMap == old(rapier.colliderMap)
                                      && rapier.world.colliders == old(rapier.world.colliders)
      ensures el.bodySlot.Rejected? ==> && r == Failed(el.bodySlot.error)
                                        && collider == old(collider) && awaitingModel == old(awaitingModel)
                                        && rapier.colliderMap == old(rapier.colliderMap)
                                        && rapier.world.colliders == old(rapier.world.colliders)
      ensures el.bodySlot.Resolved? ==> body == el.bodySlot.body
      // Wrap off or the mesh already there: the collider is built now.
      ensures el.bodySlot.Resolved? && (!data.wrap || meshLoaded) ==>
        var desc := GetColliderDesc(data, bounds, length);
        && awaitingModel == old(awaitingModel)
        && (r.Done? <==> desc.Ok?)
        && (desc.Err? ==> && r == Failed(desc.error) && collider == old(collider)
                          && rapier.colliderMap == old(rapier.colliderMap)
                          && rapier.world.colliders == old(rapier.world.colliders))
        && (desc.Ok? ==> && collider == Some(Built(old(rapier.world.nextCollider), desc.value))
                         && rapier.colliderMap == old(rapier.colliderMap)[collider.value.handle := body.handle]
                         && rapier.world.colliders == old(rapier.world.colliders)[collider.value.handle := ColliderRecord(desc.value, body.handle)])
      // Otherwise building waits for the model.
      ensures el.bodySlot.Resolved? && data.wrap && !meshLoaded ==>
        && r == Done && awaitingModel && collider == old(collider)
        && rapier.colliderMap == old(rapier.colliderMap)
        && rapier.world.colliders == old(rapier.world.colliders)
    {
      match el.bodySlot
      case NoBody =>
        return Failed(MissingBody);
      case Rejected(e) =>
        return Failed(e);
      case Resolved(b) =>
        body := b;
        if !data.wrap || meshLoaded {
          r := Build(rapier, bounds, length);
        } else {
          awaitingModel := true;
          r := Done;
        }
    }

    /** The "model-loaded" listener registered by `init`: builds the collider
        from the loaded mesh's bounds. */
    method OnModelLoaded(rapier: Rapier, bounds: Bounds, length: Vec3 -> real) returns (r: Outcome)
      requires rapier.Valid() && awaitingModel && body != null
      modifies rapier.world`colliders, rapier.world`nextCollider, rapier`colliderMap, this`collider
      ensures rapier.Valid()
      ensures var desc := GetColliderDesc(data, bounds, length);
        && (r.Done? <==> desc.Ok?)
        && (desc.Err? ==> && r == Failed(desc.error) && collider == old(collider)
                          && rapier.colliderMap == old(rapier.colliderMap)
                          && rapier.world.colliders == old(rapier.world.colliders))
        && (desc.Ok? ==> && collider == Some(Built(old(rapier.world.nextCollider), desc.value))
                         && rapier.colliderMap == old(rapier.colliderMap)[collider.value.handle := body.handle]
                         && rapier.world.colliders == old(rapier.world.colliders)[collider.value.handle := ColliderRecord(desc.value, body.handle)])
    {
      r := Build(rapier, bounds, length);
    }
  }
}
