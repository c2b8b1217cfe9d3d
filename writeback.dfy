/** The writeback phase of the stepper's tick (src/systems/rapier-system.ts,
    the loop over `entities` in `step`) as a function on values: for each
    registered entity that has a body, branch on the body's kind, possibly
    push an override pose into the engine, and, when the body follows, copy
    the resulting pose onto the entity's scene transform. Generic in the
    entity type. */
module Writeback {
  import opened Common
  import opened Engine
  import opened BodyKinds

  /** The fields of a `Body` the writeback reads. */
  datatype BodyView = BodyView(
    bodyType: string,
    follow: bool,
    handle: BodyHandle,
    nextPosition: Option<Vec3>,
    nextRotation: Option<Vec4>)

  /** One registered entity that has a "body" component, in iteration order:
      either its body, or the error its initialisation threw, which awaiting
      the component throws again. */
  datatype SyncItem<E> =
    | Attached(entity: E, body: BodyView)
    | Broken(entity: E, error: Error)

  /** What the writeback reads and writes: the engine's body poses and the
      entities' scene positions and rotations. */
  datatype SyncState<E(==)> = SyncState(
    bodies: map<BodyHandle, Pose>,
    positions: map<E, Vec3>,
    rotations: map<E, Vec4>)

  /** The scene write of one entity: only when the body follows, and only
      the parts that are defined. */
  function Follow<E(==)>(st: SyncState<E>, e: E, follow: bool, position: Option<Vec3>, rotation: Option<Vec4>): SyncState<E>
  {
    if !follow then st
    else
      st.(positions := if position.Some? then st.positions[e := position.value] else st.positions,
          rotations := if rotation.Some? then st.rotations[e := rotation.value] else st.rotations)
  }

  /** A position-based body pushes each defined override into the engine,
      position first. */
  function PushOverrides(bodies: map<BodyHandle, Pose>, b: BodyView): (r: Result<map<BodyHandle, Pose>>)
    ensures r.Ok? <==> b.handle in bodies || (b.nextPosition.None? && b.nextRotation.None?)
    ensures r.Err? ==> r.error == StaleBody(b.handle)
    ensures r.Ok? ==> r.value.Keys == bodies.Keys
    ensures r.Ok? ==> forall h :: h in bodies && h != b.handle ==> r.value[h] == bodies[h]
    ensures r.Ok? && b.handle in bodies ==>
      r.value[b.handle] == Pose(if b.nextPosition.Some? then b.nextPosition.value else bodies[b.handle].position,
                                if b.nextRotation.Some? then b.nextRotation.value else bodies[b.handle].rotation)
    ensures r.Ok? && b.handle !in bodies ==> r.value == bodies
  {
    var afterPosition := if b.nextPosition.Some? then SetTranslation(bodies, b.handle, b.nextPosition.value) else Ok(bodies);
    match afterPosition
    case Err(e) => Err(e)
    case Ok(bs) => if b.nextRotation.Some? then SetRotation(bs, b.handle, b.nextRotation.value) else Ok(bs)
  }

  /** The writeback of one entity. */
  function SyncEntity<E(==)>(st: SyncState<E>, item: SyncItem<E>): (r: Result<SyncState<E>>)
    // A body whose initialisation threw makes the writeback throw the same error.
    ensures item.Broken? ==> r == Err(item.error)
    // A static body is skipped entirely.
    ensures item.Attached? && IsStaticKind(item.body.bodyType) ==> r == Ok(st)
    // A dynamic body takes the solver's pose; the engine is not written.
    ensures item.Attached? && IsDynamicKind(item.body.bodyType) ==>
      && (r.Ok? <==> item.body.handle in st.bodies)
      && (r.Ok? ==> r.value.bodies == st.bodies)
      && (r.Ok? && item.body.follow ==>
            && r.value.positions == st.positions[item.entity := st.bodies[item.body.handle].position]
            && r.value.rotations == st.rotations[item.entity := st.bodies[item.body.handle].rotation])
    // A position-based body pushes its overrides into the engine, each only when defined.
    ensures item.Attached? && IsPositionKind(item.body.bodyType) ==>
      && (r.Ok? <==> item.body.handle in st.bodies || (item.body.nextPosition.None? && item.body.nextRotation.None?))
      && (r.Ok? ==> r.value.bodies.Keys == st.bodies.Keys)
      && (r.Ok? ==> forall h :: h in st.bodies && h != item.body.handle ==> r.value.bodies[h] == st.bodies[h])
      && (r.Ok? && item.body.handle in st.bodies ==>
            var before := st.bodies[item.body.handle];
            r.value.bodies[item.body.handle] ==
              Pose(if item.body.nextPosition.Some? then item.body.nextPosition.value else before.position,
                   if item.body.nextRotation.Some? then item.body.nextRotation.value else before.rotation))
      && (r.Ok? && item.body.follow ==>
            && r.value.positions == (if item.body.nextPosition.Some? then st.positions[item.entity := item.body.nextPosition.value] else st.positions)
            && r.value.rotations == (if item.body.nextRotation.Some? then st.rotations[item.entity := item.body.nextRotation.value] else st.rotations))
    // Any other kind, "velocity" included, raises.
    ensures item.Attached? && !IsSteppableKind(item.body.bodyType) ==> r == Err(UnknownBodyType(item.body.bodyType))
    // The scene is written only for a following body.
    ensures r.Ok? && item.Attached? && !item.body.follow ==> r.value.positions == st.positions && r.value.rotations == st.rotations
    // A failure is a broken body, an unknown kind or an engine call on a body the world does not hold.
    ensures r.Err? && item.Attached? ==> r.error == UnknownBodyType(item.body.bodyType) || r.error == StaleBody(item.body.handle)
  {
    match item
    case Broken(_, e) => Err(e)
    case Attached(entity, b) =>
      if IsStaticKind(b.bodyType) then Ok(st)
      else if IsDynamicKind(b.bodyType) then
        match PoseOf(st.bodies, b.handle)
        case Err(e) => Err(e)
        case Ok(p) => Ok(Follow(st, entity, b.follow, Some(p.position), Some(p.rotation)))
      else if IsPositionKind(b.bodyType) then
        match PushOverrides(st.bodies, b)
        case Err(e) => Err(e)
        case Ok(bs) => Ok(Follow(st.(bodies := bs), entity, b.follow, b.nextPosition, b.nextRotation))
      else Err(UnknownBodyType(b.bodyType))
  }

  /** Where the writeback loop ends: the state reached and, if it threw, the
      error. */
  datatype SyncOutcome<E(==)> = SyncOutcome(state: SyncState<E>, error: Option<Error>)

  /** The writeback loop: items in order, stopping at the first that throws;
      the writes made before it stay. */
  function SyncAll<E(==)>(st: SyncState<E>, items: seq<SyncItem<E>>): (r: SyncOutcome<E>)
    // The writeback never adds or removes an engine body.
    ensures r.state.bodies.Keys == st.bodies.Keys
    // A loop that completes met only bodies of a kind it knows.
    ensures r.error.None? ==> forall k :: 0 <= k < |items| ==> items[k].Attached? && IsSteppableKind(items[k].body.bodyType)
    decreases |items|
  {
    if items == [] then SyncOutcome(st, None)
    else
      match SyncEntity(st, items[0])
      case Err(e) => SyncOutcome(st, Some(e))
      case Ok(st') => SyncAll(st', items[1..])
  }

  /** If every body is static the writeback changes nothing. */
  lemma {:induction false} AllStaticChangesNothing<E>(st: SyncState<E>, items: seq<SyncItem<E>>)
    requires forall k :: 0 <= k < |items| ==> items[k].Attached? && IsStaticKind(items[k].body.bodyType)
    ensures SyncAll(st, items) == SyncOutcome(st, None)
    decreases |items|
  {
    if items != [] {
      AllStaticChangesNothing(st, items[1..]);
    }
  }

  /** If no body follows, the scene is never written, whatever happens in
      the engine. */
  lemma {:induction false} NoFollowNoSceneWrite<E>(st: SyncState<E>, items: seq<SyncItem<E>>)
    requires forall k :: 0 <= k < |items| && items[k].Attached? ==> !items[k].body.follow
    ensures SyncAll(st, items).state.positions == st.positions
    ensures SyncAll(st, items).state.rotations == st.rotations
    decreases |items|
  {
    if items != [] {
      match SyncEntity(st, items[0])
      case Err(_) =>
      case Ok(st') => NoFollowNoSceneWrite(st', items[1..]);
    }
  }

  /** An entity that has no item keeps its scene transform. */
  lemma {:induction false} UnlistedEntityUntouched<E>(st: SyncState<E>, items: seq<SyncItem<E>>, x: E)
    requires forall k :: 0 <= k < |items| ==> items[k].entity != x
    ensures var out := SyncAll(st, items).state;
      && (x in out.positions <==> x in st.positions)
      && (x in st.positions ==> out.positions[x] == st.positions[x])
      && (x in out.rotations <==> x in st.rotations)
      && (x in st.rotations ==> out.rotations[x] == st.rotations[x])
    decreases |items|
  {
    if items != [] {
      match SyncEntity(st, items[0])
      case Err(_) =>
      case Ok(st') => UnlistedEntityUntouched(st', items[1..], x);
    }
  }

  /** A body of a kind the writeback does not know, "velocity" included, or a
      body whose initialisation threw, makes the tick throw: if no earlier
      body failed, with its own error. */
  lemma {:induction false} UnknownKindThrows<E>(st: SyncState<E>, items: seq<SyncItem<E>>, k: nat)
    requires k < |items| && (items[k].Broken? || !IsSteppableKind(items[k].body.bodyType))
    ensures SyncAll(st, items).error.Some?
    decreases |items|
  {
    match SyncEntity(st, items[0])
    case Err(_) =>
    case Ok(st') =>
      assert k != 0;
      UnknownKindThrows(st', items[1..], k - 1);
  }

  /** "velocity" is accepted when a body is built, yet the first tick that
      reaches such a body throws, whatever follows it. */
  lemma {:induction false} VelocityAcceptedButNotStepped<E>(st: SyncState<E>, e: E, b: BodyView, rest: seq<SyncItem<E>>)
    requires b.bodyType == "velocity"
    ensures GetBodyType(b.bodyType) == Ok(KinematicVelocityBased)
    ensures SyncAll(st, [Attached(e, b)] + rest) == SyncOutcome(st, Some(UnknownBodyType("velocity")))
  {
    assert !IsSteppableKind(b.bodyType);
  }
}
