/** The physics system (src/systems/rapier-system.ts) together with the "body"
    component's object (src/components/body.ts): the two import each other, so
    they share this module. The stepper owns the engine world, the correlation
    tables, the pause bit and the single snapshot slot; each tick it
    auto-snapshots, steps the engine, routes intersection events to the
    entities involved and writes poses back between the engine and the
    scene. */
module RapierSystem {
  import opened Common
  import opened Engine
  import opened BodyKinds
  import opened Correlation
  import opened Writeback

  /** What awaiting an entity's "body" component yields: nothing when the
      entity has no such component, the error its initialisation threw, or
      the body. */
  datatype BodySlot = NoBody | Rejected(error: Error) | Resolved(body: Body)

  /** A scene entity as the core touches it: its transform and its "body"
      component. */
  class Entity {
    var position: Vec3
    var rotation: Vec4
    var bodySlot: BodySlot

    constructor (position: Vec3, rotation: Vec4)
      ensures this.position == position && this.rotation == rotation
      ensures bodySlot == NoBody
    {
      this.position := position;
      this.rotation := rotation;
      bodySlot := NoBody;
    }
  }

  /** The "body" component's object. */
  class Body {
    const el: Entity
    const entityId: EntityId
    var bodyType: string
    var follow: bool
    const handle: BodyHandle
    const desc: RigidBodyDesc
    var nextPosition: Option<Vec3>
    var nextRotation: Option<Vec4>

    constructor (el: Entity, entityId: EntityId, bodyType: string, follow: bool, handle: BodyHandle, desc: RigidBodyDesc)
      ensures this.el == el && this.entityId == entityId && this.bodyType == bodyType && this.follow == follow
      ensures this.handle == handle && this.desc == desc
      ensures nextPosition == None && nextRotation == None
    {
      this.el := el;
      this.entityId := entityId;
      this.bodyType := bodyType;
      this.follow := follow;
      this.handle := handle;
      this.desc := desc;
      nextPosition := None;
      nextRotation := None;
    }

    /** The fields the stepper's writeback reads. */
    function View(): BodyView
      reads this
    {
      BodyView(bodyType, follow, handle, nextPosition, nextRotation)
    }

    /** `isStatic`, `isDynamic`, `isPositionBased`: each holds exactly when
        the kind string names that engine kind. */
    predicate IsStatic(): (r: bool)
      reads this
      ensures r <==> GetBodyType(bodyType) == Ok(Static)
    {
      IsStaticKind(bodyType)
    }

    predicate IsDynamic(): (r: bool)
      reads this
      ensures r <==> GetBodyType(bodyType) == Ok(Dynamic)
    {
      IsDynamicKind(bodyType)
    }

    predicate IsPositionBased(): (r: bool)
      reads this
      ensures r <==> GetBodyType(bodyType) == Ok(KinematicPositionBased)
    {
      IsPositionKind(bodyType)
    }

    /** `setNextPosition`: only the pending position changes. */
    method SetNextPosition(p: Vec3)
      modifies this`nextPosition
      ensures nextPosition == Some(p)
    {
      nextPosition := Some(p);
    }

    /** `setNextRotation`: only the pending rotation changes. */
    method SetNextRotation(q: Vec4)
      modifies this`nextRotation
      ensures nextRotation == Some(q)
    {
      nextRotation := Some(q);
    }

    /** `setType`: only the kind changes; the engine body keeps the kind it
        was built with. */
    method SetType(t: string)
      modifies this`bodyType
      ensures bodyType == t
    {
      bodyType := t;
    }

    /** `update`: the kind follows the new configuration only when the
        configured kind changed; nothing else is touched. */
    method Update(data: BodyData, oldData: BodyData)
      modifies this`bodyType
      ensures bodyType == if data.bodyType != oldData.bodyType then data.bodyType else old(bodyType)
    {
      if data.bodyType != oldData.bodyType {
        SetType(data.bodyType);
      }
    }

    /** `remove`: exactly this body's own entity id is unregistered. */
    method Remove(rapier: Rapier)
      requires rapier.Valid()
      modifies rapier`entities
      ensures rapier.Valid()
      ensures rapier.entities == old(rapier.entities) - {entityId}
      ensures rapier.Maps() == Unregister(old(rapier.Maps()), entityId)
    {
      rapier.UnregisterEntity(entityId);
    }

    /** `Body.initialize`, run as the component's initialiser: the entity is
        registered first, whatever happens next; the description is built
        from the configuration and the entity's `spawn` pose; the engine
        body is bound to the id just registered, and the new `Body` keeps
        that id. The component slot records the outcome. */
    static method Initialize(el: Entity, data: BodyData, rapier: Rapier, spawn: Pose) returns (r: Result<Body>)
      requires rapier.Valid()
      modifies rapier`nextEntityId, rapier`entities, rapier`bodyMap, rapier.world`bodies, rapier.world`nextBody, el`bodySlot
      ensures rapier.Valid()
      ensures rapier.nextEntityId == old(rapier.nextEntityId) + 1
      ensures rapier.entities == old(rapier.entities)[old(rapier.nextEntityId) := el]
      ensures r.Ok? <==> data.bodyType in BodyTypeNames
      ensures r.Err? ==> && r.error == UnknownBodyType(data.bodyType)
                         && el.bodySlot == Rejected(r.error)
                         && rapier.bodyMap == old(rapier.bodyMap)
                         && rapier.world.bodies == old(rapier.world.bodies)
                         && rapier.world.nextBody == old(rapier.world.nextBody)
      ensures r.Ok? ==> var b := r.value;
        && fresh(b) && el.bodySlot == Resolved(b)
        && b.el == el && b.entityId == old(rapier.nextEntityId)
        && b.bodyType == data.bodyType && b.follow == data.follow
        && b.nextPosition == None && b.nextRotation == None
        && b.desc == GetBodyDesc(data, spawn).value
        && b.handle == old(rapier.world.nextBody) && b.handle !in old(rapier.bodyMap)
        && rapier.bodyMap == old(rapier.bodyMap)[b.handle := b.entityId]
        && rapier.world.bodies == old(rapier.world.bodies)[b.handle := spawn]
    {
      var entityId := rapier.RegisterEntity(el);
      var desc := GetBodyDesc(data, spawn);
      if desc.Err? {
        el.bodySlot := Rejected(desc.error);
        return Err(desc.error);
      }
      var h := rapier.GenerateRigidBody(desc.value, entityId);
      var b := new Body(el, entityId, data.bodyType, data.follow, h, desc.value);
      el.bodySlot := Resolved(b);
      r := Ok(b);
    }
  }

  /** The auto-snapshot rule: never when the interval is 0; otherwise when
      no snapshot was taken yet or strictly more than the interval has
      passed since the last one. */
  predicate SnapshotDue(autoSnap: real, last: Option<real>, now: real)
  {
    autoSnap != 0.0 && (last.None? || now - last.value > autoSnap)
  }

  /** The times at which a run of ticks takes auto-snapshots, starting from
      the last recorded snapshot time. */
  function SnapshotTimes(autoSnap: real, last: Option<real>, ticks: seq<real>): (r: seq<real>)
    ensures |r| <= |ticks|
    ensures forall i :: 0 <= i < |r| ==> r[i] in ticks
    ensures autoSnap == 0.0 ==> r == []
    decreases |ticks|
  {
    if ticks == [] then []
    else if SnapshotDue(autoSnap, last, ticks[0]) then [ticks[0]] + SnapshotTimes(autoSnap, Some(ticks[0]), ticks[1..])
    else SnapshotTimes(autoSnap, last, ticks[1..])
  }

  /** The snapshot time recorded after a run that took the snapshots `taken`. */
  function LastTime(last: Option<real>, taken: seq<real>): (r: Option<real>)
    ensures taken == [] ==> r == last
    ensures taken != [] ==> r == Some(taken[|taken| - 1])
  {
    if taken == [] then last else Some(taken[|taken| - 1])
  }

  /** Auto-snapshots are spaced by strictly more than the interval: each one
      is more than `autoSnap` after the previous one. */
  lemma {:induction false} SnapshotsSpaced(autoSnap: real, last: Option<real>, ticks: seq<real>)
    ensures var r := SnapshotTimes(autoSnap, last, ticks);
      && (last.Some? && r != [] ==> r[0] - last.value > autoSnap)
      && (forall i :: 0 < i < |r| ==> r[i] - r[i - 1] > autoSnap)
    decreases |ticks|
  {
    if ticks != [] {
      if SnapshotDue(autoSnap, last, ticks[0]) {
        SnapshotsSpaced(autoSnap, Some(ticks[0]), ticks[1..]);
        var rest := SnapshotTimes(autoSnap, Some(ticks[0]), ticks[1..]);
        var r := [ticks[0]] + rest;
        forall i | 0 < i < |r| ensures r[i] - r[i - 1] > autoSnap {
          if i > 1 {
            assert r[i] == rest[i - 1] && r[i - 1] == rest[i - 2];
          }
        }
      } else {
        SnapshotsSpaced(autoSnap, last, ticks[1..]);
      }
    }
  }

  /** The stepper. Entity ids come from a counter that only grows, so ids
      are handed out once and `entities` iterates in ascending id order. */
  class Rapier {
    const world: World
    var nextEntityId: nat
    var entities: map<EntityId, Entity>
    var bodyMap: map<BodyHandle, EntityId>
    var colliderMap: map<ColliderHandle, BodyHandle>
    var paused: bool
    const autoSnap: real
    var snapshot: Option<Snapshot>
    var snapshotTimestamp: Option<real>
    /** The collision events dispatched so far, in dispatch order. */
    var dispatched: seq<Delivery<Entity>>

    ghost predicate Valid()
      reads this, world
    {
      && world.Valid()
      && (forall id :: id in entities ==> id < nextEntityId)
      && (forall h :: h in bodyMap ==> h < world.nextBody)
      && (forall c :: c in colliderMap ==> c < world.nextCollider)
    }

    /** The three correlation tables as one value. */
    function Maps(): Tables<Entity>
      reads this`entities, this`bodyMap, this`colliderMap
    {
      Tables(entities, bodyMap, colliderMap)
    }

    /** The bodies of the registered entities. */
    function AttachedBodies(): set<Body>
      reads this`entities, entities.Values`bodySlot
    {
      set e | e in entities.Values && e.bodySlot.Resolved? :: e.bodySlot.body
    }

    /** What the writeback loop visits from entity id `from` on: every
        registered entity that has a "body" component, in ascending id order. */
    function PendingSync(from: nat): seq<SyncItem<Entity>>
      reads this`nextEntityId, this`entities, entities.Values`bodySlot, AttachedBodies()
      decreases nextEntityId - from
    {
      if from >= nextEntityId then []
      else if from in entities then
        var e := entities[from];
        match e.bodySlot
        case NoBody => PendingSync(from + 1)
        case Rejected(err) => [Broken(e, err)] + PendingSync(from + 1)
        case Resolved(b) => [Attached(e, b.View())] + PendingSync(from + 1)
      else PendingSync(from + 1)
    }

    /** What the writeback reads and writes: the engine's poses and the
        registered entities' transforms. */
    function SceneState(): SyncState<Entity>
      reads this`entities, world`bodies, entities.Values`position, entities.Values`rotation
    {
      SyncState(world.bodies, Positions(), Rotations())
    }

    /** The registered entities' scene positions. */
    function Positions(): map<Entity, Vec3>
      reads this`entities, entities.Values`position
    {
      map e | e in entities.Values :: e.position
    }

    /** The registered entities' scene rotations. */
    function Rotations(): map<Entity, Vec4>
      reads this`entities, entities.Values`rotation
    {
      map e | e in entities.Values :: e.rotation
    }

    constructor (world: World, paused: bool, autoSnap: real)
      requires world.Valid()
      ensures Valid()
      ensures this.world == world && this.paused == paused && this.autoSnap == autoSnap
      ensures nextEntityId == 0 && entities == map[] && bodyMap == map[] && colliderMap == map[]
      ensures snapshot == None && snapshotTimestamp == None && dispatched == []
    {
      this.world := world;
      this.paused := paused;
      this.autoSnap := autoSnap;
      nextEntityId := 0;
      entities := map[];
      bodyMap := map[];
      colliderMap := map[];
      snapshot := None;
      snapshotTimestamp := None;
      dispatched := [];
    }

    /** `registerEntity`: the counter's value is the new id, which no
        registered entity had. */
    method RegisterEntity(entity: Entity) returns (id: EntityId)
      requires Valid()
      modifies this`nextEntityId, this`entities
      ensures Valid()
      ensures id == old(nextEntityId) && nextEntityId == id + 1
      ensures id !in old(entities)
      ensures Maps() == Register(old(Maps()), id, entity)
    {
      id := nextEntityId;
      nextEntityId := nextEntityId + 1;
      entities := entities[id := entity];
    }

    /** `unregisterEntity`. */
    method UnregisterEntity(id: EntityId)
      requires Valid()
      modifies this`entities
      ensures Valid()
      ensures entities == old(entities) - {id}
      ensures Maps() == Unregister(old(Maps()), id)
    {
      entities := entities - {id};
    }

    /** `generateRigidBody`: a fresh engine body bound to `entityId`. */
    method GenerateRigidBody(desc: RigidBodyDesc, entityId: EntityId) returns (h: BodyHandle)
      requires Valid()
      modifies world`bodies, world`nextBody, this`bodyMap
      ensures Valid()
      ensures h == old(world.nextBody) && h !in old(bodyMap) && h !in old(world.bodies)
      ensures world.bodies == old(world.bodies)[h := Pose(desc.translation, desc.rotation)]
      ensures Maps() == BindBody(old(Maps()), h, entityId)
    {
      h := world.CreateRigidBody(desc);
      bodyMap := bodyMap[h := entityId];
    }

    /** `generateCollider`: a fresh engine collider on the body, bound to
        the body's handle. */
    method GenerateCollider(desc: ColliderDesc, body: Body) returns (c: ColliderHandle)
      requires Valid()
      modifies world`colliders, world`nextCollider, this`colliderMap
      ensures Valid()
      ensures c == old(world.nextCollider) && c !in old(colliderMap) && c !in old(world.colliders)
      ensures world.colliders == old(world.colliders)[c := ColliderRecord(desc, body.handle)]
      ensures Maps() == BindCollider(old(Maps()), c, body.handle)
    {
      c := world.CreateCollider(desc, body.handle);
      colliderMap := colliderMap[c := body.handle];
    }

    /** `autoSnapshot`: takes a snapshot and records its time exactly when one
        is due. */
    method AutoSnapshot(timestamp: real)
      modifies this`snapshot, this`snapshotTimestamp
      ensures SnapshotDue(autoSnap, old(snapshotTimestamp), timestamp) ==>
        snapshot == Some(world.TakeSnapshot()) && snapshotTimestamp == Some(timestamp)
      ensures !SnapshotDue(autoSnap, old(snapshotTimestamp), timestamp) ==>
        snapshot == old(snapshot) && snapshotTimestamp == old(snapshotTimestamp)
    {
      if autoSnap != 0.0 {
        if snapshotTimestamp.None? || timestamp - snapshotTimestamp.value > autoSnap {
          snapshot := Some(world.TakeSnapshot());
          snapshotTimestamp := Some(timestamp);
        }
      }
    }

    /** `getEntityById`. */
    method GetEntityById(id: EntityId) returns (r: Option<Entity>)
      ensures r.Some? <==> id in entities
      ensures r.Some? ==> r.value == entities[id]
    {
      if id in entities {
        r := Some(entities[id]);
      } else {
        r := None;
      }
    }

    /** `getEntityByCollider`: the two-hop lookup, absent at the first
        missing hop. */
    method GetEntityByCollider(c: ColliderHandle) returns (r: Option<Entity>)
      ensures r == Resolve(Maps(), c)
      ensures r.Some? ==> r.value in entities.Values
    {
      if c !in colliderMap {
        return None;
      }
      var h := colliderMap[c];
      if h !in bodyMap {
        return None;
      }
      r := GetEntityById(bodyMap[h]);
    }

    method Pause()
      modifies this`paused
      ensures paused
    {
      paused := true;
    }

    method Play()
      modifies this`paused
      ensures !paused
    {
      paused := false;
    }

    method TogglePaused()
      modifies this`paused
      ensures paused == !old(paused)
    {
      paused := !paused;
    }

    /** `captureSnapshot`: overwrites the single slot; the auto-snapshot time
        is not touched. */
    method CaptureSnapshot()
      modifies this`snapshot
      ensures snapshot == Some(world.TakeSnapshot())
    {
      snapshot := Some(world.TakeSnapshot());
    }

    /** `saveSnapshot`: hands the stored snapshot to the writer, or throws
        when none was ever taken. */
    method SaveSnapshot() returns (r: Result<Snapshot>)
      ensures r.Ok? <==> snapshot.Some?
      ensures r.Ok? ==> r.value == snapshot.value
      ensures r.Err? ==> r.error == NoSnapshot
    {
      if snapshot.None? {
        return Err(NoSnapshot);
      }
      r := Ok(snapshot.value);
    }

    /** The drain callback of `step` for one event: when both colliders
        resolve, each entity is sent the event naming the other. */
    method Dispatch(ev: IntersectionEvent)
      modifies this`dispatched
      ensures dispatched == old(dispatched) + Route(Maps(), ev)
    {
      var e1 := GetEntityByCollider(ev.collider1);
      var e2 := GetEntityByCollider(ev.collider2);
      if e1.Some? && e2.Some? {
        var name := if ev.intersecting then Collide else Separate;
        dispatched := dispatched + [Delivery(e1.value, CollisionEvent(name, e2.value, ev.collider1, ev.collider2))];
        dispatched := dispatched + [Delivery(e2.value, CollisionEvent(name, e1.value, ev.collider2, ev.collider1))];
      }
    }

    /** The event drain of `step`, over the drained events in order. */
    method DrainEvents(events: seq<IntersectionEvent>)
      modifies this`dispatched
      ensures dispatched == old(dispatched) + Deliveries(Maps(), events)
    {
      var k := 0;
      while k < |events|
        invariant k <= |events|
        invariant dispatched == old(dispatched) + Deliveries(Maps(), events[..k])
      {
        Dispatch(events[k]);
        assert events[..k + 1][..k] == events[..k];
        k := k + 1;
      }
      assert events[..k] == events;
    }

    /** The scene write of a following body: the defined parts of the pose
        become the entity's transform. */
    method WriteTransform(e: Entity, position: Option<Vec3>, rotation: Option<Vec4>)
      requires e in entities.Values
      modifies e`position, e`rotation
      ensures SceneState() == Follow(old(SceneState()), e, true, position, rotation)
    {
      if position.Some? {
        e.position := position.value;
      }
      if rotation.Some? {
        e.rotation := rotation.value;
      }
      assert Positions() == if position.Some? then old(Positions())[e := position.value] else old(Positions());
      assert Rotations() == if rotation.Some? then old(Rotations())[e := rotation.value] else old(Rotations());
    }

    /** The writeback of a dynamic body: the entity takes the engine's pose. */
    method SyncDynamic(e: Entity, b: Body) returns (r: Outcome)
      requires Valid() && e in entities.Values && IsDynamicKind(b.bodyType)
      modifies e`position, e`rotation
      ensures var res := SyncEntity(old(SceneState()), Attached(e, b.View()));
        && (r.Done? <==> res.Ok?)
        && (res.Ok? ==> SceneState() == res.value)
        && (res.Err? ==> r == Failed(res.error) && SceneState() == old(SceneState()))
    {
      if b.handle !in world.bodies {
        return Failed(StaleBody(b.handle));
      }
      var p := world.bodies[b.handle];
      if b.follow {
        WriteTransform(e, Some(p.position), Some(p.rotation));
      }
      r := Done;
    }

    /** A position-based body's pending pose goes into the engine, position
        first, each part only when defined. */
    method PushPending(b: Body) returns (out: Outcome)
      requires world.Valid()
      modifies world`bodies
      ensures world.Valid()
      ensures var pushed := PushOverrides(old(world.bodies), b.View());
        && (out.Done? <==> pushed.Ok?)
        && world.bodies == (if pushed.Ok? then pushed.value else old(world.bodies))
        && (pushed.Err? ==> out == Failed(pushed.error))
    {
      out := Done;
      if b.nextPosition.Some? {
        out := world.SetBodyTranslation(b.handle, b.nextPosition.value);
      }
      if out.Done? && b.nextRotation.Some? {
        out := world.SetBodyRotation(b.handle, b.nextRotation.value);
      }
    }

    /** The writeback of a position-based body: the pending pose is pushed
        into the engine and, when the body follows, onto the entity. */
    method SyncPositionBased(e: Entity, b: Body) returns (r: Outcome)
      requires Valid() && e in entities.Values && IsPositionKind(b.bodyType)
      modifies world`bodies, e`position, e`rotation
      ensures Valid()
      ensures var res := SyncEntity(old(SceneState()), Attached(e, b.View()));
        && (r.Done? <==> res.Ok?)
        && (res.Ok? ==> SceneState() == res.value)
        && (res.Err? ==> r == Failed(res.error) && SceneState() == old(SceneState()))
    {
      var out := PushPending(b);
      if out.Failed? {
        return out;
      }
      if b.follow {
        WriteTransform(e, b.nextPosition, b.nextRotation);
      }
      r := Done;
    }

    /** One pass of the writeback over a registered entity with a body. */
    method SyncBody(e: Entity, b: Body) returns (r: Outcome)
      requires Valid() && e in entities.Values
      modifies world`bodies, e`position, e`rotation
      ensures Valid()
      ensures var res := SyncEntity(old(SceneState()), Attached(e, b.View()));
        && (r.Done? <==> res.Ok?)
        && (res.Ok? ==> SceneState() == res.value)
        && (res.Err? ==> r == Failed(res.error) && SceneState() == old(SceneState()))
    {
      if b.IsStatic() {
        r := Done;
      } else if b.IsDynamic() {
        r := SyncDynamic(e, b);
      } else if b.IsPositionBased() {
        r := SyncPositionBased(e, b);
      } else {
        r := Failed(UnknownBodyType(b.bodyType));
      }
    }

    /** The writeback loop of `step`: the registered entities in ascending id
        order, stopping at the first that throws. */
    method SyncBodies() returns (r: Outcome)
      requires Valid()
      modifies world`bodies, entities.Values`position, entities.Values`rotation
      ensures Valid()
      ensures var out := SyncAll(old(SceneState()), old(PendingSync(0)));
        && SceneState() == out.state
        && r == if out.error.Some? then Failed(out.error.value) else Done
    {
      var id := 0;
      ghost var st := SceneState();
      while id < nextEntityId
        invariant id <= nextEntityId
        invariant Valid()
        invariant SceneState() == st
        invariant SyncAll(st, PendingSync(id)) == SyncAll(old(SceneState()), old(PendingSync(0)))
        decreases nextEntityId - id
      {
        if id in entities {
          var e := entities[id];
          match e.bodySlot
          case NoBody =>
          case Rejected(err) =>
            assert PendingSync(id) == [Broken(e, err)] + PendingSync(id + 1);
            return Failed(err);
          case Resolved(b) =>
            ghost var item := Attached(e, b.View());
            ghost var rest := PendingSync(id + 1);
            assert PendingSync(id) == [item] + rest;
            assert ([item] + rest)[1..] == rest;
            ghost var attached := AttachedBodies();
            var o := SyncBody(e, b);
            assert AttachedBodies() == attached;
            assert PendingSync(id + 1) == rest;
            if o.Failed? {
              return o;
            }
            st := SyncEntity(st, item).value;
        }
        id := id + 1;
      }
      r := Done;
    }

    /** What `step` does once the engine has stepped: the event drain, then
        the writeback. */
    method DrainThenSync(events: seq<IntersectionEvent>) returns (r: Outcome)
      requires Valid()
      modifies world`bodies, this`dispatched
      modifies entities.Values`position, entities.Values`rotation
      ensures Valid()
      ensures dispatched == old(dispatched) + Deliveries(Maps(), events)
      ensures var out := SyncAll(old(SceneState()), old(PendingSync(0)));
        && SceneState() == out.state
        && r == if out.error.Some? then Failed(out.error.value) else Done
    {
      ghost var pending := PendingSync(0);
      ghost var attached := AttachedBodies();
      DrainEvents(events);
      assert AttachedBodies() == attached;
      assert PendingSync(0) == pending;
      assert Positions() == old(Positions()) && Rotations() == old(Rotations());
      r := SyncBodies();
    }

    /** The unpaused part of `step`: the engine step (a throw pauses the
        stepper and propagates), then the event drain, then the writeback. */
    method StepUnpaused(run: SolverRun) returns (r: Outcome)
      requires Valid()
      modifies this`paused, world`bodies, this`dispatched
      modifies entities.Values`position, entities.Values`rotation
      ensures Valid()
      // The engine threw: the bodies stay where the failed step left them, the
      // scene and the events are untouched, and the stepper pauses itself.
      ensures run.Crashed? ==> && r == Failed(SolverCrashed) && paused
                               && SceneState() == old(SceneState()).(bodies := Moved(old(world.bodies), run.moved))
                               && dispatched == old(dispatched)
      ensures run.Advanced? ==>
        && paused == old(paused)
        && dispatched == old(dispatched) + Deliveries(Maps(), run.events)
        && var out := SyncAll(old(SceneState()).(bodies := Moved(old(world.bodies), run.moved)), old(PendingSync(0)));
           && SceneState() == out.state
           && r == if out.error.Some? then Failed(out.error.value) else Done
    {
      ghost var pending := PendingSync(0);
      ghost var attached := AttachedBodies();
      var ok := world.Advance(run);
      assert AttachedBodies() == attached;
      assert PendingSync(0) == pending;
      assert Positions() == old(Positions()) && Rotations() == old(Rotations());
      if !ok {
        paused := true;
        return Failed(SolverCrashed);
      }
      r := DrainThenSync(run.events);
    }

    /** `step`: the auto-snapshot, then, unless paused, the rest of the tick. */
    method Step(timestamp: real, run: SolverRun) returns (r: Outcome)
      requires Valid()
      modifies this`snapshot, this`snapshotTimestamp, this`paused, world`bodies, this`dispatched
      modifies entities.Values`position, entities.Values`rotation
      ensures Valid()
      ensures SnapshotDue(autoSnap, old(snapshotTimestamp), timestamp) ==>
        snapshot == Some(old(world.TakeSnapshot())) && snapshotTimestamp == Some(timestamp)
      ensures !SnapshotDue(autoSnap, old(snapshotTimestamp), timestamp) ==>
        snapshot == old(snapshot) && snapshotTimestamp == old(snapshotTimestamp)
      // Paused: nothing but the auto-snapshot.
      ensures old(paused) ==> && r == Done && paused
                              && SceneState() == old(SceneState()) && dispatched == old(dispatched)
      // The engine threw: the stepper pauses itself and rethrows; the bodies
      // stay where the failed step left them.
      ensures !old(paused) && run.Crashed? ==>
        && r == Failed(SolverCrashed) && paused
        && SceneState() == old(SceneState()).(bodies := Moved(old(world.bodies), run.moved))
        && dispatched == old(dispatched)
      // The engine stepped: events are routed, then poses are written back.
      ensures !old(paused) && run.Advanced? ==>
        && !paused
        && dispatched == old(dispatched) + Deliveries(old(Maps()), run.events)
        && var out := SyncAll(old(SceneState()).(bodies := Moved(old(world.bodies), run.moved)), old(PendingSync(0)));
           && SceneState() == out.state
           && r == if out.error.Some? then Failed(out.error.value) else Done
    {
      ghost var pending := PendingSync(0);
      ghost var attached := AttachedBodies();
      AutoSnapshot(timestamp);
      assert AttachedBodies() == attached;
      assert PendingSync(0) == pending;
      if paused {
        return Done;
      }
      r := StepUnpaused(run);
    }
  }
}
