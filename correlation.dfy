/** The stepper's correlation tables (src/systems/rapier-system.ts): entity id
    to entity, body handle to entity id, collider handle to body handle; the
    two-hop lookup from a collider to its entity; and the routing of drained
    intersection events to the entities involved. Generic in the entity type:
    the tables only store and compare entities. */
module Correlation {
  import opened Common
  import opened Engine

  datatype Tables<E> = Tables(
    entities: map<EntityId, E>,
    bodyMap: map<BodyHandle, EntityId>,
    colliderMap: map<ColliderHandle, BodyHandle>)

  /** `registerEntity` with the counter's current value `id`. */
  function Register<E>(t: Tables<E>, id: EntityId, e: E): (r: Tables<E>)
    ensures r.entities.Keys == t.entities.Keys + {id} && r.entities[id] == e
    ensures forall k :: k in t.entities && k != id ==> r.entities[k] == t.entities[k]
    ensures r.bodyMap == t.bodyMap && r.colliderMap == t.colliderMap
  {
    t.(entities := t.entities[id := e])
  }

  /** `unregisterEntity`: deleting a missing key is a no-op. */
  function Unregister<E>(t: Tables<E>, id: EntityId): (r: Tables<E>)
    ensures r.entities.Keys == t.entities.Keys - {id}
    ensures forall k :: k in r.entities ==> r.entities[k] == t.entities[k]
    ensures r.bodyMap == t.bodyMap && r.colliderMap == t.colliderMap
  {
    t.(entities := t.entities - {id})
  }

  /** `generateRigidBody`'s table update. */
  function BindBody<E>(t: Tables<E>, h: BodyHandle, id: EntityId): (r: Tables<E>)
    ensures r.bodyMap.Keys == t.bodyMap.Keys + {h} && r.bodyMap[h] == id
    ensures forall k :: k in t.bodyMap && k != h ==> r.bodyMap[k] == t.bodyMap[k]
    ensures r.entities == t.entities && r.colliderMap == t.colliderMap
  {
    t.(bodyMap := t.bodyMap[h := id])
  }

  /** `generateCollider`'s table update. */
  function BindCollider<E>(t: Tables<E>, c: ColliderHandle, h: BodyHandle): (r: Tables<E>)
    ensures r.colliderMap.Keys == t.colliderMap.Keys + {c} && r.colliderMap[c] == h
    ensures forall k :: k in t.colliderMap && k != c ==> r.colliderMap[k] == t.colliderMap[k]
    ensures r.entities == t.entities && r.bodyMap == t.bodyMap
  {
    t.(colliderMap := t.colliderMap[c := h])
  }

  /** Unregistering is idempotent, and unregistering an unknown id changes nothing. */
  lemma UnregisterIdempotent<E>(t: Tables<E>, id: EntityId)
    ensures Unregister(Unregister(t, id), id) == Unregister(t, id)
    ensures id !in t.entities ==> Unregister(t, id) == t
  {
    if id !in t.entities {
      assert t.entities - {id} == t.entities;
    }
  }

  /** `getEntityByCollider`: the lookup collider -> body -> entity id ->
      entity, absent at the first missing hop. */
  function Resolve<E>(t: Tables<E>, c: ColliderHandle): (r: Option<E>)
    ensures r.Some? <==>
      c in t.colliderMap && t.colliderMap[c] in t.bodyMap && t.bodyMap[t.colliderMap[c]] in t.entities
    ensures r.Some? ==> r.value == t.entities[t.bodyMap[t.colliderMap[c]]]
  {
    if c !in t.colliderMap then None
    else
      var h := t.colliderMap[c];
      if h !in t.bodyMap then None
      else
        var id := t.bodyMap[h];
        if id !in t.entities then None else Some(t.entities[id])
  }

  /** The entity id a collider leads to, when the first two hops exist. */
  function OwnerId<E>(t: Tables<E>, c: ColliderHandle): Option<EntityId>
  {
    if c in t.colliderMap && t.colliderMap[c] in t.bodyMap then Some(t.bodyMap[t.colliderMap[c]]) else None
  }

  /** After unregistering an entity no collider resolves to it through its id
      any more (no stale entity), and every other collider resolves as before. */
  lemma ResolveAfterUnregister<E>(t: Tables<E>, id: EntityId, c: ColliderHandle)
    ensures OwnerId(t, c) == Some(id) ==> Resolve(Unregister(t, id), c) == None
    ensures OwnerId(t, c) != Some(id) ==> Resolve(Unregister(t, id), c) == Resolve(t, c)
  {
  }

  /** Registering an entity under a fresh id, binding a fresh body handle to
      it and a fresh collider handle to that body makes the collider resolve
      to the entity, and leaves every other collider's resolution unchanged. */
  lemma ResolveAfterBindings<E>(t: Tables<E>, id: EntityId, e: E, h: BodyHandle, c: ColliderHandle, other: ColliderHandle)
    requires id !in t.entities && h !in t.bodyMap && c !in t.colliderMap
    requires other != c
    requires forall k :: k in t.bodyMap ==> t.bodyMap[k] != id
    requires forall k :: k in t.colliderMap ==> t.colliderMap[k] != h
    ensures Resolve(BindCollider(BindBody(Register(t, id, e), h, id), c, h), c) == Some(e)
    ensures Resolve(BindCollider(BindBody(Register(t, id, e), h, id), c, h), other) == Resolve(t, other)
  {
    var t' := BindCollider(BindBody(Register(t, id, e), h, id), c, h);
    if other in t.colliderMap && t.colliderMap[other] in t.bodyMap {
      assert t.colliderMap[other] != h;
      assert t'.bodyMap[t'.colliderMap[other]] == t.bodyMap[t.colliderMap[other]] != id;
    }
  }

  datatype EventName = Collide | Separate

  /** The detail of a "collide"/"separate" event: the other entity and the
      two colliders, own first. */
  datatype CollisionEvent<E> = CollisionEvent(name: EventName, collidingEntity: E, selfCollider: ColliderHandle, otherCollider: ColliderHandle)

  /** One dispatch of an event to an entity. */
  datatype Delivery<E> = Delivery(target: E, event: CollisionEvent<E>)

  /** The drain callback for one intersection event. */
  function Route<E>(t: Tables<E>, ev: IntersectionEvent): (ds: seq<Delivery<E>>)
    ensures ds == [] <==> Resolve(t, ev.collider1).None? || Resolve(t, ev.collider2).None?
    ensures ds != [] ==> |ds| == 2
  {
    var e1 := Resolve(t, ev.collider1);
    var e2 := Resolve(t, ev.collider2);
    if e1.None? || e2.None? then []
    else
      var name := if ev.intersecting then Collide else Separate;
      [Delivery(e1.value, CollisionEvent(name, e2.value, ev.collider1, ev.collider2)),
       Delivery(e2.value, CollisionEvent(name, e1.value, ev.collider2, ev.collider1))]
  }

  /** A routed event reaches both entities once each, under the name given by
      the intersecting flag; each copy names the other entity, and the two
      copies carry the collider handles swapped. */
  lemma RouteMirrors<E>(t: Tables<E>, ev: IntersectionEvent)
    requires Route(t, ev) != []
    ensures var ds := Route(t, ev);
      && ds[0].target == Resolve(t, ev.collider1).value
      && ds[1].target == Resolve(t, ev.collider2).value
      && ds[0].event.collidingEntity == ds[1].target
      && ds[1].event.collidingEntity == ds[0].target
      && ds[0].event.selfCollider == ev.collider1 == ds[1].event.otherCollider
      && ds[1].event.selfCollider == ev.collider2 == ds[0].event.otherCollider
      && ds[0].event.name == ds[1].event.name == (if ev.intersecting then Collide else Separate)
  {
  }

  /** Everything the drain dispatches, in order. */
  function Deliveries<E>(t: Tables<E>, evs: seq<IntersectionEvent>): (r: seq<Delivery<E>>)
    ensures |r| <= 2 * |evs|
  {
    if evs == [] then [] else Deliveries(t, evs[..|evs| - 1]) + Route(t, evs[|evs| - 1])
  }

  /** The events one entity receives out of a sequence of deliveries. */
  function InboxOf<E(==)>(x: E, ds: seq<Delivery<E>>): seq<CollisionEvent<E>>
  {
    if ds == [] then []
    else InboxOf(x, ds[..|ds| - 1]) + (if ds[|ds| - 1].target == x then [ds[|ds| - 1].event] else [])
  }

  lemma {:induction false} InboxOfAppend<E>(x: E, a: seq<Delivery<E>>, b: seq<Delivery<E>>)
    ensures InboxOf(x, a + b) == InboxOf(x, a) + InboxOf(x, b)
    decreases |b|
  {
    if b == [] {
      assert a + b == a;
    } else {
      var b' := b[..|b| - 1];
      assert (a + b)[..|a + b| - 1] == a + b';
      InboxOfAppend(x, a, b');
    }
  }

  /** What one entity receives from one routed event: the first copy if it is
      the first entity, then the second copy if it is the second. */
  lemma InboxOfRoute<E>(x: E, t: Tables<E>, ev: IntersectionEvent)
    ensures var ds := Route(t, ev);
      InboxOf(x, ds) ==
        (if ds != [] && ds[0].target == x then [ds[0].event] else []) +
        (if ds != [] && ds[1].target == x then [ds[1].event] else [])
  {
    var ds := Route(t, ev);
    if ds != [] {
      var first := if ds[0].target == x then [ds[0].event] else [];
      assert ds[..1][..0] == [];
      assert InboxOf(x, ds[..1]) == InboxOf(x, []) + first;
      assert ds[..|ds| - 1] == ds[..1];
    }
  }

  /** The number of drained events whose two colliders both resolve. */
  function ResolvedCount<E>(t: Tables<E>, evs: seq<IntersectionEvent>): nat
  {
    if evs == [] then 0
    else ResolvedCount(t, evs[..|evs| - 1]) + (if Route(t, evs[|evs| - 1]) == [] then 0 else 1)
  }

  /** Draining dispatches exactly two events per resolved intersection event
      and none for the others. */
  lemma {:induction false} DeliveriesCount<E>(t: Tables<E>, evs: seq<IntersectionEvent>)
    ensures |Deliveries(t, evs)| == 2 * ResolvedCount(t, evs)
  {
    if evs != [] {
      DeliveriesCount(t, evs[..|evs| - 1]);
    }
  }

  /** An entity no collider resolves to receives nothing. */
  lemma {:induction false} UnreachedEntityReceivesNothing<E>(t: Tables<E>, evs: seq<IntersectionEvent>, x: E)
    requires forall c :: Resolve(t, c) != Some(x)
    ensures InboxOf(x, Deliveries(t, evs)) == []
  {
    if evs != [] {
      var init := evs[..|evs| - 1];
      UnreachedEntityReceivesNothing(t, init, x);
      InboxOfAppend(x, Deliveries(t, init), Route(t, evs[|evs| - 1]));
      var ev := evs[|evs| - 1];
      var r := Route(t, ev);
      if r != [] {
        assert r[0].target == Resolve(t, ev.collider1).value != x;
        assert r[1].target == Resolve(t, ev.collider2).value != x;
        assert r[..1][..0] == [];
        assert InboxOf(x, r[..1]) == [];
        assert r[..|r| - 1] == r[..1];
        assert InboxOf(x, r) == [];
      }
    }
  }
}
