# aframe-rapier core, modelled in Dafny

aframe-rapier connects the A-Frame scene graph to the Rapier physics engine.
This project models its core:

- **The stepper** (`Rapier`, src/systems/rapier-system.ts).
  - It hands out entity ids.
  - It keeps three correlation tables: entity id → entity, body handle → entity id, and collider handle → body handle.
  - It resolves a collider handle to its entity in two hops.
  - It takes auto-snapshots and supports pause and play.
  - Each tick it steps the engine, routes the drained intersection events to the two entities as "collide"/"separate" events, and writes engine poses back to the scene.
- **The "body" component** (`Body`, src/components/body.ts).
  - Its kind dispatcher and the rigid-body description built from the configuration.
  - Its kind predicates and its override setters.
- **The "collider" component** (src/components/collider.ts).
  - The collider description: shape, size, translation, combine rule.
  - Building the collider now or once the model has loaded.
- **The "joint" component** (src/components/joint.ts).
  - The joint-data dispatcher.
  - Creating and removing a joint between the owner's and the target's body.
- **The "track" component** (src/components/track.ts): copying the tracked body's position into the tracker's next-position override.
- **`fixSchema`** (src/utils/schema.ts): filling undefined fields with their defaults, in place.
- **`tdebug`** (src/utils/debug.ts): per-name rate limiting with a 1000 ms cooldown.

Modules:

| file | module | what |
|---|---|---|
| common.dfy | Common | vectors, poses, handles, `Option`/`Result`/`Outcome`, the error values the core throws |
| engine.dfy | Engine | the engine world the core calls: handle allocation, body poses, colliders, joints, an opaque step, snapshots |
| body_kinds.dfy | BodyKinds | `getBodyType`, `getBodyDesc`, the kind predicates |
| correlation.dfy | Correlation | the three tables as a value, the lookup collider → entity, event routing |
| writeback.dfy | Writeback | the per-entity writeback of `step` and the whole writeback loop, as functions on values |
| rapier_system.dfy | RapierSystem | classes `Entity`, `Body`, `Rapier`; the auto-snapshot rule |
| colliders.dfy | Colliders | `getColliderDesc`, `getRestitutionCombineRule`, the collider component |
| joints.dfy | Joints | `getJointData`, class `Joint` |
| tracking.dfy | Tracking | class `Track` |
| schemas.dfy | Schemas | `fixSchema` on a mutable object |
| debug.dfy | Debug | `tdebug`'s cooldown map |
| scenarios.dfy | Scenarios | short call sequences across components |

How the model represents things:

- **Entities and bodies.**
  - Entities are objects with a scene position and rotation.
  - An entity also has a "body" slot, which is what awaiting `getBody` on it produces. The slot is one of:
    - no body (`null`);
    - a body whose initialisation threw (awaiting it throws the same error again);
    - a resolved `Body`.
- **The writeback loop** iterates entity ids in ascending order. This is the `Map`'s insertion order, because ids come from a counter and are only inserted fresh.
- **The engine step** is a parameter (`SolverRun`). It moves some bodies, then either throws or finishes with intersection events. Timestamps are parameters too.
- **`dispatchEvent`** is modelled as an append to the stepper's log `dispatched` of (target entity, event) pairs.

Edge cases of the code that the model keeps:

- **The "velocity" kind.** `getBodyType` accepts "velocity" when building a body (src/components/body.ts:146-147). The writeback then throws on it (src/systems/rapier-system.ts:205-207). See `Writeback.VelocityAcceptedButNotStepped`.
- **The joint's default type.** The schema default "dynamic" (src/components/joint.ts:12) is not a type `getJointData` accepts, so a joint with no configured type fails. See `Joints.DefaultJointTypeRejected`.
- **A missing target.** A "joint" or "track" whose target selector matched nothing makes the code pass `null` to `getBody`, which throws. The model raises `NoTarget` there.
- **A failed engine step.** When the engine step throws, nothing rolls it back (src/systems/rapier-system.ts:138-152). `SolverRun.Crashed` therefore carries the poses the failed step left behind.

## Model

| member | source | states |
|---|---|---|
| Engine.Moved | src/systems/rapier-system.ts:139 | a world step moves exactly the bodies the solver reports; no body appears or vanishes |
| Engine.PoseOf | src/components/body.ts:75-77 | reading a body's pose succeeds exactly for a body the world holds, else raises StaleBody |
| Engine.SetTranslation | src/components/body.ts:79-81 | setting a translation changes that body's position only; fails for an unknown handle |
| Engine.SetRotation | src/components/body.ts:83-85 | setting a rotation changes that body's rotation only; fails for an unknown handle |
| Engine.World.constructor | src/systems/rapier-system.ts:77 | a new world holds no bodies, colliders or joints |
| Engine.World.TakeSnapshot | src/systems/rapier-system.ts:109 | the snapshot holds every body pose, collider and joint of the world |
| Engine.World.CreateRigidBody | src/systems/rapier-system.ts:92 | a fresh handle, never handed out before, placed at the description's pose |
| Engine.World.CreateCollider | src/systems/rapier-system.ts:98 | a fresh collider handle recorded with its description and parent body |
| Engine.World.CreateJoint | src/components/joint.ts:77-82 | a fresh joint handle recorded with its description and both bodies |
| Engine.World.RemoveJoint | src/components/joint.ts:110-115 | exactly that joint is removed |
| Engine.World.Advance | src/systems/rapier-system.ts:138-152 | reports success iff the step did not throw; either way the bodies are where the step left them (a failed step is not rolled back) |
| Engine.World.SetBodyTranslation | src/components/body.ts:79-81 | the world's bodies become SetTranslation of the old ones, or stay unchanged with StaleBody |
| Engine.World.SetBodyRotation | src/components/body.ts:83-85 | the world's bodies become SetRotation of the old ones, or stay unchanged with StaleBody |
| BodyKinds.GetBodyType | src/components/body.ts:138-151 | exactly the four names "dynamic", "static", "position", "velocity" succeed; any other name raises with that name |
| BodyKinds.GetBodyTypeRoundTrip | src/components/body.ts:138-151 | every engine kind is produced from its own name |
| BodyKinds.GetBodyTypeInjective | src/components/body.ts:138-151 | distinct accepted names give distinct engine kinds |
| BodyKinds.GetBodyDesc | src/components/body.ts:59-68 | fails iff the kind is unknown; otherwise the kind comes from the name, the pose from the spawn pose, and velocities, damping, gravity scale, sleep and CCD from the configuration |
| BodyKinds.KindPredicatesAgree | src/components/body.ts:103-113 | isStatic/isDynamic/isPositionBased are mutually exclusive and agree with the engine kind built from the name; "velocity" satisfies none of them |
| Correlation.Unregister | src/systems/rapier-system.ts:87-89 | removes exactly that id from the entities; the other tables are untouched |
| Correlation.Register | src/systems/rapier-system.ts:81-85 | adds exactly the id, mapped to the entity; other ids and the other tables are untouched |
| Correlation.BindBody | src/systems/rapier-system.ts:91-95 | binds exactly the body handle to the entity id; other handles and the other tables are untouched |
| Correlation.BindCollider | src/systems/rapier-system.ts:97-101 | binds exactly the collider handle to the body handle; other handles and the other tables are untouched |
| Correlation.UnregisterIdempotent | src/systems/rapier-system.ts:87-89 | unregistering twice equals unregistering once; unregistering an unknown id changes nothing |
| Correlation.Resolve | src/systems/rapier-system.ts:119-129 | a collider resolves iff all three hops exist, and then to the entity reached by them |
| Correlation.ResolveAfterUnregister | src/systems/rapier-system.ts:115-129 | after unregistering an id, colliders leading to that id resolve to nothing (never a stale entity); all others resolve as before |
| Correlation.ResolveAfterBindings | src/systems/rapier-system.ts:81-101 | register + bind a fresh body + bind a fresh collider makes that collider resolve to the entity, and no other collider changes |
| Correlation.Route | src/systems/rapier-system.ts:154-182 | an intersection event produces no dispatch iff either collider does not resolve, otherwise exactly two |
| Correlation.RouteMirrors | src/systems/rapier-system.ts:162-181 | the two dispatches go to entity1 then entity2, each naming the other entity, with the collider handles swapped and the name given by the intersecting flag |
| Correlation.Deliveries | src/systems/rapier-system.ts:154-182 | the drain dispatches at most two events per intersection event |
| Correlation.InboxOfRoute | src/systems/rapier-system.ts:163-181 | what one entity receives from one event: the first copy if it is entity1, then the second if it is entity2 |
| Correlation.DeliveriesCount | src/systems/rapier-system.ts:154-182 | draining dispatches exactly two events per event whose colliders both resolve |
| Correlation.UnreachedEntityReceivesNothing | src/systems/rapier-system.ts:154-182 | an entity no collider resolves to receives no event |
| Writeback.SyncEntity | src/systems/rapier-system.ts:185-235 | per kind: static changes nothing; dynamic copies the engine pose; position-based pushes each defined override into the engine; other kinds ("velocity" included) raise; a body whose initialisation threw rethrows; the scene is written only when the body follows |
| Writeback.PushOverrides | src/systems/rapier-system.ts:196-204 | each defined override is pushed into the engine, position first; only that body's pose changes; fails with StaleBody only if an override is defined for a body the world does not hold |
| Writeback.SyncAll | src/systems/rapier-system.ts:184-236 | the writeback loop never adds or removes an engine body, and completes only if every body it meets is of a kind it knows |
| Writeback.AllStaticChangesNothing | src/systems/rapier-system.ts:191-192 | if every body is static, the writeback changes nothing and does not throw |
| Writeback.NoFollowNoSceneWrite | src/systems/rapier-system.ts:209-234 | if no body follows, no entity's scene transform is written, whatever happens in the engine |
| Writeback.UnlistedEntityUntouched | src/systems/rapier-system.ts:184-236 | an entity the loop does not reach keeps its scene transform |
| Writeback.UnknownKindThrows | src/systems/rapier-system.ts:205-207 | a body of an unknown kind or a broken body anywhere in the loop makes the tick throw |
| Writeback.VelocityAcceptedButNotStepped | src/systems/rapier-system.ts:205-207 | "velocity" builds a body, yet the first tick that reaches it throws "Unknown body type", before any later entity |
| RapierSystem.Body.constructor | src/components/body.ts:45-52 | the fields as given, with no overrides set |
| RapierSystem.Body.IsStatic | src/components/body.ts:103-105 | holds iff the kind string names the engine's static kind |
| RapierSystem.Body.IsDynamic | src/components/body.ts:107-109 | holds iff the kind string names the engine's dynamic kind |
| RapierSystem.Body.IsPositionBased | src/components/body.ts:111-113 | holds iff the kind string names the engine's position-based kind |
| RapierSystem.Body.SetNextPosition | src/components/body.ts:87-89 | sets the next-position override, nothing else |
| RapierSystem.Body.SetNextRotation | src/components/body.ts:91-93 | sets the next-rotation override, nothing else |
| RapierSystem.Body.SetType | src/components/body.ts:95-97 | sets the kind string, nothing else |
| RapierSystem.Body.Update | src/components/body.ts:119-124 | the kind becomes the new configured kind iff it differs from the old configured kind |
| RapierSystem.Body.Remove | src/components/body.ts:126-129 | unregisters exactly the body's entity id; body and collider tables stay |
| RapierSystem.Body.Initialize | src/components/body.ts:54-73 | registers the entity first; an unknown kind raises (the entity stays registered, no engine body); otherwise a fresh engine body at the spawn pose, bound to the new id, and a Body with that id, kind and follow flag |
| RapierSystem.SnapshotTimes | src/systems/rapier-system.ts:103-113 | with interval 0 no snapshot is ever taken; at most one per tick, each at one of the ticks |
| RapierSystem.SnapshotsSpaced | src/systems/rapier-system.ts:103-113 | successive auto-snapshots, and the first after the last recorded one, are more than the interval apart |
| RapierSystem.Rapier.constructor | src/systems/rapier-system.ts:59-70 | counter 0, empty tables, no snapshot, the given paused flag and interval |
| RapierSystem.Rapier.RegisterEntity | src/systems/rapier-system.ts:81-85 | returns the counter's old value, a fresh id, increments the counter and maps the id to the entity |
| RapierSystem.Rapier.UnregisterEntity | src/systems/rapier-system.ts:87-89 | deletes the id; a missing id is a no-op |
| RapierSystem.Rapier.GenerateRigidBody | src/systems/rapier-system.ts:91-95 | a fresh engine body at the description's pose, bound to the entity id |
| RapierSystem.Rapier.GenerateCollider | src/systems/rapier-system.ts:97-101 | a fresh engine collider on the body, bound to the body's handle |
| RapierSystem.Rapier.AutoSnapshot | src/systems/rapier-system.ts:103-113 | takes a snapshot and records the time iff the interval is nonzero and none was taken or strictly more than the interval has passed |
| RapierSystem.Rapier.GetEntityById | src/systems/rapier-system.ts:115-117 | the registered entity, or nothing for an unknown id |
| RapierSystem.Rapier.GetEntityByCollider | src/systems/rapier-system.ts:119-129 | the two-hop lookup; a found entity is registered |
| RapierSystem.Rapier.Pause | src/systems/rapier-system.ts:240-242 | paused afterwards |
| RapierSystem.Rapier.Play | src/systems/rapier-system.ts:244-246 | not paused afterwards |
| RapierSystem.Rapier.TogglePaused | src/systems/rapier-system.ts:248-250 | flips the paused flag |
| RapierSystem.Rapier.CaptureSnapshot | src/systems/rapier-system.ts:283-287 | stores the world's current snapshot |
| RapierSystem.Rapier.SaveSnapshot | src/systems/rapier-system.ts:289-296 | hands over the stored snapshot; raises when none was taken |
| RapierSystem.Rapier.Dispatch | src/systems/rapier-system.ts:154-182 | one drained event appends exactly its routing to the dispatch log |
| RapierSystem.Rapier.DrainEvents | src/systems/rapier-system.ts:154-182 | draining appends the routing of every event, in queue order |
| RapierSystem.Rapier.WriteTransform | src/systems/rapier-system.ts:223-233 | writes each defined part of the pose onto that entity's scene transform, nothing else |
| RapierSystem.Rapier.SyncDynamic | src/systems/rapier-system.ts:193-195 | the dynamic branch does what SyncEntity says |
| RapierSystem.Rapier.PushPending | src/systems/rapier-system.ts:196-204 | the engine bodies become PushOverrides of the old ones, or the push fails with the engine's error |
| RapierSystem.Rapier.SyncPositionBased | src/systems/rapier-system.ts:196-204 | the position-based branch does what SyncEntity says |
| RapierSystem.Rapier.SyncBody | src/systems/rapier-system.ts:187-235 | one entity's writeback does what SyncEntity says, on the engine and the scene |
| RapierSystem.Rapier.SyncBodies | src/systems/rapier-system.ts:184-236 | the writeback loop reaches exactly SyncAll's state over the registered entities in id order, and throws iff SyncAll stops with an error |
| RapierSystem.Rapier.DrainThenSync | src/systems/rapier-system.ts:154-236 | after the engine step: every drained event is routed, then the writeback reaches exactly SyncAll's state and throws iff SyncAll stops with an error |
| RapierSystem.Rapier.StepUnpaused | src/systems/rapier-system.ts:134-237 | a throwing engine step pauses the stepper and rethrows, leaving the bodies where it left them and the scene and events untouched; otherwise events are routed, then poses written back |
| RapierSystem.Rapier.Step | src/systems/rapier-system.ts:131-238 | auto-snapshot first; when paused nothing else changes; a crash pauses and rethrows with the scene untouched; otherwise all events are routed from the tables and the writeback runs on the stepped poses |
| Colliders.GetRestitutionCombineRule | src/components/collider.ts:173-186 | exactly "average", "min", "multiply", "max" succeed; anything else raises with the rule name |
| Colliders.CombineRuleRoundTrip | src/components/collider.ts:173-186 | every engine rule is produced from its name; distinct accepted names give distinct rules |
| Colliders.GetColliderDesc | src/components/collider.ts:119-171 | zero size without wrap raises first, then an unknown shape, then an unknown combine rule; a box takes half the size, a ball half the size's length; the translation is the bounds centre in wrap mode and the configured one otherwise; the other parameters pass through |
| Colliders.ColliderComponent.Build | src/components/collider.ts:81-90 | a collider is built and bound to the body iff the description succeeds; nothing changes otherwise |
| Colliders.ColliderComponent.Init | src/components/collider.ts:69-96 | no body or a rejected body raises with tables and world untouched; with wrap off or the mesh present the collider is built now and bound to the body's handle iff the description succeeds, nothing changing otherwise; else building waits for the model with nothing built |
| Colliders.ColliderComponent.OnModelLoaded | src/components/collider.ts:94 | the deferred build binds a fresh collider to the body's handle iff the description succeeds; on failure it raises and the tables and world colliders stay |
| Joints.GetJointData | src/components/joint.ts:132-146 | exactly "fixed", "spherical", "revolute", "prismatic" succeed, each with its own anchors/frames/axis; anything else raises |
| Joints.DefaultJointTypeRejected | src/components/joint.ts:12 | the schema default "dynamic" is not a joint type getJointData accepts |
| Joints.Joint.constructor | src/components/joint.ts:42-60 | the fields as given |
| Joints.Joint.Initialize | src/components/joint.ts:62-88 | errors in source order (owner body missing, target missing, target body missing, unknown type); otherwise a fresh engine joint between the owner's and the target's body handles |
| Joints.Joint.Remove | src/components/joint.ts:105-116 | exactly this joint is removed from the engine |
| Tracking.Track.constructor | src/components/track.ts:15-16 | both bodies unset |
| Tracking.Track.Init | src/components/track.ts:18-30 | records its own body, raising if there is none; then the tracked body, raising if there is none |
| Tracking.Track.Tick | src/components/track.ts:32-37 | with both bodies set, the own next-position becomes the tracked body's next position, or else its engine position; otherwise nothing changes |
| Schemas.WithDefaults | src/utils/schema.ts:12-16 | every schema field that is undefined takes its default; defined fields and non-schema fields stay |
| Schemas.WithDefaultsIdempotent | src/utils/schema.ts:12-16 | filling defaults twice equals filling once |
| Schemas.TrueYieldsDefaults | src/utils/schema.ts:6-7 | `true` as input yields exactly the defaults |
| Schemas.FixSchema | src/utils/schema.ts:4-18 | returns the input object itself (a fresh one for `true`), its fields filled with the defaults |
| Debug.Cooldown.constructor | src/utils/debug.ts:2 | the cooldown map starts empty |
| Debug.Cooldown.TDebug | src/utils/debug.ts:4-12 | logs iff the name was never logged or strictly more than 1000 ms have passed; records the time only when it logs |
| Debug.CooldownBoundary | src/utils/debug.ts:8 | exactly 1000 ms after a log is still too early; 1001 ms is not |
| Debug.Logged | src/utils/debug.ts:4-12 | the logged calls are drawn from the run, at most one per call |
| Debug.LoggedSpaced | src/utils/debug.ts:4-12 | any two logs of the same name are more than 1000 ms apart |
| Scenarios.BodyThenCollider | src/components/body.ts:54-73 | a body then a collider on it makes the collider resolve to the entity, and other resolving colliders are unaffected |
| Scenarios.ToggleTwice | src/systems/rapier-system.ts:248-250 | toggling twice restores the paused flag |
| Scenarios.CaptureThenSave | src/systems/rapier-system.ts:283-296 | capture then save hands over the world's current snapshot |
| Scenarios.AutoSnapshotRun | src/systems/rapier-system.ts:103-113 | one autoSnapshot per tick takes snapshots exactly at the times SnapshotTimes lists, and the recorded time ends at the last of them |
| Scenarios.TDebugRun | src/utils/debug.ts:4-12 | one tdebug per call logs exactly the calls Logged lists |

## Left out

- Asynchrony is not modelled.
  - Component promises, `await` ordering, and the lifecycle dispatch of src/async-component.ts are out.
  - A body slot is modelled as already settled. A writeback that awaits a body still initialising would suspend the tick; that case is not represented.
- `Rapier.initialize` is out: loading the engine's wasm and creating the world with gravity (0, -9.81, 0). The world is a constructor parameter.
- The solver's mathematics is out: integration, contacts, islands, wake-up flags. A step is the `SolverRun` parameter.
  - `applyImpulse` is not modelled, since its effect is only physics.
  - The `delta` parameter of `step` is unused by the code and left out.
- The engine snapshot is a value copy of the world's maps. Its binary serialisation is out.
  - `SaveSnapshot` returns the snapshot that `writeFile` would be given; the file I/O is out.
- The debug flag, wireframes, the collider's `update`/`remove`, and the joint's `update`/`tick` are out. They only draw debug geometry.
- Keyboard listeners and `onKeyPress` are out: window input.
  - Their effects are the modelled `CaptureSnapshot`, `SaveSnapshot` and `TogglePaused` (combined in `Scenarios`).
- RapierSystem.Rapier.Dispatch: the entity listeners that `dispatchEvent` runs synchronously during the drain (src/systems/rapier-system.ts:163-181) are not modelled.
  - They are assumed not to touch bodies, the tables or the stepper.
  - A listener that calls `unregisterEntity` would change how the later events of the same drain resolve; the model does not capture that.
- RapierSystem.Rapier.DrainEvents: routes every event against the tables as they were at the start of the drain, for the same reason.
- RapierSystem.Rapier.Step: for the same reason, its writeback uses each body's overrides as they were before the drain.
  - In the code, a "collide" listener that calls `setNextPosition` has its override pushed in the same tick; in the model it does not.
- Console output is out. This includes `tdebug`'s printing: only its cooldown decision is modelled.
- The disabled `if (false)` inverse-parent branch of the writeback is out, since it never runs.
  - Rotations are stored on the entity as quaternions; the conversion to Euler angles is out.
- Floating point is out.
  - Reals stand for JS numbers.
  - The vector length used by `getColliderDesc` is a parameter.
  - The wrap-mode bounding box is given as a `Bounds` parameter (centre and size after scaling), instead of being computed from the mesh.
  - Integer ids and handles are unbounded.
- The collider's active collision types and active events are out: the same constants for every collider.
- `Body.remove` only unregisters the entity id. The engine body and the `bodyMap` entry remain, as in the code.
  - The core never removes engine bodies, so `StaleBody` errors cannot arise from its own calls. They are modelled for engine calls on unknown handles.
- The spawn pose from `waitForMeshMatrix` is a parameter of `Body.Initialize`.
- The schema defaults themselves are parameters of `FixSchema`. The components' data is taken after defaulting.
- Scenarios.BodyThenCollider: for an existing collider it only states that one which already resolved keeps resolving the same way.
  - Nothing stops the tables from binding a body to an id not handed out yet, so a collider that did not resolve before could resolve afterwards.
