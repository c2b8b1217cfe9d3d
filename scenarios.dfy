/** Uses of the stepper and the body component that tie their contracts
    together: what a caller of several operations can rely on. */
module Scenarios {
  import opened Common
  import opened Engine
  import opened BodyKinds
  import opened Correlation
  import opened RapierSystem
  import opened Debug

  /** Initialising a body on an entity and then a collider on that body
      makes the collider resolve to the entity: the body is bound to the id
      under which the entity was registered. Every collider that resolved
      before still resolves as before. */
  method BodyThenCollider(rapier: Rapier, el: Entity, data: BodyData, spawn: Pose, desc: ColliderDesc, other: ColliderHandle)
    returns (b: Body, c: ColliderHandle)
    requires rapier.Valid() && data.bodyType in BodyTypeNames
    modifies rapier`nextEntityId, rapier`entities, rapier`bodyMap, rapier`colliderMap
    modifies rapier.world`bodies, rapier.world`nextBody, rapier.world`colliders, rapier.world`nextCollider, el`bodySlot
    ensures rapier.Valid()
    ensures el.bodySlot == Resolved(b)
    ensures Resolve(rapier.Maps(), c) == Some(el)
    ensures other != c && Resolve(old(rapier.Maps()), other).Some? ==> Resolve(rapier.Maps(), other) == Resolve(old(rapier.Maps()), other)
  {
    var r := Body.Initialize(el, data, rapier, spawn);
    b := r.value;
    c := rapier.GenerateCollider(desc, b);
  }

  /** Toggling the pause bit twice restores it. */
  method ToggleTwice(rapier: Rapier)
    modifies rapier`paused
    ensures rapier.paused == old(rapier.paused)
  {
    rapier.TogglePaused();
    rapier.TogglePaused();
  }

  /** A snapshot captured by hand is what the next save hands to the writer. */
  method CaptureThenSave(rapier: Rapier) returns (r: Result<Snapshot>)
    modifies rapier`snapshot
    ensures r == Ok(rapier.world.TakeSnapshot())
  {
    rapier.CaptureSnapshot();
    r := rapier.SaveSnapshot();
  }

  /** One `autoSnapshot` per tick, as `step` makes them: the snapshots are
      taken exactly at the times `SnapshotTimes` lists, and the recorded
      timestamp ends at the last of them. */
  method AutoSnapshotRun(rapier: Rapier, ticks: seq<real>) returns (taken: seq<real>)
    modifies rapier`snapshot, rapier`snapshotTimestamp
    ensures taken == SnapshotTimes(rapier.autoSnap, old(rapier.snapshotTimestamp), ticks)
    ensures rapier.snapshotTimestamp == LastTime(old(rapier.snapshotTimestamp), taken)
  {
    ghost var start := rapier.snapshotTimestamp;
    taken := [];
    var k := 0;
    while k < |ticks|
      invariant 0 <= k <= |ticks|
      invariant taken + SnapshotTimes(rapier.autoSnap, rapier.snapshotTimestamp, ticks[k..])
                == SnapshotTimes(rapier.autoSnap, start, ticks)
      invariant rapier.snapshotTimestamp == LastTime(start, taken)
    {
      var t := ticks[k];
      assert ticks[k..][0] == t && ticks[k..][1..] == ticks[k + 1..];
      var due := SnapshotDue(rapier.autoSnap, rapier.snapshotTimestamp, t);
      ghost var rest := SnapshotTimes(rapier.autoSnap, Some(t), ticks[k + 1..]);
      rapier.AutoSnapshot(t);
      if due {
        assert taken + ([t] + rest) == (taken + [t]) + rest;
        taken := taken + [t];
      }
      k := k + 1;
    }
    assert ticks[k..] == [];
  }

  /** `tdebug` over a run of calls: exactly the calls `Logged` lists log. */
  method TDebugRun(cooldown: Cooldown, calls: seq<Call>) returns (logged: seq<Call>)
    modifies cooldown`last
    ensures logged == Logged(old(cooldown.last), calls)
  {
    logged := [];
    var k := 0;
    while k < |calls|
      invariant 0 <= k <= |calls|
      invariant logged + Logged(cooldown.last, calls[k..]) == Logged(old(cooldown.last), calls)
    {
      var c := calls[k];
      assert calls[k..][0] == c && calls[k..][1..] == calls[k + 1..];
      ghost var rest := Logged(cooldown.last[c.name := c.time], calls[k + 1..]);
      var didLog := cooldown.TDebug(c.name, c.time);
      if didLog {
        assert logged + ([c] + rest) == (logged + [c]) + rest;
        logged := logged + [c];
      }
      k := k + 1;
    }
    assert calls[k..] == [];
  }
}
