/** The "track" component (src/components/track.ts): it finds its own body
    and the tracked entity's body, then on every frame makes its body's
    pending position follow the tracked body. */
module Tracking {
  import opened Common
  import opened Engine
  import opened RapierSystem

  class Track {
    const el: Entity
    var selfBody: Body?
    var trackedBody: Body?

    constructor (el: Entity)
      ensures this.el == el && selfBody == null && trackedBody == null
    {
      this.el := el;
      selfBody := null;
      trackedBody := null;
    }

    /** `init`: awaits the entity's own body, then the tracked entity's
        (`tracked` is what the selector matched); a missing one raises. A
        body that is found is kept even when a later step raises. */
    method Init(tracked: Entity?) returns (r: Outcome)
      modifies this`selfBody, this`trackedBody
      ensures el.bodySlot.NoBody? ==> r == Failed(MissingBody) && selfBody == null && trackedBody == old(trackedBody)
      ensures el.bodySlot.Rejected? ==> r == Failed(el.bodySlot.error) && selfBody == old(selfBody) && trackedBody == old(trackedBody)
      ensures el.bodySlot.Resolved? ==> selfBody == el.bodySlot.body
      ensures el.bodySlot.Resolved? && tracked == null ==> r == Failed(NoTarget) && trackedBody == old(trackedBody)
      ensures el.bodySlot.Resolved? && tracked != null && tracked.bodySlot.NoBody? ==>
        r == Failed(MissingTargetBody) && trackedBody == null
      ensures el.bodySlot.Resolved? && tracked != null && tracked.bodySlot.Rejected? ==>
        r == Failed(tracked.bodySlot.error) && trackedBody == old(trackedBody)
      ensures el.bodySlot.Resolved? && tracked != null && tracked.bodySlot.Resolved? ==>
        r == Done && trackedBody == tracked.bodySlot.body
    {
      match el.bodySlot {
        case NoBody =>
          selfBody := null;
          return Failed(MissingBody);
        case Rejected(e) =>
          return Failed(e);
        case Resolved(b) =>
          selfBody := b;
      }
      if tracked == null {
        return Failed(NoTarget);
      }
      match tracked.bodySlot {
        case NoBody =>
          trackedBody := null;
          return Failed(MissingTargetBody);
        case Rejected(e) =>
          return Failed(e);
        case Resolved(b) =>
          trackedBody := b;
      }
      r := Done;
    }

    /** `tick`: with both bodies known, the own body's pending position
        becomes the tracked body's pending position or, when it has none,
        the tracked body's current position in the engine. Nothing else
        changes. */
    method Tick(world: World) returns (r: Outcome)
      modifies (if selfBody == null then {} else {selfBody})`nextPosition
      ensures selfBody == null || trackedBody == null ==> r == Done
      ensures selfBody != null && trackedBody == null ==> unchanged(selfBody`nextPosition)
      ensures selfBody != null && trackedBody != null ==>
        match old(trackedBody.nextPosition)
        case Some(p) => r == Done && selfBody.nextPosition == Some(p)
        case None =>
          && (r.Done? <==> trackedBody.handle in world.bodies)
          && (r.Done? ==> selfBody.nextPosition == Some(world.bodies[trackedBody.handle].position))
          && (r.Failed? ==> r.error == StaleBody(trackedBody.handle) && unchanged(selfBody`nextPosition))
    {
      if selfBody != null && trackedBody != null {
        var target := trackedBody.nextPosition;
        if target.None? {
          var pose := PoseOf(world.bodies, trackedBody.handle);
          if pose.Err? {
            return Failed(pose.error);
          }
          target := Some(pose.value.position);
        }
        selfBody.SetNextPosition(target.value);
      }
      r := Done;
    }
  }
}
