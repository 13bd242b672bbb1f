/**
 The host agent's slot verbs under the slot's lock. Docker's answers come as
 parameters: any of its calls may fail, a run perhaps after it made the
 container.
 */
module HostAgents {
  import opened Options

  datatype Code = Invalid | ImageMismatch | SlotBusy | NotReady | DiskFull | DockerFailed | LeaseMismatch

  datatype Reply = Ok | Refuse(code: Code)

  /** What Docker and the disk do during one start. */
  datatype StartWorld = StartWorld(readable: bool, imageMatches: bool, fieldsOk: bool, inspectOk: bool,
                                   imagePresent: bool, cachesFilled: bool, diskOk: bool,
                                   workspaceOk: bool, runOk: bool, runMade: bool, recheckOk: bool, cleanupOk: bool, readBackOk: bool)

  datatype RemoveWorld = RemoveWorld(inspectOk: bool, removeOk: bool, discardOk: bool)

  const QUIET := StartWorld(true, true, true, true, true, true, true, true, true, true, true, true, true)
  const QUIET_REMOVE := RemoveWorld(true, true, true)

  /** Everything up to the run itself goes well. */
  predicate Runs(w: StartWorld) {
    w.readable && w.imageMatches && w.fieldsOk && w.inspectOk && w.imagePresent && w.cachesFilled && w.diskOk && w.workspaceOk
  }

  /** The request itself is refused, before the slot is looked at. */
  predicate Malformed(w: StartWorld) {
    !w.readable || (w.imageMatches && !w.fieldsOk)
  }

  /** Docker fails: it cannot be asked about the slot, or the run or the look
      at what it made fails. */
  predicate DockerFails(slot: Option<string>, w: StartWorld) {
    && w.readable && w.imageMatches && w.fieldsOk
    && (!w.inspectOk || (slot.None? && Runs(w) && !(w.runOk && w.readBackOk)))
  }

  class Slot {
    /** The lease of the container in the slot, if there is one. */
    var container: Option<string>

    constructor (container: Option<string>)
      ensures this.container == container
    {
      this.container := container;
    }

    /** Starts a container for a lease in an empty slot. Every refusal but
        DockerFailed leaves the slot as it was; DockerFailed may leave a
        container of this very lease, in a slot that was empty. */
    method Start(lease: string, w: StartWorld) returns (r: Reply)
      modifies this
      ensures r.Ok? <==> old(container).None? && Runs(w) && w.runOk && w.readBackOk
      ensures r.Ok? ==> container == Some(lease)
      ensures r.Refuse? && r.code != DockerFailed ==> container == old(container)
      ensures r == Refuse(DockerFailed) ==>
                container == old(container) || (old(container).None? && container == Some(lease))
      ensures r.Refuse? && container != old(container) <==>
                old(container).None? && Runs(w) && if w.runOk then !w.readBackOk else w.runMade && !(w.recheckOk && w.cleanupOk)
      ensures r == Refuse(SlotBusy) <==>
                old(container).Some? && w.readable && w.imageMatches && w.fieldsOk && w.inspectOk
      ensures r == Refuse(Invalid) <==> Malformed(w)
      ensures r == Refuse(DockerFailed) <==> DockerFails(old(container), w)
      ensures old(container).Some? ==> container == old(container) && r.Refuse?
    {
      if !w.readable { return Refuse(Invalid); }
      if !w.imageMatches { return Refuse(ImageMismatch); }
      if !w.fieldsOk { return Refuse(Invalid); }
      if !w.inspectOk { return Refuse(DockerFailed); }
      if container.Some? { return Refuse(SlotBusy); }
      if !w.imagePresent { return Refuse(NotReady); }
      if !w.cachesFilled { return Refuse(NotReady); }
      if !w.diskOk { return Refuse(DiskFull); }
      if !w.workspaceOk { return Refuse(NotReady); }
      if !w.runOk {
        if w.runMade { container := Some(lease); }
        if w.recheckOk && container == Some(lease) && w.cleanupOk { container := None; }
        return Refuse(DockerFailed);
      }
      container := Some(lease);
      if !w.readBackOk { return Refuse(DockerFailed); }
      return Ok;
    }

    /** Removes the slot's container if it is the lease's; another lease's
        container stays whatever is answered. */
    method Remove(lease: string, w: RemoveWorld) returns (r: Reply)
      modifies this
      ensures r.Ok? ==> container.None? && (old(container).None? || old(container) == Some(lease))
      ensures r.Ok? <==>
                w.inspectOk && w.discardOk && (old(container).None? || (old(container) == Some(lease) && w.removeOk))
      ensures container == if old(container) == Some(lease) && w.inspectOk && w.removeOk then None else old(container)
      ensures r == Refuse(LeaseMismatch) <==> w.inspectOk && old(container).Some? && old(container) != Some(lease)
      ensures old(container).Some? && old(container) != Some(lease) ==> r.Refuse?
    {
      if !w.inspectOk { return Refuse(DockerFailed); }
      if container.Some? && container.value != lease { return Refuse(LeaseMismatch); }
      if container.Some? {
        if !w.removeOk { return Refuse(DockerFailed); }
        container := None;
      }
      if !w.discardOk { return Refuse(DockerFailed); }
      return Ok;
    }
  }
}
