/**
 Leases in pool slots: reservations, start requests whose answers may be lost
 or late, the containers there really are, the pool's own view of them, and
 hosts being returned. Every step is one critical section of the pool, one call
 of the agent, or the world acting by itself.
 */
module Slots {
  import opened Options

  datatype Phase = Booting | Serving | Draining | Deleting | Stopping | Stopped

  /** Why a host is returned: Emptied stands for idle, drained and paid hour
      ending, and becomes Verified once the host itself lists no container;
      Silent stands for a boot timeout or a host unreachable for too long;
      Discarded for a stopped host that is no use or one too many. */
  datatype Reason = Emptied | Verified | Silent | Discarded

  /** A slot of a host, on any tier. */
  datatype Place = Place(host: string, slot: nat)

  /** The pool's view of a host: what its slots hold, which are reserved. */
  datatype Host = Host(phase: Phase, size: nat, slots: map<nat, Option<string>>, reserved: map<nat, string>,
                       returning: Option<Reason>)

  /** A launch as far as the controller knows. Trying: between attempts.
      Asked: a start request is out. Running, Unclear and Full are its ends: a
      worker at a place, a start that may have happened there, nothing. */
  datatype Launch = Trying | Asked(at: Place) | Running(at: Place) | Unclear(at: Place) | Full

  /** hosts: what the pool knows; ever: every host it has known. containers:
      what runs. open: start requests the agent may still act on. started:
      leases whose container an agent made. */
  datatype World = World(hosts: map<string, Host>, ever: set<string>, containers: map<Place, string>,
                         open: map<string, Place>, started: set<string>, launches: map<string, Launch>)

  datatype Step =
    | Begin(lease: string)
    | Reserve(lease: string, at: Place)
    | Act(lease: string)                       // the agent starts the container
    | Decline(lease: string)                   // it refused, or was never reached
    | Release(lease: string, foreign: bool)    // the pool hears of it and tries again
    | Commit(lease: string)                    // it hears of the start, on time or late
    | Hold(lease: string)                      // it does not hear: the slot stays taken
    | GiveUp(lease: string)                    // no room anywhere
    | Exit(at: Place)                          // a container ends by itself
    | Remove(lease: string, at: Place)         // the agent is asked to remove the lease's container
    | Clear(lease: string, at: Place)          // the pool takes the slot for empty
    | ListSlots(host: string, slots: map<nat, Option<string>>)
    | Pick(host: string, reason: Reason, stop: bool)
    | Verify(host: string)                     // the picked host lists nothing
    | Restore(host: string, phase: Phase)      // it was not empty after all
    | Return(host: string)                     // deleted or stopped
    | Change(host: string, phase: Phase)       // probed ready, drained, stopped or started outside
    | Found(host: string, phase: Phase, size: nat)
    | Lost(host: string)                       // gone from its source

  /** The container at a place is the lease's. */
  predicate Holds(w: World, lease: string, at: Place) {
    at in w.containers && w.containers[at] == lease
  }

  predicate Waits(w: World, lease: string) {
    lease in w.launches && w.launches[lease].Asked?
  }

  predicate MayPick(h: Host, reason: Reason) {
    match reason
    case Emptied => (h.phase.Serving? || h.phase.Draining?) && h.slots == map[] && h.reserved == map[]
    case Verified => false
    case Silent => h.phase.Serving? || h.phase.Draining? || h.phase.Booting?
    case Discarded => h.phase.Stopped?
  }

  /** No container runs on the host. */
  predicate EmptyHost(w: World, id: string) {
    forall at :: at in w.containers ==> at.host != id
  }

  predicate Enabled(w: World, step: Step) {
    match step
    case Begin(l) => l !in w.launches
    case Reserve(l, at) =>
      && l in w.launches && w.launches[l].Trying? && at.host in w.hosts && w.hosts[at.host].phase.Serving?
      && at.slot < w.hosts[at.host].size && at.slot !in w.hosts[at.host].slots && at.slot !in w.hosts[at.host].reserved
    case Act(l) => l in w.open && w.open[l] !in w.containers
    case Decline(l) => l in w.open
    case Release(l, _) => Waits(w, l) && l !in w.open && l !in w.started
    case Commit(l) => Waits(w, l) && l in w.started
    case Hold(l) => Waits(w, l)
    case GiveUp(l) => l in w.launches && w.launches[l].Trying?
    case Exit(at) => at in w.containers
    case Remove(_, _) => true
    case Clear(l, at) => at.host in w.hosts
    case ListSlots(id, _) => id in w.hosts
    case Pick(id, reason, stop) => id in w.hosts && MayPick(w.hosts[id], reason) && !(stop && reason.Discarded?)
    case Verify(id) => id in w.hosts && w.hosts[id].returning == Some(Emptied) && EmptyHost(w, id)
    case Restore(id, phase) =>
      && id in w.hosts && w.hosts[id].returning.Some?
      && if w.hosts[id].returning.value.Discarded? then phase.Stopped?
         else phase.Serving? || phase.Draining? || phase.Booting?
    case Return(id) => id in w.hosts && w.hosts[id].returning.Some? && !w.hosts[id].returning.value.Emptied?
    case Change(id, phase) => id in w.hosts && w.hosts[id].returning.None? && !phase.Deleting? && !phase.Stopping?
    case Found(id, phase, _) => id !in w.ever && (phase.Booting? || phase.Stopped?)
    case Lost(id) => id in w.hosts
  }

  function WithHost(w: World, id: string, h: Host): World {
    w.(hosts := w.hosts[id := h])
  }

  /** The pool hears of a start: the reservation goes, and the slot is taken
      for what is known of it, if the host is still known. */
  function Heard(w: World, l: string, now: Launch, slots: map<nat, Option<string>>): World
    requires Waits(w, l)
  {
    var at := w.launches[l].at;
    var hosts :=
      if at.host in w.hosts then
        var h := w.hosts[at.host];
        w.hosts[at.host := h.(reserved := h.reserved - {at.slot}, slots := slots)]
      else w.hosts;
    w.(launches := w.launches[l := now], hosts := hosts)
  }

  function SlotsAt(w: World, at: Place): map<nat, Option<string>> {
    if at.host in w.hosts then w.hosts[at.host].slots else map[]
  }

  function Next(w: World, step: Step): World
    requires Enabled(w, step)
  {
    match step
    case Begin(l) => w.(launches := w.launches[l := Trying])
    case Reserve(l, at) =>
      var h := w.hosts[at.host];
      WithHost(w, at.host, h.(reserved := h.reserved[at.slot := l])).(open := w.open[l := at],
               launches := w.launches[l := Asked(at)])
    case Act(l) => w.(containers := w.containers[w.open[l] := l], open := w.open - {l}, started := w.started + {l})
    case Decline(l) => w.(open := w.open - {l})
    case Release(l, foreign) =>
      var at := w.launches[l].at;
      var slots := SlotsAt(w, at);
      Heard(w, l, Trying, if foreign && at.slot !in slots then slots[at.slot := None] else slots)
    case Commit(l) =>
      var at := w.launches[l].at;
      Heard(w, l, Running(at), SlotsAt(w, at)[at.slot := Some(l)])
    case Hold(l) =>
      var at := w.launches[l].at;
      Heard(w, l, Unclear(at), SlotsAt(w, at)[at.slot := Some(l)])
    case GiveUp(l) => w.(launches := w.launches[l := Full])
    case Exit(at) => w.(containers := w.containers - {at})
    case Remove(l, at) => if Holds(w, l, at) then w.(containers := w.containers - {at}) else w
    case Clear(l, at) =>
      var h := w.hosts[at.host];
      if at.slot in h.slots && (h.slots[at.slot] == Some(l) || h.slots[at.slot].None?) then
        WithHost(w, at.host, h.(slots := h.slots - {at.slot}))
      else w
    case ListSlots(id, slots) => WithHost(w, id, w.hosts[id].(slots := slots))
    case Pick(id, reason, stop) =>
      WithHost(w, id, w.hosts[id].(phase := if stop then Stopping else Deleting, returning := Some(reason)))
    case Verify(id) => WithHost(w, id, w.hosts[id].(returning := Some(Verified)))
    case Restore(id, phase) => WithHost(w, id, w.hosts[id].(phase := phase, returning := None))
    case Return(id) =>
      if w.hosts[id].phase.Stopping? then WithHost(w, id, w.hosts[id].(phase := Stopped, slots := map[], returning := None))
      else w.(hosts := w.hosts - {id})
    case Change(id, phase) =>
      WithHost(w, id, w.hosts[id].(phase := phase, slots := if phase.Stopped? then map[] else w.hosts[id].slots))
    case Found(id, phase, size) => WithHost(w, id, Host(phase, size, map[], map[], None)).(ever := w.ever + {id})
    case Lost(id) => w.(hosts := w.hosts - {id})
  }

  // ---- what every step keeps ----

  /** Where a lease's container is or may still appear: only where its launch
      says, and not both. */
  predicate Where(w: World, l: string) {
    && (l in w.open ==>
          && l in w.launches && (w.launches[l].Asked? || w.launches[l].Unclear?) && w.launches[l].at == w.open[l]
          && l !in w.started)
    && (l in w.started ==>
          l in w.launches && (w.launches[l].Asked? || w.launches[l].Unclear? || w.launches[l].Running?))
    && (forall at :: at in w.containers && w.containers[at] == l ==> l in w.started && w.launches[l].at == at)
    && (l in w.launches && w.launches[l].Running? ==> l in w.started)
  }

  /** Reservations are exactly the starts the pool has not heard of; a host
      being returned takes none, and one returned empty has none. */
  predicate HostKept(w: World, id: string)
    requires id in w.hosts
  {
    var h := w.hosts[id];
    && id in w.ever
    && (forall s :: s in h.reserved ==> h.reserved[s] in w.launches && w.launches[h.reserved[s]] == Asked(Place(id, s)))
    && (forall l :: l in w.launches && AskedAt(w, l, id) ==>
          w.launches[l].at.slot in h.reserved && h.reserved[w.launches[l].at.slot] == l)
    && (h.returning.Some? <==> h.phase.Deleting? || h.phase.Stopping?)
    && (PickedEmpty(h) ==> h.reserved == map[])
  }

  /** Picked as empty and not restored since. */
  predicate PickedEmpty(h: Host) {
    h.returning == Some(Emptied) || h.returning == Some(Verified)
  }

  ghost predicate Inv(w: World) {
    && (forall l :: Where(w, l))
    && (forall id :: id in w.hosts ==> HostKept(w, id))
    && (forall l :: l in w.launches && w.launches[l].Asked? ==> w.launches[l].at.host in w.ever)
  }

  /** Steps that change only the pool's view of its hosts. */
  predicate OfHosts(step: Step) {
    || step.Clear? || step.ListSlots? || step.Pick? || step.Verify? || step.Restore?
    || step.Return? || step.Change? || step.Found? || step.Lost?
  }

  lemma OnlyHosts(w: World, step: Step)
    requires Enabled(w, step) && OfHosts(step)
    ensures Next(w, step) == w.(hosts := Next(w, step).hosts, ever := Next(w, step).ever)
  {
  }

  lemma WhereKept(w: World, step: Step, l: string)
    requires Where(w, l) && Enabled(w, step)
    ensures Where(Next(w, step), l)
  {
    hide Where, Next, Enabled;
    if OfHosts(step) {
      OnlyHosts(w, step);
      WhereSame(w, Next(w, step), l);
    } else {
      WhereMoved(w, step, l);
    }
  }

  lemma WhereSame(w: World, w': World, l: string)
    requires Where(w, l) && w' == w.(hosts := w'.hosts, ever := w'.ever)
    ensures Where(w', l)
  {
  }

  lemma WhereMoved(w: World, step: Step, l: string)
    requires Where(w, l) && Enabled(w, step) && !OfHosts(step)
    ensures Where(Next(w, step), l)
  {
  }

  /** A start on the host is out. */
  predicate AskedAt(w: World, l: string, id: string) {
    l in w.launches && w.launches[l].Asked? && w.launches[l].at.host == id
  }

  /** A step that neither reserves nor hears of a start on this host. */
  lemma HostSame(w: World, w': World, id: string)
    requires id in w.hosts && id in w'.hosts && HostKept(w, id) && w'.hosts[id].reserved == w.hosts[id].reserved
    requires id in w'.ever
    requires forall l :: AskedAt(w, l, id) ==> AskedAt(w', l, id)
    requires forall l :: AskedAt(w', l, id) ==> AskedAt(w, l, id) && w'.launches[l] == w.launches[l]
    requires w'.hosts[id].returning.Some? <==> w'.hosts[id].phase.Deleting? || w'.hosts[id].phase.Stopping?
    requires PickedEmpty(w'.hosts[id]) ==> w'.hosts[id].reserved == map[]
    ensures HostKept(w', id)
  {
  }

  lemma ReserveKeeps(w: World, l: string, at: Place, id: string)
    requires Inv(w) && Enabled(w, Reserve(l, at)) && id in w.hosts
    ensures HostKept(Next(w, Reserve(l, at)), id)
  {
    hide Where;
    assert HostKept(w, id);
    if id != at.host { HostSame(w, Next(w, Reserve(l, at)), id); } else { ReserveHere(w, l, at); }
  }

  lemma ReserveHere(w: World, l: string, at: Place)
    requires Enabled(w, Reserve(l, at)) && HostKept(w, at.host)
    ensures HostKept(Next(w, Reserve(l, at)), at.host)
  {
  }

  /** The pool hears of a start: the reservation goes with the request. */
  lemma HeardKeeps(w: World, w': World, l: string, id: string)
    requires Inv(w) && Waits(w, l) && id in w.hosts && id in w'.hosts && w'.ever == w.ever
    requires l in w'.launches && w'.launches == w.launches[l := w'.launches[l]] && !w'.launches[l].Asked?
    requires var h, h' := w.hosts[id], w'.hosts[id];
             && h'.phase == h.phase && h'.returning == h.returning
             && h'.reserved == if w.launches[l].at.host == id then h.reserved - {w.launches[l].at.slot} else h.reserved
    ensures HostKept(w', id)
  {
    assert HostKept(w, id);
    var at := w.launches[l].at;
    if at.host == id {
      assert at.slot in w.hosts[id].reserved && w.hosts[id].reserved[at.slot] == l;
    }
  }

  lemma HeardShape(w: World, step: Step, id: string)
    requires Enabled(w, step) && (step.Release? || step.Commit? || step.Hold?) && id in Next(w, step).hosts
    ensures var w', l := Next(w, step), step.lease;
            && Waits(w, l) && id in w.hosts && w'.ever == w.ever
            && l in w'.launches && w'.launches == w.launches[l := w'.launches[l]] && !w'.launches[l].Asked?
            && w'.hosts[id].phase == w.hosts[id].phase && w'.hosts[id].returning == w.hosts[id].returning
            && var reserved := w.hosts[id].reserved;
            w'.hosts[id].reserved == if w.launches[l].at.host == id then reserved - {w.launches[l].at.slot} else reserved
  {
  }

  lemma HeardStep(w: World, step: Step, id: string)
    requires Inv(w) && Enabled(w, step) && (step.Release? || step.Commit? || step.Hold?) && id in Next(w, step).hosts
    ensures HostKept(Next(w, step), id)
  {
    hide HostKept, Where, Inv, Next, Enabled;
    HeardShape(w, step, id);
    HeardKeeps(w, Next(w, step), step.lease, id);
  }

  /** Steps of agents, containers and launches that touch no host. */
  lemma ElsewhereStep(w: World, step: Step, id: string)
    requires Inv(w) && Enabled(w, step)
    requires (step.Begin? || step.Act? || step.Decline? || step.GiveUp? || step.Exit? || step.Remove?) && id in w.hosts
    ensures HostKept(Next(w, step), id)
  {
    hide HostKept, Where;
    PhaseFacts(w, id);
    HostSame(w, Next(w, step), id);
  }

  /** The returning flag goes with the phase, and with no reservation. */
  predicate PhaseKept(h: Host) {
    (h.returning.Some? <==> h.phase.Deleting? || h.phase.Stopping?) && (PickedEmpty(h) ==> h.reserved == map[])
  }

  /** Steps that change the pool's view of a host's slots, or which hosts it
      knows. */
  lemma ViewShape(w: World, step: Step, id: string)
    requires Enabled(w, step) && id in Next(w, step).hosts && id in w.hosts && id in w.ever && PhaseKept(w.hosts[id])
    requires step.Clear? || step.ListSlots? || step.Found? || step.Lost?
    ensures var w' := Next(w, step);
            w'.launches == w.launches && id in w'.ever && w'.hosts[id].reserved == w.hosts[id].reserved && PhaseKept(w'.hosts[id])
  {
  }

  /** Steps that change a host's phase. */
  lemma PhaseShape(w: World, step: Step, id: string)
    requires Enabled(w, step) && id in Next(w, step).hosts && id in w.hosts && id in w.ever && PhaseKept(w.hosts[id])
    requires step.Pick? || step.Verify? || step.Restore? || step.Return? || step.Change?
    ensures var w' := Next(w, step);
            w'.launches == w.launches && id in w'.ever && w'.hosts[id].reserved == w.hosts[id].reserved && PhaseKept(w'.hosts[id])
  {
  }

  lemma HostStep(w: World, step: Step, id: string)
    requires Inv(w) && Enabled(w, step) && id in Next(w, step).hosts && id in w.hosts
    requires || step.Clear?
             || step.ListSlots?
             || step.Pick?
             || step.Verify?
             || step.Restore?
             || step.Return?
             || step.Change?
             || step.Found?
             || step.Lost?
    ensures HostKept(Next(w, step), id)
  {
    hide HostKept, Where, Next, Enabled;
    PhaseFacts(w, id);
    if step.Clear? || step.ListSlots? || step.Found? || step.Lost? {
      ViewShape(w, step, id);
    } else {
      PhaseShape(w, step, id);
    }
    HostSame(w, Next(w, step), id);
  }

  lemma HostStays(w: World, step: Step, id: string)
    requires Inv(w) && Enabled(w, step) && id in Next(w, step).hosts
    ensures HostKept(Next(w, step), id)
  {
    hide HostKept, Where, Inv;
    if step.Reserve? {
      ReserveKeeps(w, step.lease, step.at, id);
    } else if step.Release? || step.Commit? || step.Hold? {
      HeardStep(w, step, id);
    } else if step.Found? && step.host == id {
      FoundKept(w, step);
    } else if step.Begin? || step.Act? || step.Decline? || step.GiveUp? || step.Exit? || step.Remove? {
      ElsewhereStep(w, step, id);
    } else {
      HostStep(w, step, id);
    }
  }

  lemma PhaseFacts(w: World, id: string)
    requires id in w.hosts && HostKept(w, id)
    ensures var h := w.hosts[id];
            && id in w.ever && (h.returning.Some? <==> h.phase.Deleting? || h.phase.Stopping?)
            && (PickedEmpty(h) ==> h.reserved == map[])
  {
  }

  lemma FoundKept(w: World, step: Step)
    requires Inv(w) && step.Found? && Enabled(w, step)
    ensures HostKept(Next(w, step), step.host)
  {
  }

  lemma StepKeepsInv(w: World, step: Step)
    requires Inv(w) && Enabled(w, step)
    ensures Inv(Next(w, step))
  {
    hide HostKept, Where;
    var w' := Next(w, step);
    forall l ensures Where(w', l) { WhereKept(w, step, l); }
    forall id | id in w'.hosts ensures HostKept(w', id) { HostStays(w, step, id); }
    if step.Reserve? { PhaseFacts(w, step.at.host); }
  }

  ghost predicate Run(worlds: seq<World>, steps: seq<Step>) {
    && |worlds| == |steps| + 1
    && worlds[0] == World(map[], {}, map[], map[], {}, map[])
    && forall i :: 0 <= i < |steps| ==> Enabled(worlds[i], steps[i]) && worlds[i + 1] == Next(worlds[i], steps[i])
  }

  lemma {:induction false} RunKeepsInv(worlds: seq<World>, steps: seq<Step>, i: nat)
    requires Run(worlds, steps) && i < |worlds|
    ensures Inv(worlds[i])
  {
    if i > 0 {
      RunKeepsInv(worlds, steps, i - 1);
      StepKeepsInv(worlds[i - 1], steps[i - 1]);
    }
  }

  // ---- what the pool promises ----

  /** At every moment of every run, with lost answers, late starts, stale
      listings and hosts coming and going, a lease has a container in at most
      one slot of any host or tier; a request that may still start it excludes
      one that runs; a launch that reported a worker started it at that place;
      and one that reported no room has none and never will. */
  lemma LeaseHasOnePlace(worlds: seq<World>, steps: seq<Step>, i: nat, l: string, a: Place, b: Place)
    requires Run(worlds, steps) && i < |worlds|
    ensures var w := worlds[i];
            && (Holds(w, l, a) && Holds(w, l, b) ==> a == b)
            && (Holds(w, l, a) ==> l !in w.open)
            && (l in w.launches && w.launches[l].Running? ==>
                  l in w.started && (Holds(w, l, a) ==> a == w.launches[l].at))
            && (l in w.launches && (w.launches[l].Full? || w.launches[l].Trying?) ==>
                  l !in w.open && l !in w.started && !Holds(w, l, a))
  {
    RunKeepsInv(worlds, steps, i);
    assert Where(worlds[i], l);
  }

  /** From the moment a host is picked as empty until it is returned or
      restored it has no reservation, and the pool waits for no start on any of
      its slots; and it never waits for two starts on one slot of a known
      host. A start it gave up waiting for may still happen. */
  lemma PickedHostIsFree(worlds: seq<World>, steps: seq<Step>, i: nat, id: string, l: string, m: string)
    requires Run(worlds, steps) && i < |worlds| && id in worlds[i].hosts
    ensures var w := worlds[i];
            && (PickedEmpty(w.hosts[id]) ==>
                  w.hosts[id].reserved == map[] && !(Waits(w, l) && w.launches[l].at.host == id))
            && (Waits(w, l) && Waits(w, m) && w.launches[l].at == w.launches[m].at && w.launches[l].at.host == id ==>
                  l == m)
  {
    RunKeepsInv(worlds, steps, i);
    assert HostKept(worlds[i], id);
  }

  // ---- what may still appear on a host about to be returned ----

  /** Whatever runs or may still be started on the host was asked for when
      base was, by a launch that has given up waiting. */
  ghost predicate OnlyLate(base: World, w: World, id: string) {
    && (forall at :: at in w.containers && at.host == id ==> Late(base, w.containers[at], at))
    && (forall l :: l in w.open && w.open[l].host == id ==> Late(base, l, w.open[l]))
  }

  predicate Late(base: World, l: string, at: Place) {
    l in base.open && base.open[l] == at && l in base.launches && base.launches[l] == Unclear(at)
  }

  lemma LateNow(w: World, id: string)
    requires Inv(w) && id in w.hosts && PickedEmpty(w.hosts[id]) && EmptyHost(w, id)
    ensures OnlyLate(w, w, id)
  {
    assert HostKept(w, id);
    forall l | l in w.open && w.open[l].host == id ensures Late(w, l, w.open[l]) {
      assert Where(w, l);
    }
  }

  lemma LateKept(base: World, w: World, step: Step, id: string)
    requires OnlyLate(base, w, id) && Enabled(w, step) && id in w.hosts && !w.hosts[id].phase.Serving?
    ensures OnlyLate(base, Next(w, step), id)
  {
    hide Late;
  }

  /** From the listing that verified a host picked as empty until it serves
      again, while it is deleted, stopped, and a stopped host discarded, the
      only containers that can run on it are those of launches whose start
      request was still open at that listing, and whose slot the pool had given
      up waiting for. */
  lemma {:induction false} VerifiedHost(worlds: seq<World>, steps: seq<Step>, i: nat, j: nat, id: string)
    requires Run(worlds, steps) && i < j < |worlds| && steps[i] == Verify(id)
    requires forall k :: i < k <= j ==> id in worlds[k].hosts && !worlds[k].hosts[id].phase.Serving?
    ensures OnlyLate(worlds[i], worlds[j], id)
  {
    hide OnlyLate;
    RunKeepsInv(worlds, steps, i);
    if j == i + 1 {
      LateNow(worlds[i], id);
      LateKept(worlds[i], worlds[i], steps[i], id);
    } else {
      VerifiedHost(worlds, steps, i, j - 1, id);
      RunKeepsInv(worlds, steps, j - 1);
      assert HostKept(worlds[j - 1], id);
      LateKept(worlds[i], worlds[j - 1], steps[j - 1], id);
    }
  }

  /** And each of those can: the start that was given up happens, and then the
      host is returned with the container on it. */
  lemma LateStartIsPossible(w: World, id: string, l: string)
    requires Inv(w) && Enabled(w, Verify(id)) && l in w.open && w.open[l].host == id
    ensures w.hosts[id].returning == Some(Emptied) && Late(w, l, w.open[l])
    ensures var verified := Next(w, Verify(id));
            && Enabled(verified, Act(l))
            && var started := Next(verified, Act(l));
            && Holds(started, l, w.open[l]) && started.hosts[id].returning == Some(Verified)
            && Enabled(started, Return(id))
            && Holds(Next(started, Return(id)), l, w.open[l])
  {
    assert HostKept(w, id);
    assert Where(w, l);
  }

  const AT := Place("h", 0)

  /** The lease's start request is out, and the pool no longer waits for it. */
  const HELD := World(map["h" := Host(Serving, 1, map[0 := Some("l")], map[], None)], {"h"}, map[], map["l" := AT], {},
                      map["l" := Unclear(AT)])

  const WAITING := World(map["h" := Host(Serving, 1, map[], map[], None)], {"h"}, map[], map[], {}, map["l" := Trying])

  lemma WaitingInstance() returns (worlds: seq<World>, steps: seq<Step>)
    ensures Run(worlds, steps) && |worlds| == |steps| + 1 && worlds[|steps|] == WAITING
  {
    hide Run;
    worlds, steps := [World(map[], {}, map[], map[], {}, map[])], [];
    RunStarts(worlds);
    worlds, steps := RunOn(worlds, steps, Found("h", Booting, 1));
    worlds, steps := RunOn(worlds, steps, Change("h", Serving));
    worlds, steps := RunOn(worlds, steps, Begin("l"));
  }

  lemma HeldInstance() returns (worlds: seq<World>, steps: seq<Step>)
    ensures Run(worlds, steps) && |worlds| == |steps| + 1 && worlds[|steps|] == HELD
  {
    hide Run;
    worlds, steps := WaitingInstance();
    worlds, steps := RunOn(worlds, steps, Reserve("l", AT));
    worlds, steps := RunOn(worlds, steps, Hold("l"));
  }

  /** A run in which a host is verified empty and returned with a container on
      it: the answer to the lease's start was lost, the listings came before
      the start, and then the agent acted. */
  lemma LateInstance() returns (worlds: seq<World>, steps: seq<Step>)
    ensures Run(worlds, steps) && |steps| >= 3 && |worlds| == |steps| + 1
    ensures steps[|steps| - 3] == Verify("h") && steps[|steps| - 2] == Act("l") && steps[|steps| - 1] == Return("h")
    ensures Holds(worlds[|steps|], "l", AT)
  {
    hide Run, Inv;
    worlds, steps := HeldInstance();
    worlds, steps := RunOn(worlds, steps, ListSlots("h", map[]));
    worlds, steps := RunOn(worlds, steps, Pick("h", Emptied, false));
    worlds, steps := LateEnd(worlds, steps);
  }

  lemma LateEnd(worlds: seq<World>, steps: seq<Step>) returns (worlds': seq<World>, steps': seq<Step>)
    requires Run(worlds, steps) && |worlds| == |steps| + 1
    requires Enabled(worlds[|steps|], Verify("h")) && "l" in worlds[|steps|].open && worlds[|steps|].open["l"] == AT
    ensures Run(worlds', steps') && |worlds'| == |steps'| + 1 && steps' == steps + [Verify("h"), Act("l"), Return("h")]
    ensures Holds(worlds'[|steps'|], "l", AT)
  {
    hide Run, Inv, Next, Enabled;
    RunKeepsInv(worlds, steps, |steps|);
    LateStartIsPossible(worlds[|steps|], "h", "l");
    worlds', steps' := RunOn(worlds, steps, Verify("h"));
    worlds', steps' := RunOn(worlds', steps', Act("l"));
    worlds', steps' := RunOn(worlds', steps', Return("h"));
  }

  lemma RunStarts(worlds: seq<World>)
    requires worlds == [World(map[], {}, map[], map[], {}, map[])]
    ensures Run(worlds, [])
  {
  }

  lemma RunOn(worlds: seq<World>, steps: seq<Step>, step: Step) returns (worlds': seq<World>, steps': seq<Step>)
    requires Run(worlds, steps) && |worlds| == |steps| + 1 && Enabled(worlds[|steps|], step)
    ensures steps' == steps + [step] && worlds' == worlds + [Next(worlds[|steps|], step)]
    ensures Run(worlds', steps') && |worlds'| == |steps'| + 1
  {
    worlds', steps' := worlds + [Next(worlds[|steps|], step)], steps + [step];
  }
}
