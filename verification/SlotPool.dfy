/**
 Launching a lease in a pool slot as it runs: pick a slot, ask the agent, and
 act on what comes back, across pools in order. A script says what the agents,
 other leases and the hosts do meanwhile; every change is a step of the slot
 machine.
 */
module SlotPools {
  import opened Options
  import HostAgents
  import opened Slots
  import Text

  const MAX_START_ATTEMPTS: nat := 3

  // ---- picking a slot ----

  predicate Free(h: Host, slot: nat) {
    slot < h.size && slot !in h.slots && slot !in h.reserved
  }

  function FreeBelow(h: Host, n: nat): nat {
    if n == 0 then 0 else FreeBelow(h, n - 1) + if Free(h, n - 1) then 1 else 0
  }

  /** It is the number of free slots. */
  lemma {:induction false} FreeBelowMeans(h: Host, n: nat)
    ensures FreeBelow(h, n) == |set s: nat | s < n && Free(h, s)|
  {
    var free := set s: nat | s < n && Free(h, s);
    if n == 0 {
      assert free == {};
    } else {
      FreeBelowMeans(h, n - 1);
      var below := set s: nat | s < n - 1 && Free(h, s);
      assert free == below + if Free(h, n - 1) then {n - 1} else {};
    }
  }

  /** The lowest free slot. */
  method FreeSlot(h: Host) returns (slot: Option<nat>)
    ensures slot.Some? ==> Free(h, slot.value) && forall s :: 0 <= s < slot.value ==> !Free(h, s)
    ensures slot.None? <==> FreeBelow(h, h.size) == 0
    ensures slot.None? ==> forall s: nat :: !Free(h, s)
  {
    for i := 0 to h.size
      invariant forall s :: 0 <= s < i ==> !Free(h, s)
      invariant FreeBelow(h, i) == 0
    {
      if i !in h.slots && i !in h.reserved {
        CountGrows(h, i + 1, h.size);
        return Some(i);
      }
    }
    return None;
  }

  lemma {:induction false} CountGrows(h: Host, m: nat, n: nat)
    requires m <= n
    ensures FreeBelow(h, m) <= FreeBelow(h, n)
  {
    if m < n { CountGrows(h, m, n - 1); }
  }

  method FreeCount(h: Host) returns (free: nat)
    ensures free == FreeBelow(h, h.size)
  {
    free := 0;
    for i := 0 to h.size
      invariant free == FreeBelow(h, i)
    {
      if i !in h.slots && i !in h.reserved { free := free + 1; }
    }
  }

  /** What else decides between hosts: whether the host was heard from lately,
      whether it waits for its replacement, and its age. */
  datatype Rank = Rank(heard: bool, stale: bool, createdAt: int)

  /** A host may take a lease: it serves, does not rest after a refusal, and
      has a free slot. */
  predicate Eligible(w: World, resting: set<string>, id: string, rank: string -> Rank) {
    && id in w.hosts && w.hosts[id].phase.Serving? && id !in resting && rank(id).heard
    && FreeBelow(w.hosts[id], w.hosts[id].size) > 0
  }

  /** No eligible host of the pool's image is passed over for one that is not,
      none of the same kind has fewer free slots, and of equally full ones none
      is older. */
  predicate Best(w: World, resting: set<string>, ids: seq<string>, rank: string -> Rank, best: string)
    requires best in w.hosts
  {
    forall i :: 0 <= i < |ids| && Eligible(w, resting, ids[i], rank) ==>
      var x, y := FreeBelow(w.hosts[best], w.hosts[best].size), FreeBelow(w.hosts[ids[i]], w.hosts[ids[i]].size);
      && (rank(best).stale ==> rank(ids[i]).stale)
      && (rank(best).stale == rank(ids[i]).stale ==> x <= y && (x == y ==> rank(best).createdAt <= rank(ids[i]).createdAt))
  }

  predicate NoneEligible(w: World, resting: set<string>, ids: seq<string>, rank: string -> Rank) {
    forall i :: 0 <= i < |ids| ==> !Eligible(w, resting, ids[i], rank)
  }

  /** The busiest host that still has room, so that spare hosts empty out. */
  method PickPlace(w: World, resting: set<string>, ids: seq<string>, rank: string -> Rank) returns (at: Option<Place>)
    ensures at.Some? ==>
              && at.value.host in ids && Eligible(w, resting, at.value.host, rank)
              && Free(w.hosts[at.value.host], at.value.slot)
              && (forall s: nat :: s < at.value.slot ==> !Free(w.hosts[at.value.host], s))
              && Best(w, resting, ids, rank, at.value.host)
    ensures at.None? <==> NoneEligible(w, resting, ids, rank)
  {
    var best := None;
    var bestFree := 0;
    for i := 0 to |ids|
      invariant best.Some? ==>
                  && best.value in ids && Eligible(w, resting, best.value, rank)
                  && bestFree == FreeBelow(w.hosts[best.value], w.hosts[best.value].size)
      invariant best.Some? ==> Best(w, resting, ids[..i], rank, best.value)
      invariant best.None? ==> forall k :: 0 <= k < i ==> !Eligible(w, resting, ids[k], rank)
    {
      var id := ids[i];
      assert forall k :: 0 <= k < i ==> ids[..i + 1][k] == ids[..i][k];
      if id in w.hosts && w.hosts[id].phase.Serving? && id !in resting && rank(id).heard {
        var free := FreeCount(w.hosts[id]);
        if free > 0 {
          if best.None? || (rank(best.value).stale && !rank(id).stale)
             || (rank(id).stale == rank(best.value).stale
                 && (free < bestFree || (free == bestFree && rank(id).createdAt < rank(best.value).createdAt))) {
            best, bestFree := Some(id), free;
          }
        }
      }
    }
    assert ids[..|ids|] == ids;
    if best.None? { return None; }
    var slot := FreeSlot(w.hosts[best.value]);
    return Some(Place(best.value, slot.value));
  }

  // ---- launching ----

  /** What becomes of a start request: the host is not reached at all; it is
      and may act on it any time, but no answer comes; or its agent acts on it
      now and answers. */
  datatype Contact = Unreachable | Silence | Answered

  /** What happens around one call: others' steps and hosts that have rested,
      whether the agent is reached and what it meets, and whether a late
      listing shows the lease running. */
  datatype Event = Event(others: seq<Step>, rested: set<string>, contact: Contact, start: HostAgents.StartWorld,
                         remove: HostAgents.RemoveWorld,
                         late: bool)

  datatype Result = Worker(at: Place) | Partial(at: Place) | NoRoom | Invalid

  /** Steps of others: anything but the controller's own steps of this lease. */
  predicate ByOthers(step: Step, lease: string) {
    match step
    case Begin(l) => l != lease
    case Reserve(l, _) => l != lease
    case Release(l, _) => l != lease
    case Commit(l) => l != lease
    case Hold(l) => l != lease
    case GiveUp(l) => l != lease
    case _ => true
  }

  /** What the next call meets. */
  function Upcoming(script: seq<Event>): Event {
    if script == [] then Event([], {}, Silence, HostAgents.QUIET, HostAgents.QUIET_REMOVE, false) else script[0]
  }

  /** The world once others have acted. */
  function AfterOthers(w: World, steps: seq<Step>, lease: string): World {
    if steps == [] then w
    else
      var before, step := AfterOthers(w, steps[..|steps| - 1], lease), steps[|steps| - 1];
      if ByOthers(step, lease) && Enabled(before, step) then Next(before, step) else before
  }

  lemma OthersOneMore(w: World, steps: seq<Step>, i: nat, lease: string)
    requires i < |steps|
    ensures var before, step := AfterOthers(w, steps[..i], lease), steps[i];
            AfterOthers(w, steps[..i + 1], lease) ==
            if ByOthers(step, lease) && Enabled(before, step) then Next(before, step) else before
  {
    assert steps[..i + 1][..i] == steps[..i];
  }

  function After(w: World, steps: seq<Step>): World {
    if steps == [] then w
    else
      var before := After(w, steps[..|steps| - 1]);
      if Enabled(before, steps[|steps| - 1]) then Next(before, steps[|steps| - 1]) else before
  }

  lemma AfterOneMore(w: World, steps: seq<Step>, step: Step)
    requires Enabled(After(w, steps), step)
    ensures After(w, steps + [step]) == Next(After(w, steps), step)
  {
    assert (steps + [step])[..|steps|] == steps;
  }

  /** How many slots were reserved for a lease. */
  function Attempts(steps: seq<Step>, lease: string): nat {
    if steps == [] then 0
    else
      var last := steps[|steps| - 1];
      Attempts(steps[..|steps| - 1], lease) + if last.Reserve? && last.lease == lease then 1 else 0
  }

  lemma AttemptsOneMore(steps: seq<Step>, step: Step, lease: string)
    ensures Attempts(steps + [step], lease) == Attempts(steps, lease) + if step.Reserve? && step.lease == lease then 1 else 0
  {
    assert (steps + [step])[..|steps|] == steps;
  }

  /** What others leave of a launch: where it stands. */
  lemma OthersKeep(w: World, step: Step, lease: string)
    requires Enabled(w, step) && ByOthers(step, lease)
    ensures lease in Next(w, step).launches <==> lease in w.launches
    ensures lease in w.launches ==> Next(w, step).launches[lease] == w.launches[lease]
    ensures !(step.Reserve? && step.lease == lease)
  {
  }

  /** The agent's slot at a place. */
  function Content(w: World, at: Place): Option<string> {
    if at in w.containers then Some(w.containers[at]) else None
  }

  /** The request is still out, and the agent acts on it and answers. */
  predicate Reaches(w: World, lease: string, event: Event) {
    lease in w.open && event.contact.Answered?
  }

  /** The agent starts the container and says so. */
  predicate Starts(w: World, at: Place, s: HostAgents.StartWorld) {
    at !in w.containers && HostAgents.Runs(s) && s.runOk && s.readBackOk
  }

  /** It refuses, the request being in order and Docker not at fault. */
  predicate Declines(w: World, at: Place, s: HostAgents.StartWorld) {
    !Starts(w, at, s) && !HostAgents.Malformed(s) && !HostAgents.DockerFails(Content(w, at), s)
  }

  /** The slot a worker ID names, on the host of the tier it names, and the
      lease. */
  function Named(workerId: string, tiers: set<string>): Option<(Place, string)> {
    match Text.Route(workerId, tiers)
    case None => None
    case Some((tier, id)) =>
      match Text.ParseWorkerId(id)
      case None => None
      case Some((host, slot, lease)) => Some((Place(Text.Tiered(tier, host), slot), lease))
  }

  /** A worker's own ID names its slot and its lease. */
  lemma WorkerIsNamed(tier: string, tiers: set<string>, host: string, slot: nat, lease: string)
    requires tier in tiers && ':' !in tier && host != "" && '/' !in host && lease != "" && '/' !in lease
    ensures Named(Text.Tiered(tier, Text.WorkerId(host, slot, lease)), tiers) ==
            Some((Place(Text.Tiered(tier, host), slot), lease))
  {
    Text.RouteReads(tier, tiers, host, slot, lease);
  }

  // ---- which slots a launch asked for ----

  /** From the from-th step on, the lease was given slots of ids only. */
  ghost predicate OnlyIn(trace: seq<Step>, from: nat, lease: string, ids: seq<string>) {
    forall k :: from <= k < |trace| && trace[k].Reserve? && trace[k].lease == lease ==> trace[k].at.host in ids
  }

  ghost predicate NoReserve(trace: seq<Step>, from: nat, lease: string) {
    forall k :: from <= k < |trace| ==> !(trace[k].Reserve? && trace[k].lease == lease)
  }

  /** A host rests only if it did before, or the lease was given a slot of it. */
  ghost predicate RestedBy(resting: set<string>, before: set<string>, trace: seq<Step>, from: nat, lease: string) {
    forall h :: h in resting ==> h in before || GivenOn(trace, from, lease, h)
  }

  ghost predicate GivenOn(trace: seq<Step>, from: nat, lease: string, host: string) {
    exists k :: from <= k < |trace| && trace[k].Reserve? && trace[k].lease == lease && trace[k].at.host == host
  }

  lemma NoneYet(trace: seq<Step>, lease: string, ids: seq<string>, resting: set<string>)
    ensures OnlyIn(trace, |trace|, lease, ids) && RestedBy(resting, resting, trace, |trace|, lease)
  {
  }

  /** Steps that give the lease no slot. */
  lemma {:induction false} NoNewReserve(a: seq<Step>, b: seq<Step>, lease: string)
    requires a <= b && Attempts(b, lease) <= Attempts(a, lease)
    ensures Attempts(b, lease) == Attempts(a, lease) && NoReserve(b, |a|, lease)
    decreases |b|
  {
    if |b| > |a| {
      var front := b[..|b| - 1];
      AttemptsGrow(a, front, lease);
      NoNewReserve(a, front, lease);
      forall k | |a| <= k < |b| ensures !(b[k].Reserve? && b[k].lease == lease) {
        if k < |front| { assert front[k] == b[k]; }
      }
    } else {
      assert a == b;
    }
  }

  lemma {:induction false} AttemptsGrow(a: seq<Step>, b: seq<Step>, lease: string)
    requires a <= b
    ensures Attempts(a, lease) <= Attempts(b, lease)
    decreases |b|
  {
    if |b| > |a| { AttemptsGrow(a, b[..|b| - 1], lease); } else { assert a == b; }
  }

  lemma GivenStays(a: seq<Step>, b: seq<Step>, from: nat, lease: string, host: string)
    requires a <= b && GivenOn(a, from, lease, host)
    ensures GivenOn(b, from, lease, host)
  {
    var k :| from <= k < |a| && a[k].Reserve? && a[k].lease == lease && a[k].at.host == host;
    assert b[k] == a[k];
  }

  lemma RestedLonger(a: seq<Step>, b: seq<Step>, from: nat, lease: string, resting: set<string>, before: set<string>)
    requires a <= b && RestedBy(resting, before, a, from, lease)
    ensures RestedBy(resting, before, b, from, lease)
  {
    hide GivenOn;
    forall h | h in resting && h !in before ensures GivenOn(b, from, lease, h) { GivenStays(a, b, from, lease, h); }
  }

  lemma Longer(a: seq<Step>, b: seq<Step>, from: nat, lease: string, ids: seq<string>, rest: set<string>,
               rest': set<string>, before: set<string>)
    requires from <= |a| && a <= b && Attempts(b, lease) == Attempts(a, lease) && rest' <= rest
    requires OnlyIn(a, from, lease, ids) && RestedBy(rest, before, a, from, lease)
    ensures OnlyIn(b, from, lease, ids) && RestedBy(rest', before, b, from, lease)
  {
    hide GivenOn, Attempts;
    NoNewReserve(a, b, lease);
    RestedLonger(a, b, from, lease, rest, before);
  }

  lemma LongerBy(a: seq<Step>, b: seq<Step>, from: nat, lease: string, ids: seq<string>, rest: set<string>,
                 rest': set<string>, before: set<string>, host: string)
    requires from <= |a| && a <= b && Attempts(b, lease) == Attempts(a, lease) && rest' <= rest + {host}
    requires OnlyIn(a, from, lease, ids) && RestedBy(rest, before, a, from, lease) && GivenOn(a, from, lease, host)
    ensures OnlyIn(b, from, lease, ids) && RestedBy(rest', before, b, from, lease)
  {
    hide GivenOn, Attempts;
    Longer(a, b, from, lease, ids, rest, rest, before);
    GivenStays(a, b, from, lease, host);
  }

  lemma OneReserve(a: seq<Step>, from: nat, lease: string, ids: seq<string>, at: Place, rest: set<string>,
                   before: set<string>)
    requires from <= |a| && OnlyIn(a, from, lease, ids) && RestedBy(rest, before, a, from, lease) && at.host in ids
    ensures var b := a + [Reserve(lease, at)];
            && OnlyIn(b, from, lease, ids) && RestedBy(rest, before, b, from, lease)
            && GivenOn(b, from, lease, at.host)
  {
    var b := a + [Reserve(lease, at)];
    RestedLonger(a, b, from, lease, rest, before);
    assert b[|a|] == Reserve(lease, at);
  }

  // ---- a launch that nothing stands in the way of ----

  /** Somebody has room, the slots the pool takes for free are free, and the
      agent asked first answers and meets no obstacle. */
  ghost predicate Lucky(w: World, resting: set<string>, script: seq<Event>, ids: seq<string>, rank: string -> Rank) {
    && |script| >= 2 && script[0].others == [] && script[1].others == []
    && script[1].contact.Answered? && script[1].start == HostAgents.QUIET
    && !NoneEligible(w, resting - script[0].rested, ids, rank)
    && forall at: Place :: at.host in ids && at.host in w.hosts && Free(w.hosts[at.host], at.slot) ==> at !in w.containers
  }

  lemma LuckyFirst(w: World, resting: set<string>, script: seq<Event>, ids: seq<string>, rank: string -> Rank,
                   lease: string)
    requires Lucky(w, resting, script, ids, rank)
    ensures Upcoming(script) == script[0] && AfterOthers(w, Upcoming(script).others, lease) == w
    ensures !NoneEligible(w, resting - Upcoming(script).rested, ids, rank)
    ensures forall at: Place :: at.host in ids && at.host in w.hosts && Free(w.hosts[at.host], at.slot) ==> at !in w.containers
  {
  }

  lemma LuckySecond(w: World, script: seq<Event>, lease: string, at: Place)
    requires |script| >= 2 && script[1].others == [] && script[1].contact.Answered?
    requires script[1].start == HostAgents.QUIET && Enabled(w, Reserve(lease, at)) && at !in w.containers
    ensures var event, w' := Upcoming(script[1..]), Next(w, Reserve(lease, at));
            && AfterOthers(w', event.others, lease) == w' && Reaches(w', lease, event) && Starts(w', at, event.start)
  {
  }

  lemma StillLucky(w: World, resting: set<string>, script: seq<Event>, ids: seq<string>, rank: string -> Rank,
                   lease: string)
    requires Lucky(w, resting, script, ids, rank) && Enabled(w, Begin(lease))
    ensures Lucky(Next(w, Begin(lease)), resting, script, ids, rank)
  {
  }

  // ---- pools in order ----

  /** How far the run was when a pool had no room, and who rested then. */
  datatype Tried = Tried(upto: nat, resting: set<string>)

  function LastTried(from: nat, tried: seq<Tried>): nat {
    if tried == [] then from else tried[|tried| - 1].upto
  }

  /** The j-th pool was tried after those before it and had no room: three of
      its slots refused, or no host of it could take the lease, where a host
      rests only if it did before or refused this lease. */
  ghost predicate HadNoRoom(start: World, trace: seq<Step>, from: nat, lease: string, tried: seq<Tried>, j: nat,
                            ids: seq<string>, rank: string -> Rank, before: set<string>)
    requires j < |tried|
  {
    var since, t := LastTried(from, tried[..j]), tried[j];
    && from <= since <= t.upto <= |trace| && OnlyIn(trace[..t.upto], since, lease, ids)
    && RestedBy(t.resting, before, trace[..t.upto], from, lease)
    && (|| Attempts(trace[..t.upto], lease) == Attempts(trace[..since], lease) + MAX_START_ATTEMPTS
        || NoneEligible(After(start, trace[..t.upto]), t.resting, ids, rank))
  }

  lemma HadLonger(start: World, a: seq<Step>, b: seq<Step>, from: nat, lease: string, tried: seq<Tried>, j: nat,
                  ids: seq<string>, rank: string -> Rank, before: set<string>)
    requires j < |tried| && a <= b && HadNoRoom(start, a, from, lease, tried, j, ids, rank, before)
    ensures HadNoRoom(start, b, from, lease, tried, j, ids, rank, before)
  {
    hide OnlyIn, RestedBy, Attempts, NoneEligible, After;
    var since, t := LastTried(from, tried[..j]), tried[j];
    assert b[..t.upto] == a[..t.upto] && b[..since] == a[..since];
  }

  lemma HadMore(start: World, trace: seq<Step>, from: nat, lease: string, tried: seq<Tried>, more: seq<Tried>, j: nat,
                ids: seq<string>, rank: string -> Rank, before: set<string>)
    requires j < |tried| && tried <= more && HadNoRoom(start, trace, from, lease, tried, j, ids, rank, before)
    ensures HadNoRoom(start, trace, from, lease, more, j, ids, rank, before)
  {
    hide OnlyIn, RestedBy, Attempts, NoneEligible, After;
    assert more[..j] == tried[..j];
  }

  ghost predicate AllHadNone(start: World, trace: seq<Step>, from: nat, lease: string, tried: seq<Tried>,
                             pools: seq<seq<string>>, rank: string -> Rank, before: set<string>) {
    && |tried| <= |pools|
    && forall j :: 0 <= j < |tried| ==> HadNoRoom(start, trace, from, lease, tried, j, pools[j], rank, before)
  }

  lemma NoneTried(start: World, trace: seq<Step>, from: nat, lease: string, pools: seq<seq<string>>,
                  rank: string -> Rank, before: set<string>)
    ensures AllHadNone(start, trace, from, lease, [], pools, rank, before)
  {
  }

  lemma AllLonger(start: World, a: seq<Step>, b: seq<Step>, from: nat, lease: string, tried: seq<Tried>,
                  pools: seq<seq<string>>, rank: string -> Rank, before: set<string>)
    requires a <= b && AllHadNone(start, a, from, lease, tried, pools, rank, before)
    ensures AllHadNone(start, b, from, lease, tried, pools, rank, before)
  {
    hide HadNoRoom;
    forall j | 0 <= j < |tried| ensures HadNoRoom(start, b, from, lease, tried, j, pools[j], rank, before) {
      HadLonger(start, a, b, from, lease, tried, j, pools[j], rank, before);
    }
  }

  lemma AllMore(start: World, trace: seq<Step>, from: nat, lease: string, tried: seq<Tried>, more: seq<Tried>,
                pools: seq<seq<string>>, rank: string -> Rank, before: set<string>)
    requires AllHadNone(start, trace, from, lease, tried, pools, rank, before) && |more| == |tried| + 1 <= |pools|
    requires tried <= more && HadNoRoom(start, trace, from, lease, more, |tried|, pools[|tried|], rank, before)
    ensures AllHadNone(start, trace, from, lease, more, pools, rank, before)
  {
    hide HadNoRoom;
    forall j | 0 <= j < |tried| ensures HadNoRoom(start, trace, from, lease, more, j, pools[j], rank, before) {
      HadMore(start, trace, from, lease, tried, more, j, pools[j], rank, before);
    }
  }

  lemma HadNow(start: World, a: seq<Step>, b: seq<Step>, from: nat, lease: string, tried: seq<Tried>, more: seq<Tried>,
               ids: seq<string>, rank: string -> Rank, resting: set<string>, before: set<string>)
    requires a <= b && from <= LastTried(from, tried) <= |a| && more == tried + [Tried(|b|, resting)]
    requires NoReserve(a, LastTried(from, tried), lease) && OnlyIn(b, |a|, lease, ids)
    requires RestedBy(resting, before, b, from, lease)
    requires || Attempts(b, lease) == Attempts(a, lease) + MAX_START_ATTEMPTS
             || NoneEligible(After(start, b), resting, ids, rank)
    ensures HadNoRoom(start, b, from, lease, more, |tried|, ids, rank, before)
    ensures NoReserve(b, LastTried(from, more), lease)
  {
    hide RestedBy, NoneEligible, After, Attempts;
    var since := LastTried(from, tried);
    assert more[..|tried|] == tried && b[..|b|] == b;
    SameAttempts(a, b, since, lease);
    forall k | since <= k < |b| && b[k].Reserve? && b[k].lease == lease ensures k >= |a| {}
  }

  lemma SameAttempts(a: seq<Step>, b: seq<Step>, since: nat, lease: string)
    requires a <= b && since <= |a| && NoReserve(a, since, lease)
    ensures Attempts(b[..since], lease) == Attempts(a, lease)
  {
    assert b[..since] == a[..since];
    AttemptsSame(a, since, lease);
  }

  lemma {:induction false} AttemptsSame(a: seq<Step>, since: nat, lease: string)
    requires since <= |a| && NoReserve(a, since, lease)
    ensures Attempts(a[..since], lease) == Attempts(a, lease)
    decreases |a|
  {
    if since < |a| {
      var front := a[..|a| - 1];
      assert front[..since] == a[..since];
      AttemptsSame(front, since, lease);
    } else {
      assert a[..since] == a;
    }
  }

  lemma RestedLater(a: seq<Step>, b: seq<Step>, from: nat, lease: string, mid: set<string>, resting: set<string>,
                    before: set<string>)
    requires from <= |a| && a <= b && RestedBy(mid, before, a, from, lease) && RestedBy(resting, mid, b, |a|, lease)
    ensures RestedBy(resting, before, b, from, lease)
  {
    hide GivenOn;
    forall h | h in resting && h !in before ensures GivenOn(b, from, lease, h) {
      if h in mid { GivenStays(a, b, from, lease, h); } else { GivenSince(b, from, |a|, lease, h); }
    }
  }

  lemma GivenSince(trace: seq<Step>, from: nat, later: nat, lease: string, host: string)
    requires from <= later && GivenOn(trace, later, lease, host)
    ensures GivenOn(trace, from, lease, host)
  {
  }

  lemma BegunNone(a: seq<Step>, b: seq<Step>, lease: string, resting: set<string>)
    requires b == a + [Begin(lease)]
    ensures NoReserve(b, |a|, lease) && RestedBy(resting, resting, b, |a|, lease)
  {
  }

  datatype Destroyed = Gone | Again | Unknown

  class Placement {
    const rank: string -> Rank
    var world: World
    var resting: set<string>
    var script: seq<Event>
    ghost const start: World
    ghost var trace: seq<Step>

    /** Whatever happened so far is a run of the slot machine. */
    ghost predicate Valid()
      reads this
    {
      world == After(start, trace) && Inv(start)
    }

    constructor (w: World, rank: string -> Rank, script: seq<Event>)
      requires Inv(w)
      ensures Valid() && world == w && this.rank == rank && this.script == script && trace == [] && resting == {}
    {
      this.rank, this.world, this.script, start, trace, resting := rank, w, script, w, [], {};
    }

    method Do(step: Step)
      requires Valid() && Enabled(world, step)
      modifies `world, `trace
      ensures Valid() && world == Next(old(world), step) && trace == old(trace) + [step]
    {
      hide Next, Enabled, Inv;
      AfterOneMore(start, trace, step);
      world, trace := Next(world, step), trace + [step];
    }

    /** Others act, and hosts may have rested long enough; this launch stands
        where it stood. */
    method Await(lease: string) returns (event: Event)
      requires Valid()
      modifies `world, `trace, `script, `resting
      ensures Valid() && old(trace) <= trace
      ensures event == Upcoming(old(script)) && world == AfterOthers(old(world), event.others, lease)
      ensures script == (if old(script) == [] then [] else old(script)[1..]) && resting == old(resting) - event.rested
      ensures (lease in world.launches <==> lease in old(world).launches)
      ensures lease in world.launches ==> world.launches[lease] == old(world).launches[lease]
      ensures Attempts(trace, lease) == Attempts(old(trace), lease)
    {
      hide Next, Enabled, After, Attempts, Inv, ByOthers;
      event := Event([], {}, Silence, HostAgents.QUIET, HostAgents.QUIET_REMOVE, false);
      assert resting - {} == resting;
      if script == [] { return; }
      event := script[0];
      script := script[1..];
      resting := resting - event.rested;
      for i := 0 to |event.others|
        invariant Valid() && old(trace) <= trace
        invariant world == AfterOthers(old(world), event.others[..i], lease)
        invariant script == old(script)[1..] && resting == old(resting) - event.rested
        invariant (lease in world.launches <==> lease in old(world).launches)
        invariant lease in world.launches ==> world.launches[lease] == old(world).launches[lease]
        invariant Attempts(trace, lease) == Attempts(old(trace), lease)
      {
        var step := event.others[i];
        OthersOneMore(old(world), event.others, i, lease);
        if ByOthers(step, lease) && Enabled(world, step) {
          OthersKeep(world, step, lease);
          AttemptsOneMore(trace, step, lease);
          Do(step);
        }
      }
      assert event.others[..|event.others|] == event.others;
    }

    /** Tries up to three slots of one pool. An answer that proves nothing was
        started frees the slot and the next is tried; an unclear one is read
        back, and if the lease does not show, the slot stays taken. */
    method LaunchIn(ids: seq<string>, lease: string) returns (r: Result)
      requires Valid() && lease in world.launches && world.launches[lease].Trying?
      modifies `world, `trace, `script, `resting
      ensures Valid() && lease in world.launches && old(trace) <= trace
      ensures match r
              case Worker(at) => world.launches[lease] == Running(at) && at.host in ids
              case Partial(at) => world.launches[lease] == Unclear(at) && at.host in ids
              case NoRoom =>
                && world.launches[lease].Trying?
                && (|| Attempts(trace, lease) == Attempts(old(trace), lease) + MAX_START_ATTEMPTS
                    || NoneEligible(world, resting, ids, rank))
              case Invalid => world.launches[lease].Trying?
      ensures Attempts(trace, lease) <= Attempts(old(trace), lease) + MAX_START_ATTEMPTS
      ensures OnlyIn(trace, |old(trace)|, lease, ids) && RestedBy(resting, old(resting), trace, |old(trace)|, lease)
      ensures Lucky(old(world), old(resting), old(script), ids, rank) ==> r.Worker?
    {
      hide Next, Enabled, After, Attempts, Inv, NoneEligible, OnlyIn, RestedBy, AfterOthers;
      ghost var lucky := Lucky(world, resting, script, ids, rank);
      NoneYet(trace, lease, ids, resting);
      for attempt := 0 to MAX_START_ATTEMPTS
        invariant Valid() && lease in world.launches && world.launches[lease].Trying? && old(trace) <= trace
        invariant Attempts(trace, lease) == Attempts(old(trace), lease) + attempt
        invariant OnlyIn(trace, |old(trace)|, lease, ids) && RestedBy(resting, old(resting), trace, |old(trace)|, lease)
        invariant attempt == 0 ==> world == old(world) && resting == old(resting) && script == old(script)
        invariant attempt > 0 ==> !lucky
      {
        ghost var t0, rest0 := trace, resting;
        var _ := Await(lease);
        Longer(t0, trace, |old(trace)|, lease, ids, rest0, resting, old(resting));
        if lucky { LuckyFirst(old(world), old(resting), old(script), ids, rank, lease); }
        var place := PickPlace(world, resting, ids, rank);
        if place.None? { return NoRoom; }
        AskedOf(world, resting, place.value, rank);
        ReserveStep(world, lease, place.value);
        AttemptsOneMore(trace, Reserve(lease, place.value), lease);
        ghost var w1, t1 := world, trace;
        Do(Reserve(lease, place.value));
        OneReserve(t1, |old(trace)|, lease, ids, place.value, resting, old(resting));
        if lucky { LuckySecond(w1, old(script), lease, place.value); }
        ghost var t2, rest2 := trace, resting;
        var answer := Ask(lease, place.value);
        LongerBy(t2, trace, |old(trace)|, lease, ids, rest2, resting, old(resting), place.value.host);
        if answer.Some? { return answer.value; }
      }
      return NoRoom;
    }

    /** Asks the agent to start the lease and acts on its answer. Only an
        answer that the agent gives with the slot untouched, or a host that was
        not reached, lets the next slot be tried; then the host rests, or the
        slot counts as taken. */
    method Ask(lease: string, at: Place) returns (r: Option<Result>)
      requires Valid() && lease in world.launches && world.launches[lease] == Asked(at)
      modifies `world, `trace, `script, `resting
      ensures Valid() && lease in world.launches && old(trace) <= trace
      ensures r.None? || r == Some(Invalid) ==>
                world.launches[lease].Trying? && lease !in world.open && lease !in world.started
      ensures r.None? ==> at.host !in world.hosts || at.host in resting || at.slot in world.hosts[at.host].slots
      ensures resting <= old(resting) + {at.host}
      ensures var event := Upcoming(old(script));
              var seen := AfterOthers(old(world), event.others, lease);
              && (Reaches(seen, lease, event) && Starts(seen, at, event.start) ==> r == Some(Worker(at)))
              && (r == Some(Invalid) <==> Reaches(seen, lease, event) && HostAgents.Malformed(event.start))
              && (r.None? <==>
                    && lease in seen.open
                    && (|| event.contact.Unreachable?
                        || (event.contact.Answered? && Declines(seen, at, event.start))))
      ensures r.Some? && !r.value.Invalid? ==>
                || (r.value == Worker(at) && world.launches[lease] == Running(at) && lease in world.started)
                || (r.value == Partial(at) && world.launches[lease] == Unclear(at))
      ensures Attempts(trace, lease) == Attempts(old(trace), lease)
    {
      hide Next, Enabled, After, Attempts, Inv, HostAgents.Runs;
      var event := Await(lease);
      if lease in world.open && !event.contact.Silence? {
        var reply := Deliver(lease, at, event);
        match reply
        case None =>
          FreeUp(lease, at, false);
          resting := resting + {at.host};
          return None;
        case Some(Ok) =>
          HearSteps(world, lease, false);
          AttemptsOneMore(trace, Commit(lease), lease);
          Do(Commit(lease));
          return Some(Worker(at));
        case Some(Refuse(code)) =>
          if code != HostAgents.DockerFailed {
            FreeUp(lease, at, code == HostAgents.SlotBusy);
            if code == HostAgents.Invalid { return Some(Invalid); }
            if code != HostAgents.SlotBusy { resting := resting + {at.host}; }
            return None;
          }
      }
      r := ReadBack(lease, at);
    }

    /** The request reaches the agent, or is known not to: the agent's own
        start decides whether there is a container. */
    method Deliver(lease: string, at: Place, event: Event) returns (reply: Option<HostAgents.Reply>)
      requires Valid() && lease in world.launches && world.launches[lease] == Asked(at) && lease in world.open
      requires !event.contact.Silence?
      modifies `world, `trace
      ensures Valid() && old(trace) <= trace && Attempts(trace, lease) == Attempts(old(trace), lease)
      ensures lease in world.launches && world.launches[lease] == Asked(at) && lease !in world.open
      ensures reply.None? <==> event.contact.Unreachable?
      ensures lease in world.started <==>
                event.contact.Answered? && at !in old(world).containers && at in world.containers && world.containers[at] == lease
      ensures reply == Some(HostAgents.Ok) ==> lease in world.started
      ensures reply.None? || (reply.value.Refuse? && reply.value.code != HostAgents.DockerFailed) ==>
                lease !in world.started
      ensures reply.Some? && reply.value == HostAgents.Refuse(HostAgents.SlotBusy) ==> at in old(world).containers
      ensures reply.Some? ==>
                && (reply.value.Ok? <==> Starts(old(world), at, event.start))
                && (reply.value == HostAgents.Refuse(HostAgents.Invalid) <==> HostAgents.Malformed(event.start))
                && (reply.value == HostAgents.Refuse(HostAgents.DockerFailed) <==>
                      HostAgents.DockerFails(Content(old(world), at), event.start))
    {
      hide After, Attempts, Inv;
      reply := None;
      OpenAt(start, trace, lease);
      var made := false;
      if event.contact.Answered? {
        var slot := new HostAgents.Slot(Content(world, at));
        var answer := slot.Start(lease, event.start);
        made := slot.container != Content(world, at);
        reply := Some(answer);
      }
      var step := if made then Act(lease) else Decline(lease);
      AttemptsOneMore(trace, step, lease);
      Do(step);
    }

    /** Nothing was started: the reservation goes, and a slot that was busy is
        taken for another's. */
    method FreeUp(lease: string, at: Place, foreign: bool)
      requires Valid() && lease in world.launches && world.launches[lease] == Asked(at) && lease !in world.open
      requires lease !in world.started
      modifies `world, `trace
      ensures Valid() && old(trace) <= trace && Attempts(trace, lease) == Attempts(old(trace), lease)
      ensures lease in world.launches && world.launches[lease].Trying? && lease !in world.open
      ensures lease !in world.started
      ensures foreign && at.host in world.hosts ==> at.slot in world.hosts[at.host].slots
    {
      hide After, Attempts, Inv;
      AttemptsOneMore(trace, Release(lease, foreign), lease);
      Do(Release(lease, foreign));
    }

    /** No clear answer: a listing that shows the lease is the start, only
        late; otherwise the slot stays taken. */
    method ReadBack(lease: string, at: Place) returns (r: Option<Result>)
      requires Valid() && lease in world.launches && world.launches[lease] == Asked(at)
      modifies `world, `trace, `script, `resting
      ensures Valid() && lease in world.launches && old(trace) <= trace
      ensures Attempts(trace, lease) == Attempts(old(trace), lease)
      ensures r.Some?
      ensures || (r.value == Worker(at) && world.launches[lease] == Running(at) && lease in world.started)
              || (r.value == Partial(at) && world.launches[lease] == Unclear(at) && at.host in resting)
      ensures resting <= old(resting) + {at.host}
      ensures var event := Upcoming(old(script));
              r.value.Worker? <==> event.late && lease in AfterOthers(old(world), event.others, lease).started
    {
      hide Next, Enabled, After, Attempts, Inv;
      var listing := Await(lease);
      HearSteps(world, lease, false);
      if listing.late && lease in world.started {
        AttemptsOneMore(trace, Commit(lease), lease);
        Do(Commit(lease));
        return Some(Worker(at));
      }
      AttemptsOneMore(trace, Hold(lease), lease);
      Do(Hold(lease));
      resting := resting + {at.host};
      return Some(Partial(at));
    }

    /** Starts the lease on the first pool with room: before one is tried,
        every earlier one was, and had none. */
    method Launch(pools: seq<seq<string>>, lease: string) returns (r: Result, ghost tried: seq<Tried>)
      requires Valid() && lease !in world.launches
      modifies `world, `trace, `script, `resting
      ensures Valid() && lease in world.launches && old(trace) <= trace && |tried| <= |pools|
      ensures AllHadNone(start, trace, |old(trace)|, lease, tried, pools, rank, old(resting))
      ensures match r
              case Worker(at) =>
                world.launches[lease] == Running(at) && |tried| < |pools| && at.host in pools[|tried|]
              case Partial(at) =>
                world.launches[lease] == Unclear(at) && |tried| < |pools| && at.host in pools[|tried|]
              case NoRoom => world.launches[lease].Full? && |tried| == |pools|
              case Invalid => world.launches[lease].Full? && |tried| < |pools|
      ensures Attempts(trace, lease) <= Attempts(old(trace), lease) + MAX_START_ATTEMPTS * |pools|
      ensures pools != [] && Lucky(old(world), old(resting), old(script), pools[0], rank) ==> r.Worker? && tried == []
    {
      hide Next, Enabled, After, Attempts, Inv, NoneEligible, OnlyIn, RestedBy, Lucky, AllHadNone;
      NoneTried(start, trace, |trace|, lease, pools, rank, resting);
      tried := [];
      ghost var lucky := pools != [] && Lucky(world, resting, script, pools[0], rank);
      ghost var t0 := trace;
      EndSteps(world, lease);
      AttemptsOneMore(trace, Begin(lease), lease);
      if lucky { StillLucky(world, resting, script, pools[0], rank, lease); }
      Do(Begin(lease));
      BegunNone(t0, trace, lease, resting);
      AllLonger(start, t0, trace, |t0|, lease, tried, pools, rank, resting);
      for i := 0 to |pools|
        invariant Valid() && lease in world.launches && world.launches[lease].Trying? && old(trace) <= trace
        invariant Attempts(trace, lease) <= Attempts(old(trace), lease) + MAX_START_ATTEMPTS * i
        invariant |tried| == i && |t0| <= LastTried(|t0|, tried) <= |trace|
        invariant NoReserve(trace, LastTried(|t0|, tried), lease)
        invariant RestedBy(resting, old(resting), trace, |t0|, lease)
        invariant AllHadNone(start, trace, |t0|, lease, tried, pools, rank, old(resting))
        invariant i == 0 ==> resting == old(resting) && script == old(script)
        invariant i == 0 && lucky ==> Lucky(world, resting, script, pools[0], rank)
        invariant i > 0 ==> !lucky
      {
        ghost var t1, rest1, was := trace, resting, tried;
        r := LaunchIn(pools[i], lease);
        AllLonger(start, t1, trace, |t0|, lease, tried, pools, rank, old(resting));
        if r.Worker? || r.Partial? { return; }
        if r.Invalid? {
          ghost var t2 := trace;
          EndSteps(world, lease);
          AttemptsOneMore(trace, GiveUp(lease), lease);
          Do(GiveUp(lease));
          AllLonger(start, t2, trace, |t0|, lease, tried, pools, rank, old(resting));
          return;
        }
        tried := tried + [Tried(|trace|, resting)];
        RestedLater(t1, trace, |t0|, lease, rest1, resting, old(resting));
        HadNow(start, t1, trace, |t0|, lease, was, tried, pools[i], rank, resting, old(resting));
        AllMore(start, trace, |t0|, lease, was, tried, pools, rank, old(resting));
      }
      ghost var t3 := trace;
      EndSteps(world, lease);
      AttemptsOneMore(trace, GiveUp(lease), lease);
      Do(GiveUp(lease));
      AllLonger(start, t3, trace, |t0|, lease, tried, pools, rank, old(resting));
      r := NoRoom;
    }

    /** Removes the worker an ID names, through the agent of its host. Of all
        containers only the named lease's in the named slot can go: an ID from
        an earlier use of the slot harms nobody. It goes exactly if the host is
        known and runs and its agent answers and removes it. Gone is answered
        exactly if the host is confirmed unknown, is stopped, or its agent
        removed the container or has none of the lease; then the pool no longer
        counts the slot as the lease's. */
    method Destroy(workerId: string, tiers: set<string>) returns (r: Destroyed)
      requires Valid()
      modifies `world, `trace, `script, `resting
      ensures Valid() && old(trace) <= trace
      ensures Named(workerId, tiers).None? ==> world == old(world) && r == if workerId == "" then Gone else Unknown
      ensures Named(workerId, tiers).Some? ==>
                var (at, lease) := Named(workerId, tiers).value;
                var event := Upcoming(old(script));
                var seen := AfterOthers(old(world), event.others, lease);
                && !r.Unknown?
                && (r.Gone? <==>
                      if at.host !in seen.hosts then event.contact.Answered?
                      else seen.hosts[at.host].phase.Stopped?
                           || (event.contact.Answered? && Removes(seen, lease, at, event.remove)))
                && (forall place, other :: Holds(world, other, place) <==>
                      && Holds(seen, other, place)
                      && !(other == lease && place == at && at.host in seen.hosts && !seen.hosts[at.host].phase.Stopped?
                           && event.contact.Answered? && event.remove.inspectOk && event.remove.removeOk))
                && (r.Gone? && at.host in seen.hosts && !seen.hosts[at.host].phase.Stopped? ==> !Holds(world, lease, at))
                && (r.Gone? ==> !CountedAs(world, lease, at))
                && world == seen.(containers := world.containers, hosts := world.hosts)
    {
      hide After, Inv, Attempts, Next, Enabled, Named, AfterOthers;
      if workerId == "" {
        NothingNamed(tiers);
        return Gone;
      }
      var named := Named(workerId, tiers);
      if named.None? { return Unknown; }
      var (at, lease) := named.value;
      var event := Await(lease);
      RemoveSteps(world, lease, at);
      if at.host !in world.hosts { return if event.contact.Answered? then Gone else Again; }
      if world.hosts[at.host].phase.Stopped? {
        Do(Clear(lease, at));
        return Gone;
      }
      if !event.contact.Answered? { return Again; }
      var slot := new HostAgents.Slot(Content(world, at));
      var answer := slot.Remove(lease, event.remove);
      if slot.container != Content(world, at) {
        Do(Remove(lease, at));
        RemoveSteps(world, lease, at);
      }
      if !answer.Ok? && answer != HostAgents.Refuse(HostAgents.LeaseMismatch) { return Again; }
      Do(Clear(lease, at));
      return Gone;
    }
  }

  /** The agent finds another lease's container, or none, or removes this
      lease's, and what belongs to the slot goes with it. */
  predicate Removes(w: World, lease: string, at: Place, m: HostAgents.RemoveWorld) {
    && m.inspectOk
    && (|| (at in w.containers && w.containers[at] != lease)
        || (m.discardOk && (at in w.containers ==> m.removeOk)))
  }

  /** The pool counts the slot as the lease's, or as somebody's. */
  predicate CountedAs(w: World, lease: string, at: Place) {
    && at.host in w.hosts && at.slot in w.hosts[at.host].slots
    && (w.hosts[at.host].slots[at.slot] == Some(lease) || w.hosts[at.host].slots[at.slot].None?)
  }

  lemma NothingNamed(tiers: set<string>)
    ensures Named("", tiers).None?
  {
    assert Text.Cut("", ':').None?;
  }

  lemma RemoveSteps(w: World, l: string, at: Place)
    ensures Enabled(w, Remove(l, at)) && Next(w, Remove(l, at)) == w.(containers := Next(w, Remove(l, at)).containers)
    ensures !Holds(Next(w, Remove(l, at)), l, at)
    ensures Next(w, Remove(l, at)).containers == if Holds(w, l, at) then w.containers - {at} else w.containers
    ensures at.host in w.hosts ==>
              && Enabled(w, Clear(l, at)) && Next(w, Clear(l, at)) == w.(hosts := Next(w, Clear(l, at)).hosts)
              && !CountedAs(Next(w, Clear(l, at)), l, at)
  {
  }

  /** What it takes to reserve a picked place. */
  lemma AskedOf(w: World, resting: set<string>, at: Place, rank: string -> Rank)
    requires Eligible(w, resting, at.host, rank) && Free(w.hosts[at.host], at.slot)
    ensures at.host in w.hosts && w.hosts[at.host].phase.Serving?
  {
  }

  /** An open request is out for the place its launch waits for. */
  lemma OpenAt(w: World, steps: seq<Step>, l: string)
    requires Inv(w) && l in After(w, steps).open
    ensures l in After(w, steps).launches
    ensures After(w, steps).launches[l] in {Asked(After(w, steps).open[l]), Unclear(After(w, steps).open[l])}
    ensures l !in After(w, steps).started
  {
    AfterKeepsInv(w, steps);
    assert Where(After(w, steps), l);
  }

  lemma ReserveStep(w: World, l: string, at: Place)
    requires l in w.launches && w.launches[l].Trying? && at.host in w.hosts && w.hosts[at.host].phase.Serving?
    requires Free(w.hosts[at.host], at.slot)
    ensures Enabled(w, Reserve(l, at)) && l in Next(w, Reserve(l, at)).launches
    ensures Next(w, Reserve(l, at)).launches[l] == Asked(at)
  {
  }

  lemma HearSteps(w: World, l: string, foreign: bool)
    requires Waits(w, l)
    ensures Enabled(w, Hold(l)) && l in Next(w, Hold(l)).launches
    ensures Next(w, Hold(l)).launches[l] == Unclear(w.launches[l].at)
    ensures l in w.started ==>
              && Enabled(w, Commit(l)) && l in Next(w, Commit(l)).launches && l in Next(w, Commit(l)).started
              && Next(w, Commit(l)).launches[l] == Running(w.launches[l].at)
    ensures l !in w.open && l !in w.started ==>
              && Enabled(w, Release(l, foreign)) && l in Next(w, Release(l, foreign)).launches
              && Next(w, Release(l, foreign)).launches[l] == Trying
  {
  }

  lemma EndSteps(w: World, l: string)
    ensures l !in w.launches ==>
              Enabled(w, Begin(l)) && l in Next(w, Begin(l)).launches && Next(w, Begin(l)).launches[l] == Trying
    ensures l in w.launches && w.launches[l].Trying? ==>
              Enabled(w, GiveUp(l)) && l in Next(w, GiveUp(l)).launches && Next(w, GiveUp(l)).launches[l] == Full
  {
  }

  lemma {:induction false} AfterKeepsInv(w: World, steps: seq<Step>)
    requires Inv(w)
    ensures Inv(After(w, steps))
  {
    if steps != [] {
      AfterKeepsInv(w, steps[..|steps| - 1]);
      var before := After(w, steps[..|steps| - 1]);
      if Enabled(before, steps[|steps| - 1]) { StepKeepsInv(before, steps[|steps| - 1]); }
    }
  }

  /** A launch that starts where nothing of the lease is leaves, whatever the
      script, at most one container of it, at the place it reports. */
  lemma ReportedPlace(w: World, steps: seq<Step>, lease: string, at: Place)
    requires Inv(w) && lease in After(w, steps).launches && Holds(After(w, steps), lease, at)
    ensures var launch := After(w, steps).launches[lease]; !launch.Trying? && !launch.Full? && launch.at == at
  {
    AfterKeepsInv(w, steps);
    assert Where(After(w, steps), lease);
  }
}
