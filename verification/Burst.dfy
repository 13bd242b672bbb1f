/**
 One burst of launches: a loop that takes a slot for each launch, and the
 launches that run concurrently, report and give their slot back, in any order.
 */
module Bursts {
  import opened Basics
  import Gates

  /** waiting: the loop holds a slot and has not looked at stopped yet.
      reported: launches that told their outcome and still hold their slot. */
  datatype Burst = Burst(limit: nat, needed: nat, begun: nat, waiting: bool, running: nat, reported: nat,
                         stopped: bool, started: nat, failed: nat, over: bool)

  datatype Step =
    | Acquire            // the loop takes a slot
    | Check              // it looks whether to go on, and launches
    | Report(ok: bool)   // a launch ends
    | Free               // and gives its slot back

  function Fresh(concurrency: int, needed: nat): Burst {
    Burst(if concurrency < 1 then 1 else concurrency, needed, 0, false, 0, 0, false, 0, 0, false)
  }

  function Held(b: Burst): nat {
    (if b.waiting then 1 else 0) + b.running + b.reported
  }

  predicate Enabled(b: Burst, step: Step) {
    match step
    case Acquire => !b.over && !b.waiting && b.begun < b.needed && Held(b) < b.limit
    case Check => b.waiting
    case Report(_) => b.running > 0
    case Free => b.reported > 0
  }

  function Next(b: Burst, step: Step): Burst
    requires Enabled(b, step)
  {
    match step
    case Acquire => b.(waiting := true, begun := b.begun + 1)
    case Check =>
      if b.stopped then b.(waiting := false, over := true) else b.(waiting := false, running := b.running + 1)
    case Report(ok) =>
      b.(running := b.running - 1, reported := b.reported + 1, stopped := b.stopped || !ok,
         started := b.started + (if ok then 1 else 0), failed := b.failed + (if ok then 0 else 1))
    case Free => b.(reported := b.reported - 1)
  }

  /** Once a launch failed, those that can still fail were already running. */
  ghost predicate Inv(b: Burst) {
    && b.limit >= 1 && Held(b) <= b.limit && b.begun <= b.needed
    && (b.stopped <==> b.failed > 0) && b.failed + (if b.stopped then b.running else 0) <= b.limit
    && b.started + b.failed + b.running + (if b.waiting || b.over then 1 else 0) == b.begun
    && (b.over ==> b.stopped)
  }

  ghost predicate Run(burst: seq<Burst>, steps: seq<Step>, concurrency: int, needed: nat) {
    && |burst| == |steps| + 1 && burst[0] == Fresh(concurrency, needed)
    && forall i :: 0 <= i < |steps| ==> Enabled(burst[i], steps[i]) && burst[i + 1] == Next(burst[i], steps[i])
  }

  lemma {:induction false} RunKeepsInv(burst: seq<Burst>, steps: seq<Step>, concurrency: int, needed: nat, i: nat)
    requires Run(burst, steps, concurrency, needed) && i < |burst|
    ensures Inv(burst[i]) && burst[i].limit == Fresh(concurrency, needed).limit && burst[i].needed == needed
  {
    if i > 0 {
      RunKeepsInv(burst, steps, concurrency, needed, i - 1);
      StepKeepsInv(burst[i - 1], steps[i - 1]);
    }
  }

  lemma StepKeepsInv(b: Burst, step: Step)
    requires Inv(b) && Enabled(b, step)
    ensures Inv(Next(b, step)) && Next(b, step).limit == b.limit && Next(b, step).needed == b.needed
    ensures Left(Next(b, step)) < Left(b)
  {
  }

  /** In every interleaving: no more launches run at once than the limit, no
      more fail than the limit however many were asked for, and no more start
      than were asked for. */
  lemma BurstBounded(burst: seq<Burst>, steps: seq<Step>, concurrency: int, needed: nat, i: nat)
    requires Run(burst, steps, concurrency, needed) && i < |burst|
    ensures var limit := if concurrency < 1 then 1 else concurrency;
            var b := burst[i];
            b.running <= limit && b.failed <= limit && b.started + b.running <= needed && b.started + b.failed <= needed
  {
    RunKeepsInv(burst, steps, concurrency, needed, i);
  }

  /** A burst ends only when every launch has been heard of, and either all
      were started or one failed. */
  lemma BurstEnds(burst: seq<Burst>, steps: seq<Step>, concurrency: int, needed: nat, i: nat)
    requires Run(burst, steps, concurrency, needed) && i < |burst|
    requires !Enabled(burst[i], Acquire) && !Enabled(burst[i], Check) && burst[i].running == 0 && burst[i].reported == 0
    ensures burst[i].started == needed || (burst[i].failed > 0 && burst[i].started < needed)
  {
    RunKeepsInv(burst, steps, concurrency, needed, i);
  }

  /** How many steps are left at most. */
  function Left(b: Burst): int {
    4 * (b.needed - b.begun) + (if b.waiting then 3 else 0) + 2 * b.running + b.reported
  }

  /** And it does end: every step brings the end nearer. */
  lemma {:induction false} BurstTerminates(burst: seq<Burst>, steps: seq<Step>, concurrency: int, needed: nat, i: nat)
    requires Run(burst, steps, concurrency, needed) && i <= |steps|
    ensures i + Left(burst[i]) <= 4 * needed && Left(burst[i]) >= 0
  {
    RunKeepsInv(burst, steps, concurrency, needed, i);
    if i > 0 {
      BurstTerminates(burst, steps, concurrency, needed, i - 1);
      RunKeepsInv(burst, steps, concurrency, needed, i - 1);
      StepKeepsInv(burst[i - 1], steps[i - 1]);
    }
  }

  /** A burst sized by the gate never takes the fleet above its maximum, at any
      point of any interleaving. */
  lemma FleetBounded(burst: seq<Burst>, steps: seq<Step>, concurrency: int, i: nat,
                     gate: Gates.Gate, current: int, fleet: nat, target: int, maxWorkers: int, now: int)
    requires 0 <= current <= fleet && target > current
    requires var needed := Gates.Allowance(gate, fleet, Gates.RoundTarget(current, fleet, target, maxWorkers), now).0;
             Run(burst, steps, concurrency, needed) && i < |burst| && needed > 0
    ensures fleet + burst[i].started + burst[i].running <= maxWorkers
  {
    var needed := Gates.Allowance(gate, fleet, Gates.RoundTarget(current, fleet, target, maxWorkers), now).0;
    BurstBounded(burst, steps, concurrency, needed, i);
  }

  /** Nor does one for jobs that wait elsewhere, which starts no more than there
      is spare room, idle runners to free and jobs waiting. */
  lemma SpareBounded(burst: seq<Burst>, steps: seq<Step>, concurrency: int, i: nat, spare: Gates.Spare, jobs: int,
                     fleet: nat, maxWorkers: int)
    requires var needed := Gates.SpareCount(spare, jobs, maxWorkers - fleet);
             needed >= 0 && Run(burst, steps, concurrency, needed) && i < |burst|
    ensures var more := burst[i].started + burst[i].running;
            && fleet + more <= Max(fleet, maxWorkers) && more <= Max(0, spare.room)
            && more <= Max(0, spare.slowIdle) && more <= Max(0, Max(0, jobs - spare.busy) - spare.fastIdle)
  {
    BurstBounded(burst, steps, concurrency, Gates.SpareCount(spare, jobs, maxWorkers - fleet), i);
  }
}
