/**
 The applier as it runs. Others push, label and move the target before every
 call it makes to GitHub or the remote, and any call may fail and end the
 tick; a script says when. It may start in any world that ticks leave behind.
 While it is sound, every write is a step of the queue's machine; it writes
 what the snapshot told it to also when that is no such step.
 */
module QueueApply {
  import opened Options
  import opened Git
  import opened Queue
  import opened QueueWorld
  import opened QueueRebase
  import opened QueueRuns
  import opened QueueRough
  import opened QueueTorn
  import opened QueueKeeping
  import P = QueuePlan
  import T = QueueTick

  /** What happens before a call, and whether the call goes through. */
  datatype Event = Event(steps: seq<Step>, ok: bool)

  class Applier {
    const queued: map<int, P.Queued>
    const at: int
    const clash: (Commit, Commit, Commit) -> bool
    ghost const clean: seq<int> -> bool   // which groups do not conflict
    var world: World                // GitHub and the remote
    var script: seq<Event>          // what others do meanwhile
    var report: seq<Outcome>        // formed, deferred and rejected, in order
    var splits: seq<seq<int>>
    ghost var untold: map<int, Commit>    // landed, but not told
    ghost const start: Fine
    ghost var trace: seq<FineStep>
    ghost var sound: bool                 // every write so far was a step

    ghost function Here(): Fine
      reads this
    {
      Fine(world, untold)
    }

    /** While sound, whatever happened so far is a run of the machine. */
    ghost predicate Valid()
      reads this
    {
      Rough(world) && Listed(world, queued) && (sound ==> FineInv(start) && Here() == FineAfter(start, trace))
    }

    /** None of prs landed without being told. */
    ghost predicate Clear(prs: seq<int>)
      reads this
    {
      forall i :: 0 <= i < |prs| ==> prs[i] !in untold
    }

    predicate InQueue(prs: seq<int>)
      reads this
    {
      forall i :: 0 <= i < |prs| ==> prs[i] in queued
    }

    /** Stacking prs is a step of the machine. */
    ghost predicate Sure(prs: seq<int>)
      reads this
    {
      sound && Known(world, queued, prs) && Clear(prs)
    }

    /** Landing the stack is one. */
    ghost predicate Flying(stack: Stack)
      reads this
    {
      sound && InFlight(world, stack) && Clear(stack.Numbers())
    }

    /** Nobody interferes, and what the snapshot says of prs is so. */
    ghost predicate Quiet(prs: seq<int>)
      reads this
    {
      script == [] && QuietGroup(world, queued, prs, clash, clean) && Known(world, queued, prs)
    }

    constructor (w: World, ghost untold: map<int, Commit>, queued: map<int, P.Queued>, at: int,
                 clash: (Commit, Commit, Commit) -> bool, ghost clean: seq<int> -> bool, script: seq<Event>)
      requires Rough(w) && Listed(w, queued)
      ensures Valid() && world == w && this.untold == untold && trace == [] && sound == FineInv(Fine(w, untold))
      ensures this.queued == queued && this.at == at && this.clash == clash && this.clean == clean
      ensures this.script == script
      ensures report == [] && splits == []
    {
      this.queued, this.at, this.clash, this.clean, this.script := queued, at, clash, clean, script;
      this.untold := untold;
      world, start, trace, sound := w, Fine(w, untold), [], FineInv(Fine(w, untold));
      report, splits := [], [];
    }

    /** One step of the machine that lands nothing. */
    method Do(step: Step)
      requires Valid() && Enabled(world, step) && !step.Advance?
      modifies `world, `trace, `sound
      ensures Valid() && world == Next(old(world), step) && trace == old(trace) + [Plainly(step)]
      ensures sound == (old(sound) && Careful(old(Here()), step))
    {
      hide FineInv, Rough, Listed, Next, Enabled;
      sound := sound && Careful(Here(), step);
      if sound { FineOneMore(start, trace, Plainly(step)); }
      RoughKept(world, step);
      GrownNext(world, step);
      ListedGrows(world, Next(world, step), queued);
      world, trace := Next(world, step), trace + [Plainly(step)];
    }

    /** One comment. step is the machine's own step that writes it, if any. */
    method Write(p: int, comment: Comment, ghost step: Option<FineStep>)
      requires Valid() && p in world.prs && CommentFits(world, p, comment)
      modifies `world, `untold, `trace, `sound
      ensures Valid() && world == WithComment(old(world), p, comment) && old(trace) <= trace
      ensures step.None? && comment == old(world).prs[p].comment ==> sound == old(sound) && untold == old(untold)
      ensures step.Some? && old(sound) && FineEnabled(old(Here()), step.value)
              && FineNext(old(Here()), step.value).world == world ==>
                sound && Here() == FineNext(old(Here()), step.value)
      ensures step.Some? && step.value.Plainly? ==> untold == old(untold)
    {
      hide FineInv, Rough, Listed, FineEnabled, CommentFits;
      ghost var next := WithComment(world, p, comment);
      CommentRough(world, p, comment);
      ListedGrows(world, next, queued);
      if step.None? && comment == world.prs[p].comment {
        assert next == world;
      } else if step.Some? && sound && FineEnabled(Here(), step.value) && FineNext(Here(), step.value).world == next {
        FineOneMore(start, trace, step.value);
        untold, trace := FineNext(Here(), step.value).untold, trace + [step.value];
      } else {
        sound := false;
      }
      world := WithComment(world, p, comment);
    }

    /** The target takes the stack. */
    method MoveTarget(stack: Stack)
      requires Valid() && world.job.None? && Chain(world, stack) && IsAncestor(world.target, stack.Top().sha)
      modifies `world, `untold, `trace, `sound
      ensures Valid() && world == old(world).(target := stack.Top().sha, seen := stack.Top().sha) && old(trace) <= trace
      ensures old(Flying(stack)) ==>
                && sound && FineEnabled(old(Here()), Forward(stack.Top().number))
                && Here() == FineNext(old(Here()), Forward(stack.Top().number))
    {
      hide FineInv, Rough, Listed, FineEnabled, InFlight;
      ghost var next := world.(target := stack.Top().sha, seen := stack.Top().sha);
      MovedRough(world, stack);
      ListedGrows(world, next, queued);
      if Flying(stack) {
        LandEnabled(world, stack);
        LandFacts(Here(), stack);
        InFlightMarks(world, stack);
        ghost var step := Forward(stack.Top().number);
        FineOneMore(start, trace, step);
        untold, trace := FineNext(Here(), step).untold, trace + [step];
      } else {
        sound := false;
      }
      world := world.(target := stack.Top().sha, seen := stack.Top().sha);
    }

    /** Holds the stack that prs were rebased into. */
    method Hold(prs: seq<int>, job: Job)
      requires Valid() && world.job.None? && world.target == world.seen && prs != [] && Distinct(prs) && InQueue(prs)
      requires forall i :: 0 <= i < |prs| ==> prs[i] in world.prs
      requires job == NewJob(Read(world, queued), prs, at)
      modifies `world, `trace, `sound
      ensures Valid() && world == Holding(old(world), queued, prs, at) && old(trace) <= trace
      ensures old(Sure(prs)) ==> sound
    {
      hide FineInv, Rough, Listed, FineEnabled, Known, Commits, Build, Next, Enabled;
      HoldingRough(world, queued, prs, at);
      ListedGrows(world, Holding(world, queued, prs, at), queued);
      if Sure(prs) {
        HoldingIsBegin(world, queued, prs, at, clash);
        BeginIsFine(Here(), prs, at);
        FineOneMore(start, trace, Plainly(Begin(prs, at)));
        trace := trace + [Plainly(Begin(prs, at))];
      } else {
        sound := false;
      }
      world := Holding(world, queued, prs, at);
    }

    /** Nobody writes anything: what the comments of some listed pull requests
        say is right again. */
    ghost method RecallAll(order: seq<int>, g: Fine)
      requires Valid() && sound && world.job.None? && Recalls(Here(), g)
      requires forall p :: p in untold && p !in g.untold ==> p in order
      modifies `untold, `trace
      ensures Valid() && Here() == g
    {
      hide FineInv, FineAfter, Rough, Listed;
      for i := 0 to |order|
        invariant Valid() && forall q :: q in g.untold ==> q in untold
        invariant forall q :: q in untold ==>
                    q in old(untold) && untold[q] == old(untold)[q] && (q in g.untold || q !in order[..i])
      {
        var p := order[i];
        assert order[..i + 1] == order[..i] + [p];
        if p in untold && p !in g.untold {
          FineOneMore(start, trace, Recall(p));
          untold, trace := untold - {p}, trace + [Recall(p)];
        }
      }
      assert order[..|order|] == order;
      SameFine(Here(), g);
    }

    /** Tells a pull request where it landed. */
    method SayLanded(p: int, sha: Commit)
      requires Valid() && p in world.prs && Git.Below(sha, world.nextId)
      modifies `world, `untold, `trace, `sound
      ensures Valid() && world == WithComment(old(world), p, LandedAt(sha)) && old(trace) <= trace
      ensures old(sound)
              && (if p in old(untold) then old(untold)[p] == sha else old(world).prs[p].comment == LandedAt(sha)) ==>
                sound && untold == old(untold) - {p}
    {
      hide FineInv, Rough, Listed, CommentFits, FineAfter;
      LandedFits(world, p, sha);
      Write(p, LandedAt(sha), if p in untold then Some(TellLanded(p)) else None);
    }

    /** A comment that keeps the records the snapshot read, and erases a
        landing. */
    method SayPlain(p: int)
      requires Valid() && world.job.None? && p in queued && p in world.prs
      modifies `world, `untold, `trace, `sound
      ensures Valid() && world == WithComment(old(world), p, PlainComment(queued[p].owns)) && old(trace) <= trace
      ensures old(sound) && Speakable(old(Here()), queued, p) ==>
                sound && untold == if old(world).prs[p].AlreadyLanded() && p !in old(untold)
                                   then old(untold)[p := old(world).prs[p].head] else old(untold)
    {
      hide FineInv, Rough, CommentFits, FineAfter;
      PlainFits(world, p, queued[p].owns);
      var comment := PlainComment(queued[p].owns);
      Write(p, comment, if world.prs[p].comment == comment then None
                        else if world.prs[p].AlreadyLanded() then Some(Forget(p)) else Some(Plainly(Plain(p))));
    }

    /** Others act, then the applier's next call goes through or fails. */
    method Call() returns (ok: bool)
      requires Valid()
      modifies `world, `trace, `script, `sound
      ensures Valid() && Disturbed(old(world), world) && old(trace) <= trace && sound == old(sound)
      ensures LabelOff(old(world), world, trace[|old(trace)|..])
      ensures old(script) == [] ==> ok && script == [] && world == old(world)
    {
      hide FineInv, FineAfter, Next, Enabled, Rough, Listed, Newer;
      NoRelabel(world, trace[|trace|..]);
      Undisturbed(world);
      if script == [] { return true; }
      var event := script[0];
      script := script[1..];
      for i := 0 to |event.steps|
        invariant Valid() && Disturbed(old(world), world) && old(trace) <= trace && sound == old(sound)
        invariant LabelOff(old(world), world, trace[|old(trace)|..])
      {
        var step := event.steps[i];
        if ByOthers(step) && Enabled(world, step) {
          ghost var before := world;
          RoughBounded(world);
          OthersDisturb(world, step);
          LabelOffStep(old(world), world, step, trace[|old(trace)|..]);
          ghost var history := trace;
          Do(step);
          assert trace[|old(trace)|..] == history[|old(trace)|..] + [Plainly(step)];
          DisturbedTrans(old(world), before, world);
        }
      }
      ok := event.ok;
    }

    /** Writes the job's comments, the top one last, then pushes every branch
        at once unless one moved. */
    method Publish(prs: seq<int>, job: Job) returns (ok: bool, pushed: bool)
      requires Valid() && Distinct(prs) && Noted(world, job, prs, 0)
      modifies `world, `trace, `script, `sound
      ensures Valid() && world.job.None? && Kept(old(world), world, prs) && old(trace) <= trace && sound == old(sound)
      ensures pushed ==> ok && Pushed(world, job, prs)
      ensures ok && !pushed ==> exists i :: 0 <= i < |prs| && Unleased(world, job, prs, i)
      ensures !pushed ==> OnlyGrew(old(world), world)
      ensures old(script) == [] ==> ok && script == [] && world == Published(old(world))
    {
      hide FineInv, FineAfter, Next, Enabled, Noted, Pushed, T.WriteAll, Kept, Rough, Listed, Newer;
      pushed := false;
      StillKept(world, prs);
      for i := 0 to |prs|
        invariant old(script) == [] ==> script == [] && T.WriteAll(world) == T.WriteAll(old(world))
        invariant Valid() && Noted(world, job, prs, i) && Kept(old(world), world, prs) && OnlyGrew(old(world), world)
        invariant old(trace) <= trace && sound == old(sound)
      {
        ghost var w0 := world;
        ok := Call();
        NotedDisturbed(w0, world, job, prs, i);
        DisturbedKeeps(w0, world, prs);
        GrewTrans(old(world), w0, world);
        if !ok {
          KeptTrans(old(world), w0, world, prs);
          KeptDropped(old(world), world, prs);
          Discard();
          return;
        }
        ghost var w1 := world;
        KeptTrans(old(world), w0, world, prs);
        NotedGrows(world, job, prs, i);
        WriteAllNext(world);
        Do(WriteNext);
        KeptTrans(old(world), w1, world, prs);
        GrewTrans(old(world), w1, world);
      }
      ghost var w0 := world;
      ok := Call();
      NotedDisturbed(w0, world, job, prs, |prs|);
      DisturbedKeeps(w0, world, prs);
      GrewTrans(old(world), w0, world);
      KeptTrans(old(world), w0, world, prs);
      var held := LeasesHold(prs, job);
      ghost var held0 := world;
      PublishEnds(world, job, prs);
      KeptDropped(old(world), world, prs);
      if !ok || !held {
        Discard();
        if ok { StillUnleased(held0, world, job, prs); }
      } else {
        ghost var w1 := world;
        PushShape(world, job, prs);
        Do(Step.Push);
        PushedNone(w1);
        KeptTrans(old(world), w1, world, prs);
        pushed := true;
      }
    }

    /** Rebases prs above base and publishes the stack. Each pull request ends
        in exactly one outcome, in order; a group that does not rebase is
        split at most ceil(log2 n) deep, in at most 2n - 1 calls of Form. */
    method Form(prs: seq<int>, base: Commit)
      returns (ok: bool, ghost outcomes: seq<Outcome>, ghost depth: nat, ghost calls: nat)
      requires Valid() && world.job.None? && world.seen == base && prs != [] && Distinct(prs) && InQueue(prs)
      modifies `world, `untold, `trace, `script, `report, `splits, `sound
      ensures Valid() && world.job.None? && Kept(old(world), world, prs) && old(trace) <= trace && untold == old(untold)
      ensures report == old(report) + outcomes && Flat(outcomes) <= prs && (ok ==> Flat(outcomes) == prs)
      ensures forall i :: 0 <= i < |outcomes| ==> Concluded(old(world), world, queued, clash, outcomes[i], base)
      ensures depth <= CeilLog2(|prs|) && calls <= 2 * |prs| - 1
      ensures old(Sure(prs)) ==> sound
      ensures old(Quiet(prs)) ==> ok && script == [] && world == T.FormGroup(old(world), prs, at, clean)
      decreases |prs|, 3
    {
      hide FineInv, FineAfter, Next, Enabled, Known, Kept, CeilLog2, Flat, Concluded, QuietGroup, T.FormGroup, Rough,
           Newer, Disturbed;
      outcomes, depth, calls := [], 0, 1;
      FlatNothing();
      ok := Call();
      DisturbedKeeps(old(world), world, prs);
      DisturbedSeen(old(world), world);
      if !ok { return; }
      if Known(old(world), queued, prs) { KnownCarries(old(world), world, queued, prs); }
      ghost var w1 := world;
      ok, outcomes, depth, calls := FormHere(prs, base);
      KeptTrans(old(world), w1, world, prs);
      AllSettledEarlier(old(world), w1, world, queued, clash, outcomes, base);
    }

    /** Once the target has been read again. */
    method FormHere(prs: seq<int>, base: Commit)
      returns (ok: bool, ghost outcomes: seq<Outcome>, ghost depth: nat, ghost calls: nat)
      requires Valid() && world.job.None? && world.seen == base && prs != [] && Distinct(prs) && InQueue(prs)
      modifies `world, `untold, `trace, `script, `report, `splits, `sound
      ensures Valid() && world.job.None? && Kept(old(world), world, prs) && old(trace) <= trace && untold == old(untold)
      ensures report == old(report) + outcomes && Flat(outcomes) <= prs && (ok ==> Flat(outcomes) == prs)
      ensures forall i :: 0 <= i < |outcomes| ==> Concluded(old(world), world, queued, clash, outcomes[i], base)
      ensures depth <= CeilLog2(|prs|) && calls <= 2 * |prs| - 1
      ensures old(Sure(prs)) ==> sound
      ensures old(Quiet(prs)) ==> ok && script == [] && world == T.FormGroup(old(world), prs, at, clean)
      decreases |prs|, 2
    {
      hide FineInv, FineAfter, Next, Enabled, Known, Kept, CeilLog2, Flat, Concluded, QuietGroup, T.FormGroup, Unmoved,
           ClashAt, Rough, Newer, NewJob, RebasedTo;
      ok, outcomes, depth, calls := true, [], 0, 1;
      StillKept(world, prs);
      if Quiet(prs) { QuietRebases(world, queued, prs, at, clash, clean); }
      if world.target != base {
        WaitsHere(world, queued, clash, prs, base);
        outcomes := Report(Deferred(prs));
        return;
      }
      ListedThere(world, queued, prs);
      ReadKnown(world, queued, prs);
      var r := RebaseAll(Read(world, queued), queued, prs, at, clash);
      match r {
        case Moved(n) =>
          WaitsHere(world, queued, clash, prs, base);
          outcomes := Report(Deferred(prs));
        case Conflict(n) =>
          ConflictAlone(world, queued, prs, n, clash);
          ok, outcomes, depth, calls := SettleConflict(prs, base, n);
        case Built(members, keeps, expected) =>
          if clean(prs) { FormGroupClean(world, prs, at, clean); }
          AllUnmoved(world, queued, prs, clash);
          ok, outcomes := FormBuilt(prs, Job(Stack(base, members, 0, at), keeps, expected, 0));
      }
    }

    /** Publishes a stack rebased without a conflict. */
    method FormBuilt(prs: seq<int>, job: Job) returns (ok: bool, ghost outcomes: seq<Outcome>)
      requires Valid() && world.job.None? && world.target == world.seen && prs != [] && Distinct(prs) && InQueue(prs)
      requires forall i :: 0 <= i < |prs| ==> prs[i] in world.prs
      requires job == NewJob(Read(world, queued), prs, at) && forall i :: 0 <= i < |prs| ==> Unmoved(world, queued, prs[i])
      modifies `world, `trace, `script, `report, `sound
      ensures Valid() && world.job.None? && Kept(old(world), world, prs) && old(trace) <= trace
      ensures report == old(report) + outcomes && Flat(outcomes) <= prs && (ok ==> Flat(outcomes) == prs)
      ensures outcomes == [Formed(prs)] ==> Pushed(world, job, prs)
      ensures outcomes != [Formed(prs)] ==> OnlyGrew(old(world), world)
      ensures forall i :: 0 <= i < |outcomes| ==> Concluded(old(world), world, queued, clash, outcomes[i], job.stack.base)
      ensures old(Sure(prs)) ==> sound
      ensures old(script) == [] && Known(old(world), queued, prs) ==>
                ok && script == [] && world == T.FormOnce(old(world), prs, at)
    {
      hide FineInv, FineAfter, Next, Enabled, Kept, Flat, Pushed, Noted, Concluded, OnlyGrew, Published, Rough, Listed,
           Newer, Known;
      outcomes := [];
      FlatNothing();
      if Known(world, queued, prs) {
        HoldingIsBegin(world, queued, prs, at, clash);
        OnceIsPublished(world, prs, at);
      }
      HoldingShape(world, queued, prs, at);
      Hold(prs, job);
      ghost var w1 := world;
      var pushed;
      ok, pushed := Publish(prs, job);
      KeptTrans(old(world), w1, world, prs);
      if pushed {
        outcomes := Report(Formed(prs));
        FormedSettled(old(world), world, queued, clash, job, prs);
      } else {
        GrewTrans(old(world), w1, world);
        if ok {
          outcomes := Report(Deferred(prs));
          UnleasedOvertakes(old(world), world, queued, job, prs, at);
          GrewSettled(old(world), world, queued, clash, prs, job.stack.base);
        }
      }
    }

    method Report(outcome: Outcome) returns (ghost outcomes: seq<Outcome>)
      modifies `report
      ensures outcomes == [outcome] && report == old(report) + outcomes && Flat(outcomes) == outcome.Numbers()
    {
      report := report + [outcome];
      outcomes := [outcome];
      FlatNothing();
      FlatOneMore([], outcome);
      assert [] + [outcome] == [outcome];
    }

    /** A group that does not rebase is split and formed again; a pull request
        alone that does not rebase is rejected. */
    method SettleConflict(prs: seq<int>, base: Commit, culprit: int)
      returns (ok: bool, ghost outcomes: seq<Outcome>, ghost depth: nat, ghost calls: nat)
      requires Valid() && world.job.None? && world.seen == base && prs != [] && Distinct(prs) && InQueue(prs)
      requires culprit in prs && (|prs| == 1 ==> Stubborn(queued, culprit, base, clash))
      modifies `world, `untold, `trace, `script, `report, `splits, `sound
      ensures Valid() && world.job.None? && Kept(old(world), world, prs) && old(trace) <= trace && untold == old(untold)
      ensures report == old(report) + outcomes && Flat(outcomes) <= prs && (ok ==> Flat(outcomes) == prs)
      ensures forall i :: 0 <= i < |outcomes| ==> Concluded(old(world), world, queued, clash, outcomes[i], base)
      ensures depth <= CeilLog2(|prs|) && calls <= 2 * |prs| - 1
      ensures old(Sure(prs)) ==> sound
      ensures old(Quiet(prs)) && !clean(prs) ==> ok && script == [] && world == T.FormGroup(old(world), prs, at, clean)
      decreases |prs|, 1
    {
      hide FineInv, FineAfter, Next, Enabled, CeilLog2, Flat, Concluded, QuietGroup, T.FormGroup, Kept, T.Tell,
           T.Unlabel, Rough, Newer, Listed, Known, P.Halves, Stubborn;
      if |prs| == 1 {
        if !clean(prs) { FormGroupRejects(world, prs, at, clean); }
        assert prs == [culprit] && culprit in queued;
        ok, outcomes := RejectAlone(culprit, base);
        depth, calls := 0, 1;
        return;
      }
      var (front, back) := P.Halves(prs);
      splits := splits + [prs];
      SplitGroup(world, queued, prs);
      HalfDeep(|prs|);
      if Quiet(prs) && !clean(prs) { QuietHalves(world, queued, prs, at, clash, clean); }
      ok, outcomes, depth, calls := FormHalves(front, back, base);
      depth, calls := depth + 1, calls + 1;
    }

    method RejectAlone(n: int, base: Commit) returns (ok: bool, ghost outcomes: seq<Outcome>)
      requires Valid() && world.job.None? && world.seen == base && n in queued && Stubborn(queued, n, base, clash)
      modifies `world, `untold, `trace, `script, `report, `sound
      ensures Valid() && world.job.None? && Kept(old(world), world, [n]) && old(trace) <= trace && untold == old(untold)
      ensures report == old(report) + outcomes && Flat(outcomes) <= [n] && (ok ==> Flat(outcomes) == [n])
      ensures forall i :: 0 <= i < |outcomes| ==> Concluded(old(world), world, queued, clash, outcomes[i], base)
      ensures old(Sure([n])) ==> sound
      ensures old(script) == [] && Known(old(world), queued, [n]) ==>
                ok && script == [] && world == T.Tell(T.Unlabel(old(world), n), n)
    {
      hide FineInv, FineAfter, Flat, Happened, Concluded, Kept, T.Tell, T.Unlabel, Rough, Newer, Known, Stubborn;
      ok := Reject(n);
      outcomes := if ok then [Rejected(n)] else [];
      if ok { RejectSettled(old(world), world, queued, clash, n, base); }
      FlatNothing();
      FlatOneMore([], Rejected(n));
      assert [] + [Rejected(n)] == [Rejected(n)];
    }

    /** Forms two groups one after the other. */
    method FormHalves(front: seq<int>, back: seq<int>, base: Commit)
      returns (ok: bool, ghost outcomes: seq<Outcome>, ghost depth: nat, ghost calls: nat)
      requires Valid() && world.job.None? && world.seen == base && front != [] && back != [] && Distinct(front)
      requires Distinct(back) && InQueue(front) && InQueue(back)
      requires forall i, j :: 0 <= i < |front| && 0 <= j < |back| ==> front[i] != back[j]
      modifies `world, `untold, `trace, `script, `report, `splits, `sound
      ensures Valid() && world.job.None? && Kept(old(world), world, front + back) && old(trace) <= trace
      ensures untold == old(untold)
      ensures report == old(report) + outcomes && Flat(outcomes) <= front + back
      ensures (ok ==> Flat(outcomes) == front + back)
      ensures forall i :: 0 <= i < |outcomes| ==> Concluded(old(world), world, queued, clash, outcomes[i], base)
      ensures calls <= 2 * (|front| + |back|) - 2 && (depth <= CeilLog2(|front|) || depth <= CeilLog2(|back|))
      ensures old(Sure(front)) && old(Sure(back)) ==> sound
      ensures old(Quiet(front)) && Known(old(world), queued, back)
              && QuietGroup(T.FormGroup(old(world), front, at, clean), queued, back, clash, clean) ==>
                ok && script == [] && world == T.FormGroup(T.FormGroup(old(world), front, at, clean), back, at, clean)
      decreases |front| + |back|, 0
    {
      hide FineInv, FineAfter, Next, Enabled, CeilLog2, Flat, Concluded, QuietGroup, T.FormGroup, Kept, Rough, Newer,
           Known;
      ok, outcomes, depth, calls := Form(front, base);
      if ok {
        ghost var w1 := world;
        ghost var more, d, c;
        if Known(old(world), queued, back) { KnownBack(old(world), world, queued, front, back); }
        KeptSeen(old(world), world, front);
        ok, more, d, c := Form(back, base);
        AllSettledLater(old(world), w1, world, queued, clash, outcomes, base, front, back);
        AllSettledAfter(old(world), w1, world, queued, clash, more, base, front, back);
        FlatConcat(outcomes, more);
        outcomes := outcomes + more;
        depth, calls := if d > depth then d else depth, calls + c;
        KeptHalves(old(world), w1, world, front, back);
      } else {
        KeptFront(old(world), world, front, back);
      }
    }

    /** The atomic push is refused if any branch left the head it was read
        at. */
    method LeasesHold(prs: seq<int>, job: Job) returns (held: bool)
      requires Noted(world, job, prs, |prs|)
      ensures held <==> forall i :: 0 <= i < |prs| ==> world.prs[prs[i]].head == job.expected[i]
      ensures !held ==> exists i :: 0 <= i < |prs| && Unleased(world, job, prs, i)
    {
      for i := 0 to |prs|
        invariant forall k :: 0 <= k < i ==> world.prs[prs[k]].head == job.expected[k]
      {
        if world.prs[prs[i]].head != job.expected[i] {
          assert Unleased(world, job, prs, i);
          return false;
        }
      }
      return true;
    }

    /** Fast-forwards the target to the stack's top, unless the top branch or
        the target moved, then tells the members, while others go on acting. A
        call that fails between two of those comments leaves the others
        untold. */
    method Land(stack: Stack) returns (ok: bool, landed: bool)
      requires Valid() && world.job.None? && OnTarget(world, stack)
      modifies `world, `untold, `trace, `script, `report, `sound
      ensures Valid() && world.job.None? && old(trace) <= trace
      ensures KeptOutside(old(world), world, stack.Numbers()) && Grown(old(world), world)
      ensures !landed ==> Kept(old(world), world, []) && untold == old(untold) && sound == old(sound)
      ensures landed ==> old(world).target == stack.base && Takes(stack, world.target)
      ensures ok && !landed ==> Overtook(world, stack)
      ensures landed && old(Flying(stack)) ==> sound && LandingTold(old(Here()), Here(), stack, ok)
      ensures report == old(report) + if !ok then []
                                      else if landed then [Outcome.Landed(stack.Numbers())]
                                      else [Deferred(stack.Numbers())]
      ensures old(script) == [] ==> ok && script == [] && world == T.FastForward(old(world), stack)
    {
      hide FineInv, FineAfter, Next, Enabled, FineEnabled, FineNext, KeptOutside, Disturbed, Untold, LandedPrs,
           T.FastForward;
      hide Newer, Takes, Tellable, IsAncestor, Rough, Listed, InFlight, OnTarget, Linked;
      OnTargetChain(world, stack);
      var top := stack.Top();
      landed := false;
      ok := Call();
      LandWaits(old(world), world, stack);
      if !ok { return; }
      NotForwarded(old(world), stack);
      if world.prs[top.number].head != top.sha {
        report := report + [Deferred(stack.Numbers())];
        return;
      }
      ghost var w1 := world;
      ok := Call();
      DisturbedTrans(old(world), w1, world);
      LandWaits(old(world), world, stack);
      if !ok { return; }
      if !IsAncestor(world.target, top.sha) {
        report := report + [Deferred(stack.Numbers())];
        return;
      }
      ForwardedFromBase(old(world), world, stack);
      if old(script) == [] { LandForwards(world, stack); }
      ghost var flying, moved := old(Flying(stack)), Here();
      if flying { InFlightStays(old(world), world, stack); }
      MoveTarget(stack);
      landed := true;
      ghost var f2 := Here();
      if flying { Forwarded(moved, stack, old(untold)); }
      ChainGrows(moved.world, world, stack);
      ok := Record(stack);
      LandedKept(old(world), moved.world, f2.world, world, stack);
      if flying { LandedUntold(old(Here()), f2, Here(), stack, ok); }
      if ok { report := report + [Outcome.Landed(stack.Numbers())]; }
    }

    /** Tells the stack's members, bottom first, that it landed. */
    method Record(stack: Stack) returns (ok: bool)
      requires Valid() && Chain(world, stack)
      modifies `world, `untold, `trace, `script, `sound
      ensures Valid() && world.job == old(world).job && old(trace) <= trace && Kept(old(world), world, stack.Numbers())
      ensures old(sound && Tellable(Here(), stack)) ==>
                sound && Telling(old(Here()), Here(), stack, if ok then |stack.members| else 0)
      ensures old(script) == [] ==> ok && script == [] && world == old(world).(prs := LandedPrs(old(world).prs, stack))
    {
      hide FineInv, FineAfter, Kept, LandedPrs, LandedSome, Disturbed, Tellable, Telling, Rough, Listed, Newer, Chain,
           Linked;
      ghost var telling := sound && Tellable(Here(), stack);
      StillKept(world, stack.Numbers());
      LandedStarts(world, stack);
      if telling { TellingStarts(Here(), stack); }
      ok := true;
      for i := 0 to |stack.members|
        invariant Valid() && world.job == old(world).job && old(trace) <= trace && Chain(world, stack)
        invariant Kept(old(world), world, stack.Numbers())
        invariant telling ==> sound && Telling(old(Here()), Here(), stack, i)
        invariant old(script) == [] ==>
                    ok && script == [] && world == old(world).(prs := LandedSome(old(world).prs, stack, i))
      {
        ghost var f0 := Here();
        ok := Call();
        ChainDisturbed(f0.world, world, stack);
        DisturbedKeeps(f0.world, world, stack.Numbers());
        KeptTrans(old(world), f0.world, world, stack.Numbers());
        if telling { TellingDisturbed(old(Here()), f0, Here(), stack, i); }
        if !ok {
          if telling { TellingLess(old(Here()), Here(), stack, i); }
          return;
        }
        ghost var f1 := Here();
        var m := stack.members[i];
        ChainMember(world, stack, i);
        if telling { ToldHere(old(Here()), f1, stack, i); }
        if old(script) == [] {
          ChainMember(old(world), stack, i);
          LandedGrows(old(world), stack, i);
        }
        SayLanded(m.number, m.sha);
        CommentKept(f1.world, m.number, LandedAt(m.sha), stack.Numbers());
        if telling { TellingOne(old(Here()), f1, Here(), stack, i); }
        ChainGrows(f1.world, world, stack);
        KeptTrans(old(world), f1.world, world, stack.Numbers());
      }
      LandedAll(old(world), stack);
    }

    /** Marks the stack retried in every member's comment, the top one last,
        keeping one older record beside the stack's own. */
    method RetryStack(again: Stack) returns (ok: bool)
      requires Valid() && world.job.None? && Chain(world, again) && InQueue(again.Numbers())
      modifies `world, `untold, `trace, `script, `report, `sound
      ensures Valid() && world.job.None? && old(trace) <= trace && OnlyGrew(old(world), world) && untold == old(untold)
      ensures Kept(old(world), world, again.Numbers())
      ensures report == old(report) + if ok then [Retried(again.Numbers())] else []
      ensures ok ==> RetriedTo(old(world), world, queued, again, |again.members|)
      ensures old(Sure(again.Numbers()) && Retries(world, again)) ==> sound
      ensures old(script) == [] && Known(old(world), queued, again.Numbers()) ==>
                ok && script == [] && world == T.RetryAll(old(world), again, |again.members|)
    {
      hide FineInv, FineAfter, Next, Enabled, RetriedTo, InFlight, Known, OnlyGrew, T.RetryAll, Disturbed, Kept, Rough,
           Newer, Chain, Linked;
      ghost var quiet := script == [] && Known(world, queued, again.Numbers());
      ghost var sure := Sure(again.Numbers()) && Retries(world, again);
      ghost var stack := if sure then world.prs[again.Top().number].comment.stack.value else again;
      RetryStarts(world, queued, again);
      StillKept(world, again.Numbers());
      ok := true;
      for i := 0 to |again.members|
        invariant Valid() && world.job.None? && old(trace) <= trace && report == old(report) && untold == old(untold)
        invariant OnlyGrew(old(world), world) && Chain(world, again)
        invariant Kept(old(world), world, again.Numbers())
        invariant RetriedTo(old(world), world, queued, again, i)
        invariant sure ==> sound && (i < |again.members| ==> InFlight(world, stack))
        invariant quiet ==> ok && script == [] && world == T.RetryAll(old(world), again, i)
      {
        if quiet { RetryGrows(old(world), queued, again, i); }
        ghost var w0 := world;
        ok := RetryMember(old(world), stack, again, i);
        GrewTrans(old(world), w0, world);
        KeptTrans(old(world), w0, world, again.Numbers());
        if !ok { return; }
        ChainKept(w0, world, again);
      }
      report := report + [Retried(again.Numbers())];
    }

    /** The next comment of a retried stack is a step of the machine. */
    ghost predicate MayRetry(before: World, stack: Stack, again: Stack)
      reads this
    {
      && sound && InFlight(world, stack) && again == stack.(retry := 1, at := again.at) && Clear(again.Numbers())
      && Known(before, queued, again.Numbers())
    }

    /** One comment of a retried stack. */
    method RetryMember(ghost before: World, ghost stack: Stack, again: Stack, i: nat) returns (ok: bool)
      requires Valid() && world.job.None? && i < |again.members| && Chain(world, again) && InQueue(again.Numbers())
      requires RetriedTo(before, world, queued, again, i)
      modifies `world, `untold, `trace, `script, `sound
      ensures Valid() && world.job.None? && old(trace) <= trace && OnlyGrew(old(world), world) && untold == old(untold)
      ensures Kept(old(world), world, again.Numbers())
      ensures ok ==> RetriedTo(before, world, queued, again, i + 1)
      ensures old(MayRetry(before, stack, again)) ==>
                sound && (ok && i + 1 < |again.members| ==> InFlight(world, stack))
      ensures old(script) == [] ==>
                && ok && script == []
                && world == WithComment(old(world), again.members[i].number, RetriedComment(queued, again, i))
    {
      hide FineInv, FineAfter, Next, Enabled, RetriedTo, InFlight, OnlyGrew, Disturbed, Kept, KeepOwns, StackComment,
           Rough, Listed, Newer, Chain, Linked, CommentFits, Known;
      var n := again.members[i].number;
      assert again.Numbers()[i] == n;
      ok := Call();
      DisturbedKeeps(old(world), world, again.Numbers());
      if !ok { return; }
      RetriedDisturbed(before, old(world), world, queued, again, i);
      ChainDisturbed(old(world), world, again);
      ChainMember(world, again, i);
      ghost var f1 := Here();
      if old(MayRetry(before, stack, again)) {
        InFlightStays(old(world), world, stack);
        RetryIsFine(f1, before, queued, stack, again, i);
      }
      var keep := KeepOwnsOf(queued[n].owns, StackOwn(again, i));
      RetriedFits(world, queued, again, i);
      Write(n, StackComment(again, i, keep), Some(Plainly(Retry(again.Top().number, i, again.at))));
      RetriedGrows(before, f1.world, queued, again, i);
      CommentKept(f1.world, n, RetriedComment(queued, again, i), again.Numbers());
      GrewTrans(old(world), f1.world, world);
      KeptTrans(old(world), f1.world, world, again.Numbers());
    }

    /** Takes the label away and says why, keeping the branch's records. */
    method Reject(n: int) returns (ok: bool)
      requires Valid() && world.job.None? && n in queued
      modifies `world, `untold, `trace, `script, `report, `sound
      ensures Valid() && world.job.None? && Kept(old(world), world, [n]) && OnlyGrew(old(world), world)
      ensures old(trace) <= trace && untold == old(untold)
      ensures report == old(report) + if ok then [Rejected(n)] else []
      ensures world.seen == old(world).seen && (ok ==> Happened(old(world), world, queued, Rejected(n), world.seen))
      ensures ok ==> !world.prs[n].labelled || Relabel(n) in trace[|old(trace)|..]
      ensures old(Sure([n])) ==> sound
      ensures old(script) == [] && Known(old(world), queued, [n]) ==>
                ok && script == [] && world == T.Tell(T.Unlabel(old(world), n), n)
    {
      hide FineInv, FineAfter, Next, Enabled, IsAncestor, Disturbed, Kept, OnlyGrew, T.Unlabel, LabelOff, Rough, Newer,
           CommentFits;
      ghost var sure := Sure([n]);
      assert [n][0] == n;
      ok := Call();
      DisturbedKeeps(old(world), world, [n]);
      if !ok {
        KeptSeen(old(world), world, [n]);
        return;
      }
      DisturbedOne(old(world), world, n);
      ghost var w1 := world;
      Unlabelled(w1, n);
      Do(SetLabel(n, false));
      GrewTrans(old(world), w1, world);
      KeptTrans(old(world), w1, world, [n]);
      ghost var w2, history := world, trace;
      ok := Call();
      LabelStays(w2, world, n, trace[|history|..], trace[|old(trace)|..]);
      DisturbedKeeps(w2, world, [n]);
      GrewTrans(old(world), w2, world);
      KeptTrans(old(world), w2, world, [n]);
      KeptSeen(old(world), world, [n]);
      if !ok { return; }
      DisturbedOne(w2, world, n);
      ghost var f3, so := Here(), trace;
      if sure { PlainIsFine(f3, queued, n); }
      PlainFits(world, n, queued[n].owns);
      Write(n, PlainComment(queued[n].owns), Some(Plainly(Plain(n))));
      LaterRelabel(so, trace, |old(trace)|, n);
      CommentKept(f3.world, n, PlainComment(queued[n].owns), [n]);
      GrewTrans(old(world), f3.world, world);
      KeptTrans(old(world), f3.world, world, [n]);
      KeptSeen(old(world), world, [n]);
      RejectedSettled(old(world), world, queued, n);
      report := report + [Rejected(n)];
    }

    /** Says where a pull request stands, keeping its branch's records. */
    method Say(n: int) returns (ok: bool)
      requires Valid() && world.job.None? && n in queued
      modifies `world, `untold, `trace, `script, `sound
      ensures Valid() && world.job.None? && Kept(old(world), world, [n]) && OnlyGrew(old(world), world)
      ensures old(trace) <= trace
      ensures old(sound) && Speakable(old(Here()), queued, n) ==> sound && Spoken(old(Here()), Here(), queued, [n])
      ensures ok ==> n in world.prs && world.prs[n].comment == PlainComment(queued[n].owns)
      ensures old(script) == [] ==>
                && ok && script == [] && n in old(world).prs
                && world == WithComment(old(world), n, PlainComment(queued[n].owns))
    {
      hide FineInv, FineAfter, Disturbed, Kept, OnlyGrew, Rough, Newer, Speakable, Spoken;
      ghost var speaks := sound && Speakable(Here(), queued, n);
      ok := Call();
      DisturbedKeeps(old(world), world, [n]);
      if speaks { StillSpeaks(old(Here()), Here(), queued, n); }
      if !ok { return; }
      ghost var f1 := Here();
      if speaks { FineShape(start, trace, f1); }
      SayPlain(n);
      CommentKept(f1.world, n, PlainComment(queued[n].owns), [n]);
      GrewTrans(old(world), f1.world, world);
      KeptTrans(old(world), f1.world, world, [n]);
      if speaks {
        Said(f1, Here(), queued, n);
        SpokenTrans(old(Here()), f1, Here(), queued, [n]);
      }
    }

    /** Tells the members of an abandoned stack that are still queued that
        they wait again, whether they have landed or not. */
    method Abandon(prs: seq<int>) returns (ok: bool)
      requires Valid() && world.job.None?
      modifies `world, `untold, `trace, `script, `sound
      ensures Valid() && world.job.None? && Kept(old(world), world, prs) && OnlyGrew(old(world), world)
      ensures old(trace) <= trace
      ensures old(sound && AllSpeakable(Here(), queued, prs)) ==> sound && Spoken(old(Here()), Here(), queued, prs)
      ensures ok ==> ToldPlain(world, queued, prs, |prs|)
      ensures old(script) == [] && LabelsKnown(old(world), queued, prs) ==>
                ok && script == [] && world == T.TellAll(old(world), prs)
    {
      hide FineInv, FineAfter, Kept, OnlyGrew, T.Tell, T.TellAll, LabelsKnown, Speakable, AllSpeakable, Spoken, Rough,
           Newer, ToldPlain;
      ghost var quiet := script == [] && LabelsKnown(world, queued, prs);
      ghost var speaks := sound && AllSpeakable(Here(), queued, prs);
      StillKept(world, prs);
      StillSpoken(Here(), queued, prs);
      NobodyTold(world, queued, prs);
      ok := true;
      for i := 0 to |prs|
        invariant Valid() && world.job.None? && Kept(old(world), world, prs) && OnlyGrew(old(world), world)
        invariant old(trace) <= trace
        invariant speaks ==> sound && Spoken(old(Here()), Here(), queued, prs) && AllSpeakable(Here(), queued, prs)
        invariant ToldPlain(world, queued, prs, i)
        invariant quiet ==>
                    && ok && script == [] && LabelsKnown(world, queued, prs)
                    && world == T.TellAll(old(world), prs[..i])
      {
        var n := prs[i];
        ghost var f0 := Here();
        if quiet { TellAllGrows(old(world), world, queued, prs, i); }
        if n in queued {
          if speaks { OneSpeaks(f0, queued, prs, n); }
          ok := Say(n);
          OneOfMany(f0, Here(), queued, prs, n);
          GrewTrans(old(world), f0.world, world);
          KeptTrans(old(world), f0.world, world, prs);
          if speaks {
            SpokenTrans(old(Here()), f0, Here(), queued, prs);
            SpokenAll(f0, Here(), queued, prs);
          }
          if !ok { return; }
          StillPlain(f0.world, world, queued, prs, i);
        }
        ToldPlainNext(world, queued, prs, i);
      }
      assert prs[..|prs|] == prs;
    }

    method NoteSplit(prs: seq<int>)
      modifies `splits
      ensures splits == old(splits) + [prs]
    {
      splits := splits + [prs];
    }

    method Discard()
      requires Valid()
      modifies `world, `trace, `sound
      ensures Valid() && world == old(world).(job := None) && old(trace) <= trace && sound == old(sound)
    {
      hide FineInv, Rough, Listed;
      Do(Drop);
    }
  }
}
