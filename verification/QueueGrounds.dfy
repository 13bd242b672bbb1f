/**
 A plan made from a snapshot can be carried out: every action finds what it
 needs, and no two actions get in each other's way. So a tick moves the target
 at most once, and only to a commit whose required checks all passed, whatever
 others do meanwhile.
 */
module QueueGrounds {
  import opened Git
  import opened Queue
  import opened QueueWorld
  import opened QueueRebase
  import opened QueueRough
  import opened QueueKeeping
  import opened QueueTick
  import opened QueueTickSafety
  import opened QueueTickRun
  import D = QueueDrain
  import DF = QueueDrainForm
  import DS = QueueDrainStacks
  import DT = QueueDrainTurns
  import Basics
  import P = QueuePlan

  // ---- what a plan touches ----

  lemma {:induction false} HardConcat(a: seq<P.Action>, b: seq<P.Action>)
    ensures Hard(a + b) == Hard(a) + Hard(b)
    decreases |a|
  {
    if a == [] {
      assert a + b == b;
    } else {
      assert (a + b)[1..] == a[1..] + b;
      HardConcat(a[1..], b);
    }
  }

  lemma HardOne(action: P.Action)
    ensures Hard([action]) == HardOf(action)
  {
    assert [action][1..] == [];
  }

  lemma HardNothing()
    ensures Hard([]) == []
  {
  }

  predicate Resolved(snap: P.Snapshot, i: nat)
    requires i < |snap.stacks|
  {
    P.Claims(snap, i) && !P.Waiting(snap, i)
  }

  lemma HardStack(snap: P.Snapshot, i: nat)
    requires i < |snap.stacks|
    ensures Hard(P.StackActions(snap, i)) == if Resolved(snap, i) then snap.stacks[i].stack.Numbers() else []
  {
    var inFlight := snap.stacks[i];
    var stack := inFlight.stack;
    var ns := stack.Numbers();
    var actions := P.StackActions(snap, i);
    if inFlight.landed {
      HardOne(P.Record(stack));
    } else if P.Verdict(snap, i) != P.Fits {
      HardOne(actions[0]);
    } else if inFlight.state.Pending? {
      if |inFlight.batchmates| > 0 { HardOne(P.Cancel(stack, inFlight.batchmates)); }
    } else if inFlight.state.Success? {
      HardOne(P.Advance(stack));
    } else {
      HardFailure(snap.now, inFlight);
    }
  }

  lemma HardFailure(now: int, inFlight: P.InFlight)
    ensures Hard(P.FailureActions(now, inFlight)) == inFlight.stack.Numbers()
  {
    var stack := inFlight.stack;
    var ns := stack.Numbers();
    if stack.retry == 0 && |inFlight.rerun| > 0 {
      var again := stack.(retry := 1, at := now / Basics.SECOND * Basics.SECOND);
      HardOne(P.Retry(again, inFlight.rerun));
      assert again.Numbers() == ns;
    } else if |stack.members| == 1 {
      HardOne(P.Reject(stack.members[0].number));
      assert ns == [stack.members[0].number];
    } else {
      var (front, back) := P.Halves(ns);
      var split, a, b := P.Split(stack), P.Form(front, stack.base), P.Form(back, stack.base);
      assert [split, a, b] == [split] + ([a] + [b]) && front + back == ns;
      HardConcat([split], [a] + [b]);
      HardConcat([a], [b]);
      HardOne(split);
      HardOne(a);
      HardOne(b);
    }
  }

  /** The numbers of the stacks a plan resolves, in order. */
  function ResolvedNumbers(snap: P.Snapshot, n: nat): seq<int>
    requires n <= |snap.stacks|
  {
    if n == 0 then []
    else ResolvedNumbers(snap, n - 1) + if Resolved(snap, n - 1) then snap.stacks[n - 1].stack.Numbers() else []
  }

  lemma {:induction false} HardStacks(snap: P.Snapshot, n: nat)
    requires n <= |snap.stacks|
    ensures Hard(P.StacksActions(snap, n)) == ResolvedNumbers(snap, n)
  {
    hide P.StackActions, Hard, Resolved;
    if n == 0 {
      assert Hard([]) == [] by { HardNothing(); }
    } else {
      HardStacks(snap, n - 1);
      HardStack(snap, n - 1);
      HardConcat(P.StacksActions(snap, n - 1), P.StackActions(snap, n - 1));
    }
  }

  lemma {:induction false} HardTells(actions: seq<P.Action>)
    requires forall i :: 0 <= i < |actions| ==> actions[i].Tell?
    ensures Hard(actions) == []
    decreases |actions|
  {
    if actions != [] {
      assert forall i :: 0 <= i < |actions[1..]| ==> actions[1..][i] == actions[i + 1];
      HardTells(actions[1..]);
    }
  }

  lemma PlanIs(snap: P.Snapshot, batch: nat)
    ensures P.Plan(snap, batch) == P.StacksActions(snap, |snap.stacks|) + D.Tells(snap, batch) +
            (if P.Taken(snap, batch) > 0 then [P.Form(D.Group(snap, batch), snap.target)] else [])
  {
    hide P.StacksActions, P.Candidates, P.NotEligibleTells, P.PositionTells;
  }

  lemma HardPlan(snap: P.Snapshot, batch: nat)
    ensures Hard(P.Plan(snap, batch)) == ResolvedNumbers(snap, |snap.stacks|) + D.Group(snap, batch)
  {
    var a, b := P.StacksActions(snap, |snap.stacks|), D.Tells(snap, batch);
    var c := if P.Taken(snap, batch) > 0 then [P.Form(D.Group(snap, batch), snap.target)] else [];
    PlanIs(snap, batch);
    D.TellsIdle(snap, batch);
    HardStacks(snap, |snap.stacks|);
    HardTells(b);
    HardConcat(a + b, c);
    HardConcat(a, b);
    if P.Taken(snap, batch) > 0 {
      HardOne(P.Form(D.Group(snap, batch), snap.target));
    } else {
      assert D.Group(snap, batch) == [];
    }
  }

  // ---- which actions a plan has ----

  lemma {:induction false} StackOf(snap: P.Snapshot, n: nat, action: P.Action) returns (i: nat)
    requires n <= |snap.stacks| && action in P.StacksActions(snap, n)
    ensures i < n && action in P.StackActions(snap, i)
  {
    if action in P.StackActions(snap, n - 1) {
      i := n - 1;
    } else {
      i := StackOf(snap, n - 1, action);
    }
  }

  /** A pull request told its place is in no stack and not taken. */
  predicate Beside(snap: P.Snapshot, batch: nat, action: P.Action) {
    action.Tell? && D.IdleNumber(snap, action.number) && action.number !in D.Group(snap, batch)
  }

  lemma {:induction false} NotEligibleBeside(snap: P.Snapshot, batch: nat, n: nat)
    requires n <= |snap.queued|
    requires forall i, j :: 0 <= i < j < |snap.queued| ==> snap.queued[i].number != snap.queued[j].number
    ensures forall k :: 0 <= k < |P.NotEligibleTells(snap, n)| ==> Beside(snap, batch, P.NotEligibleTells(snap, n)[k])
  {
    if n > 0 {
      NotEligibleBeside(snap, batch, n - 1);
      var pr := snap.queued[n - 1];
      if P.Idle(snap, pr) && !pr.entry.Eligible() {
        CandidatesDistinct(snap, |snap.queued|);
        assert pr.number !in P.Candidates(snap, |snap.queued|);
        assert D.IdleNumber(snap, pr.number);
      }
    }
  }

  lemma {:induction false} PositionsBeside(snap: P.Snapshot, batch: nat, waiting: seq<int>, n: nat)
    requires n <= |waiting|
    requires forall i :: 0 <= i < |waiting| ==> D.IdleNumber(snap, waiting[i]) && waiting[i] !in D.Group(snap, batch)
    ensures forall k :: 0 <= k < |P.PositionTells(waiting, n)| ==> Beside(snap, batch, P.PositionTells(waiting, n)[k])
  {
    if n > 0 { PositionsBeside(snap, batch, waiting, n - 1); }
  }

  lemma TellsBeside(snap: P.Snapshot, batch: nat)
    requires forall i, j :: 0 <= i < j < |snap.queued| ==> snap.queued[i].number != snap.queued[j].number
    ensures forall k :: 0 <= k < |D.Tells(snap, batch)| ==> Beside(snap, batch, D.Tells(snap, batch)[k])
  {
    var all, k := P.Candidates(snap, |snap.queued|), P.Taken(snap, batch);
    var waiting := all[k..];
    D.CandidatesIdle(snap, |snap.queued|);
    CandidatesDistinct(snap, |snap.queued|);
    forall i | 0 <= i < |waiting| ensures D.IdleNumber(snap, waiting[i]) && waiting[i] !in D.Group(snap, batch) {
      assert waiting[i] == all[k + i];
    }
    NotEligibleBeside(snap, batch, |snap.queued|);
    PositionsBeside(snap, batch, waiting, |waiting|);
  }

  /** Every action of a plan resolves a stack, tells somebody aside, or forms
      the new group. */
  lemma PlanCases(snap: P.Snapshot, batch: nat, action: P.Action)
    requires action in P.Plan(snap, batch)
    requires forall i, j :: 0 <= i < j < |snap.queued| ==> snap.queued[i].number != snap.queued[j].number
    ensures || (exists i :: 0 <= i < |snap.stacks| && action in P.StackActions(snap, i))
            || Beside(snap, batch, action)
            || (P.Taken(snap, batch) > 0 && action == P.Form(D.Group(snap, batch), snap.target))
  {
    hide P.StackActions;
    PlanIs(snap, batch);
    TellsBeside(snap, batch);
    if action in P.StacksActions(snap, |snap.stacks|) {
      var i := StackOf(snap, |snap.stacks|, action);
    } else if action in D.Tells(snap, batch) {
      var k :| 0 <= k < |D.Tells(snap, batch)| && D.Tells(snap, batch)[k] == action;
    }
  }

  // ---- no two actions get in each other's way ----

  /** No number stands in two stacks a plan resolves, or twice in one. */
  ghost predicate Once(snap: P.Snapshot) {
    && (forall i :: 0 <= i < |snap.stacks| && Resolved(snap, i) ==> Distinct(snap.stacks[i].stack.Numbers()))
    && (forall i, j, x :: 0 <= i < |snap.stacks| && 0 <= j < |snap.stacks| && i != j && Resolved(snap, i) && Resolved(snap, j) ==>
          !(x in snap.stacks[i].stack.Numbers() && x in snap.stacks[j].stack.Numbers()))
  }

  lemma {:induction false} ResolvedSource(snap: P.Snapshot, n: nat, x: int) returns (j: nat)
    requires n <= |snap.stacks| && x in ResolvedNumbers(snap, n)
    ensures j < n && Resolved(snap, j) && x in snap.stacks[j].stack.Numbers()
  {
    if Resolved(snap, n - 1) && x in snap.stacks[n - 1].stack.Numbers() {
      j := n - 1;
    } else {
      j := ResolvedSource(snap, n - 1, x);
    }
  }

  lemma {:induction false} ResolvedDistinct(snap: P.Snapshot, n: nat)
    requires Once(snap) && n <= |snap.stacks|
    ensures Distinct(ResolvedNumbers(snap, n))
  {
    hide Resolved;
    if n > 0 {
      ResolvedDistinct(snap, n - 1);
      if Resolved(snap, n - 1) {
        var before, own := ResolvedNumbers(snap, n - 1), snap.stacks[n - 1].stack.Numbers();
        forall x | x in before ensures x !in own {
          var j := ResolvedSource(snap, n - 1, x);
        }
        DistinctConcat(before, own);
      }
    }
  }

  lemma {:induction false} OneAdvance(actions: seq<P.Action>, i: nat, j: nat)
    requires i < j < |actions| && actions[i].Advance? && actions[j].Advance?
    ensures Advances(actions) >= 2
    decreases |actions|
  {
    var last := |actions| - 1;
    if j < last { OneAdvance(actions[..last], i, j); } else { SomeAdvance(actions[..last], i); }
  }

  lemma {:induction false} SomeAdvance(actions: seq<P.Action>, i: nat)
    requires i < |actions| && actions[i].Advance?
    ensures Advances(actions) >= 1
    decreases |actions|
  {
    var last := |actions| - 1;
    if i < last { SomeAdvance(actions[..last], i); }
  }

  /** A plan that lands a stack neither forms nor retries one. */
  lemma OnlyLands(snap: P.Snapshot, batch: nat, action: P.Action)
    requires P.FirstGreen(snap, |snap.stacks|) >= 0 && action in P.Plan(snap, batch)
    requires forall i, j :: 0 <= i < j < |snap.queued| ==> snap.queued[i].number != snap.queued[j].number
    ensures NeedsSeen(action) ==> action.Advance?
  {
    PlanCases(snap, batch, action);
    if i :| 0 <= i < |snap.stacks| && action in P.StackActions(snap, i) {
      OnlyGreen(snap, i);
    }
  }

  lemma SoftApart(snap: P.Snapshot, batch: nat, action: P.Action, n: int)
    requires action in P.Plan(snap, batch) && Soft(action) && n in Touch(action)
    requires forall i, j :: 0 <= i < j < |snap.queued| ==> snap.queued[i].number != snap.queued[j].number
    ensures n !in ResolvedNumbers(snap, |snap.stacks|) && n !in D.Group(snap, batch)
  {
    hide P.StackActions, P.Plan, D.IdleNumber, P.Claimed, D.Group, P.InStack, ResolvedNumbers;
    PlanCases(snap, batch, action);
    if Beside(snap, batch, action) {
      IdleNotIn(snap, n);
    } else {
      var i :| 0 <= i < |snap.stacks| && action in P.StackActions(snap, i);
      NoGroup(snap, batch);
      SoftUnclaimed(snap, i, action, n);
    }
    UnclaimedNotResolved(snap, n);
  }

  lemma IdleNotIn(snap: P.Snapshot, n: int)
    requires D.IdleNumber(snap, n)
    ensures !P.InStack(snap, n) && !P.Claimed(snap, n)
  {
  }

  lemma NoGroup(snap: P.Snapshot, batch: nat)
    requires snap.stacks != []
    ensures D.Group(snap, batch) == []
  {
  }

  /** A stack given up tells only whom no stack claims. */
  lemma SoftUnclaimed(snap: P.Snapshot, i: nat, action: P.Action, n: int)
    requires i < |snap.stacks| && action in P.StackActions(snap, i) && Soft(action) && n in Touch(action)
    ensures !P.Claimed(snap, n) && n in snap.stacks[i].stack.Numbers()
  {
    hide P.Claimed, P.Unclaimed;
    DT.UnclaimedMeans(snap, snap.stacks[i].stack.Numbers(), n);
  }

  lemma UnclaimedNotResolved(snap: P.Snapshot, n: int)
    requires !P.Claimed(snap, n)
    ensures n !in ResolvedNumbers(snap, |snap.stacks|)
  {
    hide P.Claims;
    if n in ResolvedNumbers(snap, |snap.stacks|) {
      var j := ResolvedSource(snap, |snap.stacks|, n);
      assert false;
    }
  }

  lemma PlanOrderly(snap: P.Snapshot, batch: nat)
    requires Once(snap)
    requires forall i, j :: 0 <= i < j < |snap.queued| ==> snap.queued[i].number != snap.queued[j].number
    ensures Orderly(P.Plan(snap, batch))
  {
    hide Once, P.Plan, ResolvedNumbers, D.Group, Touch, Hard, Advances;
    var plan := P.Plan(snap, batch);
    HardPlan(snap, batch);
    PlanHardDistinct(snap, batch);
    forall i, n | 0 <= i < |plan| && Soft(plan[i]) && n in Touch(plan[i]) ensures n !in Hard(plan) {
      SoftApart(snap, batch, plan[i], n);
    }
    PlanAlone(snap, batch);
  }

  /** A plan moves the target at most once, and then does nothing else on what
      the tick saw. */
  lemma PlanAlone(snap: P.Snapshot, batch: nat)
    requires forall i, j :: 0 <= i < j < |snap.queued| ==> snap.queued[i].number != snap.queued[j].number
    ensures Alone(P.Plan(snap, batch))
  {
    hide P.Plan, Advances;
    var plan := P.Plan(snap, batch);
    PlanCounts(snap, batch);
    forall i, j | 0 <= i < |plan| && 0 <= j < |plan| && i != j && plan[i].Advance? ensures !NeedsSeen(plan[j]) {
      AdvanceIsGreen(snap, batch, plan[i].stack);
      OnlyLands(snap, batch, plan[j]);
      if plan[j].Advance? {
        if i < j { OneAdvance(plan, i, j); } else { OneAdvance(plan, j, i); }
      }
    }
  }

  lemma PlanHardDistinct(snap: P.Snapshot, batch: nat)
    requires Once(snap)
    requires forall i, j :: 0 <= i < j < |snap.queued| ==> snap.queued[i].number != snap.queued[j].number
    ensures Distinct(ResolvedNumbers(snap, |snap.stacks|) + D.Group(snap, batch))
  {
    ResolvedDistinct(snap, |snap.stacks|);
    CandidatesDistinct(snap, |snap.queued|);
    if snap.stacks == [] {
      assert ResolvedNumbers(snap, 0) + D.Group(snap, batch) == D.Group(snap, batch);
    } else {
      assert D.Group(snap, batch) == [];
      assert ResolvedNumbers(snap, |snap.stacks|) + [] == ResolvedNumbers(snap, |snap.stacks|);
    }
  }

  // ---- what a snapshot lists ----

  /** The queue as the snapshot lists it. */
  function QueuedAt(w: World, order: seq<int>): map<int, P.Queued>
    requires forall i :: 0 <= i < |order| ==> order[i] in w.prs
  {
    P.ByNumber(QueuedList(w, order))
  }

  lemma QueuedMeans(w: World, order: seq<int>, n: int)
    requires Listing(w, order)
    ensures var queued := QueuedAt(w, order);
            && (n in queued <==> n in w.prs && w.prs[n].labelled)
            && (n in queued ==> queued[n] == QueuedOf(w, n))
  {
    ByNumberOf(w, order, n);
  }

  lemma DistinctQueue(w: World, order: seq<int>, gh: GitHub, cfg: Config, now: int)
    requires Listing(w, order)
    ensures var snap := SnapshotOf(w, order, gh, cfg, now);
            forall i, j :: 0 <= i < j < |snap.queued| ==> snap.queued[i].number != snap.queued[j].number
  {
    var snap := SnapshotOf(w, order, gh, cfg, now);
    forall i, j | 0 <= i < j < |snap.queued| ensures snap.queued[i].number != snap.queued[j].number {
      assert snap.queued[i] == QueuedOf(w, order[i]) && snap.queued[j] == QueuedOf(w, order[j]);
    }
  }

  lemma KnownListed(w: World, order: seq<int>, prs: seq<int>)
    requires Listing(w, order)
    requires forall i :: 0 <= i < |prs| ==>
               prs[i] in w.prs && w.prs[prs[i]].labelled && !w.prs[prs[i]].AlreadyLanded()
    ensures Known(w, QueuedAt(w, order), prs)
  {
    forall i | 0 <= i < |prs|
      ensures prs[i] in QueuedAt(w, order) && QueuedAt(w, order)[prs[i]].owns == w.prs[prs[i]].comment.owns
    {
      QueuedMeans(w, order, prs[i]);
    }
  }

  lemma ClaimsFit(w: World, snap: P.Snapshot, tops: seq<int>, i: nat)
    requires DT.Reads(w, snap, tops) && i < |tops| && P.Claims(snap, i)
    ensures Live(w, tops[i])
  {
    OnlyGreen(snap, i);
  }

  lemma ReadsOnce(w: World, snap: P.Snapshot, tops: seq<int>)
    requires DS.Tidy(w) && DT.Reads(w, snap, tops)
    ensures Once(snap)
  {
    hide DS.Frozen, P.Claims, P.Waiting, P.StaleReason;
    forall i | 0 <= i < |snap.stacks| && P.Claims(snap, i)
      ensures Live(w, tops[i]) && Distinct(snap.stacks[i].stack.Numbers())
    {
      ClaimsFit(w, snap, tops, i);
      assert DS.Sturdy(w, tops[i]);
    }
    forall i, j, x | 0 <= i < |snap.stacks| && 0 <= j < |snap.stacks| && i != j && Resolved(snap, i) && Resolved(snap, j)
      ensures !(x in snap.stacks[i].stack.Numbers() && x in snap.stacks[j].stack.Numbers())
    {
      assert tops[i] != tops[j] && Live(w, tops[i]) && Live(w, tops[j]);
      assert snap.stacks[i].stack.Numbers() == DS.NumbersOf(w, tops[i]);
      assert snap.stacks[j].stack.Numbers() == DS.NumbersOf(w, tops[j]);
    }
  }

  // ---- in any world ----

  /** A stack the tick reads is a chain; one that it may land, retry or split
      stands on the target, and its members are listed. */
  lemma ReadStack(w: World, order: seq<int>, gh: GitHub, cfg: Config, now: int, i: nat)
    requires Rough(w) && Listing(w, order) && i < |SnapshotOf(w, order, gh, cfg, now).stacks|
    ensures var snap := SnapshotOf(w, order, gh, cfg, now);
            var stack := snap.stacks[i].stack;
            && Chain(w, stack)
            && (!snap.stacks[i].landed && P.Verdict(snap, i) == P.Fits ==>
                  && stack.base == w.target
                  && forall k :: 0 <= k < |stack.Numbers()| ==> stack.Numbers()[k] in QueuedAt(w, order))
  {
    hide Linked;
    var snap := SnapshotOf(w, order, gh, cfg, now);
    var p, stack := Tops(w, order)[i], snap.stacks[i].stack;
    StackRead(w, order, gh, cfg, now, i);
    assert PrFits(w, p);
    if !snap.stacks[i].landed && P.Verdict(snap, i) == P.Fits {
      forall k | 0 <= k < |stack.Numbers()| ensures stack.Numbers()[k] in QueuedAt(w, order) {
        assert stack.Numbers()[k] == stack.members[k].number;
        QueuedMeans(w, order, stack.Numbers()[k]);
      }
    }
  }

  lemma StandsOnTarget(w: World, stack: Stack)
    requires Chain(w, stack) && stack.base == w.target
    ensures OnTarget(w, stack)
  {
    AncestorItself(w.target);
  }

  lemma StackReady(w: World, order: seq<int>, gh: GitHub, cfg: Config, now: int, i: nat, action: P.Action)
    requires Rough(w) && DF.Calm(w) && Listing(w, order) && i < |SnapshotOf(w, order, gh, cfg, now).stacks|
    requires action in P.StackActions(SnapshotOf(w, order, gh, cfg, now), i)
    ensures Ready(w, QueuedAt(w, order), action)
  {
    hide Rough, Chain, OnTarget, SnapshotOf, Distinct;
    var snap := SnapshotOf(w, order, gh, cfg, now);
    var stack := snap.stacks[i].stack;
    ReadStack(w, order, gh, cfg, now, i);
    if P.Verdict(snap, i) == P.Fits && !snap.stacks[i].landed {
      StandsOnTarget(w, stack);
      if snap.stacks[i].state.Failure? { FailureReady(w, order, snap.now, snap.stacks[i], action); }
    }
  }

  lemma FailureReady(w: World, order: seq<int>, now: int, inFlight: P.InFlight, action: P.Action)
    requires DF.Calm(w) && Listing(w, order) && Chain(w, inFlight.stack) && inFlight.stack.base == w.target
    requires forall k :: 0 <= k < |inFlight.stack.Numbers()| ==> inFlight.stack.Numbers()[k] in QueuedAt(w, order)
    requires action in P.FailureActions(now, inFlight)
    ensures Ready(w, QueuedAt(w, order), action)
  {
    hide Chain, Linked, QueuedAt, P.Halves;
    var stack := inFlight.stack;
    var ns := stack.Numbers();
    ChainMembers(w, stack);
    if stack.retry == 0 && |inFlight.rerun| > 0 {
      var again := stack.(retry := 1, at := now / Basics.SECOND * Basics.SECOND);
      assert again.Numbers() == ns && action == P.Retry(again, inFlight.rerun);
      SameChain(w, stack, again);
    } else if |stack.members| == 1 {
      assert ns[0] == stack.members[0].number;
    } else {
      HalvesReady(w, QueuedAt(w, order), ns);
    }
  }

  lemma ChainMembers(w: World, stack: Stack)
    requires Chain(w, stack)
    ensures |stack.members| > 0 && Distinct(stack.Numbers())
  {
  }

  lemma HalvesReady(w: World, queued: map<int, P.Queued>, ns: seq<int>)
    requires |ns| > 1 && Distinct(ns) && w.target == w.seen && forall k :: 0 <= k < |ns| ==> ns[k] in queued
    ensures Ready(w, queued, P.Form(P.Halves(ns).0, w.target)) && Ready(w, queued, P.Form(P.Halves(ns).1, w.target))
  {
    DF.HalvesFacts(ns);
    var (front, back) := P.Halves(ns);
    forall k | 0 <= k < |front| ensures front[k] == ns[k] {}
    forall k | 0 <= k < |back| ensures back[k] == ns[|front| + k] {}
  }

  /** Whatever world a tick finds, its plan can be carried out, and moves the
      target at most once. */
  lemma PlanReady(w: World, order: seq<int>, gh: GitHub, cfg: Config, now: int)
    requires Rough(w) && DF.Calm(w) && Listing(w, order)
    ensures var plan := P.Plan(SnapshotOf(w, order, gh, cfg, now), cfg.batch);
            Alone(plan) && AllReady(w, QueuedAt(w, order), plan, 0)
    ensures Listed(w, QueuedAt(w, order))
  {
    hide Rough, Ready, P.Plan, P.StackActions, Beside, SnapshotOf, P.Taken, D.Group;
    var snap := SnapshotOf(w, order, gh, cfg, now);
    var plan := P.Plan(snap, cfg.batch);
    DistinctQueue(w, order, gh, cfg, now);
    PlanAlone(snap, cfg.batch);
    forall j | 0 <= j < |plan| ensures Ready(w, QueuedAt(w, order), plan[j]) {
      PlanCases(snap, cfg.batch, plan[j]);
      if i :| 0 <= i < |snap.stacks| && plan[j] in P.StackActions(snap, i) {
        StackReady(w, order, gh, cfg, now, i, plan[j]);
      } else if Beside(snap, cfg.batch, plan[j]) {
        BesideReady(w, order, gh, cfg, now, plan[j]);
      } else {
        GroupReady(w, order, gh, cfg, now);
      }
    }
    QueuedFits(w, order);
  }

  lemma BesideReady(w: World, order: seq<int>, gh: GitHub, cfg: Config, now: int, action: P.Action)
    requires Listing(w, order) && Beside(SnapshotOf(w, order, gh, cfg, now), cfg.batch, action)
    ensures Ready(w, QueuedAt(w, order), action)
  {
    IdleListed(w, order, gh, cfg, now, action.number);
  }

  lemma IdleListed(w: World, order: seq<int>, gh: GitHub, cfg: Config, now: int, n: int)
    requires Listing(w, order) && D.IdleNumber(SnapshotOf(w, order, gh, cfg, now), n)
    ensures n in QueuedAt(w, order)
  {
    var snap := SnapshotOf(w, order, gh, cfg, now);
    var k :| 0 <= k < |snap.queued| && snap.queued[k].number == n && P.Idle(snap, snap.queued[k]);
    assert snap.queued[k] == QueuedOf(w, order[k]) && order[k] == n;
    QueuedMeans(w, order, n);
  }

  lemma GroupReady(w: World, order: seq<int>, gh: GitHub, cfg: Config, now: int)
    requires DF.Calm(w) && Listing(w, order) && P.Taken(SnapshotOf(w, order, gh, cfg, now), cfg.batch) > 0
    ensures var snap := SnapshotOf(w, order, gh, cfg, now);
            Ready(w, QueuedAt(w, order), P.Form(D.Group(snap, cfg.batch), snap.target))
  {
    hide QueuedAt;
    var snap := SnapshotOf(w, order, gh, cfg, now);
    var ns := D.Group(snap, cfg.batch);
    DistinctQueue(w, order, gh, cfg, now);
    CandidatesDistinct(snap, |snap.queued|);
    D.CandidatesIdle(snap, |snap.queued|);
    forall i | 0 <= i < |ns| ensures ns[i] in QueuedAt(w, order) {
      assert ns[i] == P.Candidates(snap, |snap.queued|)[i];
      IdleListed(w, order, gh, cfg, now, ns[i]);
    }
  }

  lemma QueuedFits(w: World, order: seq<int>)
    requires Rough(w) && Listing(w, order)
    ensures Listed(w, QueuedAt(w, order))
  {
    forall n | n in QueuedAt(w, order) ensures n in w.prs && OwnsFit(QueuedAt(w, order)[n].owns, w.nextId) {
      QueuedMeans(w, order, n);
      assert PrFits(w, n);
    }
  }
}
