/**
 What a quiet tick does to landed records, and so to the queue's invariant: the
 tick erases the record of a landed pull request that it still lists exactly if
 one of the stacks it reads names it, and it keeps the invariant exactly if it
 erases none.
 */
module QueueQuiet {
  import opened Git
  import opened QueueWorld
  import opened QueueLanding
  import opened QueueTick
  import opened QueueTickSafety
  import opened QueueDrainForm
  import opened QueueDrainStacks
  import opened QueueDrainFailure
  import opened QueueDrainTurns
  import opened QueueDrain
  import P = QueuePlan

  /** No landed pull request the queue lists is named by a stack it reads. */
  predicate Mindful(w: World, snap: P.Snapshot) {
    forall p :: p in w.prs && w.prs[p].labelled && w.prs[p].AlreadyLanded() ==> !P.InStack(snap, p)
  }

  // ---- landed records ----

  /** A landed pull request after the stacks' turns. */
  ghost predicate Remembered(w0: World, w1: World, snap: P.Snapshot, p: int)
    requires p in w0.prs
  {
    && p in w1.prs && w1.prs[p].written == w0.prs[p].written
    && (w1.prs[p].AlreadyLanded() <==> !P.InStack(snap, p))
  }

  lemma UnclaimedLanded(w0: World, w1: World, snap: P.Snapshot, p: int)
    requires p in w0.prs && w0.prs[p].labelled && w0.prs[p].AlreadyLanded() && p in w1.prs
    requires w1.prs[p] == Requeued(w0.prs[p], InFirst(snap, |snap.stacks|, p))
    ensures Remembered(w0, w1, snap, p)
  {
    assert InFirst(snap, |snap.stacks|, p) <==> P.InStack(snap, p);
  }

  lemma MidwayRemembers(w0: World, w1: World, snap: P.Snapshot, tops: seq<int>, p: int)
    requires Tidy(w0) && Reads(w0, snap, tops) && P.FirstGreen(snap, |snap.stacks|) < 0
    requires Midway(w0, w1, snap, |snap.stacks|) && p in w0.prs && w0.prs[p].labelled && w0.prs[p].AlreadyLanded()
    ensures Remembered(w0, w1, snap, p)
  {
    hide Tidy, Down, Better, InFirst, InFailed, P.Claims, P.FirstGreen;
    assert PassedAt(w0, w1, snap, |snap.stacks|, p);
    LandedUnclaimed(w0, snap, tops, p);
    UnclaimedLanded(w0, w1, snap, p);
  }

  lemma LandedUnclaimed(w0: World, snap: P.Snapshot, tops: seq<int>, p: int)
    requires Tidy(w0) && Reads(w0, snap, tops) && p in w0.prs && w0.prs[p].AlreadyLanded()
    ensures !P.Claimed(snap, p)
  {
    hide Tidy, P.StaleReason, Live;
    forall i | 0 <= i < |snap.stacks| && P.Claims(snap, i) ensures p !in snap.stacks[i].stack.Numbers() {
      OnlyGreen(snap, i);
      if p in snap.stacks[i].stack.Numbers() { LiveNotLanded(w0, tops[i], p); }
    }
  }

  lemma ClearingRemembers(w0: World, w1: World, snap: P.Snapshot, tops: seq<int>, p: int)
    requires Tidy(w0) && Reads(w0, snap, tops) && P.FirstGreen(snap, |snap.stacks|) >= 0
    requires var lands := P.FirstGreen(snap, |snap.stacks|);
             snap.stacks[lands].stack.members != [] && Clearing(w0, w1, snap, |snap.stacks|, lands)
    requires p in w0.prs && w0.prs[p].labelled && w0.prs[p].AlreadyLanded()
    ensures Remembered(w0, w1, snap, p)
  {
    hide Tidy, InFirst, P.Claims, P.FirstGreen;
    assert ClearedAt(w0, w1, snap, |snap.stacks|, P.FirstGreen(snap, |snap.stacks|), p);
    LandedUnclaimed(w0, snap, tops, p);
    UnclaimedLanded(w0, w1, snap, p);
  }

  /** After a quiet tick a landed pull request the queue lists is still known
      to have landed if and only if no stack the tick read names it. */
  lemma TickForgets(w: World, order: seq<int>, gh: GitHub, cfg: Config, now: int, clean: seq<int> -> bool, p: int)
    requires Tidy(w) && Listing(w, order) && p in w.prs && w.prs[p].labelled && w.prs[p].AlreadyLanded()
    ensures Remembered(w, QuietTick(w, order, gh, cfg, now, clean), SnapshotOf(w, order, gh, cfg, now), p)
  {
    hide Tidy, P.FirstGreen, Remembered, Midway, Clearing, Reads;
    var snap := SnapshotOf(w, order, gh, cfg, now);
    var tops := Tops(w, order);
    PlanState(w, snap, cfg.batch, clean);
    TidyCalm(w);
    TidyMarkers(w);
    ReadsTidy(w, order, gh, cfg, now);
    StacksRead(w, order, gh, cfg, now);
    if P.Taken(snap, cfg.batch) > 0 {
      GroupForgets(w, order, gh, cfg, now, clean, p);
    } else {
      var w1 := AfterStacks(w, snap, |tops|, clean);
      if P.FirstGreen(snap, |snap.stacks|) < 0 {
        StacksFall(w, snap, tops, |tops|, clean);
        MidwayRemembers(w, w1, snap, tops, p);
        MidwayIdle(w, w1, snap);
        MidwayShape(w, w1, snap);
      } else {
        StacksClear(w, snap, tops, |tops|, clean);
        ClearingRemembers(w, w1, snap, tops, p);
        ClearingIdle(w, w1, snap, P.FirstGreen(snap, |snap.stacks|));
        ClearingShape(w, w1, snap, P.FirstGreen(snap, |snap.stacks|));
      }
      AfterTells(w, w1, order, gh, cfg, now, clean);
      ToldRemembers(w, w1, ToldState(w, snap, cfg.batch, clean), snap, p);
    }
  }

  lemma StacksRead(w: World, order: seq<int>, gh: GitHub, cfg: Config, now: int)
    requires Listing(w, order)
    ensures |SnapshotOf(w, order, gh, cfg, now).stacks| == |Tops(w, order)|
  {
  }

  lemma MidwayShape(w0: World, w1: World, snap: P.Snapshot)
    requires Midway(w0, w1, snap, |snap.stacks|)
    ensures Calm(w1) && w1.prs.Keys == w0.prs.Keys
  {
  }

  lemma ClearingShape(w0: World, w1: World, snap: P.Snapshot, lands: nat)
    requires lands < |snap.stacks| && snap.stacks[lands].stack.members != []
    requires Clearing(w0, w1, snap, |snap.stacks|, lands)
    ensures Calm(w1) && w1.prs.Keys == w0.prs.Keys
  {
  }

  lemma ToldRemembers(w0: World, w1: World, w2: World, snap: P.Snapshot, p: int)
    requires p in w0.prs && Remembered(w0, w1, snap, p) && Alike(w1, w2)
    ensures Remembered(w0, w2, snap, p)
  {
  }

  lemma GroupForgets(w: World, order: seq<int>, gh: GitHub, cfg: Config, now: int, clean: seq<int> -> bool, p: int)
    requires Tidy(w) && Listing(w, order) && p in w.prs && w.prs[p].labelled && w.prs[p].AlreadyLanded()
    requires P.Taken(SnapshotOf(w, order, gh, cfg, now), cfg.batch) > 0
    ensures var snap := SnapshotOf(w, order, gh, cfg, now);
            var w' := Act(ToldState(w, snap, cfg.batch, clean), P.Form(Group(snap, cfg.batch), snap.target), now, clean);
            Remembered(w, w', snap, p)
  {
    hide FormGroup, Tidy, Reformed, Alike, Group, Tells, Stackable;
    var snap := SnapshotOf(w, order, gh, cfg, now);
    var ns := Group(snap, cfg.batch);
    var told := ToldState(w, snap, cfg.batch, clean);
    TidyCalm(w);
    TidyMarkers(w);
    assert snap.stacks == [] && AfterStacks(w, snap, 0, clean) == w;
    AfterTells(w, w, order, gh, cfg, now, clean);
    GroupStackable(w, told, order, gh, cfg, now);
    ToldCalm(w, told);
    FormGroupReforms(told, ns, now, clean);
    LandedAside(w, told, FormGroup(told, ns, now, clean), ns, p);
  }

  lemma ToldCalm(w: World, told: World)
    requires Alike(w, told)
    ensures Calm(told) && told.target == w.target
  {
  }

  lemma LandedAside(w: World, told: World, w': World, ns: seq<int>, p: int)
    requires Alike(w, told) && p in w.prs && w.prs[p].AlreadyLanded() && Stackable(told, ns) && Reformed(told, w', ns)
    ensures p in w'.prs && w'.prs[p].AlreadyLanded() && w'.prs[p].written == w.prs[p].written
  {
    forall i | 0 <= i < |ns| ensures ns[i] != p {}
  }

  // ---- the invariant ----

  lemma {:induction false} TellAllKeepsInv(w: World, ns: seq<int>)
    requires Inv(w) && Calm(w)
    requires forall i :: 0 <= i < |ns| && ns[i] in w.prs && w.prs[ns[i]].labelled ==> !w.prs[ns[i]].AlreadyLanded()
    ensures Inv(TellAll(w, ns))
  {
    hide Inv;
    if ns != [] {
      var front, last := ns[..|ns| - 1], ns[|ns| - 1];
      TellAllKeepsInv(w, front);
      TellAllShape(w, front);
      var before := TellAll(w, front);
      if last in before.prs && before.prs[last].labelled {
        assert !before.prs[last].AlreadyLanded();
        StepKeepsInv(before, Plain(last));
      }
    }
  }

  /** Whom a stack given up tells, in a world its first turns have reached. */
  lemma GivesUpMindfully(w0: World, w: World, snap: P.Snapshot, k: nat)
    requires k < |snap.stacks| && w.prs.Keys == w0.prs.Keys && Mindful(w0, snap)
    requires forall q :: q in w0.prs ==> GivenUpAt(w0, w, snap, k, q)
    ensures var ns := P.Unclaimed(snap, snap.stacks[k].stack.Numbers());
            forall i :: 0 <= i < |ns| && ns[i] in w.prs && w.prs[ns[i]].labelled ==> !w.prs[ns[i]].AlreadyLanded()
  {
    hide P.Claimed, P.Unclaimed;
    var all := snap.stacks[k].stack.Numbers();
    var ns := P.Unclaimed(snap, all);
    forall i | 0 <= i < |ns| && ns[i] in w.prs && w.prs[ns[i]].labelled ensures !w.prs[ns[i]].AlreadyLanded() {
      UnclaimedMeans(snap, all, ns[i]);
      assert GivenUpAt(w0, w, snap, k, ns[i]) && P.InStack(snap, ns[i]);
    }
  }

  lemma TurnKeepsInv(w0: World, w: World, snap: P.Snapshot, tops: seq<int>, k: nat, clean: seq<int> -> bool)
    requires Inv(w) && Tidy(w0) && Reads(w0, snap, tops) && P.FirstGreen(snap, |snap.stacks|) < 0 && k < |tops|
    requires Mindful(w0, snap) && Midway(w0, w, snap, k)
    ensures Inv(ActAll(w, P.StackActions(snap, k), snap.now, clean))
  {
    hide Inv, Tidy, P.StackActions, Mindful;
    ClaimsLive(w0, snap, tops, k);
    if !P.Claims(snap, k) {
      AbandonTurn(w, snap, k, clean);
      MidwayGivesUp(w0, w, snap, k);
      TellAllKeepsInv(w, P.Unclaimed(snap, snap.stacks[k].stack.Numbers()));
    } else {
      NoGreenTurn(w, snap, k, clean);
      if !P.Waiting(snap, k) {
        MidwayUpNext(w0, w, snap, tops, k);
        SturdyStack(w, tops[k]);
        FailureKeepsInv(w, tops[k], snap.now, snap.stacks[k], clean);
      }
    }
  }

  lemma SturdyStack(w: World, p: int)
    requires Tidy(w) && Live(w, p)
    ensures Calm(w) && Stackable(w, NumbersOf(w, p))
  {
    assert Sturdy(w, p);
  }

  lemma MidwayGivesUp(w0: World, w: World, snap: P.Snapshot, k: nat)
    requires k < |snap.stacks| && Midway(w0, w, snap, k) && Mindful(w0, snap)
    ensures var ns := P.Unclaimed(snap, snap.stacks[k].stack.Numbers());
            Calm(w) && forall i :: 0 <= i < |ns| && ns[i] in w.prs && w.prs[ns[i]].labelled ==> !w.prs[ns[i]].AlreadyLanded()
  {
    hide Down, Better, P.Unclaimed, Mindful;
    forall q | q in w0.prs ensures GivenUpAt(w0, w, snap, k, q) { assert PassedAt(w0, w, snap, k, q); }
    GivesUpMindfully(w0, w, snap, k);
  }

  lemma {:induction false} StacksKeepInv(w0: World, snap: P.Snapshot, tops: seq<int>, k: nat, clean: seq<int> -> bool)
    requires Inv(w0) && Tidy(w0) && Reads(w0, snap, tops) && P.FirstGreen(snap, |snap.stacks|) < 0 && k <= |tops|
    requires Mindful(w0, snap)
    ensures Inv(AfterStacks(w0, snap, k, clean))
  {
    hide Inv, Tidy, Midway, Mindful, P.StackActions;
    if k == 0 {
      assert AfterStacks(w0, snap, 0, clean) == w0;
    } else {
      StacksKeepInv(w0, snap, tops, k - 1, clean);
      StacksFall(w0, snap, tops, k - 1, clean);
      StacksState(w0, snap, k, clean);
      TurnKeepsInv(w0, AfterStacks(w0, snap, k - 1, clean), snap, tops, k - 1, clean);
    }
  }

  lemma GreenTurnKeepsInv(w0: World, w: World, snap: P.Snapshot, tops: seq<int>, k: nat, clean: seq<int> -> bool)
    requires Inv(w) && Tidy(w0) && Reads(w0, snap, tops) && P.FirstGreen(snap, |snap.stacks|) >= 0 && k < |tops|
    requires Mindful(w0, snap)
    requires var lands := P.FirstGreen(snap, |snap.stacks|);
             snap.stacks[lands].stack.members != [] && Clearing(w0, w, snap, k, lands)
    ensures Inv(ActAll(w, P.StackActions(snap, k), snap.now, clean))
  {
    hide Inv, Tidy, P.StackActions, Mindful, ClearedAt, P.Unclaimed, Sturdy;
    var lands := P.FirstGreen(snap, |snap.stacks|);
    ClaimsLanding(snap, tops, w0, k);
    if k == lands {
      AdvanceTurn(w, snap, lands, clean);
      LandReady(w0, w, snap, tops);
      LandIsStep(w, tops[lands]);
      StepKeepsInv(w, Step.Advance(tops[lands]));
    } else {
      AbandonTurn(w, snap, k, clean);
      forall q | q in w0.prs ensures GivenUpAt(w0, w, snap, k, q) { ClearedGivenUp(w0, w, snap, k, lands, q); }
      GivesUpMindfully(w0, w, snap, k);
      TellAllKeepsInv(w, P.Unclaimed(snap, snap.stacks[k].stack.Numbers()));
    }
  }

  lemma ClearedGivenUp(w0: World, w: World, snap: P.Snapshot, k: nat, lands: nat, q: int)
    requires q in w0.prs && q in w.prs && lands < |snap.stacks| && ClearedAt(w0, w, snap, k, lands, q)
    ensures GivenUpAt(w0, w, snap, k, q)
  {
  }

  lemma {:induction false} StacksClearInv(w0: World, snap: P.Snapshot, tops: seq<int>, k: nat, clean: seq<int> -> bool)
    requires Inv(w0) && Tidy(w0) && Reads(w0, snap, tops) && P.FirstGreen(snap, |snap.stacks|) >= 0 && k <= |tops|
    requires Mindful(w0, snap)
    ensures Inv(AfterStacks(w0, snap, k, clean))
  {
    hide Inv, Tidy, Clearing, Mindful, P.StackActions;
    if k == 0 {
      assert AfterStacks(w0, snap, 0, clean) == w0;
    } else {
      StacksClearInv(w0, snap, tops, k - 1, clean);
      StacksClear(w0, snap, tops, k - 1, clean);
      StacksState(w0, snap, k, clean);
      GreenTurnKeepsInv(w0, AfterStacks(w0, snap, k - 1, clean), snap, tops, k - 1, clean);
    }
  }

  lemma MindfulKeeps(w: World, order: seq<int>, gh: GitHub, cfg: Config, now: int, clean: seq<int> -> bool)
    requires Inv(w) && Calm(w) && Listing(w, order) && Mindful(w, SnapshotOf(w, order, gh, cfg, now))
    ensures Inv(QuietTick(w, order, gh, cfg, now, clean))
  {
    hide Inv, Tidy, P.FirstGreen, Midway, Clearing, Reads, Mindful, Alike;
    var snap := SnapshotOf(w, order, gh, cfg, now);
    var tops := Tops(w, order);
    InvTidy(w);
    PlanState(w, snap, cfg.batch, clean);
    TidyCalm(w);
    TidyMarkers(w);
    ReadsTidy(w, order, gh, cfg, now);
    StacksRead(w, order, gh, cfg, now);
    if P.Taken(snap, cfg.batch) > 0 {
      GroupKeepsInv(w, order, gh, cfg, now, clean);
    } else {
      var w1 := AfterStacks(w, snap, |tops|, clean);
      if P.FirstGreen(snap, |snap.stacks|) < 0 {
        StacksFall(w, snap, tops, |tops|, clean);
        StacksKeepInv(w, snap, tops, |tops|, clean);
        MidwayIdle(w, w1, snap);
        MidwayShape(w, w1, snap);
      } else {
        StacksClear(w, snap, tops, |tops|, clean);
        StacksClearInv(w, snap, tops, |tops|, clean);
        ClearingIdle(w, w1, snap, P.FirstGreen(snap, |snap.stacks|));
        ClearingShape(w, w1, snap, P.FirstGreen(snap, |snap.stacks|));
      }
      AfterTells(w, w1, order, gh, cfg, now, clean);
      TellsKeepInv(w1, Tells(snap, cfg.batch), now, clean);
    }
  }

  lemma GroupKeepsInv(w: World, order: seq<int>, gh: GitHub, cfg: Config, now: int, clean: seq<int> -> bool)
    requires Inv(w) && Tidy(w) && Listing(w, order) && P.Taken(SnapshotOf(w, order, gh, cfg, now), cfg.batch) > 0
    ensures var snap := SnapshotOf(w, order, gh, cfg, now);
            Inv(Act(ToldState(w, snap, cfg.batch, clean), P.Form(Group(snap, cfg.batch), snap.target), now, clean))
  {
    hide Inv, FormGroup, Tidy, Alike, Group, Tells, Stackable;
    var snap := SnapshotOf(w, order, gh, cfg, now);
    var told := ToldState(w, snap, cfg.batch, clean);
    TidyCalm(w);
    TidyMarkers(w);
    assert snap.stacks == [] && AfterStacks(w, snap, 0, clean) == w;
    AfterTells(w, w, order, gh, cfg, now, clean);
    TellsKeepInv(w, Tells(snap, cfg.batch), now, clean);
    GroupStackable(w, told, order, gh, cfg, now);
    ToldCalm(w, told);
    FormGroupKeepsInv(told, Group(snap, cfg.batch), now, clean);
  }

  lemma LandedGrows(p: int, a: Commit, b: Commit)
    requires IsAncestor(a, b)
    ensures Git.Landed(p, a) <= Git.Landed(p, b)
  {
    RangeOf(p, a, b);
  }

  lemma ForgottenBreaks(w: World, w': World, p: int)
    requires Inv(w) && p in w.prs && w.prs[p].AlreadyLanded() && IsAncestor(w.target, w'.target)
    requires p in w'.prs && !w'.prs[p].AlreadyLanded() && w'.prs[p].written == w.prs[p].written
    ensures !Inv(w')
  {
    assert Described(w, p);
    LandedGrows(p, w.target, w'.target);
    assert !Described(w', p);
  }

  lemma TargetAfter(w: World, order: seq<int>, gh: GitHub, cfg: Config, now: int, clean: seq<int> -> bool)
    requires Tidy(w) && Listing(w, order)
    ensures IsAncestor(w.target, QuietTick(w, order, gh, cfg, now, clean).target)
  {
    hide Tidy, P.FirstGreen, Reads, Midway, Lower, NotHigher;
    var snap := SnapshotOf(w, order, gh, cfg, now);
    var tops := Tops(w, order);
    PlanState(w, snap, cfg.batch, clean);
    TidyCalm(w);
    TidyMarkers(w);
    ReadsTidy(w, order, gh, cfg, now);
    StacksRead(w, order, gh, cfg, now);
    AncestorItself(w.target);
    if P.Taken(snap, cfg.batch) > 0 {
      GroupTarget(w, order, gh, cfg, now, clean);
    } else {
      var w1 := AfterStacks(w, snap, |tops|, clean);
      if P.FirstGreen(snap, |snap.stacks|) < 0 {
        StacksFall(w, snap, tops, |tops|, clean);
        MidwayIdle(w, w1, snap);
        MidwayShape(w, w1, snap);
        MidwayTarget(w, w1, snap);
      } else {
        StacksClear(w, snap, tops, |tops|, clean);
        ClearingIdle(w, w1, snap, P.FirstGreen(snap, |snap.stacks|));
        ClearingShape(w, w1, snap, P.FirstGreen(snap, |snap.stacks|));
        ClearingTarget(w, w1, snap, tops);
      }
      AfterTells(w, w1, order, gh, cfg, now, clean);
    }
  }

  lemma MidwayTarget(w0: World, w1: World, snap: P.Snapshot)
    requires Midway(w0, w1, snap, |snap.stacks|)
    ensures w1.target == w0.target
  {
  }

  lemma ClearingTarget(w0: World, w1: World, snap: P.Snapshot, tops: seq<int>)
    requires Tidy(w0) && Reads(w0, snap, tops) && P.FirstGreen(snap, |snap.stacks|) >= 0
    requires var lands := P.FirstGreen(snap, |snap.stacks|);
             snap.stacks[lands].stack.members != [] && Clearing(w0, w1, snap, |snap.stacks|, lands)
    ensures IsAncestor(w0.target, w1.target)
  {
    hide ClearedAt;
    var lands := P.FirstGreen(snap, |snap.stacks|);
    ClaimsLanding(snap, tops, w0, lands);
    assert Sturdy(w0, tops[lands]);
  }

  lemma GroupTarget(w: World, order: seq<int>, gh: GitHub, cfg: Config, now: int, clean: seq<int> -> bool)
    requires Tidy(w) && Listing(w, order) && P.Taken(SnapshotOf(w, order, gh, cfg, now), cfg.batch) > 0
    ensures var snap := SnapshotOf(w, order, gh, cfg, now);
            Act(ToldState(w, snap, cfg.batch, clean), P.Form(Group(snap, cfg.batch), snap.target), now,
                clean).target == w.target
  {
    hide FormGroup, Tidy, Alike, Group, Tells, Stackable;
    var snap := SnapshotOf(w, order, gh, cfg, now);
    var told := ToldState(w, snap, cfg.batch, clean);
    TidyCalm(w);
    TidyMarkers(w);
    assert snap.stacks == [] && AfterStacks(w, snap, 0, clean) == w;
    AfterTells(w, w, order, gh, cfg, now, clean);
    GroupStackable(w, told, order, gh, cfg, now);
    ToldCalm(w, told);
    FormGroupReforms(told, Group(snap, cfg.batch), now, clean);
  }

  /** A quiet tick keeps the queue's invariant if and only if it erases no
      landed record. */
  lemma TickKeepsInv(w: World, order: seq<int>, gh: GitHub, cfg: Config, now: int, clean: seq<int> -> bool)
    requires Inv(w) && Calm(w) && Listing(w, order)
    ensures Inv(QuietTick(w, order, gh, cfg, now, clean)) <==> Mindful(w, SnapshotOf(w, order, gh, cfg, now))
  {
    hide Inv, Tidy, QuietTick, SnapshotOf, P.InStack;
    var snap := SnapshotOf(w, order, gh, cfg, now);
    if Mindful(w, snap) {
      MindfulKeeps(w, order, gh, cfg, now, clean);
    } else {
      var p :| p in w.prs && w.prs[p].labelled && w.prs[p].AlreadyLanded() && P.InStack(snap, p);
      InvTidy(w);
      TickForgets(w, order, gh, cfg, now, clean, p);
      TargetAfter(w, order, gh, cfg, now, clean);
      ForgottenBreaks(w, QuietTick(w, order, gh, cfg, now, clean), p);
    }
  }
}
