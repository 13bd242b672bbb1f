/**
 One whole tick: from the snapshot through the plan to the last action. Others
 act before every call, any call may end the tick, and an earlier tick may have
 died while it told a landing.
 */
module QueueWholeTick {
  import opened Options
  import opened Git
  import opened Queue
  import opened QueueWorld
  import opened QueueSafety
  import opened QueueRebase
  import opened QueueRuns
  import opened QueueRough
  import opened QueueTorn
  import opened QueueKeeping
  import opened QueueApply
  import opened QueueTick
  import opened QueueTickSafety
  import opened QueueTickRun
  import opened QueueGrounds
  import D = QueueDrain
  import U = QueueUndisturbed
  import DF = QueueDrainForm
  import DS = QueueDrainStacks
  import DT = QueueDrainTurns
  import Basics
  import P = QueuePlan

  // ---- where a tick may start ----

  /** Every pull request the queue lists was told what it has to know. */
  predicate NoneHidden(f: Fine) {
    forall p :: p in f.untold && p in f.world.prs ==> !f.world.prs[p].labelled
  }

  /** Or one landing is told in part, and its top still leads to it. */
  ghost predicate OneHidden(f: Fine, top: int) {
    && Unfinished(f, top) && NothingBased(f.world)
    && (forall p :: p in f.untold && p in f.world.prs && f.world.prs[p].labelled ==>
          p in f.world.prs[top].comment.stack.value.Numbers())
    && forall p :: Marked(f.world, p) && f.world.prs[p].labelled && p != top ==>
         !IsAncestor(f.world.prs[p].comment.stack.value.Top().sha, f.world.target)
  }

  ghost predicate Startable(f: Fine) {
    NoneHidden(f) || exists top :: OneHidden(f, top)
  }

  /** Besides pull requests whose landed record was erased and whose authors
      have pushed since. */
  ghost predicate Repairable(f: Fine) {
    exists g :: Recalls(f, g) && OthersListed(f, g) && Startable(g)
  }

  predicate OthersListed(f: Fine, g: Fine) {
    forall p :: p in f.untold && p !in g.untold ==> p in f.world.prs && f.world.prs[p].labelled
  }

  lemma RepairableIf(f: Fine)
    requires forall p :: p in f.untold && p in f.world.prs && f.world.prs[p].labelled ==> Recallable(f, p)
    ensures Repairable(f)
  {
    var rest := map p | p in f.untold && !(p in f.world.prs && f.world.prs[p].labelled) :: f.untold[p];
    var g := Fine(f.world, rest);
    assert Recalls(f, g) && OthersListed(f, g) && NoneHidden(g);
  }

  /** A landing leaves a world where the next tick may start ... */
  lemma ForwardHides(f: Fine, top: int)
    requires FineInv(f) && NoneHidden(f) && FineEnabled(f, Forward(top)) && f.world.prs[top].labelled
    ensures OneHidden(FineNext(f, Forward(top)), top)
  {
    hide FineInv, Unfinished, NothingBased, IsAncestor;
    var g := FineNext(f, Forward(top));
    var stack := f.world.prs[top].comment.stack.value;
    ForwardUnfinished(f, top);
    forall p | p in g.untold && p in g.world.prs && g.world.prs[p].labelled ensures p in stack.Numbers() {
      UntoldAt(stack, f.untold, p);
      assert stack.Numbers()[IndexOf(stack.members, p)] == p;
    }
    forall p | Marked(g.world, p) && g.world.prs[p].labelled && p != top
      ensures !IsAncestor(g.world.prs[p].comment.stack.value.Top().sha, g.world.target)
    {
      OthersNotLanded(f, top, p);
    }
  }

  lemma OthersNotLanded(f: Fine, top: int, p: int)
    requires FineInv(f) && FineEnabled(f, Forward(top)) && Marked(f.world, p) && p !in f.untold && p != top
    ensures !IsAncestor(f.world.prs[p].comment.stack.value.Top().sha, f.world.prs[top].comment.stack.value.Top().sha)
  {
    var a, b := f.world.prs[p].comment.stack.value, f.world.prs[top].comment.stack.value;
    SettledSame(f);
    assert Settled(f).prs[p] == f.world.prs[p] && Settled(f).prs[top] == f.world.prs[top];
    assert Marked(Settled(f), p) && Marked(Settled(f), top);
    assert StackKept(Settled(f), a) && Apart(a, b);
    MemberAboveBase(a, |a.members| - 1);
    AncestorItself(a.Top().sha);
  }

  /** ... and it stays one whatever others do, except that they take the label
      from the top, or give it back to a pull request that was lost before. */
  lemma OthersHide(f: Fine, step: Step, top: int)
    requires FineInv(f) && FineEnabled(f, Plainly(step)) && ByOthers(step) && OneHidden(f, top)
    requires step != SetLabel(top, false)
    requires (step.SetLabel? && step.on ==> f.world.prs[step.p].labelled || Harmless(f, top, step.p))
    ensures OneHidden(FineNext(f, Plainly(step)), top)
  {
    hide Inv, Settled, Outdated, Bounded, LandedShape, NothingBased, IsAncestor, ToldOrUntold;
    var g := FineNext(f, Plainly(step));
    OthersUnfinished(f, step, top);
    forall p | p in g.untold && p in g.world.prs && g.world.prs[p].labelled
      ensures p in f.world.prs[top].comment.stack.value.Numbers()
    {
      assert p in f.world.prs;
    }
    forall p | p in g.world.prs && g.world.prs[p].comment.stack.Some?
      ensures p in f.world.prs && g.world.prs[p].comment == f.world.prs[p].comment
    {}
    forall p | Marked(g.world, p) && g.world.prs[p].labelled && p != top
      ensures !IsAncestor(g.world.prs[p].comment.stack.value.Top().sha, g.world.target)
    {
      if step.PushTarget? { PushedBeside(f, p); }
    }
  }

  /** Listing q again hides nothing more. */
  predicate Harmless(f: Fine, top: int, q: int)
    requires Marked(f.world, top)
  {
    && (q in f.untold ==> q in f.world.prs[top].comment.stack.value.Numbers())
    && (Marked(f.world, q) && q != top ==> !IsAncestor(f.world.prs[q].comment.stack.value.Top().sha, f.world.target))
  }

  lemma PushedBeside(f: Fine, p: int)
    requires FineInv(f) && Marked(f.world, p)
    requires !IsAncestor(f.world.prs[p].comment.stack.value.Top().sha, f.world.target)
    ensures !IsAncestor(f.world.prs[p].comment.stack.value.Top().sha, Next(f.world, PushTarget).target)
  {
    AllBased(f, p);
  }

  lemma ListedSpeakable(f: Fine, order: seq<int>, n: int)
    requires Listing(f.world, order) && n in QueuedAt(f.world, order) && n !in f.untold
    ensures Speakable(f, QueuedAt(f.world, order), n)
  {
    QueuedMeans(f.world, order, n);
  }

  // ---- nothing to repair ----

  lemma SettledListed(f: Fine, p: int)
    requires NoneHidden(f) && p in f.world.prs && f.world.prs[p].labelled
    ensures Settled(f).prs[p] == f.world.prs[p]
  {
  }

  lemma {:induction false} SameTops(w: World, v: World, order: seq<int>)
    requires forall i :: 0 <= i < |order| ==>
               order[i] in w.prs && order[i] in v.prs && v.prs[order[i]] == w.prs[order[i]]
    ensures Tops(v, order) == Tops(w, order)
    decreases |order|
  {
    if order != [] {
      assert order[|order| - 1] in w.prs;
      SameTops(w, v, order[..|order| - 1]);
    }
  }

  lemma SameSnapshot(f: Fine, order: seq<int>, gh: GitHub, cfg: Config, now: int)
    requires NoneHidden(f) && Listing(f.world, order)
    ensures Listing(Settled(f), order)
    ensures SnapshotOf(Settled(f), order, gh, cfg, now) == SnapshotOf(f.world, order, gh, cfg, now)
  {
    hide LoadInFlight;
    var v := Settled(f);
    SettledSame(f);
    forall i | 0 <= i < |order| ensures order[i] in v.prs && v.prs[order[i]] == f.world.prs[order[i]] {
      SettledListed(f, order[i]);
    }
    SameTops(f.world, v, order);
    assert QueuedList(v, order) == QueuedList(f.world, order);
    var a, b := SnapshotOf(v, order, gh, cfg, now), SnapshotOf(f.world, order, gh, cfg, now);
    forall i | 0 <= i < |a.stacks| ensures a.stacks[i] == b.stacks[i] {
      TopListed(f.world, order, i);
    }
    assert a.stacks == b.stacks;
  }

  lemma TopListed(w: World, order: seq<int>, i: nat)
    requires i < |Tops(w, order)|
    ensures Tops(w, order)[i] in order
  {
  }

  /** What the machine knows of a live stack it read. */
  lemma LiveFacts(f: Fine, p: int)
    requires FineInv(f) && DF.Calm(f.world) && NoneHidden(f) && Live(Settled(f), p) && DS.Sturdy(Settled(f), p)
    ensures Marked(f.world, p) && f.world.prs[p] == Settled(f).prs[p]
    ensures var stack := f.world.prs[p].comment.stack.value;
            && InFlight(f.world, stack) && stack.base == f.world.seen && ClearOf(f, stack.Numbers())
            && Distinct(stack.Numbers())
            && forall i :: 0 <= i < |stack.members| ==>
                 var n := stack.Numbers()[i]; n in f.world.prs && f.world.prs[n].labelled && !f.world.prs[n].AlreadyLanded()
  {
    hide Inv, Outdated;
    SettledSame(f);
    SettledListed(f, p);
    var stack := f.world.prs[p].comment.stack.value;
    var ns := stack.Numbers();
    forall i | 0 <= i < |ns|
      ensures ns[i] in f.world.prs && f.world.prs[ns[i]].labelled && ns[i] !in f.untold
      ensures Settled(f).prs[ns[i]] == f.world.prs[ns[i]]
    {
      assert ns[i] == stack.members[i].number;
      SettledListed(f, ns[i]);
    }
    forall i | 0 <= i < |stack.members|
      ensures IsAncestor(stack.members[i].sha, f.world.prs[stack.members[i].number].head)
    {
      assert ns[i] == stack.members[i].number;
      AncestorItself(stack.members[i].sha);
    }
  }

  /** A failing live stack's actions. */
  lemma FailureGrounded(f: Fine, order: seq<int>, now: int, inFlight: P.InFlight, p: int, action: P.Action)
    requires FineInv(f) && DF.Calm(f.world) && NoneHidden(f) && Listing(f.world, order)
    requires Live(Settled(f), p) && DS.Sturdy(Settled(f), p) && inFlight.stack == Settled(f).prs[p].comment.stack.value
    requires action in P.FailureActions(now, inFlight)
    ensures Grounded(f, QueuedAt(f.world, order), action)
  {
    hide FineInv, Known, InFlight, Live;
    LiveFacts(f, p);
    var stack := inFlight.stack;
    var ns := stack.Numbers();
    assert forall i :: 0 <= i < |stack.members| ==> ns[i] == stack.members[i].number;
    KnownListed(f.world, order, ns);
    if stack.retry == 0 && |inFlight.rerun| > 0 {
      var again := stack.(retry := 1, at := now / Basics.SECOND * Basics.SECOND);
      assert again.Numbers() == ns && action == P.Retry(again, inFlight.rerun);
    } else if |stack.members| == 1 {
      assert ns == [stack.members[0].number];
    } else {
      HalvesGrounded(f, order, ns, stack, action);
    }
  }

  lemma HalvesGrounded(f: Fine, order: seq<int>, ns: seq<int>, stack: Stack, action: P.Action)
    requires Listing(f.world, order) && stack.base == f.world.seen && Distinct(ns) && ClearOf(f, ns) && |ns| > 1
    requires forall i :: 0 <= i < |ns| ==>
               ns[i] in f.world.prs && f.world.prs[ns[i]].labelled && !f.world.prs[ns[i]].AlreadyLanded()
    requires var halves := P.Halves(ns);
             action == P.Split(stack) || action == P.Form(halves.0, stack.base) || action == P.Form(halves.1, stack.base)
    ensures Grounded(f, QueuedAt(f.world, order), action)
  {
    hide Known;
    DF.HalvesFacts(ns);
    var (front, back) := P.Halves(ns);
    forall i | 0 <= i < |front| ensures front[i] == ns[i] {}
    forall i | 0 <= i < |back| ensures back[i] == ns[|front| + i] {}
    KnownListed(f.world, order, front);
    KnownListed(f.world, order, back);
  }

  lemma StackGrounded(f: Fine, order: seq<int>, snap: P.Snapshot, tops: seq<int>, i: nat, action: P.Action)
    requires FineInv(f) && DF.Calm(f.world) && NoneHidden(f) && Listing(f.world, order)
    requires DS.Tidy(Settled(f)) && DT.Reads(Settled(f), snap, tops) && i < |snap.stacks|
    requires action in P.StackActions(snap, i)
    ensures Grounded(f, QueuedAt(f.world, order), action)
  {
    hide FineInv, DS.Tidy, InFlight, Known, Speakable, P.FailureActions;
    var p := tops[i];
    if !P.Claims(snap, i) {
      forall k | 0 <= k < |action.prs| && action.prs[k] in QueuedAt(f.world, order)
        ensures Speakable(f, QueuedAt(f.world, order), action.prs[k])
      {
        QueuedMeans(f.world, order, action.prs[k]);
        ListedSpeakable(f, order, action.prs[k]);
      }
    } else {
      ClaimsFit(Settled(f), snap, tops, i);
      TidySturdy(Settled(f), p);
      LiveFacts(f, p);
      if snap.stacks[i].state.Failure? {
        FailureGrounded(f, order, snap.now, snap.stacks[i], p, action);
      }
    }
  }

  lemma TidySturdy(w: World, p: int)
    requires DS.Tidy(w) && Live(w, p)
    ensures DS.Sturdy(w, p)
  {
  }

  lemma NormalGrounded(f: Fine, order: seq<int>, gh: GitHub, cfg: Config, now: int, action: P.Action)
    requires FineInv(f) && DF.Calm(f.world) && NoneHidden(f) && Listing(f.world, order)
    requires action in P.Plan(SnapshotOf(f.world, order, gh, cfg, now), cfg.batch)
    ensures Grounded(f, QueuedAt(f.world, order), action)
  {
    hide FineInv, DS.Tidy, P.StackActions, P.Plan, Grounded, Beside, D.IdleNumber, P.Taken, D.Group;
    var snap, v := SnapshotOf(f.world, order, gh, cfg, now), Settled(f);
    NormalReads(f, order, gh, cfg, now);
    DistinctQueue(f.world, order, gh, cfg, now);
    PlanCases(snap, cfg.batch, action);
    if i :| 0 <= i < |snap.stacks| && action in P.StackActions(snap, i) {
      StackGrounded(f, order, snap, Tops(v, order), i, action);
    } else if Beside(snap, cfg.batch, action) {
      AsideGrounded(f, order, gh, cfg, now, action);
    } else {
      GroupGrounded(f, order, gh, cfg, now);
    }
  }

  lemma NormalReads(f: Fine, order: seq<int>, gh: GitHub, cfg: Config, now: int)
    requires FineInv(f) && DF.Calm(f.world) && NoneHidden(f) && Listing(f.world, order)
    ensures DS.Tidy(Settled(f)) && Listing(Settled(f), order)
    ensures SnapshotOf(f.world, order, gh, cfg, now) == SnapshotOf(Settled(f), order, gh, cfg, now)
    ensures DT.Reads(Settled(f), SnapshotOf(f.world, order, gh, cfg, now), Tops(Settled(f), order))
  {
    hide Inv, Outdated, DS.Tidy, DT.Reads;
    SettledSame(f);
    SameSnapshot(f, order, gh, cfg, now);
    DS.InvTidy(Settled(f));
    DT.ReadsTidy(Settled(f), order, gh, cfg, now);
  }

  lemma AsideGrounded(f: Fine, order: seq<int>, gh: GitHub, cfg: Config, now: int, action: P.Action)
    requires FineInv(f) && Listing(f.world, order) && Beside(SnapshotOf(f.world, order, gh, cfg, now), cfg.batch, action)
    requires action.number in f.untold && action.number in f.world.prs ==> !f.world.prs[action.number].labelled
    ensures Grounded(f, QueuedAt(f.world, order), action)
  {
    var snap := SnapshotOf(f.world, order, gh, cfg, now);
    var k :| 0 <= k < |snap.queued| && snap.queued[k].number == action.number && P.Idle(snap, snap.queued[k]);
    assert snap.queued[k] == QueuedOf(f.world, order[k]) && order[k] == action.number;
    QueuedMeans(f.world, order, action.number);
  }

  lemma GroupGrounded(f: Fine, order: seq<int>, gh: GitHub, cfg: Config, now: int)
    requires FineInv(f) && DF.Calm(f.world) && NoneHidden(f) && Listing(f.world, order)
    requires P.Taken(SnapshotOf(f.world, order, gh, cfg, now), cfg.batch) > 0
    ensures var snap := SnapshotOf(f.world, order, gh, cfg, now);
            Grounded(f, QueuedAt(f.world, order), P.Form(D.Group(snap, cfg.batch), snap.target))
  {
    hide FineInv, Known;
    var snap := SnapshotOf(f.world, order, gh, cfg, now);
    var ns := D.Group(snap, cfg.batch);
    DistinctQueue(f.world, order, gh, cfg, now);
    CandidatesDistinct(snap, |snap.queued|);
    forall i | 0 <= i < |ns|
      ensures ns[i] in f.world.prs && f.world.prs[ns[i]].labelled && !f.world.prs[ns[i]].AlreadyLanded()
      ensures ns[i] !in f.untold
    {
      assert ns[i] in P.Candidates(snap, |snap.queued|);
      var k :| 0 <= k < |snap.queued| && snap.queued[k].number == ns[i] && P.Idle(snap, snap.queued[k]);
      assert snap.queued[k] == QueuedOf(f.world, order[k]);
    }
    KnownListed(f.world, order, ns);
  }

  lemma NormalOnce(f: Fine, order: seq<int>, gh: GitHub, cfg: Config, now: int)
    requires FineInv(f) && DF.Calm(f.world) && NoneHidden(f) && Listing(f.world, order)
    ensures Once(SnapshotOf(f.world, order, gh, cfg, now))
  {
    hide FineInv;
    var snap, v := SnapshotOf(f.world, order, gh, cfg, now), Settled(f);
    NormalReads(f, order, gh, cfg, now);
    ReadsOnce(v, snap, Tops(v, order));
  }

  // ---- one landing to finish ----

  lemma TornReads(f: Fine, top: int, order: seq<int>, gh: GitHub, cfg: Config, now: int, i: nat)
    requires OneHidden(f, top) && Listing(f.world, order) && i < |Tops(f.world, order)|
    ensures var snap := SnapshotOf(f.world, order, gh, cfg, now);
            var p := Tops(f.world, order)[i];
            && |snap.stacks| == |Tops(f.world, order)| && snap.stacks[i].stack == f.world.prs[p].comment.stack.value
            && (snap.stacks[i].landed <==> p == top) && (P.Claims(snap, i) <==> p == top)
            && (p == top ==> P.StackActions(snap, i) == [P.Record(f.world.prs[top].comment.stack.value)])
  {
    StackRead(f.world, order, gh, cfg, now, i);
  }

  lemma TornGrounded(f: Fine, top: int, order: seq<int>, gh: GitHub, cfg: Config, now: int, action: P.Action)
    requires FineInv(f) && OneHidden(f, top) && Listing(f.world, order)
    requires action in P.Plan(SnapshotOf(f.world, order, gh, cfg, now), cfg.batch)
    ensures Grounded(f, QueuedAt(f.world, order), action)
  {
    hide FineInv, P.Plan, Speakable, D.IdleNumber, P.Claims, SnapshotOf;
    var snap, tops := SnapshotOf(f.world, order, gh, cfg, now), Tops(f.world, order);
    DistinctQueue(f.world, order, gh, cfg, now);
    PlanCases(snap, cfg.batch, action);
    MarkedIsTop(f.world, order, top);
    var t :| 0 <= t < |tops| && tops[t] == top;
    TornReads(f, top, order, gh, cfg, now, t);
    if i :| 0 <= i < |snap.stacks| && action in P.StackActions(snap, i) {
      TornReads(f, top, order, gh, cfg, now, i);
      if tops[i] != top { TornAbandon(f, top, order, snap, i, t, action); }
    } else if Beside(snap, cfg.batch, action) {
      TornAside(f, top, order, gh, cfg, now, t, action);
    }
  }

  lemma TornAbandon(f: Fine, top: int, order: seq<int>, snap: P.Snapshot, i: nat, t: nat, action: P.Action)
    requires OneHidden(f, top) && Listing(f.world, order) && i < |snap.stacks| && t < |snap.stacks|
    requires !P.Claims(snap, i) && P.Claims(snap, t) && snap.stacks[t].stack == f.world.prs[top].comment.stack.value
    requires action in P.StackActions(snap, i)
    ensures Grounded(f, QueuedAt(f.world, order), action)
  {
    hide P.Claims;
    SoftOnly(snap, i, action);
    forall k | 0 <= k < |action.prs| && action.prs[k] in QueuedAt(f.world, order)
      ensures Speakable(f, QueuedAt(f.world, order), action.prs[k])
    {
      var n := action.prs[k];
      SoftUnclaimed(snap, i, action, n);
      QueuedMeans(f.world, order, n);
      ListedSpeakable(f, order, n);
    }
  }

  lemma SoftOnly(snap: P.Snapshot, i: nat, action: P.Action)
    requires i < |snap.stacks| && !P.Claims(snap, i) && action in P.StackActions(snap, i)
    ensures action.Abandon?
  {
  }

  lemma TornAside(f: Fine, top: int, order: seq<int>, gh: GitHub, cfg: Config, now: int, t: nat, action: P.Action)
    requires FineInv(f) && OneHidden(f, top) && Listing(f.world, order)
    requires var snap := SnapshotOf(f.world, order, gh, cfg, now);
             && Beside(snap, cfg.batch, action) && t < |snap.stacks|
             && snap.stacks[t].stack == f.world.prs[top].comment.stack.value
    ensures Grounded(f, QueuedAt(f.world, order), action)
  {
    IdleNotIn(SnapshotOf(f.world, order, gh, cfg, now), action.number);
    AsideGrounded(f, order, gh, cfg, now, action);
  }

  lemma TornOnce(f: Fine, top: int, order: seq<int>, gh: GitHub, cfg: Config, now: int)
    requires OneHidden(f, top) && Listing(f.world, order)
    ensures Once(SnapshotOf(f.world, order, gh, cfg, now))
  {
    hide P.Claims, P.Waiting, SnapshotOf;
    var snap, tops := SnapshotOf(f.world, order, gh, cfg, now), Tops(f.world, order);
    TopsDistinct(f.world, order);
    MarkedIsTop(f.world, order, top);
    var t :| 0 <= t < |tops| && tops[t] == top;
    TornReads(f, top, order, gh, cfg, now, t);
    forall i | 0 <= i < |snap.stacks| ensures P.Claims(snap, i) <==> i == t {
      TornReads(f, top, order, gh, cfg, now, i);
    }
  }

  // ---- the tick ----

  /** A tick finds a landing cut short exactly when its top is listed. */
  lemma RecordedIff(f: Fine, top: int, order: seq<int>, gh: GitHub, cfg: Config, now: int)
    requires Leading(f, top) && NothingBased(f.world) && Listing(f.world, order)
    ensures P.Record(f.world.prs[top].comment.stack.value) in P.Plan(SnapshotOf(f.world, order, gh, cfg, now), cfg.batch) <==>
            f.world.prs[top].labelled
  {
    hide ToldOrUntold, IsAncestor, NothingBased;
    var w, stack := f.world, f.world.prs[top].comment.stack.value;
    var snap := SnapshotOf(w, order, gh, cfg, now);
    if w.prs[top].labelled {
      UnfinishedIsRecorded(f, top, order, gh, cfg, now);
    } else {
      forall action | action in P.Plan(snap, cfg.batch) ensures action != P.Record(stack) {
        NotRecorded(w, order, gh, cfg, now, top, action);
      }
    }
  }

  lemma NotRecorded(w: World, order: seq<int>, gh: GitHub, cfg: Config, now: int, top: int, action: P.Action)
    requires Listing(w, order) && Marked(w, top) && !w.prs[top].labelled
    requires action in P.Plan(SnapshotOf(w, order, gh, cfg, now), cfg.batch)
    ensures action != P.Record(w.prs[top].comment.stack.value)
  {
    hide P.Plan, P.StackActions, P.Taken, SnapshotOf, Beside;
    var snap := SnapshotOf(w, order, gh, cfg, now);
    DistinctQueue(w, order, gh, cfg, now);
    PlanCases(snap, cfg.batch, action);
    if action.Record? {
      if Beside(snap, cfg.batch, action) { AsideTells(snap, cfg.batch, action); }
      var i :| 0 <= i < |snap.stacks| && action in P.StackActions(snap, i);
      RecordsItsOwn(snap, i, action);
      ReadFromTop(w, order, gh, cfg, now, i);
    }
  }

  lemma AsideTells(snap: P.Snapshot, batch: nat, action: P.Action)
    requires Beside(snap, batch, action)
    ensures action.Tell?
  {
  }

  lemma RecordsItsOwn(snap: P.Snapshot, i: nat, action: P.Action)
    requires i < |snap.stacks| && action in P.StackActions(snap, i) && action.Record?
    ensures action == P.Record(snap.stacks[i].stack)
  {
  }

  /** A stack is read from the marker on its own top, which is listed. */
  lemma ReadFromTop(w: World, order: seq<int>, gh: GitHub, cfg: Config, now: int, i: nat)
    requires Listing(w, order) && i < |SnapshotOf(w, order, gh, cfg, now).stacks|
    ensures var stack := SnapshotOf(w, order, gh, cfg, now).stacks[i].stack;
            stack.members != [] && stack.Top().number in w.prs && w.prs[stack.Top().number].labelled
  {
    assert Marked(w, Tops(w, order)[i]) && Tops(w, order)[i] in order;
  }

  /** Where the machine's invariant holds and a tick may start, every action of
      its plan is a step of the machine, and no two get in each other's way. */
  lemma PlanStands(f: Fine, order: seq<int>, gh: GitHub, cfg: Config, now: int)
    requires FineInv(f) && DF.Calm(f.world) && Startable(f) && Listing(f.world, order)
    ensures AllGrounded(f, QueuedAt(f.world, order), P.Plan(SnapshotOf(f.world, order, gh, cfg, now), cfg.batch))
  {
    hide FineInv, OneHidden, NoneHidden, Grounded, Orderly, P.Plan, Once, SnapshotOf;
    var snap := SnapshotOf(f.world, order, gh, cfg, now);
    var plan := P.Plan(snap, cfg.batch);
    DistinctQueue(f.world, order, gh, cfg, now);
    if NoneHidden(f) {
      NormalOnce(f, order, gh, cfg, now);
      forall i | 0 <= i < |plan| ensures Grounded(f, QueuedAt(f.world, order), plan[i]) {
        NormalGrounded(f, order, gh, cfg, now, plan[i]);
      }
    } else {
      var top :| OneHidden(f, top);
      TornOnce(f, top, order, gh, cfg, now);
      forall i | 0 <= i < |plan| ensures Grounded(f, QueuedAt(f.world, order), plan[i]) {
        TornGrounded(f, top, order, gh, cfg, now, plan[i]);
      }
    }
    PlanOrderly(snap, cfg.batch);
  }

  lemma AdvanceTested(w: World, order: seq<int>, gh: GitHub, cfg: Config, now: int, stack: Stack)
    requires Listing(w, order) && P.Advance(stack) in P.Plan(SnapshotOf(w, order, gh, cfg, now), cfg.batch)
    ensures stack.members != [] && Tested(gh, cfg, stack, stack.Top().sha)
  {
    AdvanceIsTested(w, order, gh, cfg, now, stack);
  }

  lemma IsQuiet(w: World, order: seq<int>, gh: GitHub, cfg: Config, at: int, clash: (Commit, Commit, Commit) -> bool,
                clean: seq<int> -> bool)
    requires DS.Between(w) && Listing(w, order) && Steady(w, order, clash, clean) && Listed(w, QueuedAt(w, order))
    ensures var plan := P.Plan(SnapshotOf(w, order, gh, cfg, at), cfg.batch);
            && QuietPlan(w, QueuedAt(w, order), plan, at, clash, clean)
            && QuietTick(w, order, gh, cfg, at, clean) == ActAll(w, plan, at, clean)
  {
    hide DS.Between, Steady, QuietPlan, ActAll, SnapshotOf, P.Plan, Listed;
    U.BetweenCalm(w);
    assert w.(seen := w.target) == w;
    U.ShortQueue(w, order);
    U.PlanUndisturbed(w, order, gh, cfg, at, clash, clean);
  }

  /** Nobody writes: erased records whose branches moved on are right. */
  ghost method Repair(a: Applier, order: seq<int>, gh: GitHub, cfg: Config)
    requires a.Valid() && a.sound && DF.Calm(a.world) && Repairable(a.Here()) && Listing(a.world, order)
    modifies a`untold, a`trace
    ensures a.Valid()
    ensures AllGrounded(a.Here(), QueuedAt(a.world, order), P.Plan(SnapshotOf(a.world, order, gh, cfg, a.at), cfg.batch))
  {
    hide FineInv, FineAfter, Startable, Recalls, AllGrounded, Rough, Listed, SnapshotOf, QueuedAt, P.Plan;
    var g :| Recalls(a.Here(), g) && OthersListed(a.Here(), g) && Startable(g);
    a.RecallAll(order, g);
    FineAfterKept(a.start, a.trace);
    PlanStands(a.Here(), order, gh, cfg, a.at);
  }

  /** A tick as it runs, in any world that ticks leave behind. The target ends
      where others moved it, or the tick moved it once, from where it found it
      to the top of a stack all of whose applicable required checks had passed
      on that very commit; then it contains every member's commit, and above
      it only what others pushed. A tick that starts where the machine's
      invariant holds and nothing listed is hidden keeps the invariant, and one
      that nobody disturbs does what QuietTick says. */
  method Run(a: Applier, order: seq<int>, gh: GitHub, cfg: Config) returns (ok: bool, ghost landed: Option<Stack>)
    requires a.Valid() && DF.Calm(a.world) && Listing(a.world, order) && a.queued == QueuedAt(a.world, order)
    modifies a`world, a`untold, a`trace, a`script, a`report, a`splits, a`sound
    ensures a.Valid() && a.world.job.None?
    ensures match landed
            case None => MovedByOthers(old(a.world).target, a.world.target)
            case Some(stack) =>
              && stack.members != [] && Tested(gh, cfg, stack, stack.Top().sha)
              && MovedByOthers(old(a.world).target, stack.base) && Takes(stack, a.world.target)
    ensures old(a.sound && Repairable(a.Here())) ==> a.sound && FineInv(a.Here())
    ensures old(a.script == [] && DS.Between(a.world) && Steady(a.world, order, a.clash, a.clean)) ==>
              ok && a.world == QuietTick(old(a.world), order, gh, cfg, a.at, a.clean)
  {
    hide FineInv, FineAfter, Repairable, AllGrounded, AllReady, Alone, Tested, Takes, MovedByOthers, Rough, Listed,
         DS.Between, Steady, QuietPlan, SnapshotOf, QueuedAt, P.Plan;
    if a.script == [] && DS.Between(a.world) && Steady(a.world, order, a.clash, a.clean) {
      IsQuiet(a.world, order, gh, cfg, a.at, a.clash, a.clean);
    }
    ghost var repairs := a.sound && Repairable(a.Here());
    if repairs { Repair(a, order, gh, cfg); }
    PlanReady(a.world, order, gh, cfg, a.at);
    var snap := SnapshotOf(a.world, order, gh, cfg, a.at);
    var actions, idle := P.PlanTick(snap, cfg.batch);
    ok, landed := RunPlan(a, actions);
    if landed.Some? { AdvanceTested(old(a.world), order, gh, cfg, a.at, landed.value); }
    if repairs { FineAfterKept(a.start, a.trace); }
  }
}
