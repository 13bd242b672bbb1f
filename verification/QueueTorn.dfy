/**
 A tick that dies while it lands a stack: the target moved, but only the first
 few members' comments say so. The next tick that reads the stack's marker
 finds the stack landed, rebases nothing and finishes the comments.
 */
module QueueTorn {
  import opened Git
  import opened Queue
  import opened QueueWorld
  import opened QueueSafety
  import opened QueueStacks
  import opened QueueLanding
  import opened QueueRuns
  import opened QueueTick
  import opened QueueTickSafety
  import P = QueuePlan

  /** The first j members' comments say the stack landed. */
  function LandedSome(prs: map<int, PullRequest>, stack: Stack, j: nat): map<int, PullRequest> {
    map q | q in prs ::
      var i := IndexOf(stack.members, q);
      if 0 <= i < j then prs[q].(comment := LandedComment(stack, i)) else prs[q]
  }

  function Torn(w: World, top: int, j: nat): World
    requires Marked(w, top)
  {
    var stack := w.prs[top].comment.stack.value;
    w.(target := stack.Top().sha, seen := stack.Top().sha, prs := LandedSome(w.prs, stack, j))
  }

  /** Finishing the comments leaves the world an undisturbed landing leaves. */
  lemma RecordFinishes(w: World, top: int, j: nat, at: int, clean: seq<int> -> bool)
    requires Inv(w) && Enabled(w, Step.Advance(top)) && j <= |w.prs[top].comment.stack.value.members|
    ensures var w' := Act(Torn(w, top, j), P.Record(w.prs[top].comment.stack.value), at, clean);
            w' == Next(w, Step.Advance(top)) && Inv(w')
  {
    hide Inv;
    var stack := w.prs[top].comment.stack.value;
    var w' := Act(Torn(w, top, j), P.Record(stack), at, clean);
    assert w'.prs == LandedPrs(w.prs, stack);
    StepKeepsInv(w, Step.Advance(top));
  }

  /** The marker that leads the next tick to the stack is the last to go. */
  lemma MarkerLast(w: World, top: int, j: nat)
    requires Marked(w, top) && Distinct(w.prs[top].comment.stack.value.Numbers())
    requires j < |w.prs[top].comment.stack.value.members|
    ensures Torn(w, top, j).prs[top] == w.prs[top] && Marked(Torn(w, top, j), top)
  {
    var stack := w.prs[top].comment.stack.value;
    IndexOfMember(stack, |stack.members| - 1);
  }

  lemma LandingFacts(w: World, top: int)
    requires Inv(w) && Enabled(w, Step.Advance(top))
    ensures var stack := w.prs[top].comment.stack.value;
            Distinct(stack.Numbers()) && w.target == stack.base && !IsAncestor(stack.Top().sha,
                     stack.base) && stack.base != stack.Top().sha
  {
    var stack := w.prs[top].comment.stack.value;
    assert Marked(w, top) && StackKept(w, stack);
    FastForwardFromBase(w, stack);
    MemberAboveBase(stack, |stack.members| - 1);
  }

  lemma BaseOnTarget(w: World, p: int)
    requires Inv(w) && Marked(w, p)
    ensures IsAncestor(w.prs[p].comment.stack.value.base, w.target)
  {
    assert StackKept(w, w.prs[p].comment.stack.value);
  }

  /** No stack is built on a target that has just moved to a stack's top. */
  lemma NothingLive(w: World, top: int, j: nat, p: int)
    requires Inv(w) && Enabled(w, Step.Advance(top))
    ensures !Live(Torn(w, top, j), p)
  {
    hide Inv, IsAncestor;
    LandingFacts(w, top);
    if Live(Torn(w, top, j), p) {
      assert w.prs[p].comment.stack == Torn(w, top, j).prs[p].comment.stack;
      BaseOnTarget(w, p);
    }
  }

  // ---- until the landing is told to the end ----

  /** Member i was told, or is known not to have been. */
  predicate ToldOrUntold(f: Fine, stack: Stack, i: nat)
    requires i < |stack.members|
  {
    var m := stack.members[i];
    && m.number in f.world.prs
    && if m.number in f.untold then f.untold[m.number] == m.sha else f.world.prs[m.number].comment == LandedComment(stack, i)
  }

  /** The stack at top landed, and its marker is still there to tell ... */
  ghost predicate Leading(f: Fine, top: int) {
    && Marked(f.world, top)
    && var stack := f.world.prs[top].comment.stack.value;
    && Distinct(stack.Numbers()) && stack.base != f.world.target && IsAncestor(stack.Top().sha, f.world.target)
    && forall i :: 0 <= i < |stack.members| ==> ToldOrUntold(f, stack, i)
  }

  /** ... to whoever lists the queue. */
  ghost predicate Unfinished(f: Fine, top: int) {
    Leading(f, top) && f.world.prs[top].labelled
  }

  /** No stack is built on the target as it is. */
  ghost predicate NothingBased(w: World) {
    forall p :: Marked(w, p) ==> w.prs[p].comment.stack.value.base != w.target
  }

  /** From the moment the target takes the stack ... */
  lemma ForwardUnfinished(f: Fine, top: int)
    requires FineInv(f) && FineEnabled(f, Forward(top)) && f.world.prs[top].labelled
    ensures Unfinished(FineNext(f, Forward(top)), top) && NothingBased(FineNext(f, Forward(top)).world)
  {
    hide Inv, Outdated;
    var stack := f.world.prs[top].comment.stack.value;
    var g := FineNext(f, Forward(top));
    ForwardSame(f, top);
    LandingFacts(Settled(f), top);
    AncestorItself(stack.Top().sha);
    forall i | 0 <= i < |stack.members| ensures ToldOrUntold(g, stack, i) {
      IndexOfMember(stack, i);
      UntoldAt(stack, f.untold, stack.members[i].number);
    }
    forall p | Marked(g.world, p) ensures g.world.prs[p].comment.stack.value.base != g.world.target {
      AllBased(f, p);
    }
  }

  /** ... through whatever others do, as long as the top keeps its label, ... */
  lemma OthersUnfinished(f: Fine, step: Step, top: int)
    requires FineInv(f) && FineEnabled(f, Plainly(step)) && ByOthers(step) && step != SetLabel(top, false)
    requires Unfinished(f, top) && NothingBased(f.world)
    ensures Unfinished(FineNext(f, Plainly(step)), top) && NothingBased(FineNext(f, Plainly(step)).world)
  {
    hide Inv, Outdated, Settled, Bounded, Range;
    var g := FineNext(f, Plainly(step));
    var stack := f.world.prs[top].comment.stack.value;
    forall p | p in f.world.prs && f.world.prs[p].comment.stack.Some?
      ensures f.world.prs[p].comment.stack.value.base != g.world.target
    {
      AllBased(f, p);
      if step.PushTarget? { AncestorDepth(f.world.prs[p].comment.stack.value.base, f.world.target); }
    }
    forall p | Marked(g.world, p) ensures g.world.prs[p].comment.stack.value.base != g.world.target {
      assert p in f.world.prs && g.world.prs[p].comment == f.world.prs[p].comment;
    }
    forall i | 0 <= i < |stack.members| ensures ToldOrUntold(g, stack, i) {
      assert ToldOrUntold(f, stack, i);
    }
    assert g.world.prs[top].comment == f.world.prs[top].comment;
  }

  /** ... and while the members below it are told, ... */
  lemma TellUnfinished(f: Fine, p: int, top: int)
    requires FineEnabled(f, TellLanded(p)) && p != top && Unfinished(f, top) && NothingBased(f.world)
    ensures Unfinished(FineNext(f, TellLanded(p)), top) && NothingBased(FineNext(f, TellLanded(p)).world)
  {
    var g := FineNext(f, TellLanded(p));
    var stack := f.world.prs[top].comment.stack.value;
    forall i | 0 <= i < |stack.members| ensures ToldOrUntold(g, stack, i) {
      assert ToldOrUntold(f, stack, i);
    }
    forall q | Marked(g.world, q) ensures g.world.prs[q].comment.stack.value.base != g.world.target {
      assert q != p && Marked(f.world, q);
    }
  }

  /** ... every tick plans to record the stack, moves the target no further and
      rebases nothing, so no landed commit is replayed before the comments are
      complete. */
  lemma UnfinishedIsRecorded(f: Fine, top: int, order: seq<int>, gh: GitHub, cfg: Config, now: int)
    requires Unfinished(f, top) && NothingBased(f.world) && Listing(f.world, order)
    ensures var plan := P.Plan(SnapshotOf(f.world, order, gh, cfg, now), cfg.batch);
            P.Record(f.world.prs[top].comment.stack.value) in plan && Advances(plan) == 0 && Formed(plan) == []
  {
    var t, stack := f.world, f.world.prs[top].comment.stack.value;
    var snap := SnapshotOf(t, order, gh, cfg, now);
    var tops := Tops(t, order);
    PlanCounts(snap, cfg.batch);
    MarkedIsTop(t, order, top);
    var k :| 0 <= k < |tops| && tops[k] == top;
    assert snap.stacks[k].landed && snap.stacks[k].stack == stack;
    forall i | 0 <= i < |snap.stacks|
      ensures P.StaleReason(snap.stacks[i].stack, snap.target, P.ByNumber(snap.queued)) != P.Fits
    {
      StackRead(t, order, gh, cfg, now, i);
    }
    NothingBisected(snap, |snap.stacks|);
    TurnInPlan(snap, k, |snap.stacks|, P.Record(stack));
  }

  lemma {:induction false} NothingBisected(snap: P.Snapshot, n: nat)
    requires n <= |snap.stacks|
    requires forall i :: 0 <= i < |snap.stacks| ==>
               P.StaleReason(snap.stacks[i].stack, snap.target, P.ByNumber(snap.queued)) != P.Fits
    ensures BisectedNumbers(snap, n) == []
  {
    if n > 0 { NothingBisected(snap, n - 1); }
  }

  lemma {:induction false} TurnInPlan(snap: P.Snapshot, k: nat, n: nat, action: P.Action)
    requires k < n <= |snap.stacks| && action in P.StackActions(snap, k)
    ensures action in P.StacksActions(snap, n)
  {
    hide P.StackActions;
    if k < n - 1 { TurnInPlan(snap, k, n - 1, action); }
  }

  /** Until then, the commits the queue takes for a pull request's own are
      its patches not on the target exactly when it is not a member still to
      be told that a record from before the landing describes. */
  lemma TornDescription(w: World, top: int, j: nat, q: int)
    requires Inv(w) && Enabled(w, Step.Advance(top)) && q in w.prs && j <= |w.prs[top].comment.stack.value.members|
    ensures var stack := w.prs[top].comment.stack.value;
            var t := Torn(w, top, j);
            && Git.Landed(q, t.target) <= t.prs[q].written
            && (OwnPatches(t.prs[q], t.target) == Seg(q, Git.Landed(q, t.target), t.prs[q].written) <==>
                IndexOf(stack.members, q) < j || Chosen(w.prs[q].comment.owns, w.prs[q].head).None?)
  {
    hide Inv, Range, Git.Landed, Of;
    var stack := w.prs[top].comment.stack.value;
    AdvanceDescribed(w, top, q);
    if IndexOf(stack.members, q) < j {
      assert Torn(w, top, j).prs[q] == Next(w, Step.Advance(top)).prs[q];
    } else {
      StillDescribed(w, top, q);
    }
  }

  /** A member not yet told. */
  lemma StillDescribed(w: World, top: int, q: int)
    requires Inv(w) && Enabled(w, Step.Advance(top)) && q in w.prs
    requires IndexOf(w.prs[top].comment.stack.value.members, q) >= 0
    ensures var target := w.prs[top].comment.stack.value.Top().sha;
            && Git.Landed(q, target) <= w.prs[q].written
            && (OwnPatches(w.prs[q], target) == Seg(q, Git.Landed(q, target), w.prs[q].written) <==>
                Chosen(w.prs[q].comment.owns, w.prs[q].head).None?)
  {
    var stack := w.prs[top].comment.stack.value;
    assert Marked(w, top) && StackKept(w, stack) && Described(w, q);
    FastForwardFromBase(w, stack);
    AdvanceDescribed(w, top, q);
    LandedPatches(stack, q);
    assert ExactMember(stack, IndexOf(stack.members, q));
  }

  /** The comment of an abandoned stack's member is written without looking
      whether that member landed. It queues the pull request again with no
      commit of its own left exactly when it had. */
  lemma AbandonForgetsLanding(w: World, p: int)
    requires Inv(w) && p in w.prs && w.prs[p].labelled
    ensures var w' := TellAll(w, [p]);
            p in w'.prs && !w'.prs[p].AlreadyLanded() && (OwnPatches(w'.prs[p], w.target) == [] <==> w.prs[p].AlreadyLanded())
  {
    hide Inv, Range;
    DescriptionOf(w, p);
    assert [p][..0] == [] && TellAll(w, []) == w && TellAll(w, [p]) == Tell(w, p);
  }

  lemma DescriptionOf(w: World, p: int)
    requires Inv(w) && p in w.prs
    ensures Described(w, p) && |w.prs[p].comment.owns| <= MAX_OWNS
  {
  }
}
