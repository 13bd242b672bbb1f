/**
 What every step of the queue keeps, careful or not: identifiers are fresh,
 and a stack that a comment or the tick holds is a chain of known pull
 requests, each member's commit above the one below it. Nothing is said of
 whose patches those commits are.
 */
module QueueRough {
  import opened Options
  import opened Git
  import opened Queue
  import opened QueueWorld
  import opened QueueSafety
  import opened QueueStacks
  import opened QueueRuns

  ghost predicate OwnsFit(owns: seq<Own>, bound: nat) {
    |owns| <= MAX_OWNS && forall own :: own in owns ==> Git.Below(own.head, bound)
  }

  ghost predicate CommentFits(w: World, p: int, comment: Comment) {
    && OwnsFit(comment.owns, w.nextId) && (comment.landed.Some? ==> Git.Below(comment.landed.value, w.nextId))
    && (comment.stack.Some? ==> Chain(w, comment.stack.value) && comment.stack.value.Top().number == p)
  }

  ghost predicate JobFits(w: World, job: Job) {
    && Chain(w, job.stack) && |job.keeps| == |job.expected| == |job.stack.members|
    && forall i :: 0 <= i < |job.keeps| ==> |job.keeps[i]| <= 1 && OwnsFit(job.keeps[i], w.nextId)
  }

  ghost predicate PrFits(w: World, p: int)
    requires p in w.prs
  {
    p > 0 && Git.Below(w.prs[p].head, w.nextId) && CommentFits(w, p, w.prs[p].comment)
  }

  ghost predicate Rough(w: World) {
    && Git.Below(w.target, w.nextId) && (forall p :: p in w.prs ==> PrFits(w, p))
    && (w.job.Some? ==> JobFits(w, w.job.value))
  }

  // ---- identifiers and pull requests only grow ----

  predicate Grown(w: World, w': World) {
    w.nextId <= w'.nextId && w.prs.Keys <= w'.prs.Keys
  }

  lemma OwnsGrow(owns: seq<Own>, bound: nat, bound': nat)
    requires OwnsFit(owns, bound) && bound <= bound'
    ensures OwnsFit(owns, bound')
  {
    forall own | own in owns ensures Git.Below(own.head, bound') { BelowMono(own.head, bound, bound'); }
  }

  lemma ChainGrows(w: World, w': World, stack: Stack)
    requires Chain(w, stack) && Grown(w, w')
    ensures Chain(w', stack)
  {
    BelowMono(stack.Top().sha, w.nextId, w'.nextId);
  }

  lemma CommentGrows(w: World, w': World, p: int, comment: Comment)
    requires CommentFits(w, p, comment) && Grown(w, w')
    ensures CommentFits(w', p, comment)
  {
    hide Chain;
    OwnsGrow(comment.owns, w.nextId, w'.nextId);
    if comment.landed.Some? { BelowMono(comment.landed.value, w.nextId, w'.nextId); }
    if comment.stack.Some? { ChainGrows(w, w', comment.stack.value); }
  }

  lemma JobGrows(w: World, w': World, job: Job)
    requires JobFits(w, job) && Grown(w, w')
    ensures JobFits(w', job)
  {
    hide Chain, OwnsFit;
    ChainGrows(w, w', job.stack);
    forall i | 0 <= i < |job.keeps| ensures OwnsFit(job.keeps[i], w'.nextId) {
      OwnsGrow(job.keeps[i], w.nextId, w'.nextId);
    }
  }

  /** A pull request left alone, or whose branch took a new commit. */
  lemma PrGrows(w: World, w': World, p: int)
    requires p in w.prs && PrFits(w, p) && Grown(w, w') && w'.prs[p].comment == w.prs[p].comment
    requires Git.Below(w'.prs[p].head, w'.nextId)
    ensures PrFits(w', p)
  {
    hide CommentFits;
    CommentGrows(w, w', p, w.prs[p].comment);
  }

  // ---- one write at a time ----

  lemma CommentRough(w: World, p: int, comment: Comment)
    requires Rough(w) && p in w.prs && CommentFits(w, p, comment)
    ensures Rough(WithComment(w, p, comment))
  {
    hide CommentFits;
    var w' := WithComment(w, p, comment);
    forall q | q in w'.prs ensures PrFits(w', q) {
      assert PrFits(w, q);
      CommentGrows(w, w', q, w'.prs[q].comment);
    }
    if w.job.Some? { JobGrows(w, w', w.job.value); }
  }

  lemma JobRough(w: World, job: Job, id: nat)
    requires Rough(w) && w.nextId <= id && JobFits(w.(nextId := id), job)
    ensures Rough(w.(job := Some(job), nextId := id))
  {
    hide CommentFits, JobFits;
    var w' := w.(job := Some(job), nextId := id);
    BelowMono(w.target, w.nextId, id);
    forall q | q in w'.prs ensures PrFits(w', q) {
      assert PrFits(w, q);
      BelowMono(w.prs[q].head, w.nextId, id);
      PrGrows(w, w', q);
    }
    JobGrows(w.(nextId := id), w', job);
  }

  /** Rebasing a group makes a chain of it. */
  lemma {:induction false} BuiltFits(w: World, ns: seq<int>, at: int)
    requires Git.Below(w.target, w.nextId) && ns != [] && Distinct(ns)
    requires forall i :: 0 <= i < |ns| ==> ns[i] in w.prs && OwnsFit(w.prs[ns[i]].comment.owns, w.nextId)
    ensures JobFits(w.(nextId := w.nextId + Commits(w.prs, ns, w.target)), NewJob(w, ns, at))
  {
    hide Build, Commits, Chain, OwnsFit;
    var job := NewJob(w, ns, at);
    var id := w.nextId + Commits(w.prs, ns, w.target);
    BuiltChain(w, ns, at);
    forall i | 0 <= i < |ns| ensures |job.keeps[i]| <= 1 && OwnsFit(job.keeps[i], id) {
      UsedFits(w.prs[ns[i]].comment.owns, w.prs[ns[i]].head, w.nextId, id);
    }
  }

  lemma {:induction false} BuiltChain(w: World, ns: seq<int>, at: int)
    requires Git.Below(w.target, w.nextId) && ns != [] && Distinct(ns) && forall i :: 0 <= i < |ns| ==> ns[i] in w.prs
    ensures Chain(w.(nextId := w.nextId + Commits(w.prs, ns, w.target)), NewJob(w, ns, at).stack)
  {
    hide Build, Commits, Linked, Git.Below;
    var stack := NewJob(w, ns, at).stack;
    BuiltLinked(w, ns, at);
    BuildBounded(w.prs, ns, w.target, w.target, w.nextId);
    assert stack.Top().sha == QueueStacks.Under(stack.members, w.target, |ns|);
    forall i | 0 <= i < |ns| ensures stack.members[i].number in w.prs { assert stack.Numbers()[i] == ns[i]; }
  }

  lemma UsedFits(owns: seq<Own>, head: Commit, bound: nat, bound': nat)
    requires OwnsFit(owns, bound) && bound <= bound'
    ensures |Used(owns, head)| <= 1 && OwnsFit(Used(owns, head), bound')
  {
    OwnsGrow(owns, bound, bound');
    if Chosen(owns, head).Some? { ChosenUsable(owns, head); }
  }

  lemma MemberBelow(w: World, stack: Stack, i: nat)
    requires Chain(w, stack) && i < |stack.members|
    ensures Git.Below(stack.members[i].sha, w.nextId)
  {
    LinkedInTop(stack, i);
    BelowAncestor(stack.members[i].sha, stack.Top().sha, w.nextId);
  }

  lemma StackCommentFits(w: World, stack: Stack, i: nat, keep: seq<Own>)
    requires Chain(w, stack) && i < |stack.members| && |keep| <= 1 && OwnsFit(keep, w.nextId)
    ensures CommentFits(w, stack.members[i].number, StackComment(stack, i, keep))
  {
    hide Linked;
    MemberBelow(w, stack, i);
    var owns := [StackOwn(stack, i)] + keep;
    assert OwnMarkers(owns) == owns;
    forall own | own in owns ensures Git.Below(own.head, w.nextId) {
      assert own == StackOwn(stack, i) || own in keep;
    }
  }

  lemma LandedFits(w: World, p: int, sha: Commit)
    requires Git.Below(sha, w.nextId)
    ensures CommentFits(w, p, LandedAt(sha))
  {
  }

  lemma PlainFits(w: World, p: int, owns: seq<Own>)
    requires OwnsFit(owns, w.nextId)
    ensures CommentFits(w, p, PlainComment(owns)) && PlainComment(owns) == Comment(owns, None, None)
  {
  }

  lemma KeepFits(owns: seq<Own>, current: Own, bound: nat)
    requires OwnsFit(owns, bound)
    ensures |KeepOwns(owns, current)| <= 1 && OwnsFit(KeepOwns(owns, current), bound)
  {
    KeepOwnsIn(owns, current);
  }

  // ---- every step ----

  lemma OpenRough(w: World, p: int, fork: Commit, entry: Entry)
    requires Rough(w) && Enabled(w, Open(p, fork, entry))
    ensures Rough(Next(w, Open(p, fork, entry)))
  {
    hide CommentFits, JobFits;
    var w' := Next(w, Open(p, fork, entry));
    BelowMono(w.target, w.nextId, w'.nextId);
    BelowAncestor(fork, w'.target, w'.nextId);
    forall q | q in w'.prs ensures PrFits(w', q) {
      if q == p {
        PlainFits(w', p, []);
      } else {
        assert PrFits(w, q);
        BelowMono(w.prs[q].head, w.nextId, w'.nextId);
        PrGrows(w, w', q);
      }
    }
    if w.job.Some? { JobGrows(w, w', w.job.value); }
  }

  /** Steps that touch no comment and open nothing. */
  lemma OthersRough(w: World, step: Step)
    requires Rough(w) && Enabled(w, step)
    requires step.Append? || step.PushTarget? || step.SetLabel? || step.SetEntry? || step.Look? || step.Drop?
    ensures Rough(Next(w, step))
  {
    hide CommentFits, JobFits;
    var w' := Next(w, step);
    BelowMono(w.target, w.nextId, w'.nextId);
    forall q | q in w'.prs ensures PrFits(w', q) {
      assert PrFits(w, q);
      BelowMono(w.prs[q].head, w.nextId, w'.nextId);
      PrGrows(w, w', q);
    }
    if w'.job.Some? { JobGrows(w, w', w.job.value); }
  }

  lemma PushRough(w: World)
    requires Rough(w) && Enabled(w, Step.Push)
    ensures Rough(Next(w, Step.Push))
  {
    hide CommentFits, Chain;
    var w', stack := Next(w, Step.Push), w.job.value.stack;
    forall q | q in w'.prs ensures PrFits(w', q) {
      assert PrFits(w, q);
      var i := IndexOf(stack.members, q);
      if i >= 0 { MemberBelow(w, stack, i); }
      PrGrows(w, w', q);
    }
  }

  lemma WriteRough(w: World)
    requires Rough(w) && Enabled(w, WriteNext)
    ensures Rough(Next(w, WriteNext))
  {
    hide CommentFits, Chain, StackComment;
    var job := w.job.value;
    var m := job.stack.members[job.commented];
    var written := w.(job := Some(job.(commented := job.commented + 1)));
    JobGrows(w, written, job);
    JobRough(w, job.(commented := job.commented + 1), w.nextId);
    if m.number in w.prs {
      ChainGrows(w, written, job.stack);
      StackCommentFits(written, job.stack, job.commented, job.keeps[job.commented]);
      CommentRough(written, m.number, StackComment(job.stack, job.commented, job.keeps[job.commented]));
    }
  }

  lemma RetryRough(w: World, top: int, index: nat, at: int)
    requires Rough(w) && Enabled(w, Retry(top, index, at))
    ensures Rough(Next(w, Retry(top, index, at)))
  {
    hide StackComment, JobFits, Linked;
    assert PrFits(w, top);
    var stack := w.prs[top].comment.stack.value.(retry := 1, at := at);
    var n := stack.members[index].number;
    assert PrFits(w, n);
    SameChain(w, w.prs[top].comment.stack.value, stack);
    KeepFits(w.prs[n].comment.owns, StackOwn(stack, index), w.nextId);
    StackCommentFits(w, stack, index, KeepOwns(w.prs[n].comment.owns, StackOwn(stack, index)));
    CommentRough(w, n, StackComment(stack, index, KeepOwns(w.prs[n].comment.owns, StackOwn(stack, index))));
  }

  lemma SameChain(w: World, stack: Stack, again: Stack)
    requires Chain(w, stack) && again.base == stack.base && again.members == stack.members
    ensures Chain(w, again)
  {
    hide IsAncestor, Git.Below, Distinct;
    assert again.Numbers() == stack.Numbers();
    SameLinks(stack, again);
  }

  lemma SameLinks(stack: Stack, again: Stack)
    requires Linked(stack) && again.base == stack.base && again.members == stack.members
    ensures Linked(again)
  {
    hide IsAncestor;
    assert forall i {:trigger again.Under(i)} :: 0 <= i < |again.members| ==> again.Under(i) == stack.Under(i);
  }

  lemma AdvanceRough(w: World, top: int)
    requires Rough(w) && Enabled(w, Step.Advance(top))
    ensures Rough(Next(w, Step.Advance(top)))
  {
    hide JobFits, Linked;
    var w' := Next(w, Step.Advance(top));
    assert PrFits(w, top);
    var stack := w.prs[top].comment.stack.value;
    forall q | q in w'.prs ensures PrFits(w', q) {
      assert PrFits(w, q);
      var i := IndexOf(stack.members, q);
      if i >= 0 {
        MemberBelow(w, stack, i);
        LandedFits(w', q, stack.members[i].sha);
      } else {
        PrGrows(w, w', q);
      }
    }
  }

  /** Every step keeps it, whatever was stacked before. */
  lemma RoughKept(w: World, step: Step)
    requires Rough(w) && Enabled(w, step)
    ensures Rough(Next(w, step))
  {
    hide Rough, Enabled, Next;
    match step {
      case Open(p, fork, entry) => OpenRough(w, p, fork, entry);
      case Begin(ns, at) => BeginRough(w, ns, at);
      case WriteNext => WriteRough(w);
      case Push => PushRough(w);
      case Plain(p) => PlainRough(w, p);
      case Retry(top, index, at) => RetryRough(w, top, index, at);
      case Advance(top) => AdvanceRough(w, top);
      case _ => OthersRough(w, step);
    }
  }

  lemma BeginRough(w: World, ns: seq<int>, at: int)
    requires Rough(w) && Enabled(w, Begin(ns, at))
    ensures Rough(Next(w, Begin(ns, at)))
  {
    hide JobFits, Build, Commits;
    forall i | 0 <= i < |ns| ensures OwnsFit(w.prs[ns[i]].comment.owns, w.nextId) { assert PrFits(w, ns[i]); }
    BuiltFits(w, ns, at);
    JobRough(w, NewJob(w, ns, at), w.nextId + Commits(w.prs, ns, w.target));
  }

  lemma PlainRough(w: World, p: int)
    requires Rough(w) && Enabled(w, Plain(p))
    ensures Rough(Next(w, Plain(p)))
  {
    assert PrFits(w, p);
    PlainFits(w, p, w.prs[p].comment.owns);
    CommentRough(w, p, PlainComment(w.prs[p].comment.owns));
  }

  /** The target takes a chain. */
  lemma MovedRough(w: World, stack: Stack)
    requires Rough(w) && Chain(w, stack)
    ensures Rough(w.(target := stack.Top().sha, seen := stack.Top().sha))
  {
    hide JobFits;
    var w' := w.(target := stack.Top().sha, seen := stack.Top().sha);
    forall q | q in w'.prs ensures PrFits(w', q) {
      assert PrFits(w, q);
      PrGrows(w, w', q);
    }
    if w.job.Some? { JobGrows(w, w', w.job.value); }
  }

  lemma RoughBounded(w: World)
    requires Rough(w)
    ensures Bounded(w)
  {
    forall p | p in w.prs
      ensures p > 0 && Git.Below(w.prs[p].head, w.nextId) && |w.prs[p].comment.owns| <= MAX_OWNS
      ensures w.prs[p].comment.landed.Some? ==> Git.Below(w.prs[p].comment.landed.value, w.nextId)
      ensures forall own :: own in w.prs[p].comment.owns ==> Git.Below(own.head, w.nextId)
    {
      assert PrFits(w, p);
    }
  }

  /** What the machine's invariant says of comments includes it. */
  lemma FineRough(f: Fine)
    requires FineInv(f)
    ensures Rough(f.world)
  {
    hide Inv, Outdated, Settled;
    forall p | p in f.world.prs ensures PrFits(f.world, p) {
      AllBased(f, p);
    }
    if f.world.job.Some? { FineJobFits(f); }
  }

  lemma FineJobFits(f: Fine)
    requires FineInv(f) && f.world.job.Some?
    ensures JobFits(f.world, f.world.job.value)
  {
    var job := f.world.job.value;
    SettledSame(f);
    assert JobKept(Settled(f), job);
    KeptChain(Settled(f), job.stack);
    forall i | 0 <= i < |job.keeps| ensures |job.keeps[i]| <= 1 && OwnsFit(job.keeps[i], f.world.nextId) {
      assert JobMemberKept(Settled(f), job, i);
    }
  }
}
