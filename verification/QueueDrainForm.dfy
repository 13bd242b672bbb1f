/**
 Forming stacks while nobody else writes: each pull request of the group ends
 in a live stack or without its label, and nothing else changes.
 */
module QueueDrainForm {
  import opened Options
  import opened Git
  import opened Queue
  import opened QueueWorld
  import opened QueueStacks
  import opened QueueLanding
  import opened QueueRebase
  import opened QueueTick
  import opened QueueTickSafety
  import P = QueuePlan

  lemma {:induction false} WriteAllKeepsInv(w: World)
    requires Inv(w)
    ensures Inv(WriteAll(w))
    decreases if w.job.Some? && w.job.value.commented < |w.job.value.stack.members|
              then |w.job.value.stack.members| - w.job.value.commented else 0
  {
    if Enabled(w, WriteNext) {
      StepKeepsInv(w, WriteNext);
      WriteAllKeepsInv(Next(w, WriteNext));
    }
  }

  /** What pull request q looks like once the job's comments are written. */
  function Commented(pr: PullRequest, job: Job, q: int): PullRequest {
    var i := IndexOf(job.stack.members, q);
    if job.commented <= i < |job.keeps| then pr.(comment := StackComment(job.stack, i, job.keeps[i])) else pr
  }

  /** A job whose comments can all be written. */
  predicate Writable(w: World, job: Job) {
    && w.job == Some(job) && Distinct(job.stack.Numbers())
    && |job.keeps| == |job.stack.members| && job.commented <= |job.keeps|
    && forall i :: 0 <= i < |job.keeps| ==> job.stack.members[i].number in w.prs
  }

  lemma WriteNextShape(w: World, job: Job, q: int)
    requires Writable(w, job) && job.commented < |job.keeps| && q in w.prs
    ensures Enabled(w, WriteNext)
    ensures var w1 := Next(w, WriteNext);
            var job1 := job.(commented := job.commented + 1);
            && w1 == w.(prs := w1.prs, job := Some(job1)) && w1.prs.Keys == w.prs.Keys && Writable(w1, job1)
            && Commented(w1.prs[q], job1, q) == Commented(w.prs[q], job, q)
  {
    IndexOfMember(job.stack, job.commented);
  }

  lemma {:induction false} WriteAllShape(w: World, job: Job, q: int)
    requires Writable(w, job) && q in w.prs
    ensures var r := WriteAll(w);
            && r.target == w.target && r.seen == w.seen && r.job == Some(job.(commented := |job.keeps|))
            && r.prs.Keys == w.prs.Keys && r.prs[q] == Commented(w.prs[q], job, q)
    decreases |job.keeps| - job.commented
  {
    if job.commented < |job.keeps| {
      WriteNextShape(w, job, q);
      WriteAllShape(Next(w, WriteNext), job.(commented := job.commented + 1), q);
    }
  }

  /** A world between two actions of a quiet tick. */
  predicate Calm(w: World) {
    w.job.None? && w.seen == w.target
  }

  /** Queued pull requests that may be stacked. */
  ghost predicate Stackable(w: World, ns: seq<int>) {
    && ns != [] && Distinct(ns)
    && forall i :: 0 <= i < |ns| ==> ns[i] in w.prs && w.prs[ns[i]].labelled && !w.prs[ns[i]].AlreadyLanded()
  }

  lemma NewJobShape(w: World, ns: seq<int>, at: int)
    requires Calm(w) && Stackable(w, ns)
    ensures Enabled(w, Begin(ns, at))
    ensures var job := NewJob(w, ns, at);
            && job.stack.Numbers() == ns && job.stack.base == w.target && job.stack.retry == 0 && job.commented == 0
            && |job.keeps| == |job.stack.members| == |job.expected| == |ns|
            && forall i :: 0 <= i < |ns| ==>
                 && job.stack.members[i].number == ns[i] && IndexOf(job.stack.members, ns[i]) == i
                 && job.expected[i] == w.prs[ns[i]].head
  {
    var job := NewJob(w, ns, at);
    forall i | 0 <= i < |ns| ensures IndexOf(job.stack.members, ns[i]) == i {
      var j := IndexOf(job.stack.members, ns[i]);
      assert job.stack.members[i].number == ns[i];
    }
    assert job.stack.Numbers() == ns;
  }

  /** What a pull request looks like after its group formed a stack. */
  function Stacked(pr: PullRequest, job: Job, q: int): PullRequest {
    var i := IndexOf(job.stack.members, q);
    if 0 <= i < |job.keeps| then
      pr.(head := job.stack.members[i].sha, comment := StackComment(job.stack, i, job.keeps[i]))
    else pr
  }

  lemma ReadyToPush(ready: World, w: World, job: Job, ns: seq<int>)
    requires |ns| == |job.stack.members| == |job.expected| == |job.keeps| && job.commented == 0
    requires ready.job == Some(job.(commented := |job.keeps|)) && ready.prs.Keys == w.prs.Keys
    requires forall i :: 0 <= i < |ns| ==>
               job.stack.members[i].number == ns[i] && ns[i] in w.prs && job.expected[i] == w.prs[ns[i]].head
    requires forall q :: q in w.prs ==> ready.prs[q] == Commented(w.prs[q], job, q)
    ensures Enabled(ready, Step.Push)
    ensures forall q :: q in w.prs ==> Next(ready, Step.Push).prs[q] == Stacked(w.prs[q], job, q)
  {
    forall i | 0 <= i < |ns| ensures ready.prs[ns[i]].head == job.expected[i] {
      assert ready.prs[ns[i]] == Commented(w.prs[ns[i]], job, ns[i]);
    }
  }

  lemma PushAfterWriting(w: World, w1: World, job: Job, ns: seq<int>)
    requires ns != [] && |ns| == |job.stack.members| == |job.expected| == |job.keeps| && job.commented == 0
    requires Distinct(job.stack.Numbers()) && w1.job == Some(job) && w1.prs == w.prs
    requires forall i :: 0 <= i < |ns| ==>
               job.stack.members[i].number == ns[i] && ns[i] in w.prs && job.expected[i] == w.prs[ns[i]].head
    ensures var ready := WriteAll(w1);
            && Enabled(ready, Step.Push)
            && var w' := Next(ready, Step.Push);
            && w'.job.None? && w'.target == w1.target && w'.seen == w1.seen && w'.prs.Keys == w.prs.Keys
            && forall q :: q in w.prs ==> w'.prs[q] == Stacked(w.prs[q], job, q)
  {
    var ready := WriteAll(w1);
    WriteAllShape(w1, job, ns[0]);
    forall q | q in w.prs ensures ready.prs[q] == Commented(w.prs[q], job, q) {
      WriteAllShape(w1, job, q);
    }
    ReadyToPush(ready, w, job, ns);
  }

  /** One stack formed without a conflict: each branch at the stack's commit,
      each comment naming its place in the stack. */
  lemma FormOnceShape(w: World, ns: seq<int>, at: int)
    requires Calm(w) && Stackable(w, ns)
    ensures var job := NewJob(w, ns, at);
            var w' := FormOnce(w, ns, at);
            && Calm(w') && w'.target == w.target && w'.prs.Keys == w.prs.Keys
            && forall q :: q in w.prs ==> w'.prs[q] == Stacked(w.prs[q], job, q)
  {
    NewJobShape(w, ns, at);
    PushAfterWriting(w, Next(w, Begin(ns, at)), NewJob(w, ns, at), ns);
  }

  lemma FormOnceKeepsInv(w: World, ns: seq<int>, at: int)
    requires Inv(w)
    ensures Inv(FormOnce(w, ns, at))
  {
    hide Inv, Next, WriteAll;
    if Enabled(w, Begin(ns, at)) {
      StepKeepsInv(w, Begin(ns, at));
      WriteAllKeepsInv(Next(w, Begin(ns, at)));
      var ready := WriteAll(Next(w, Begin(ns, at)));
      StepKeepsInv(ready, if Enabled(ready, Step.Push) then Step.Push else Drop);
    }
  }

  // ---- what a group's branches hold afterwards ----

  lemma {:induction false} ReplayAbove(onto: Commit, patches: seq<Patch>, id: nat)
    ensures IsAncestor(onto, Replay(onto, patches, id))
    ensures Replay(onto, patches, id) == onto || !Git.Below(Replay(onto, patches, id), id)
    decreases |patches|
  {
    if patches != [] {
      ReplayAbove(onto, patches[..|patches| - 1], id);
    }
  }

  /** Every commit of a new stack is new, unless nothing was left to rebase
      up to it; and all lie above tip. */
  lemma {:induction false} BuildHeads(prs: map<int, PullRequest>, ns: seq<int>, base: Commit, tip: Commit, id: nat)
    requires forall k :: 0 <= k < |ns| ==> ns[k] in prs
    ensures var ms := Build(prs, ns, base, tip, id);
            && IsAncestor(tip, QueueStacks.Under(ms, tip, |ms|))
            && forall i :: 0 <= i < |ms| ==> ms[i].sha == tip || !Git.Below(ms[i].sha, id)
    decreases |ns|
  {
    hide Build, Commits, Replay, OwnPatches, Git.Below, IsAncestor;
    if ns == [] {
      AncestorItself(tip);
      BuildNothing(prs, base, tip, id);
    } else {
      var own := OwnPatches(prs[ns[0]], base);
      var sha := Replay(tip, own, id);
      ReplayAbove(tip, own, id);
      BuildFirst(prs, ns, base, tip, id);
      BuildHeads(prs, ns[1..], base, sha, id + |own|);
      TopOfRest(prs, ns, base, tip, id);
      var rest := Build(prs, ns[1..], base, sha, id + |own|);
      AncestorTrans(tip, sha, QueueStacks.Under(rest, sha, |rest|));
      forall i | 0 <= i < |rest| ensures rest[i].sha == tip || !Git.Below(rest[i].sha, id) {
        if Git.Below(rest[i].sha, id) { BelowMono(rest[i].sha, id, id + |own|); }
      }
    }
  }

  /** What may have become of a branch: its label may be gone, and its head is
      the old one, the target, or a commit that is new. */
  predicate Repushed(w: World, w': World, n: int) {
    && n in w.prs && n in w'.prs && (w'.prs[n].labelled ==> w.prs[n].labelled)
    && (w'.prs[n].head == w.prs[n].head || w'.prs[n].head == w.target || !Git.Below(w'.prs[n].head, w.nextId))
  }

  /** Only ns were touched, and in no other way. */
  predicate Touches(w: World, w': World, ns: seq<int>) {
    Only(w, w', ns) && w.nextId <= w'.nextId && forall i :: 0 <= i < |ns| ==> Repushed(w, w', ns[i])
  }

  lemma TouchesJoin(w: World, w1: World, w2: World, front: seq<int>, back: seq<int>)
    requires Touches(w, w1, front) && Touches(w1, w2, back)
    requires forall i, j :: 0 <= i < |front| && 0 <= j < |back| ==> front[i] != back[j]
    ensures Touches(w, w2, front + back)
  {
    var ns := front + back;
    forall i | 0 <= i < |ns| ensures Repushed(w, w2, ns[i]) {
      if i < |front| {
        assert ns[i] == front[i] && Repushed(w, w1, front[i]) && w2.prs[ns[i]] == w1.prs[ns[i]];
      } else {
        assert ns[i] == back[i - |front|] && Repushed(w1, w2, ns[i]) && w1.prs[ns[i]] == w.prs[ns[i]];
        if Git.Below(w2.prs[ns[i]].head, w.nextId) { BelowMono(w2.prs[ns[i]].head, w.nextId, w1.nextId); }
      }
    }
  }

  lemma FormOnceTouches(w: World, ns: seq<int>, at: int)
    requires Calm(w) && Stackable(w, ns)
    ensures Touches(w, FormOnce(w, ns, at), ns)
  {
    hide FormOnce, Git.Below, IsAncestor, Enabled;
    NewJobShape(w, ns, at);
    FormOnceShape(w, ns, at);
    BuildHeads(w.prs, ns, w.target, w.target, w.nextId);
    var job := NewJob(w, ns, at);
    var w' := FormOnce(w, ns, at);
    forall i | 0 <= i < |ns| ensures Repushed(w, w', ns[i]) {
      assert w'.prs[ns[i]] == Stacked(w.prs[ns[i]], job, ns[i]);
    }
    forall q | q in w.prs && q !in ns ensures w'.prs[q] == w.prs[q] {
      assert IndexOf(job.stack.members, q) < 0;
    }
    FormOnceNumbers(w, ns, at);
  }

  lemma FormOnceNumbers(w: World, ns: seq<int>, at: int)
    ensures w.nextId <= FormOnce(w, ns, at).nextId
  {
    hide Build, WriteAll, NewJob;
    if Enabled(w, Begin(ns, at)) { WriteAllNumbers(Next(w, Begin(ns, at))); }
  }

  lemma {:induction false} WriteAllNumbers(w: World)
    ensures WriteAll(w).nextId == w.nextId
    decreases Unwritten(w)
  {
    if Enabled(w, WriteNext) { WriteAllNumbers(Next(w, WriteNext)); }
  }

  function Unwritten(w: World): nat {
    if w.job.Some? && w.job.value.commented < |w.job.value.stack.members| then
      |w.job.value.stack.members| - w.job.value.commented
    else 0
  }

  lemma {:induction false} FormGroupTouches(w: World, ns: seq<int>, at: int, clean: seq<int> -> bool)
    requires Calm(w) && Stackable(w, ns)
    ensures Touches(w, FormGroup(w, ns, at, clean), ns)
    decreases |ns|
  {
    hide Touches;
    if clean(ns) {
      FormOnceTouches(w, ns, at);
    } else if |ns| == 1 {
      assert ns == [ns[0]];
      RejectTouches(w, ns[0]);
    } else {
      HalvesFacts(ns);
      var (front, back) := P.Halves(ns);
      var w1 := FormGroup(w, front, at, clean);
      FrontStackable(w, ns, front, back);
      FormGroupReforms(w, front, at, clean);
      FormGroupTouches(w, front, at, clean);
      BackStackable(w, w1, ns, front, back);
      FormGroupTouches(w1, back, at, clean);
      TouchesJoin(w, w1, FormGroup(w1, back, at, clean), front, back);
    }
  }

  lemma RejectTouches(w: World, n: int)
    requires n in w.prs
    ensures Touches(w, Tell(Unlabel(w, n), n), [n])
  {
  }

  // ---- which stacks a formed group leaves ----

  predicate Within(stack: Stack, ns: seq<int>) {
    forall i :: 0 <= i < |stack.members| ==> stack.members[i].number in ns
  }

  /** The stack at p names each member once and lies above the target. */
  ghost predicate Upright(w: World, p: int)
    requires Marked(w, p)
  {
    var stack := w.prs[p].comment.stack.value;
    Distinct(stack.Numbers()) && IsAncestor(w.target, stack.Top().sha)
  }

  /** A marker of the group is a live, never retried stack inside it. */
  ghost predicate MarkersLive(w: World, ns: seq<int>) {
    forall i :: 0 <= i < |ns| && ns[i] in w.prs && w.prs[ns[i]].comment.stack.Some? ==>
      && Live(w, ns[i]) && Upright(w, ns[i])
      && w.prs[ns[i]].comment.stack.value.retry == 0 && Within(w.prs[ns[i]].comment.stack.value, ns)
  }

  /** And no two of them share a member. */
  ghost predicate MarkersApart(w: World, ns: seq<int>) {
    forall i, j, n ::
      && 0 <= i < |ns| && 0 <= j < |ns| && ns[i] != ns[j] && Live(w, ns[i]) && Live(w, ns[j])
      && n in w.prs[ns[i]].comment.stack.value.Numbers()
      ==> n !in w.prs[ns[j]].comment.stack.value.Numbers()
  }

  ghost predicate SomeLive(w: World, ns: seq<int>) {
    exists i :: 0 <= i < |ns| && Live(w, ns[i])
  }

  predicate SomeRejected(w: World, ns: seq<int>) {
    exists i :: 0 <= i < |ns| && ns[i] in w.prs && !w.prs[ns[i]].labelled
  }

  /** Outside ns nothing changed, and the pull requests are the same ones. */
  predicate Only(w: World, w': World, ns: seq<int>) {
    && w'.target == w.target && w'.prs.Keys == w.prs.Keys
    && forall q :: q in w.prs && q !in ns ==> w'.prs[q] == w.prs[q]
  }

  /** ns went through forming: each is still queued or lost its label, and
      somebody was rejected or a stack is live. */
  ghost predicate Reformed(w: World, w': World, ns: seq<int>) {
    && Calm(w') && Only(w, w', ns)
    && (forall i :: 0 <= i < |ns| ==> ns[i] in w'.prs && !w'.prs[ns[i]].AlreadyLanded())
    && MarkersLive(w', ns) && MarkersApart(w', ns) && (SomeRejected(w', ns) || SomeLive(w', ns))
  }

  lemma FormOnceReforms(w: World, ns: seq<int>, at: int)
    requires Calm(w) && Stackable(w, ns)
    ensures Reformed(w, FormOnce(w, ns, at), ns)
  {
    NewJobShape(w, ns, at);
    FormOnceShape(w, ns, at);
    BuildHeads(w.prs, ns, w.target, w.target, w.nextId);
    StackedReforms(w, FormOnce(w, ns, at), ns, NewJob(w, ns, at));
  }

  lemma StackedReforms(w: World, w': World, ns: seq<int>, job: Job)
    requires ns != [] && |ns| == |job.stack.members| == |job.keeps| && job.stack.Numbers() == ns && Distinct(ns)
    requires IsAncestor(w.target, job.stack.Top().sha)
    requires job.stack.base == w.target && job.stack.retry == 0 && Calm(w') && w'.target == w.target
    requires w'.prs.Keys == w.prs.Keys
    requires forall i :: 0 <= i < |ns| ==>
               && ns[i] in w.prs && w.prs[ns[i]].labelled && job.stack.members[i].number == ns[i]
               && IndexOf(job.stack.members, ns[i]) == i
    requires forall q :: q in w.prs ==> w'.prs[q] == Stacked(w.prs[q], job, q)
    ensures Reformed(w, w', ns)
  {
    var last := |ns| - 1;
    forall i | 0 <= i < |ns|
      ensures w'.prs[ns[i]].comment.stack == (if i == last then Some(job.stack) else None)
      ensures w'.prs[ns[i]].head == job.stack.members[i].sha && w'.prs[ns[i]].labelled
      ensures w'.prs[ns[i]].comment.landed.None?
    {
      assert w'.prs[ns[i]] == Stacked(w.prs[ns[i]], job, ns[i]);
    }
    forall q | q in w.prs && q !in ns ensures w'.prs[q] == w.prs[q] {
      assert IndexOf(job.stack.members, q) < 0;
    }
    assert Live(w', ns[last]);
    forall i | 0 <= i < |ns| && Live(w', ns[i]) ensures ns[i] == ns[last] {}
  }

  lemma RejectReforms(w: World, n: int)
    requires Calm(w) && Stackable(w, [n])
    ensures Reformed(w, Tell(Unlabel(w, n), n), [n])
  {
    assert [n][0] == n;
    var w' := Tell(Unlabel(w, n), n);
    assert !Marked(w', n) && !w'.prs[[n][0]].labelled;
  }

  lemma RejectKeepsInv(w: World, n: int)
    requires Inv(w) && Calm(w) && n in w.prs && !w.prs[n].AlreadyLanded()
    ensures Inv(Tell(Unlabel(w, n), n))
  {
    hide Inv;
    StepKeepsInv(w, SetLabel(n, false));
    var w1 := Unlabel(w, n);
    assert w1 == Next(w, SetLabel(n, false));
    StepKeepsInv(w1, Plain(n));
  }

  lemma HalvesFacts(ns: seq<int>)
    requires |ns| >= 2 && Distinct(ns)
    ensures var (front, back) := P.Halves(ns);
            && front + back == ns && 0 < |front| < |ns| && 0 < |back| < |ns|
            && Distinct(front) && Distinct(back)
            && forall i, j :: 0 <= i < |front| && 0 <= j < |back| ==> front[i] != back[j]
  {
    var (front, back) := P.Halves(ns);
    assert front + back == ns;
    forall i, j | 0 <= i < |front| && 0 <= j < |back| ensures front[i] != back[j] {
      assert ns[i] == front[i] && ns[|front| + j] == back[j];
    }
  }

  /** A live stack stays live while its members are left alone. */
  lemma LiveCarries(w: World, w': World, p: int)
    requires Live(w, p) && w'.target == w.target && p in w'.prs && w'.prs[p] == w.prs[p]
    requires var stack := w.prs[p].comment.stack.value;
             forall i :: 0 <= i < |stack.members| ==>
               stack.members[i].number in w'.prs && w'.prs[stack.members[i].number] == w.prs[stack.members[i].number]
    ensures Live(w', p)
  {
  }

  lemma FrontStays(w1: World, w2: World, front: seq<int>, back: seq<int>, i: nat)
    requires Only(w1, w2, back) && i < |front| && front[i] in w1.prs
    requires forall i, j :: 0 <= i < |front| && 0 <= j < |back| ==> front[i] != back[j]
    requires MarkersLive(w1, front) && Marked(w1, front[i])
    ensures w2.prs[front[i]] == w1.prs[front[i]] && Live(w2, front[i]) && Upright(w2, front[i])
  {
    assert Live(w1, front[i]);
    var stack := w1.prs[front[i]].comment.stack.value;
    forall k | 0 <= k < |stack.members| ensures w2.prs[stack.members[k].number] == w1.prs[stack.members[k].number] {
      assert stack.members[k].number in front;
    }
    LiveCarries(w1, w2, front[i]);
  }

  /** Two groups formed one after the other. */
  lemma ReformsJoin(w: World, w1: World, w2: World, front: seq<int>, back: seq<int>)
    requires Reformed(w, w1, front) && Reformed(w1, w2, back)
    requires forall i, j :: 0 <= i < |front| && 0 <= j < |back| ==> front[i] != back[j]
    ensures Reformed(w, w2, front + back)
    ensures SomeRejected(w2, front + back) || (SomeLive(w2, front) && SomeLive(w2, back))
  {
    var ns := front + back;
    forall i | 0 <= i < |front|
      ensures front[i] in w1.prs && w2.prs[front[i]] == w1.prs[front[i]]
      ensures (Marked(w1, front[i]) ==> Live(w2, front[i]))
    {
      if Marked(w1, front[i]) { FrontStays(w1, w2, front, back, i); }
    }
    JoinedMarkers(w1, w2, front, back);
    JoinedApart(w1, w2, front, back);
    if SomeRejected(w1, front) {
      var i :| 0 <= i < |front| && front[i] in w1.prs && !w1.prs[front[i]].labelled;
      assert ns[i] == front[i];
    } else {
      var i :| 0 <= i < |front| && Live(w1, front[i]);
      assert ns[i] == front[i] && Live(w2, ns[i]);
      if SomeRejected(w2, back) {
        var j :| 0 <= j < |back| && back[j] in w2.prs && !w2.prs[back[j]].labelled;
        assert ns[|front| + j] == back[j];
      }
    }
    forall i | 0 <= i < |ns| ensures ns[i] in w2.prs && !w2.prs[ns[i]].AlreadyLanded() {
      assert ns[i] == if i < |front| then front[i] else back[i - |front|];
    }
  }

  lemma JoinedMarkers(w1: World, w2: World, front: seq<int>, back: seq<int>)
    requires Only(w1, w2, back) && MarkersLive(w1, front) && MarkersLive(w2, back)
    requires forall i :: 0 <= i < |front| ==> front[i] in w1.prs && w2.prs[front[i]] == w1.prs[front[i]]
    requires forall i, j :: 0 <= i < |front| && 0 <= j < |back| ==> front[i] != back[j]
    ensures MarkersLive(w2, front + back)
  {
    var ns := front + back;
    forall i | 0 <= i < |ns| && ns[i] in w2.prs && w2.prs[ns[i]].comment.stack.Some?
      ensures Live(w2, ns[i]) && Upright(w2, ns[i]) && w2.prs[ns[i]].comment.stack.value.retry == 0
      ensures Within(w2.prs[ns[i]].comment.stack.value, ns)
    {
      if i < |front| {
        assert ns[i] == front[i] && Marked(w1, front[i]);
        FrontStays(w1, w2, front, back, i);
      } else {
        assert ns[i] == back[i - |front|];
      }
    }
  }

  lemma JoinedApart(w1: World, w2: World, front: seq<int>, back: seq<int>)
    requires Only(w1, w2, back) && MarkersLive(w1, front) && MarkersLive(w2, back) && MarkersApart(w1, front)
    requires MarkersApart(w2, back)
    requires forall i :: 0 <= i < |front| ==> front[i] in w1.prs && w2.prs[front[i]] == w1.prs[front[i]]
    requires forall i, j :: 0 <= i < |front| && 0 <= j < |back| ==> front[i] != back[j]
    ensures MarkersApart(w2, front + back)
  {
    var ns := front + back;
    forall i, n | 0 <= i < |ns| && Live(w2, ns[i]) && n in w2.prs[ns[i]].comment.stack.value.Numbers()
      ensures if i < |front| then n in front && ns[i] == front[i] && Live(w1, front[i]) else n in back && ns[i] == back[i - |front|]
    {
      var stack := w2.prs[ns[i]].comment.stack.value;
      var k :| 0 <= k < |stack.members| && stack.Numbers()[k] == n;
      assert stack.members[k].number == n;
      if i < |front| {
        assert ns[i] == front[i] && w1.prs[front[i]].comment.stack == Some(stack);
      } else {
        assert ns[i] == back[i - |front|];
      }
    }
  }

  lemma BackStackable(w: World, w1: World, ns: seq<int>, front: seq<int>, back: seq<int>)
    requires Stackable(w, ns) && ns == front + back && back != [] && Distinct(back) && Only(w, w1, front)
    requires forall i, j :: 0 <= i < |front| && 0 <= j < |back| ==> front[i] != back[j]
    ensures Stackable(w1, back)
  {
    forall i | 0 <= i < |back|
      ensures back[i] in w1.prs && w1.prs[back[i]].labelled && !w1.prs[back[i]].AlreadyLanded()
    {
      assert back[i] == ns[|front| + i] && back[i] !in front;
    }
  }

  lemma FrontStackable(w: World, ns: seq<int>, front: seq<int>, back: seq<int>)
    requires Stackable(w, ns) && ns == front + back && front != [] && Distinct(front)
    ensures Stackable(w, front)
  {
    forall i | 0 <= i < |front| ensures front[i] == ns[i] {}
  }

  /** Whatever conflicts, a formed group ends in live stacks and rejections. */
  lemma {:induction false} FormGroupReforms(w: World, ns: seq<int>, at: int, clean: seq<int> -> bool)
    requires Calm(w) && Stackable(w, ns)
    ensures Reformed(w, FormGroup(w, ns, at, clean), ns)
    decreases |ns|
  {
    if clean(ns) {
      FormOnceReforms(w, ns, at);
    } else if |ns| == 1 {
      assert ns == [ns[0]];
      RejectReforms(w, ns[0]);
    } else {
      HalvesFacts(ns);
      var (front, back) := P.Halves(ns);
      var w1 := FormGroup(w, front, at, clean);
      FrontStackable(w, ns, front, back);
      FormGroupReforms(w, front, at, clean);
      BackStackable(w, w1, ns, front, back);
      FormGroupReforms(w1, back, at, clean);
      ReformsJoin(w, w1, FormGroup(w1, back, at, clean), front, back);
    }
  }

  lemma {:induction false} FormGroupKeepsInv(w: World, ns: seq<int>, at: int, clean: seq<int> -> bool)
    requires Inv(w) && Calm(w) && Stackable(w, ns)
    ensures Inv(FormGroup(w, ns, at, clean))
    decreases |ns|
  {
    if clean(ns) {
      FormOnceKeepsInv(w, ns, at);
    } else if |ns| == 1 {
      assert ns[0] in w.prs;
      RejectKeepsInv(w, ns[0]);
    } else {
      HalvesFacts(ns);
      var (front, back) := P.Halves(ns);
      var w1 := FormGroup(w, front, at, clean);
      FrontStackable(w, ns, front, back);
      FormGroupReforms(w, front, at, clean);
      FormGroupKeepsInv(w, front, at, clean);
      BackStackable(w, w1, ns, front, back);
      FormGroupKeepsInv(w1, back, at, clean);
    }
  }
}
