/**
 What the applier's calls leave alone while others act: comments outside the
 group at hand, branches that only grow, a target that only others move; and
 what became of a group.
 */
module QueueKeeping {
  import opened Basics
  import opened Options
  import opened Git
  import opened Queue
  import opened QueueWorld
  import opened QueueSafety
  import opened QueueStacks
  import opened QueueRebase
  import opened QueueRuns
  import opened QueueRough
  import opened QueueTorn
  import F = QueueDrainForm
  import P = QueuePlan
  import T = QueueTick

  /** What became of a group, in the order the groups are settled. */
  datatype Outcome =
    | Formed(prs: seq<int>)
    | Deferred(prs: seq<int>)
    | Rejected(number: int)
    | Landed(prs: seq<int>)
    | Retried(prs: seq<int>)
  {
    function Numbers(): seq<int> {
      if Rejected? then [number] else prs
    }
  }

  function Flat(outcomes: seq<Outcome>): seq<int> {
    if outcomes == [] then [] else Flat(outcomes[..|outcomes| - 1]) + outcomes[|outcomes| - 1].Numbers()
  }

  lemma {:induction false} FlatConcat(a: seq<Outcome>, b: seq<Outcome>)
    ensures Flat(a + b) == Flat(a) + Flat(b)
    decreases |b|
  {
    hide Flat;
    if b == [] {
      FlatNothing();
      assert a + b == a;
    } else {
      var front, last := b[..|b| - 1], b[|b| - 1];
      FlatConcat(a, front);
      FlatOneMore(front, last);
      FlatOneMore(a + front, last);
      assert a + b == (a + front) + [last] && b == front + [last];
    }
  }

  lemma FlatNothing()
    ensures Flat([]) == []
  {
  }

  lemma FlatOneMore(a: seq<Outcome>, last: Outcome)
    ensures Flat(a + [last]) == Flat(a) + last.Numbers()
  {
    assert (a + [last])[..|a|] == a;
  }

  // ---- how deep and how often a group is split ----

  function CeilLog2(n: nat): nat {
    if n <= 1 then 0 else 1 + CeilLog2((n + 1) / 2)
  }

  lemma {:induction false} CeilLog2Means(n: nat)
    requires n >= 1
    ensures n <= Pow2(CeilLog2(n)) && (n > 1 ==> Pow2(CeilLog2(n) - 1) < n)
  {
    if n > 1 {
      CeilLog2Means((n + 1) / 2);
    }
  }

  lemma {:induction false} CeilLog2Mono(m: nat, n: nat)
    requires m <= n
    ensures CeilLog2(m) <= CeilLog2(n)
  {
    if m > 1 { CeilLog2Mono((m + 1) / 2, (n + 1) / 2); }
  }

  // ---- what others may do ----

  /** Others moved the target from a to b: nothing of a pull request's was
      added. */
  ghost predicate MovedByOthers(a: Commit, b: Commit) {
    IsAncestor(a, b) && forall x :: x in Range(a, b) ==> x.pr == 0
  }

  lemma MovedTrans(a: Commit, b: Commit, c: Commit)
    requires MovedByOthers(a, b) && MovedByOthers(b, c)
    ensures MovedByOthers(a, c)
  {
    AncestorTrans(a, b, c);
    RangeSplit(a, b, c);
  }

  lemma NotMoved(a: Commit)
    ensures MovedByOthers(a, a)
  {
    RangeSelf(a);
  }

  /** What joined the target is new. */
  ghost predicate Newer(w: World, w': World) {
    && Grown(w, w') && MovedByOthers(w.target, w'.target)
    && forall c :: Git.Below(c, w.nextId) && IsAncestor(c, w'.target) ==> IsAncestor(c, w.target)
  }

  lemma NewerTrans(a: World, b: World, c: World)
    requires Newer(a, b) && Newer(b, c)
    ensures Newer(a, c)
  {
    MovedTrans(a.target, b.target, c.target);
    forall x | Git.Below(x, a.nextId) && IsAncestor(x, c.target) ensures IsAncestor(x, a.target) {
      BelowMono(x, a.nextId, b.nextId);
    }
  }

  lemma SameNewer(w: World, w': World)
    requires Grown(w, w') && w'.target == w.target
    ensures Newer(w, w')
  {
    NotMoved(w.target);
  }

  lemma OthersNewer(w: World, step: Step)
    requires ByOthers(step) && Enabled(w, step)
    ensures Newer(w, Next(w, step))
  {
    NotMoved(w.target);
    var w' := Next(w, step);
    forall c | Git.Below(c, w.nextId) && IsAncestor(c, w'.target) ensures IsAncestor(c, w.target) {
      if step.PushTarget? { assert c != w'.target; }
    }
  }

  /** Branches only grow; comments, and what the tick holds, stay. */
  ghost predicate Disturbed(w: World, w': World) {
    w'.seen == w.seen && w'.job == w.job && Newer(w, w') && forall q :: q in w.prs ==> DisturbedAt(w, w', q)
  }

  ghost predicate DisturbedAt(w: World, w': World, q: int)
    requires q in w.prs
  {
    && q in w'.prs && w'.prs[q].comment == w.prs[q].comment && IsAncestor(w.prs[q].head, w'.prs[q].head)
    && (w'.prs[q].AlreadyLanded() ==> w.prs[q].AlreadyLanded())
  }

  lemma OthersDisturb(w: World, step: Step)
    requires Bounded(w) && ByOthers(step) && Enabled(w, step)
    ensures Disturbed(w, Next(w, step))
  {
    hide Newer;
    OthersNewer(w, step);
    forall q | q in w.prs ensures DisturbedAt(w, Next(w, step), q) {
      AncestorItself(w.prs[q].head);
      if step == Append(q) && w.prs[q].comment.landed.Some? {
        FreshNotAncestor(Next(w, step).prs[q].head, w.prs[q].comment.landed.value, w.nextId);
      }
    }
  }

  /** Somebody puts the label on q. */
  function Relabel(q: int): FineStep {
    Plainly(SetLabel(q, true))
  }

  /** A label that was off stays off unless somebody puts it on. */
  ghost predicate LabelOff(w: World, w': World, steps: seq<FineStep>) {
    forall q :: q in w.prs && !w.prs[q].labelled && Relabel(q) !in steps ==> q in w'.prs && !w'.prs[q].labelled
  }

  lemma NoRelabel(w: World, steps: seq<FineStep>)
    ensures LabelOff(w, w, steps)
  {
  }

  lemma LabelOffStep(w0: World, w: World, step: Step, steps: seq<FineStep>)
    requires LabelOff(w0, w, steps) && ByOthers(step) && Enabled(w, step)
    ensures LabelOff(w0, Next(w, step), steps + [Plainly(step)])
  {
    forall q | q in w0.prs && !w0.prs[q].labelled && Relabel(q) !in steps + [Plainly(step)]
      ensures q in Next(w, step).prs && !Next(w, step).prs[q].labelled
    {
      assert (steps + [Plainly(step)])[|steps|] == Plainly(step) && Relabel(q) !in steps;
    }
  }

  lemma LabelStays(w: World, w': World, n: int, steps: seq<FineStep>, all: seq<FineStep>)
    requires LabelOff(w, w', steps) && |steps| <= |all| && steps == all[|all| - |steps|..] && n in w.prs
    ensures !w.prs[n].labelled && Relabel(n) !in all ==> n in w'.prs && !w'.prs[n].labelled
  {
  }

  lemma DisturbedTrans(a: World, b: World, c: World)
    requires Disturbed(a, b) && Disturbed(b, c)
    ensures Disturbed(a, c)
  {
    hide Newer;
    NewerTrans(a, b, c);
    forall q | q in a.prs ensures DisturbedAt(a, c, q) {
      assert DisturbedAt(a, b, q) && DisturbedAt(b, c, q);
      AncestorTrans(a.prs[q].head, b.prs[q].head, c.prs[q].head);
    }
  }

  lemma Undisturbed(w: World)
    ensures Disturbed(w, w)
  {
    hide Newer;
    SameNewer(w, w);
  }

  lemma DisturbedSeen(w: World, w': World)
    requires Disturbed(w, w')
    ensures w'.seen == w.seen && w'.job == w.job
  {
  }

  lemma DisturbedKeeps(w: World, w': World, prs: seq<int>)
    requires Disturbed(w, w')
    ensures Kept(w, w', prs) && OnlyGrew(w, w') && w'.job == w.job
  {
    hide Newer;
    forall q | q in w.prs ensures q in w'.prs && IsAncestor(w.prs[q].head, w'.prs[q].head) {
      assert DisturbedAt(w, w', q);
    }
  }

  /** Everybody the snapshot lists is there, with records that fit. */
  ghost predicate Listed(w: World, queued: map<int, P.Queued>) {
    forall n :: n in queued ==> n in w.prs && OwnsFit(queued[n].owns, w.nextId)
  }

  lemma ListedThere(w: World, queued: map<int, P.Queued>, prs: seq<int>)
    requires Listed(w, queued) && forall i :: 0 <= i < |prs| ==> prs[i] in queued
    ensures forall i :: 0 <= i < |prs| ==> prs[i] in queued && prs[i] in w.prs
  {
    forall i | 0 <= i < |prs| ensures prs[i] in queued && prs[i] in w.prs {
      var n := prs[i];
      assert OwnsFit(queued[n].owns, w.nextId);
    }
  }

  lemma ListedGrows(w: World, w': World, queued: map<int, P.Queued>)
    requires Listed(w, queued) && Grown(w, w')
    ensures Listed(w', queued)
  {
    hide OwnsFit;
    forall n | n in queued ensures n in w'.prs && OwnsFit(queued[n].owns, w'.nextId) {
      OwnsGrow(queued[n].owns, w.nextId, w'.nextId);
    }
  }

  lemma GrownNext(w: World, step: Step)
    requires Enabled(w, step)
    ensures Grown(w, Next(w, step))
  {
    hide Commits, Build;
  }

  lemma KnownCarries(w: World, w': World, queued: map<int, P.Queued>, prs: seq<int>)
    requires Known(w, queued, prs) && Disturbed(w, w')
    ensures Known(w', queued, prs)
  {
    hide Newer;
    forall i | 0 <= i < |prs| ensures prs[i] in w.prs && DisturbedAt(w, w', prs[i]) {}
  }

  /** Outside prs comments stay and branches only grow. */
  ghost predicate KeptOutside(w: World, w': World, prs: seq<int>) {
    forall q :: q in w.prs && q !in prs ==> DisturbedAt(w, w', q)
  }

  /** And what the tick saw stays, and only others moved the target. */
  ghost predicate Kept(w: World, w': World, prs: seq<int>) {
    w'.seen == w.seen && Newer(w, w') && KeptOutside(w, w', prs)
  }

  /** Branches only grew. */
  ghost predicate OnlyGrew(w: World, w': World) {
    forall q :: q in w.prs ==> q in w'.prs && IsAncestor(w.prs[q].head, w'.prs[q].head)
  }

  lemma GrewTrans(a: World, b: World, c: World)
    requires OnlyGrew(a, b) && OnlyGrew(b, c)
    ensures OnlyGrew(a, c)
  {
    forall q | q in a.prs ensures q in c.prs && IsAncestor(a.prs[q].head, c.prs[q].head) {
      AncestorTrans(a.prs[q].head, b.prs[q].head, c.prs[q].head);
    }
  }

  lemma KeptTrans(a: World, b: World, c: World, prs: seq<int>)
    requires Kept(a, b, prs) && Kept(b, c, prs)
    ensures Kept(a, c, prs)
  {
    hide Newer;
    NewerTrans(a, b, c);
    forall q | q in a.prs && q !in prs ensures DisturbedAt(a, c, q) {
      assert DisturbedAt(a, b, q) && DisturbedAt(b, c, q);
      AncestorTrans(a.prs[q].head, b.prs[q].head, c.prs[q].head);
    }
  }

  /** The job of a group, with its first comments written: each says where
      its pull request stands in the stack. */
  ghost predicate Noted(w: World, job: Job, prs: seq<int>, n: nat) {
    && w.job == Some(job.(commented := n)) && |prs| == |job.stack.members| == |job.keeps| == |job.expected|
    && n <= |prs|
    && (forall i :: 0 <= i < |prs| ==> prs[i] == job.stack.members[i].number && prs[i] in w.prs)
    && forall i :: 0 <= i < n ==> w.prs[prs[i]].comment == StackComment(job.stack, i, job.keeps[i])
  }

  lemma NotedDisturbed(w: World, w': World, job: Job, prs: seq<int>, n: nat)
    requires Noted(w, job, prs, n) && Disturbed(w, w')
    ensures Noted(w', job, prs, n)
  {
    forall i | 0 <= i < |prs| ensures prs[i] in w.prs && DisturbedAt(w, w', prs[i]) {}
  }

  lemma NotedGrows(w: World, job: Job, prs: seq<int>, n: nat)
    requires Noted(w, job, prs, n) && n < |prs| && Distinct(prs)
    ensures Enabled(w, WriteNext) && Noted(Next(w, WriteNext), job, prs, n + 1)
    ensures Kept(w, Next(w, WriteNext), prs) && OnlyGrew(w, Next(w, WriteNext))
  {
    hide IsAncestor, MovedByOthers, Kept, OnlyGrew, StackComment;
    NotMoved(w.target);
    var w' := Next(w, WriteNext);
    assert prs[n] in prs;
    assert w' == WithComment(w.(job := w'.job), prs[n], StackComment(job.stack, n, job.keeps[n]));
    SameHeads(w, w');
    NotedKept(w, w', prs, prs[n], StackComment(job.stack, n, job.keeps[n]));
  }

  lemma NotedKept(w: World, w': World, prs: seq<int>, p: int, comment: Comment)
    requires p in w.prs && p in prs && w' == WithComment(w.(job := w'.job), p, comment)
    ensures Kept(w, w', prs)
  {
    hide IsAncestor, Newer;
    SameNewer(w, w');
    SameHeads(w, w');
  }

  lemma SameHeads(w: World, w': World)
    requires w'.prs.Keys == w.prs.Keys && forall q :: q in w.prs ==> w'.prs[q].head == w.prs[q].head
    ensures OnlyGrew(w, w')
  {
  }

  /** Every branch of the job is at its commit of the stack. */
  ghost predicate Pushed(w: World, job: Job, prs: seq<int>) {
    && |prs| == |job.stack.members| == |job.keeps|
    && forall i :: 0 <= i < |prs| ==>
         && prs[i] in w.prs && w.prs[prs[i]].head == job.stack.members[i].sha
         && w.prs[prs[i]].comment == StackComment(job.stack, i, job.keeps[i])
  }

  lemma PushShape(w: World, job: Job, prs: seq<int>)
    requires Noted(w, job, prs, |prs|) && Distinct(prs)
    requires forall i :: 0 <= i < |prs| ==> w.prs[prs[i]].head == job.expected[i]
    ensures Enabled(w, Step.Push) && Pushed(Next(w, Step.Push), job, prs) && Kept(w, Next(w, Step.Push), prs)
  {
    hide Newer, StackComment, IsAncestor;
    SameNewer(w, w.(prs := PushedPrs(w.prs, job.stack), job := None));
    var stack := job.stack;
    assert stack.Numbers() == prs;
    forall i | 0 <= i < |prs| ensures IndexOf(stack.members, prs[i]) == i {
      IndexOfMember(stack, i);
    }
    PushOutside(w, stack, prs);
  }

  lemma PushOutside(w: World, stack: Stack, prs: seq<int>)
    requires stack.Numbers() == prs
    ensures KeptOutside(w, w.(prs := PushedPrs(w.prs, stack), job := None), prs)
  {
    var w' := w.(prs := PushedPrs(w.prs, stack), job := None);
    forall q | q in w.prs && q !in prs ensures DisturbedAt(w, w', q) { NamedIn(stack, q); }
  }

  /** The tick holds the stack it rebased. */
  function Holding(w: World, queued: map<int, P.Queued>, prs: seq<int>, at: int): World
    requires forall i :: 0 <= i < |prs| ==> prs[i] in w.prs
  {
    var v := Read(w, queued);
    w.(job := Some(NewJob(v, prs, at)), nextId := w.nextId + Commits(v.prs, prs, w.target))
  }

  lemma HoldingShape(w: World, queued: map<int, P.Queued>, prs: seq<int>, at: int)
    requires forall i :: 0 <= i < |prs| ==> prs[i] in w.prs
    ensures var w' := Holding(w, queued, prs, at);
            Noted(w', NewJob(Read(w, queued), prs, at), prs, 0) && Kept(w, w', prs) && OnlyGrew(w, w')
  {
    hide Build, Commits, Used, Newer;
    SameNewer(w, Holding(w, queued, prs, at));
    SameHeads(w, Holding(w, queued, prs, at));
  }

  lemma ReadFits(w: World, queued: map<int, P.Queued>, n: int)
    requires Listed(w, queued) && n in queued
    ensures var v := Read(w, queued); n in v.prs && OwnsFit(v.prs[n].comment.owns, v.nextId)
  {
  }

  lemma HoldingRough(w: World, queued: map<int, P.Queued>, prs: seq<int>, at: int)
    requires Rough(w) && Listed(w, queued) && prs != [] && Distinct(prs)
    requires forall i :: 0 <= i < |prs| ==> prs[i] in queued && prs[i] in w.prs
    ensures Rough(Holding(w, queued, prs, at)) && Grown(w, Holding(w, queued, prs, at))
  {
    hide Build, Commits, OwnsFit, JobFits, PrFits;
    var v := Read(w, queued);
    forall i | 0 <= i < |prs| ensures prs[i] in v.prs && OwnsFit(v.prs[prs[i]].comment.owns, v.nextId) {
      ReadFits(w, queued, prs[i]);
    }
    BuiltFits(v, prs, at);
    var id := w.nextId + Commits(v.prs, prs, w.target);
    JobGrows(v.(nextId := id), w.(nextId := id), NewJob(v, prs, at));
    JobRough(w, NewJob(v, prs, at), id);
  }

  /** While the records are as the snapshot read them, that is the machine's
      own step. */
  lemma BeginIsFine(f: Fine, prs: seq<int>, at: int)
    requires Enabled(f.world, Begin(prs, at)) && forall i :: 0 <= i < |prs| ==> prs[i] !in f.untold
    ensures FineEnabled(f, Plainly(Begin(prs, at)))
    ensures FineNext(f, Plainly(Begin(prs, at))) == f.(world := Next(f.world, Begin(prs, at)))
  {
    hide Build, Commits;
  }

  lemma HoldingIsBegin(w: World, queued: map<int, P.Queued>, prs: seq<int>, at: int,
                       clash: (Commit, Commit, Commit) -> bool)
    requires w.job.None? && w.target == w.seen && prs != [] && Distinct(prs) && Known(w, queued, prs)
    ensures Enabled(w, Begin(prs, at)) && Next(w, Begin(prs, at)) == Holding(w, queued, prs, at)
  {
    hide Build, Commits, Used, RebasedTo;
    ReadSame(w, queued, prs, at, clash);
  }

  lemma HalfDeep(n: nat)
    requires n > 1
    ensures CeilLog2(n) == 1 + CeilLog2((n + 1) / 2) && CeilLog2(n / 2) <= CeilLog2((n + 1) / 2)
  {
    CeilLog2Mono(n / 2, (n + 1) / 2);
  }

  lemma SplitGroup(w: World, queued: map<int, P.Queued>, prs: seq<int>)
    requires |prs| > 1 && Distinct(prs)
    ensures var (front, back) := P.Halves(prs);
            && front + back == prs && |front| == (|prs| + 1) / 2 && |back| == |prs| / 2 && Distinct(front)
            && Distinct(back)
            && (Known(w, queued, prs) ==> Known(w, queued, front) && Known(w, queued, back))
            && (forall i :: 0 <= i < |front| ==> front[i] in prs) && (forall i :: 0 <= i < |back| ==> back[i] in prs)
            && forall i, j :: 0 <= i < |front| && 0 <= j < |back| ==> front[i] != back[j]
  {
    var (front, back) := P.Halves(prs);
    assert forall i :: 0 <= i < |front| ==> front[i] == prs[i];
    assert forall j :: 0 <= j < |back| ==> back[j] == prs[|front| + j];
  }

  lemma KeptOne(w: World, w': World, prs: seq<int>, n: int)
    requires Kept(w, w', prs) && n in w.prs && n !in prs
    ensures n in w'.prs && w'.prs[n].comment == w.prs[n].comment
    ensures (w'.prs[n].AlreadyLanded() ==> w.prs[n].AlreadyLanded())
  {
  }

  lemma KnownBack(w: World, w': World, queued: map<int, P.Queued>, front: seq<int>, back: seq<int>)
    requires Known(w, queued, back) && Kept(w, w', front)
    requires forall i, j :: 0 <= i < |front| && 0 <= j < |back| ==> front[i] != back[j]
    ensures Known(w', queued, back)
  {
    forall j | 0 <= j < |back|
      ensures back[j] in queued && back[j] in w'.prs && queued[back[j]].owns == w'.prs[back[j]].comment.owns
      ensures !w'.prs[back[j]].AlreadyLanded()
    {
      var n := back[j];
      assert n !in front;
      assert n in w.prs;
      KeptOne(w, w', front, n);
    }
  }

  lemma KeptSeen(w: World, w': World, prs: seq<int>)
    requires Kept(w, w', prs)
    ensures w'.seen == w.seen
  {
  }

  lemma KeptFront(w: World, w': World, front: seq<int>, back: seq<int>)
    requires Kept(w, w', front)
    ensures Kept(w, w', front + back)
  {
  }

  lemma KeptHalves(w: World, w1: World, w2: World, front: seq<int>, back: seq<int>)
    requires Kept(w, w1, front) && Kept(w1, w2, back)
    ensures Kept(w, w2, front + back)
  {
    hide Newer;
    NewerTrans(w, w1, w2);
    forall q | q in w.prs && q !in front + back ensures DisturbedAt(w, w2, q) {
      assert DisturbedAt(w, w1, q) && DisturbedAt(w1, w2, q);
      AncestorTrans(w.prs[q].head, w1.prs[q].head, w2.prs[q].head);
    }
  }

  /** The stack as its marker tells: built on what the tick saw, its members'
      branches still holding their commits. */
  ghost predicate InFlight(w: World, stack: Stack) {
    && stack.members != [] && Marked(w, stack.Top().number) && w.prs[stack.Top().number].comment.stack == Some(stack)
    && stack.base == w.seen && Distinct(stack.Numbers())
    && forall i :: 0 <= i < |stack.members| ==>
         stack.members[i].number in w.prs && IsAncestor(stack.members[i].sha, w.prs[stack.members[i].number].head)
  }

  lemma InFlightStays(w: World, w': World, stack: Stack)
    requires InFlight(w, stack) && Disturbed(w, w')
    ensures InFlight(w', stack)
  {
    assert DisturbedAt(w, w', stack.Top().number);
    forall i | 0 <= i < |stack.members|
      ensures stack.members[i].number in w'.prs
      ensures IsAncestor(stack.members[i].sha, w'.prs[stack.members[i].number].head)
    {
      var n := stack.members[i].number;
      assert DisturbedAt(w, w', n);
      AncestorTrans(stack.members[i].sha, w.prs[n].head, w'.prs[n].head);
    }
  }

  /** The target holds the stack's top, with every member, and above it only
      what others pushed. */
  ghost predicate Takes(stack: Stack, target: Commit) {
    && stack.members != [] && MovedByOthers(stack.Top().sha, target)
    && forall i :: 0 <= i < |stack.members| ==> IsAncestor(stack.members[i].sha, target)
  }

  lemma NotForwarded(w: World, stack: Stack)
    requires Chain(w, stack)
    ensures w.prs[stack.Top().number].head != stack.Top().sha || !IsAncestor(w.target, stack.Top().sha) ==>
              T.FastForward(w, stack) == w
  {
  }

  lemma CommentKept(w: World, n: int, comment: Comment, prs: seq<int>)
    requires n in w.prs && n in prs
    ensures Kept(w, WithComment(w, n, comment), prs) && OnlyGrew(w, WithComment(w, n, comment))
  {
    hide Newer;
    SameNewer(w, WithComment(w, n, comment));
  }

  /** The marker names a stack in flight of which again is the retried form. */
  ghost predicate Retries(w: World, again: Stack) {
    && again.members != [] && Marked(w, again.Top().number)
    && InFlight(w, w.prs[again.Top().number].comment.stack.value)
    && again == w.prs[again.Top().number].comment.stack.value.(retry := 1, at := again.at)
  }

  // ---- landing ----

  /** A chain whose base the target has not left behind for anything that is
      in it. */
  ghost predicate OnTarget(w: World, stack: Stack) {
    Chain(w, stack) && IsAncestor(stack.base, w.target) && Meet(stack.Top().sha, w.target, stack.base)
  }

  lemma StaysOnTarget(w: World, w': World, stack: Stack)
    requires OnTarget(w, stack) && Newer(w, w')
    ensures OnTarget(w', stack)
  {
    ChainGrows(w, w', stack);
    AncestorTrans(stack.base, w.target, w'.target);
    forall c | IsAncestor(c, stack.Top().sha) && IsAncestor(c, w'.target) ensures IsAncestor(c, stack.base) {
      BelowAncestor(c, stack.Top().sha, w.nextId);
    }
  }

  /** A fast-forward the remote accepts starts from the stack's base, which
      the target never left. */
  lemma ForwardedFromBase(w: World, w': World, stack: Stack)
    requires OnTarget(w, stack) && Newer(w, w') && IsAncestor(w'.target, stack.Top().sha)
    ensures w.target == stack.base && w'.target == stack.base
  {
    StaysOnTarget(w, w', stack);
    AncestorItself(w'.target);
    AncestorAntisym(w'.target, stack.base);
    AncestorAntisym(w.target, stack.base);
  }

  lemma LandForwards(w: World, stack: Stack)
    requires Chain(w, stack) && w.prs[stack.Top().number].head == stack.Top().sha
    requires IsAncestor(w.target, stack.Top().sha)
    ensures T.FastForward(w, stack) ==
            w.(target := stack.Top().sha, seen := stack.Top().sha, prs := LandedPrs(w.prs, stack))
  {
  }

  /** What a landing leaves untold: its members at most, and none of them once
      all were told. */
  ghost predicate LandingTold(f: Fine, g: Fine, stack: Stack, all: bool) {
    Tellable(g, stack) && UntoldOutside(f, g, stack.Numbers()) && (all ==> g.untold == f.untold)
  }

  lemma LandedUntold(f0: Fine, f: Fine, g: Fine, stack: Stack, all: bool)
    requires Telling(f, g, stack, if all then |stack.members| else 0)
    requires forall q :: q in f.untold && q !in stack.Numbers() ==> q in f0.untold && f.untold[q] == f0.untold[q]
    requires forall q :: q in f0.untold ==> q !in stack.Numbers() && q in f.untold && f.untold[q] == f0.untold[q]
    ensures LandingTold(f0, g, stack, all)
  {
    var ns := stack.Numbers();
    if all {
      forall q | q in g.untold ensures q in f0.untold && g.untold[q] == f0.untold[q] {
        forall i | 0 <= i < |ns| ensures ns[i] != q { assert stack.members[i].number == ns[i]; }
        assert q !in stack.Numbers();
      }
      forall q | q in f0.untold ensures q in g.untold { assert q !in stack.Numbers(); }
      assert g.untold == f0.untold;
    }
  }

  /** What a landing that is about to happen finds. */
  lemma LandFacts(f: Fine, stack: Stack)
    requires InFlight(f.world, stack) && Enabled(f.world, Step.Advance(stack.Top().number))
    requires stack.Numbers()[|stack.members| - 1] !in f.untold
    ensures FineEnabled(f, Forward(stack.Top().number))
  {
  }

  lemma Forwarded(f: Fine, stack: Stack, untold: map<int, Commit>)
    requires InFlight(f.world, stack) && FineEnabled(f, Forward(stack.Top().number)) && f.untold == untold
    requires forall i :: 0 <= i < |stack.members| ==> stack.Numbers()[i] !in untold
    ensures var g := FineNext(f, Forward(stack.Top().number));
            && g.world == f.world.(target := stack.Top().sha, seen := stack.Top().sha)
            && Tellable(g, stack)
            && (forall q :: q in g.untold && q !in stack.Numbers() ==> q in untold && g.untold[q] == untold[q])
            && (forall q :: q in untold ==> q !in stack.Numbers() && q in g.untold && g.untold[q] == untold[q])
  {
    var g := FineNext(f, Forward(stack.Top().number));
    forall i | 0 <= i < |stack.members| ensures ToldOrUntold(g, stack, i) {
      IndexOfMember(stack, i);
      UntoldAt(stack, untold, stack.members[i].number);
    }
    forall q ensures q in stack.Numbers() <==> IndexOf(stack.members, q) >= 0 { NamedIn(stack, q); }
    forall q ensures q in g.untold <==> q in untold || q in stack.Numbers() { UntoldAt(stack, untold, q); }
    forall q | q in g.untold && q !in stack.Numbers() ensures g.untold[q] == untold[q] { UntoldAt(stack, untold, q); }
    forall q | q in untold ensures q !in stack.Numbers() {
      forall k | 0 <= k < |stack.members| ensures stack.Numbers()[k] != q {}
    }
  }

  lemma LandedKept(w0: World, w1: World, w2: World, w3: World, stack: Stack)
    requires Kept(w0, w1, []) && Linked(stack) && w2 == w1.(target := stack.Top().sha, seen := stack.Top().sha)
    requires Kept(w2, w3, stack.Numbers())
    ensures KeptOutside(w0, w3, stack.Numbers()) && Takes(stack, w3.target) && Grown(w0, w3)
  {
    forall q | q in w0.prs && q !in stack.Numbers() ensures DisturbedAt(w0, w3, q) {
      assert q !in [] && DisturbedAt(w0, w1, q) && DisturbedAt(w2, w3, q);
      AncestorTrans(w0.prs[q].head, w1.prs[q].head, w3.prs[q].head);
    }
    forall i | 0 <= i < |stack.members| ensures IsAncestor(stack.members[i].sha, w3.target) {
      LinkedInTop(stack, i);
      AncestorTrans(stack.members[i].sha, stack.Top().sha, w3.target);
    }
  }

  /** Every member was told or is known not to have been. */
  ghost predicate Tellable(f: Fine, stack: Stack) {
    forall i :: 0 <= i < |stack.members| ==> ToldOrUntold(f, stack, i)
  }

  /** The first n members have been told, and nobody else was forgotten. */
  ghost predicate Telling(f: Fine, g: Fine, stack: Stack, n: nat) {
    && Tellable(g, stack)
    && (forall i :: 0 <= i < n && i < |stack.members| ==> stack.members[i].number !in g.untold)
    && (forall q :: q in g.untold ==> q in f.untold && g.untold[q] == f.untold[q])
    && forall q :: q in f.untold && q !in stack.Numbers() ==> q in g.untold
  }

  lemma TellingStarts(f: Fine, stack: Stack)
    requires Tellable(f, stack)
    ensures Telling(f, f, stack, 0)
  {
  }

  lemma TellingLess(f: Fine, g: Fine, stack: Stack, n: nat)
    requires Telling(f, g, stack, n)
    ensures Telling(f, g, stack, 0)
  {
  }

  lemma ToldHere(f: Fine, g: Fine, stack: Stack, i: nat)
    requires i < |stack.members| && Telling(f, g, stack, i)
    ensures var m := stack.members[i];
            && m.number in g.world.prs
            && if m.number in g.untold then g.untold[m.number] == m.sha else g.world.prs[m.number].comment == LandedAt(m.sha)
  {
    assert ToldOrUntold(g, stack, i);
  }

  lemma ChainDisturbed(w: World, w': World, stack: Stack)
    requires Chain(w, stack) && Disturbed(w, w')
    ensures Chain(w', stack)
  {
    hide Linked;
    ChainGrows(w, w', stack);
  }

  lemma ChainKept(w: World, w': World, stack: Stack)
    requires Chain(w, stack) && Kept(w, w', stack.Numbers())
    ensures Chain(w', stack)
  {
    hide Linked;
    ChainGrows(w, w', stack);
  }

  lemma ChainMember(w: World, stack: Stack, i: nat)
    requires Chain(w, stack) && i < |stack.members|
    ensures stack.members[i].number in w.prs && Git.Below(stack.members[i].sha, w.nextId)
    ensures stack.members[i].number in stack.Numbers() && Distinct(stack.Numbers())
  {
    MemberBelow(w, stack, i);
    assert stack.Numbers()[i] == stack.members[i].number;
  }

  lemma OnTargetChain(w: World, stack: Stack)
    requires OnTarget(w, stack)
    ensures Chain(w, stack) && stack.members != [] && stack.Top().number in w.prs && Linked(stack)
  {
  }

  /** Others acting before a landing. */
  lemma LandWaits(w: World, w': World, stack: Stack)
    requires OnTarget(w, stack) && Disturbed(w, w')
    ensures Kept(w, w', []) && KeptOutside(w, w', stack.Numbers()) && Newer(w, w') && Grown(w, w')
    ensures OnTarget(w', stack) && Chain(w', stack) && stack.Top().number in w'.prs && w'.job == w.job
  {
    hide DisturbedAt;
    DisturbedKeeps(w, w', []);
    StaysOnTarget(w, w', stack);
  }

  lemma TellingDisturbed(f: Fine, g: Fine, h: Fine, stack: Stack, n: nat)
    requires Telling(f, g, stack, n) && Disturbed(g.world, h.world) && h.untold == g.untold
    ensures Telling(f, h, stack, n)
  {
    hide Newer;
    forall i | 0 <= i < |stack.members| ensures ToldOrUntold(h, stack, i) {
      assert ToldOrUntold(g, stack, i) && DisturbedAt(g.world, h.world, stack.members[i].number);
    }
  }

  lemma TellingOne(f: Fine, g: Fine, h: Fine, stack: Stack, i: nat)
    requires Distinct(stack.Numbers()) && i < |stack.members| && stack.members[i].number in g.world.prs
    requires Telling(f, g, stack, i)
    requires h.world == WithComment(g.world, stack.members[i].number, LandedAt(stack.members[i].sha))
    requires h.untold == g.untold - {stack.members[i].number}
    ensures Telling(f, h, stack, i + 1)
  {
    assert stack.Numbers()[i] in stack.Numbers();
    forall k | 0 <= k < |stack.members| ensures ToldOrUntold(h, stack, k) {
      assert ToldOrUntold(g, stack, k);
      assert stack.Numbers()[k] == stack.members[k].number && stack.Numbers()[i] == stack.members[i].number;
    }
  }

  lemma LandedAll(w: World, stack: Stack)
    ensures LandedSome(w.prs, stack, |stack.members|) == LandedPrs(w.prs, stack)
  {
  }

  lemma LandEnabled(w: World, stack: Stack)
    requires InFlight(w, stack) && w.job.None? && IsAncestor(w.target, stack.Top().sha)
    ensures Enabled(w, Step.Advance(stack.Top().number))
  {
  }

  lemma LandedStarts(w: World, stack: Stack)
    ensures w.(prs := LandedSome(w.prs, stack, 0)) == w
  {
    assert LandedSome(w.prs, stack, 0) == w.prs;
  }

  lemma LandedGrows(w: World, stack: Stack, i: nat)
    requires Distinct(stack.Numbers()) && i < |stack.members| && stack.members[i].number in w.prs
    ensures var w1 := w.(prs := LandedSome(w.prs, stack, i));
            && stack.members[i].number in w1.prs
            && WithComment(w1, stack.members[i].number, LandedComment(stack, i)) == w.(prs := LandedSome(w.prs, stack, i + 1))
  {
    var n := stack.members[i].number;
    IndexOfMember(stack, i);
    var a, b := LandedSome(w.prs, stack, i), LandedSome(w.prs, stack, i + 1);
    forall q | q in w.prs && q != n ensures a[q] == b[q] {
      var k := IndexOf(stack.members, q);
      if k >= 0 { IndexOfMember(stack, k); }
    }
    assert b == a[n := a[n].(comment := LandedComment(stack, i))];
  }

  lemma InFlightMarks(w: World, stack: Stack)
    requires InFlight(w, stack)
    ensures stack.members != [] && Distinct(stack.Numbers()) && stack.Top().number in w.prs
    ensures w.prs[stack.Top().number].comment.stack == Some(stack)
  {
  }

  // ---- a quiet group ----

  /** The group as the tick read it: queued, unmoved, and conflicting as clean
      says. */
  ghost predicate QuietGroup(w: World, queued: map<int, P.Queued>, prs: seq<int>,
                             clash: (Commit, Commit, Commit) -> bool, clean: seq<int> -> bool) {
    F.Calm(w) && F.Stackable(w, prs) && (forall i :: 0 <= i < |prs| ==> Unmoved(w, queued, prs[i])) && Steady(w, prs,
           clash, clean)
  }

  lemma QuietDecides(w: World, queued: map<int, P.Queued>, prs: seq<int>, clash: (Commit, Commit, Commit) -> bool,
                     clean: seq<int> -> bool)
    requires QuietGroup(w, queued, prs, clash, clean)
    ensures clean(prs) <==> RebasedTo(w, queued, prs, |prs|, clash)
    ensures w.target == w.seen && forall n :: n in prs ==> Unmoved(w, queued, n)
  {
    hide Unmoved, Steady;
    SteadyDecides(w, queued, prs, clash, clean);
  }

  /** Reading its records again rebases a quiet group exactly when it is
      clean. */
  lemma QuietRebases(w: World, queued: map<int, P.Queued>, prs: seq<int>, at: int,
                     clash: (Commit, Commit, Commit) -> bool, clean: seq<int> -> bool)
    requires QuietGroup(w, queued, prs, clash, clean) && Known(w, queued, prs)
    ensures clean(prs) <==> RebasedTo(Read(w, queued), queued, prs, |prs|, clash)
    ensures w.target == w.seen && forall n :: n in prs ==> Unmoved(Read(w, queued), queued, n)
  {
    hide Unmoved, Steady, RebasedTo, Known;
    QuietDecides(w, queued, prs, clash, clean);
    ReadSame(w, queued, prs, at, clash);
    forall n | n in prs ensures Unmoved(Read(w, queued), queued, n) { ReadUnmoved(w, queued, n); }
  }

  lemma ReadUnmoved(w: World, queued: map<int, P.Queued>, n: int)
    ensures Unmoved(Read(w, queued), queued, n) <==> Unmoved(w, queued, n)
  {
  }

  /** Both halves of a quiet group that conflicts are quiet when their turn
      comes. */
  lemma QuietHalves(w: World, queued: map<int, P.Queued>, prs: seq<int>, at: int,
                    clash: (Commit, Commit, Commit) -> bool, clean: seq<int> -> bool)
    requires QuietGroup(w, queued, prs, clash, clean) && |prs| > 1 && !clean(prs)
    ensures var (front, back) := P.Halves(prs);
            var w1 := T.FormGroup(w, front, at, clean);
            && QuietGroup(w, queued, front, clash, clean) && QuietGroup(w1, queued, back, clash, clean)
            && T.FormGroup(w, prs, at, clean) == T.FormGroup(w1, back, at, clean)
  {
    hide Steady, F.MarkersLive, F.SomeRejected, F.SomeLive;
    F.HalvesFacts(prs);
    var (front, back) := P.Halves(prs);
    F.FrontStackable(w, prs, front, back);
    SteadyPart(w, prs, front, clash, clean);
    forall i | 0 <= i < |front| ensures Unmoved(w, queued, front[i]) { assert front[i] == prs[i]; }
    F.FormGroupReforms(w, front, at, clean);
    QuietBack(w, T.FormGroup(w, front, at, clean), queued, prs, front, back, clash, clean);
  }

  lemma QuietBack(w: World, w1: World, queued: map<int, P.Queued>, prs: seq<int>, front: seq<int>, back: seq<int>,
                  clash: (Commit, Commit, Commit) -> bool, clean: seq<int> -> bool)
    requires QuietGroup(w, queued, prs, clash, clean) && prs == front + back && back != [] && Distinct(back)
    requires F.Calm(w1) && F.Only(w, w1, front)
    requires forall i, j :: 0 <= i < |front| && 0 <= j < |back| ==> front[i] != back[j]
    ensures QuietGroup(w1, queued, back, clash, clean)
  {
    hide Steady;
    F.BackStackable(w, w1, prs, front, back);
    SteadyPart(w, prs, back, clash, clean);
    forall i | 0 <= i < |back|
      ensures back[i] in w.prs && back[i] in w1.prs && w1.prs[back[i]] == w.prs[back[i]] && Unmoved(w1, queued, back[i])
    {
      assert back[i] == prs[|front| + i] && Unmoved(w, queued, prs[|front| + i]);
    }
    SteadyStays(w, w1, back, clash, clean);
  }

  lemma FormGroupClean(w: World, prs: seq<int>, at: int, clean: seq<int> -> bool)
    requires clean(prs)
    ensures T.FormGroup(w, prs, at, clean) == T.FormOnce(w, prs, at)
  {
  }

  lemma FormGroupRejects(w: World, prs: seq<int>, at: int, clean: seq<int> -> bool)
    requires |prs| == 1 && !clean(prs)
    ensures T.FormGroup(w, prs, at, clean) == T.Tell(T.Unlabel(w, prs[0]), prs[0])
  {
  }

  /** Writing the rest of the job's comments, then the push. */
  ghost function Published(w: World): World {
    var ready := T.WriteAll(w);
    if Enabled(ready, Step.Push) then Next(ready, Step.Push) else Next(ready, Drop)
  }

  lemma OnceIsPublished(w: World, prs: seq<int>, at: int)
    requires Enabled(w, Begin(prs, at))
    ensures T.FormOnce(w, prs, at) == Published(Next(w, Begin(prs, at)))
  {
  }

  lemma WriteAllNext(w: World)
    requires Enabled(w, WriteNext)
    ensures T.WriteAll(w) == T.WriteAll(Next(w, WriteNext))
  {
  }

  lemma PublishEnds(w: World, job: Job, prs: seq<int>)
    requires Noted(w, job, prs, |prs|)
    ensures T.WriteAll(w) == w && Next(w, Drop) == w.(job := None)
    ensures Enabled(w, Step.Push) <==> forall i :: 0 <= i < |prs| ==> prs[i] in w.prs && w.prs[prs[i]].head == job.expected[i]
  {
  }

  lemma StillKept(w: World, prs: seq<int>)
    ensures Kept(w, w, prs) && OnlyGrew(w, w)
  {
    hide Newer;
    SameNewer(w, w);
  }

  lemma KeptDropped(w: World, w': World, prs: seq<int>)
    requires Kept(w, w', prs) && OnlyGrew(w, w')
    ensures Kept(w, w'.(job := None), prs) && OnlyGrew(w, w'.(job := None))
  {
    hide Newer;
    SameNewer(w', w'.(job := None));
    NewerTrans(w, w', w'.(job := None));
    forall q | q in w.prs && q !in prs ensures DisturbedAt(w, w'.(job := None), q) {
      assert DisturbedAt(w, w', q);
    }
  }

  // ---- what became of a group ----

  /** The stack's comments and commits are where they belong; authors may have
      pushed above since. */
  ghost predicate StackWritten(w: World, stack: Stack, prs: seq<int>, base: Commit) {
    && stack.base == base && stack.Numbers() == prs
    && forall i :: 0 <= i < |prs| ==>
         && prs[i] in w.prs && IsAncestor(stack.members[i].sha, w.prs[prs[i]].head)
         && var comment := w.prs[prs[i]].comment;
         && comment.owns != [] && comment.owns[0] == StackOwn(stack, i) && comment.landed.None?
         && comment.stack == if i == |prs| - 1 then Some(stack) else None
  }

  /** Pull request n kept its own commits. */
  ghost predicate Unwritten(w: World, w': World, n: int) {
    n in w.prs ==> n in w'.prs && IsAncestor(w.prs[n].head, w'.prs[n].head)
  }

  /** An outcome is what happened: the stack is written, or the branches were
      left to their authors, or the pull request was told and left alone. */
  ghost predicate Happened(w: World, w': World, queued: map<int, P.Queued>, outcome: Outcome, base: Commit) {
    match outcome
    case Formed(prs) => exists stack :: StackWritten(w', stack, prs, base)
    case Deferred(prs) => forall i :: 0 <= i < |prs| ==> Unwritten(w, w', prs[i])
    case Rejected(n) =>
      n in queued && n in w'.prs && Unwritten(w, w', n) && w'.prs[n].comment == PlainComment(queued[n].owns)
    case _ => true
  }

  /** Rebasing the pull request's own commits on base conflicts. */
  predicate Stubborn(queued: map<int, P.Queued>, n: int, base: Commit, clash: (Commit, Commit, Commit) -> bool) {
    n in queued && clash(base, Queue.Upstream(queued[n].owns, queued[n].head, base), queued[n].head)
  }

  /** The branch is not where the snapshot saw it any more, or never was. */
  ghost predicate Shifted(w: World, w': World, queued: map<int, P.Queued>, n: int) {
    || n !in queued || n !in w.prs || n !in w'.prs
    || w'.prs[n].head != queued[n].head || !IsAncestor(queued[n].head, w.prs[n].head)
  }

  /** The target, or one of the branches. */
  ghost predicate Overtaken(w: World, w': World, queued: map<int, P.Queued>, prs: seq<int>, base: Commit) {
    w'.target != base || !IsAncestor(base, w.target) || exists i :: 0 <= i < |prs| && Shifted(w, w', queued, prs[i])
  }

  /** An outcome has its reason: only what conflicts by itself is rejected, and
      only what somebody overtook waits. */
  ghost predicate Warranted(w: World, w': World, queued: map<int, P.Queued>, clash: (Commit, Commit, Commit) -> bool,
                            outcome: Outcome, base: Commit) {
    match outcome
    case Rejected(n) => Stubborn(queued, n, base, clash)
    case Deferred(prs) => Overtaken(w, w', queued, prs, base)
    case _ => true
  }

  ghost predicate Concluded(w: World, w': World, queued: map<int, P.Queued>, clash: (Commit, Commit, Commit) -> bool,
                          outcome: Outcome, base: Commit) {
    Happened(w, w', queued, outcome, base) && Warranted(w, w', queued, clash, outcome, base)
  }

  lemma GrewSettled(w: World, w': World, queued: map<int, P.Queued>, clash: (Commit, Commit, Commit) -> bool,
                    prs: seq<int>, base: Commit)
    requires OnlyGrew(w, w') && Overtaken(w, w', queued, prs, base)
    ensures Concluded(w, w', queued, clash, Deferred(prs), base)
  {
    hide Overtaken;
  }

  lemma FormedSettled(w: World, w': World, queued: map<int, P.Queued>, clash: (Commit, Commit, Commit) -> bool,
                      job: Job, prs: seq<int>)
    requires Pushed(w', job, prs) && job.stack.Numbers() == prs
    ensures Concluded(w, w', queued, clash, Formed(prs), job.stack.base)
  {
    assert StackWritten(w', job.stack, prs, job.stack.base);
  }

  lemma RejectSettled(w: World, w': World, queued: map<int, P.Queued>, clash: (Commit, Commit, Commit) -> bool,
                      n: int, base: Commit)
    requires Happened(w, w', queued, Rejected(n), base) && Stubborn(queued, n, base, clash)
    ensures Concluded(w, w', queued, clash, Rejected(n), base)
  {
  }

  /** A pull request alone that does not rebase is stubborn. */
  lemma ConflictAlone(w: World, queued: map<int, P.Queued>, prs: seq<int>, n: int,
                      clash: (Commit, Commit, Commit) -> bool)
    requires n in queued && Unmoved(Read(w, queued), queued, n)
    requires exists i :: 0 <= i < |prs| && prs[i] == n && ClashAt(Read(w, queued), prs, i, clash)
    ensures |prs| == 1 ==> Stubborn(queued, n, w.target, clash)
  {
    hide Queue.Upstream;
  }

  /** A group that waits because the target or a branch moved before it was
      rebased. */
  lemma WaitsHere(w: World, queued: map<int, P.Queued>, clash: (Commit, Commit, Commit) -> bool, prs: seq<int>,
                  base: Commit)
    requires w.target != base || exists n :: n in prs && !Unmoved(Read(w, queued), queued, n)
    ensures Concluded(w, w, queued, clash, Deferred(prs), base)
  {
    hide Read;
    forall n | n in w.prs ensures IsAncestor(w.prs[n].head, w.prs[n].head) { AncestorItself(w.prs[n].head); }
    if n :| n in prs && !Unmoved(Read(w, queued), queued, n) {
      ReadUnmoved(w, queued, n);
      var i :| 0 <= i < |prs| && prs[i] == n;
      assert Shifted(w, w, queued, prs[i]);
    }
  }

  lemma LeaseOvertakes(w: World, w': World, queued: map<int, P.Queued>, prs: seq<int>, i: nat, base: Commit)
    requires i < |prs| && (prs[i] in w'.prs && prs[i] in queued ==> w'.prs[prs[i]].head != queued[prs[i]].head)
    ensures Overtaken(w, w', queued, prs, base)
  {
    assert Shifted(w, w', queued, prs[i]);
  }

  /** The top branch or the target is not where the stack can land any more. */
  predicate Overtook(w: World, stack: Stack) {
    && stack.members != []
    && (stack.Top().number in w.prs ==>
          w.prs[stack.Top().number].head != stack.Top().sha || !IsAncestor(w.target, stack.Top().sha))
  }

  /** A branch left the head its push was to replace. */
  predicate Unleased(w: World, job: Job, prs: seq<int>, i: nat) {
    i < |prs| && i < |job.expected| && (prs[i] in w.prs ==> w.prs[prs[i]].head != job.expected[i])
  }

  lemma StillUnleased(w: World, w': World, job: Job, prs: seq<int>)
    requires w'.prs == w.prs && exists i :: 0 <= i < |prs| && Unleased(w, job, prs, i)
    ensures exists i :: 0 <= i < |prs| && Unleased(w', job, prs, i)
  {
    var i :| 0 <= i < |prs| && Unleased(w, job, prs, i);
    assert Unleased(w', job, prs, i);
  }

  lemma UnleasedOvertakes(w: World, w': World, queued: map<int, P.Queued>, job: Job, prs: seq<int>, at: int)
    requires forall i :: 0 <= i < |prs| ==> prs[i] in w.prs && Unmoved(w, queued, prs[i])
    requires job == NewJob(Read(w, queued), prs, at) && exists i :: 0 <= i < |prs| && Unleased(w', job, prs, i)
    ensures Overtaken(w, w', queued, prs, job.stack.base)
  {
    hide Build, Commits, Used;
    var i :| 0 <= i < |prs| && Unleased(w', job, prs, i);
    assert Unmoved(w, queued, prs[i]);
    LeaseOvertakes(w, w', queued, prs, i, job.stack.base);
  }

  lemma AllUnmoved(w: World, queued: map<int, P.Queued>, prs: seq<int>, clash: (Commit, Commit, Commit) -> bool)
    requires RebasedTo(Read(w, queued), queued, prs, |prs|, clash)
    ensures forall i :: 0 <= i < |prs| ==> Unmoved(w, queued, prs[i])
  {
    hide ClashAt, Unmoved;
    forall i | 0 <= i < |prs| ensures Unmoved(w, queued, prs[i]) { ReadUnmoved(w, queued, prs[i]); }
  }

  /** What overtook a group overtook it whenever one starts to look. */
  lemma OvertakenEarlier(w: World, w1: World, w2: World, queued: map<int, P.Queued>, prs: seq<int>, base: Commit)
    requires Overtaken(w1, w2, queued, prs, base) && IsAncestor(w.target, w1.target)
    requires forall i :: 0 <= i < |prs| && prs[i] in w.prs ==> Unwritten(w, w1, prs[i])
    ensures Overtaken(w, w2, queued, prs, base)
  {
    hide IsAncestor;
    if IsAncestor(base, w.target) { AncestorTrans(base, w.target, w1.target); }
    if i :| 0 <= i < |prs| && Shifted(w1, w2, queued, prs[i]) {
      var n := prs[i];
      if n in w.prs && n in queued && IsAncestor(queued[n].head, w.prs[n].head) {
        AncestorTrans(queued[n].head, w.prs[n].head, w1.prs[n].head);
      }
      assert Shifted(w, w2, queued, prs[i]);
    }
  }

  /** And stays overtaken. */
  lemma OvertakenLater(w: World, w1: World, w2: World, queued: map<int, P.Queued>, prs: seq<int>, base: Commit)
    requires Overtaken(w, w1, queued, prs, base) && IsAncestor(w.target, w1.target) && IsAncestor(w1.target, w2.target)
    requires forall i :: 0 <= i < |prs| ==> Unwritten(w, w1, prs[i]) && Unwritten(w1, w2, prs[i])
    ensures Overtaken(w, w2, queued, prs, base)
  {
    hide IsAncestor;
    if w1.target != base && IsAncestor(base, w.target) { StaysAbove(base, w.target, w1.target, w2.target); }
    if i :| 0 <= i < |prs| && Shifted(w, w1, queued, prs[i]) {
      var n := prs[i];
      if n in queued && n in w.prs && IsAncestor(queued[n].head, w.prs[n].head) {
        StaysAbove(queued[n].head, w.prs[n].head, w1.prs[n].head, w2.prs[n].head);
      }
      assert Shifted(w, w2, queued, prs[i]);
    }
  }

  lemma StaysAbove(x: Commit, a: Commit, b: Commit, c: Commit)
    requires IsAncestor(x, a) && IsAncestor(a, b) && IsAncestor(b, c) && b != x
    ensures c != x
  {
    hide IsAncestor;
    AncestorTrans(x, a, b);
    if c == x { AncestorAntisym(x, b); }
  }

  /** Others acting before a group is settled, or a group beside it. */
  lemma SettledEarlier(w: World, w1: World, w2: World, queued: map<int, P.Queued>, outcome: Outcome, base: Commit,
                       others: seq<int>)
    requires Happened(w1, w2, queued, outcome, base) && Kept(w, w1, others)
    requires forall n :: n in outcome.Numbers() ==> n !in others
    ensures Happened(w, w2, queued, outcome, base)
  {
    hide StackWritten, Newer;
    forall n | n in outcome.Numbers() && Unwritten(w1, w2, n) ensures Unwritten(w, w2, n) {
      if n in w.prs {
        assert DisturbedAt(w, w1, n);
        AncestorTrans(w.prs[n].head, w1.prs[n].head, w2.prs[n].head);
      }
    }
  }

  lemma SettledLater(w: World, w1: World, w2: World, queued: map<int, P.Queued>, outcome: Outcome, base: Commit,
                     others: seq<int>)
    requires Happened(w, w1, queued, outcome, base) && Kept(w1, w2, others)
    requires forall n :: n in outcome.Numbers() ==> n !in others
    ensures Happened(w, w2, queued, outcome, base)
  {
    hide Newer;
    if outcome.Formed? {
      var stack :| StackWritten(w1, stack, outcome.prs, base);
      forall i | 0 <= i < |outcome.prs|
        ensures outcome.prs[i] in w2.prs && w2.prs[outcome.prs[i]].comment == w1.prs[outcome.prs[i]].comment
        ensures IsAncestor(stack.members[i].sha, w2.prs[outcome.prs[i]].head)
      {
        var n := outcome.prs[i];
        assert n in outcome.Numbers() && DisturbedAt(w1, w2, n);
        AncestorTrans(stack.members[i].sha, w1.prs[n].head, w2.prs[n].head);
      }
      assert StackWritten(w2, stack, outcome.prs, base);
    } else {
      forall n | n in outcome.Numbers() && n in w1.prs
        ensures n in w2.prs && w2.prs[n].comment == w1.prs[n].comment && (Unwritten(w, w1, n) ==> Unwritten(w, w2, n))
      {
        assert DisturbedAt(w1, w2, n);
        if n in w.prs && Unwritten(w, w1, n) { AncestorTrans(w.prs[n].head, w1.prs[n].head, w2.prs[n].head); }
      }
    }
  }

  lemma KeptNewer(w: World, w': World, prs: seq<int>)
    requires Kept(w, w', prs)
    ensures Newer(w, w')
  {
  }

  lemma ConcludedEarlier(w: World, w1: World, w2: World, queued: map<int, P.Queued>,
                         clash: (Commit, Commit, Commit) -> bool, outcome: Outcome, base: Commit, others: seq<int>)
    requires Concluded(w1, w2, queued, clash, outcome, base) && Kept(w, w1, others)
    requires forall n :: n in outcome.Numbers() ==> n !in others
    ensures Concluded(w, w2, queued, clash, outcome, base)
  {
    hide Happened, Overtaken;
    SettledEarlier(w, w1, w2, queued, outcome, base, others);
    if outcome.Deferred? {
      forall i | 0 <= i < |outcome.prs| && outcome.prs[i] in w.prs ensures Unwritten(w, w1, outcome.prs[i]) {
        assert outcome.prs[i] in outcome.Numbers() && DisturbedAt(w, w1, outcome.prs[i]);
      }
      OvertakenEarlier(w, w1, w2, queued, outcome.prs, base);
    }
  }

  lemma ConcludedLater(w: World, w1: World, w2: World, queued: map<int, P.Queued>,
                       clash: (Commit, Commit, Commit) -> bool, outcome: Outcome, base: Commit, others: seq<int>)
    requires Concluded(w, w1, queued, clash, outcome, base) && Kept(w1, w2, others) && Newer(w, w1)
    requires forall n :: n in outcome.Numbers() ==> n !in others
    ensures Concluded(w, w2, queued, clash, outcome, base)
  {
    hide Overtaken;
    SettledLater(w, w1, w2, queued, outcome, base, others);
    if outcome.Deferred? {
      forall i | 0 <= i < |outcome.prs| ensures Unwritten(w, w1, outcome.prs[i]) && Unwritten(w1, w2, outcome.prs[i]) {
        if outcome.prs[i] in w1.prs { assert outcome.prs[i] in outcome.Numbers() && DisturbedAt(w1, w2, outcome.prs[i]); }
      }
      OvertakenLater(w, w1, w2, queued, outcome.prs, base);
    }
  }

  lemma {:induction false} FlatHas(outcomes: seq<Outcome>, i: nat)
    requires i < |outcomes|
    ensures forall n :: n in outcomes[i].Numbers() ==> n in Flat(outcomes)
    decreases |outcomes|
  {
    var last := |outcomes| - 1;
    if i < last { FlatHas(outcomes[..last], i); }
  }

  lemma AllSettledEarlier(w: World, w1: World, w2: World, queued: map<int, P.Queued>,
                    clash: (Commit, Commit, Commit) -> bool, outcomes: seq<Outcome>,
                          base: Commit)
    requires Disturbed(w, w1)
    requires forall i :: 0 <= i < |outcomes| ==> Concluded(w1, w2, queued, clash, outcomes[i], base)
    ensures forall i :: 0 <= i < |outcomes| ==> Concluded(w, w2, queued, clash, outcomes[i], base)
  {
    hide Concluded, Disturbed, Kept;
    DisturbedKeeps(w, w1, []);
    forall i | 0 <= i < |outcomes| ensures Concluded(w, w2, queued, clash, outcomes[i], base) {
      ConcludedEarlier(w, w1, w2, queued, clash, outcomes[i], base, []);
    }
  }

  /** The front half's outcomes stand while the back half is formed. */
  lemma AllSettledLater(w: World, w1: World, w2: World, queued: map<int, P.Queued>,
                    clash: (Commit, Commit, Commit) -> bool, outcomes: seq<Outcome>,
                        base: Commit, front: seq<int>, back: seq<int>)
    requires Kept(w1, w2, back) && Kept(w, w1, front) && Flat(outcomes) <= front
    requires forall i, j :: 0 <= i < |front| && 0 <= j < |back| ==> front[i] != back[j]
    requires forall i :: 0 <= i < |outcomes| ==> Concluded(w, w1, queued, clash, outcomes[i], base)
    ensures forall i :: 0 <= i < |outcomes| ==> Concluded(w, w2, queued, clash, outcomes[i], base)
  {
    hide Concluded, Flat, Kept;
    forall i | 0 <= i < |outcomes| ensures Concluded(w, w2, queued, clash, outcomes[i], base) {
      FlatHas(outcomes, i);
      KeptNewer(w, w1, front);
      ConcludedLater(w, w1, w2, queued, clash, outcomes[i], base, back);
    }
  }

  lemma AllSettledAfter(w: World, w1: World, w2: World, queued: map<int, P.Queued>,
                    clash: (Commit, Commit, Commit) -> bool, outcomes: seq<Outcome>,
                        base: Commit, front: seq<int>, back: seq<int>)
    requires Kept(w, w1, front) && Flat(outcomes) <= back
    requires forall i, j :: 0 <= i < |front| && 0 <= j < |back| ==> front[i] != back[j]
    requires forall i :: 0 <= i < |outcomes| ==> Concluded(w1, w2, queued, clash, outcomes[i], base)
    ensures forall i :: 0 <= i < |outcomes| ==> Concluded(w, w2, queued, clash, outcomes[i], base)
  {
    hide Concluded, Flat, Kept;
    forall i | 0 <= i < |outcomes| ensures Concluded(w, w2, queued, clash, outcomes[i], base) {
      FlatHas(outcomes, i);
      ConcludedEarlier(w, w1, w2, queued, clash, outcomes[i], base, front);
    }
  }

  // ---- a retried stack ----

  /** What member i's comment says once the stack is retried: the stack, and
      one older record beside its own. */
  function RetriedComment(queued: map<int, P.Queued>, again: Stack, i: nat): Comment
    requires i < |again.members| && again.members[i].number in queued
  {
    StackComment(again, i, KeepOwns(queued[again.members[i].number].owns, StackOwn(again, i)))
  }

  /** The first n members' comments say so. */
  ghost predicate RetriedTo(w: World, w': World, queued: map<int, P.Queued>, again: Stack, n: nat)
    requires n <= |again.members|
  {
    && w'.seen == w.seen
    && forall i :: 0 <= i < |again.members| ==>
         var m := again.members[i].number;
         && m in queued && m in w.prs && m in w'.prs
         && w'.prs[m].comment == if i < n then RetriedComment(queued, again, i) else w.prs[m].comment
  }

  lemma RetriedDisturbed(w: World, w1: World, w2: World, queued: map<int, P.Queued>, again: Stack, n: nat)
    requires n <= |again.members| && RetriedTo(w, w1, queued, again, n) && Disturbed(w1, w2)
    ensures RetriedTo(w, w2, queued, again, n)
  {
    hide Newer, RetriedComment;
    forall i | 0 <= i < |again.members|
      ensures again.members[i].number in w1.prs && DisturbedAt(w1, w2, again.members[i].number)
    {}
  }

  lemma RetriedGrows(w: World, w1: World, queued: map<int, P.Queued>, again: Stack, i: nat)
    requires i < |again.members| && RetriedTo(w, w1, queued, again, i) && Distinct(again.Numbers())
    ensures RetriedTo(w, WithComment(w1, again.members[i].number, RetriedComment(queued, again, i)), queued, again, i + 1)
  {
    hide RetriedComment;
    forall k | 0 <= k < |again.members| && k != i ensures again.members[k].number != again.members[i].number {
      assert again.Numbers()[k] == again.members[k].number && again.Numbers()[i] == again.members[i].number;
    }
  }

  lemma RetriedFits(w: World, queued: map<int, P.Queued>, again: Stack, i: nat)
    requires Chain(w, again) && Listed(w, queued) && i < |again.members| && again.members[i].number in queued
    ensures CommentFits(w, again.members[i].number, RetriedComment(queued, again, i))
  {
    hide Chain, CommentFits, OwnsFit, StackComment;
    KeepFits(queued[again.members[i].number].owns, StackOwn(again, i), w.nextId);
    StackCommentFits(w, again, i, KeepOwns(queued[again.members[i].number].owns, StackOwn(again, i)));
  }

  /** While the stack is in flight and the records are as the snapshot read
      them, writing that comment is the machine's own step. */
  lemma RetryOne(w: World, queued: map<int, P.Queued>, stack: Stack, i: nat, at: int)
    requires i < |stack.members| && w.job.None? && InFlight(w, stack)
    requires var n := stack.members[i].number; n in queued && queued[n].owns == w.prs[n].comment.owns
    ensures Enabled(w, Retry(stack.Top().number, i, at))
    ensures var again, n := stack.(retry := 1, at := at), stack.members[i].number;
            var w2 := WithComment(w, n, RetriedComment(queued, again, i));
            && Next(w, Retry(stack.Top().number, i, at)) == w2
            && (i + 1 < |stack.members| ==> InFlight(w2, stack))
  {
    hide IsAncestor;
    var again, n := stack.(retry := 1, at := at), stack.members[i].number;
    assert StackOwn(again, i) == StackOwn(stack, i);
    assert stack.Numbers()[i] == n;
    if i + 1 < |stack.members| { assert stack.Numbers()[|stack.members| - 1] == stack.Top().number; }
  }

  lemma RetryStarts(w: World, queued: map<int, P.Queued>, again: Stack)
    requires Chain(w, again) && Listed(w, queued)
    requires forall i :: 0 <= i < |again.Numbers()| ==> again.Numbers()[i] in queued
    ensures again.members != [] && RetriedTo(w, w, queued, again, 0) && T.RetryAll(w, again, 0) == w
  {
    forall i | 0 <= i < |again.members| ensures again.members[i].number in queued {
      assert again.Numbers()[i] == again.members[i].number;
    }
  }

  lemma RetryIsFine(f: Fine, before: World, queued: map<int, P.Queued>, stack: Stack, again: Stack, i: nat)
    requires InFlight(f.world, stack) && f.world.job.None? && again == stack.(retry := 1, at := again.at)
    requires i < |again.members| && RetriedTo(before, f.world, queued, again, i) && Known(before, queued, again.Numbers())
    requires forall k :: 0 <= k < |again.Numbers()| ==> again.Numbers()[k] !in f.untold
    ensures var step, n := Plainly(Retry(again.Top().number, i, again.at)), again.members[i].number;
            && n in f.world.prs && n in queued && FineEnabled(f, step)
            && FineNext(f, step) == f.(world := WithComment(f.world, n, RetriedComment(queued, again, i)))
            && (i + 1 < |again.members| ==>
                  InFlight(WithComment(f.world, n, RetriedComment(queued, again, i)), stack))
  {
    hide InFlight, RetriedComment;
    var n := again.members[i].number;
    assert again.Numbers()[i] == n && again.Numbers()[|again.members| - 1] == again.Top().number;
    assert f.world.prs[n].comment == before.prs[n].comment;
    InFlightMarks(f.world, stack);
    RetryOne(f.world, queued, stack, i, again.at);
  }

  lemma RetryGrows(w: World, queued: map<int, P.Queued>, again: Stack, i: nat)
    requires i < |again.members| && RetriedTo(w, T.RetryAll(w, again, i), queued, again, i)
    requires Known(w, queued, again.Numbers())
    ensures T.RetryAll(w, again, i + 1) ==
            WithComment(T.RetryAll(w, again, i), again.members[i].number, RetriedComment(queued, again, i))
  {
    assert again.Numbers()[i] == again.members[i].number;
  }

  lemma Unlabelled(w: World, n: int)
    requires n in w.prs
    ensures Enabled(w, SetLabel(n, false)) && Next(w, SetLabel(n, false)) == T.Unlabel(w, n)
    ensures var w' := T.Unlabel(w, n);
            && Kept(w, w', [n]) && OnlyGrew(w, w') && n in w'.prs && w'.job == w.job
            && w'.prs[n].comment == w.prs[n].comment && (w'.prs[n].AlreadyLanded() ==> w.prs[n].AlreadyLanded())
            && !w'.prs[n].labelled
  {
    hide Newer;
    SameNewer(w, T.Unlabel(w, n));
  }

  lemma DisturbedOne(w: World, w': World, n: int)
    requires Disturbed(w, w') && n in w.prs
    ensures w'.job == w.job && n in w'.prs && w'.prs[n].comment == w.prs[n].comment
    ensures (w'.prs[n].AlreadyLanded() ==> w.prs[n].AlreadyLanded())
  {
    assert DisturbedAt(w, w', n);
  }

  lemma PlainIsFine(f: Fine, queued: map<int, P.Queued>, n: int)
    requires f.world.job.None? && n in f.world.prs && n in queued && n !in f.untold && !f.world.prs[n].AlreadyLanded()
    requires queued[n].owns == f.world.prs[n].comment.owns
    ensures FineEnabled(f, Plainly(Plain(n)))
    ensures FineNext(f, Plainly(Plain(n))) == f.(world := WithComment(f.world, n, PlainComment(queued[n].owns)))
  {
  }

  lemma LaterRelabel(a: seq<FineStep>, b: seq<FineStep>, from: nat, n: int)
    requires a <= b && from <= |a|
    ensures Relabel(n) in a[from..] ==> Relabel(n) in b[from..]
  {
    if i :| 0 <= i < |a[from..]| && a[from..][i] == Relabel(n) { assert b[from..][i] == a[from..][i]; }
  }

  lemma RejectedSettled(w: World, w': World, queued: map<int, P.Queued>, n: int)
    requires n in queued && n in w'.prs && OnlyGrew(w, w') && w'.prs[n].comment == PlainComment(queued[n].owns)
    ensures Happened(w, w', queued, Rejected(n), w'.seen)
  {
  }

  // ---- comments that say where a pull request stands ----

  /** The comment is as the snapshot read it, or already says so. */
  ghost predicate Speakable(f: Fine, queued: map<int, P.Queued>, n: int)
    requires n in queued
  {
    && n in f.world.prs && queued[n].owns == f.world.prs[n].comment.owns
    && (n in f.untold ==> f.world.prs[n].comment == PlainComment([]))
  }

  /** Only prs were told anything: who could be told still can, and who became
      untold had landed. */
  ghost predicate Spoken(f: Fine, g: Fine, queued: map<int, P.Queued>, prs: seq<int>) {
    && (forall n :: n in queued && Speakable(f, queued, n) ==> Speakable(g, queued, n))
    && (forall q :: q in f.untold ==> q in g.untold && g.untold[q] == f.untold[q])
    && (forall q :: q in g.untold && q !in f.untold ==>
          q in prs && q in queued && (q in f.world.prs ==> f.world.prs[q].AlreadyLanded()))
    && (forall q :: q in f.world.prs ==>
          q in g.world.prs && (g.world.prs[q].AlreadyLanded() ==> f.world.prs[q].AlreadyLanded()))
  }

  /** Untold outside ns is as it was. */
  ghost predicate UntoldOutside(f: Fine, g: Fine, ns: seq<int>) {
    forall q :: q !in ns ==> (q in g.untold <==> q in f.untold) && (q in g.untold ==> g.untold[q] == f.untold[q])
  }

  lemma StillSpoken(f: Fine, queued: map<int, P.Queued>, prs: seq<int>)
    ensures Spoken(f, f, queued, prs)
  {
  }

  lemma DisturbedSpeakable(f: Fine, g: Fine, queued: map<int, P.Queued>, n: int)
    requires Disturbed(f.world, g.world) && g.untold == f.untold && n in queued && Speakable(f, queued, n)
    ensures Speakable(g, queued, n)
  {
    assert DisturbedAt(f.world, g.world, n);
  }

  lemma DisturbedSpoken(f: Fine, g: Fine, queued: map<int, P.Queued>, prs: seq<int>)
    requires Disturbed(f.world, g.world) && g.untold == f.untold
    ensures Spoken(f, g, queued, prs)
  {
    forall n | n in queued && Speakable(f, queued, n) ensures Speakable(g, queued, n) { DisturbedSpeakable(f, g, queued, n); }
    forall q | q in f.world.prs
      ensures q in g.world.prs && (g.world.prs[q].AlreadyLanded() ==> f.world.prs[q].AlreadyLanded())
    {
      assert DisturbedAt(f.world, g.world, q);
    }
  }

  ghost predicate AllSpeakable(f: Fine, queued: map<int, P.Queued>, prs: seq<int>) {
    forall i :: 0 <= i < |prs| && prs[i] in queued ==> Speakable(f, queued, prs[i])
  }

  lemma SpokenAll(f: Fine, g: Fine, queued: map<int, P.Queued>, prs: seq<int>)
    requires AllSpeakable(f, queued, prs) && Spoken(f, g, queued, prs)
    ensures AllSpeakable(g, queued, prs)
  {
    hide Speakable;
  }

  lemma OneSpeaks(f: Fine, queued: map<int, P.Queued>, prs: seq<int>, n: int)
    requires AllSpeakable(f, queued, prs) && n in prs && n in queued
    ensures Speakable(f, queued, n)
  {
    hide Speakable;
  }

  lemma StillSpeaks(f: Fine, g: Fine, queued: map<int, P.Queued>, n: int)
    requires Disturbed(f.world, g.world) && g.untold == f.untold && n in queued && Speakable(f, queued, n)
    ensures Speakable(g, queued, n) && Spoken(f, g, queued, [n])
  {
    DisturbedSpeakable(f, g, queued, n);
    DisturbedSpoken(f, g, queued, [n]);
  }

  lemma FineShape(f: Fine, steps: seq<FineStep>, g: Fine)
    requires FineInv(f) && g == FineAfter(f, steps)
    ensures LandedShape(g.world)
  {
    hide Inv, Outdated, FineAfter;
    FineAfterKept(f, steps);
  }

  lemma SpokenTrans(f: Fine, g: Fine, h: Fine, queued: map<int, P.Queued>, prs: seq<int>)
    requires Spoken(f, g, queued, prs) && Spoken(g, h, queued, prs)
    ensures Spoken(f, h, queued, prs)
  {
    hide Speakable;
  }

  /** What one such comment does. */
  lemma Said(f: Fine, g: Fine, queued: map<int, P.Queued>, n: int)
    requires LandedShape(f.world) && n in queued && Speakable(f, queued, n) && Listed(f.world, queued)
    requires g.world == WithComment(f.world, n, PlainComment(queued[n].owns))
    requires g.untold ==
             if f.world.prs[n].AlreadyLanded() && n !in f.untold then f.untold[n := f.world.prs[n].head] else f.untold
    ensures Spoken(f, g, queued, [n])
  {
  }

  lemma OneOfMany(f: Fine, g: Fine, queued: map<int, P.Queued>, prs: seq<int>, n: int)
    requires Kept(f.world, g.world, [n]) && n in prs
    ensures Kept(f.world, g.world, prs) && (Spoken(f, g, queued, [n]) ==> Spoken(f, g, queued, prs))
  {
    hide Newer;
    forall q | q in f.world.prs && q !in prs ensures DisturbedAt(f.world, g.world, q) { assert q !in [n]; }
  }

  /** The first n of prs that are queued were told. */
  ghost predicate ToldPlain(w: World, queued: map<int, P.Queued>, prs: seq<int>, n: nat) {
    forall k :: 0 <= k < n && k < |prs| && prs[k] in queued ==>
      prs[k] in w.prs && w.prs[prs[k]].comment == PlainComment(queued[prs[k]].owns)
  }

  lemma ToldPlainNext(w: World, queued: map<int, P.Queued>, prs: seq<int>, i: nat)
    requires ToldPlain(w, queued, prs, i) && i < |prs|
    requires prs[i] in queued ==> prs[i] in w.prs && w.prs[prs[i]].comment == PlainComment(queued[prs[i]].owns)
    ensures ToldPlain(w, queued, prs, i + 1)
  {
  }

  lemma StillPlain(w: World, w': World, queued: map<int, P.Queued>, prs: seq<int>, i: nat)
    requires i < |prs| && prs[i] in queued && Kept(w, w', [prs[i]]) && ToldPlain(w, queued, prs, i)
    requires prs[i] in w'.prs && w'.prs[prs[i]].comment == PlainComment(queued[prs[i]].owns)
    ensures ToldPlain(w', queued, prs, i)
  {
    hide Newer;
    forall k | 0 <= k < i && prs[k] in queued && prs[k] != prs[i]
      ensures prs[k] in w'.prs && w'.prs[prs[k]].comment == w.prs[prs[k]].comment
    {
      assert prs[k] !in [prs[i]] && DisturbedAt(w, w', prs[k]);
    }
  }

  /** The snapshot lists the labelled ones among prs, with the records they
      have. */
  ghost predicate LabelsKnown(w: World, queued: map<int, P.Queued>, prs: seq<int>) {
    forall i :: 0 <= i < |prs| ==>
      && (prs[i] in queued <==> prs[i] in w.prs && w.prs[prs[i]].labelled)
      && (prs[i] in queued ==> queued[prs[i]].owns == w.prs[prs[i]].comment.owns)
  }

  lemma NobodyTold(w: World, queued: map<int, P.Queued>, prs: seq<int>)
    ensures T.TellAll(w, prs[..0]) == w && ToldPlain(w, queued, prs, 0)
  {
  }

  lemma TellAllGrows(w: World, before: World, queued: map<int, P.Queued>, prs: seq<int>, i: nat)
    requires i < |prs| && before == T.TellAll(w, prs[..i]) && LabelsKnown(before, queued, prs) && Listed(before, queued)
    ensures T.TellAll(w, prs[..i + 1]) ==
            if prs[i] in queued then WithComment(before, prs[i], PlainComment(queued[prs[i]].owns)) else before
    ensures LabelsKnown(T.TellAll(w, prs[..i + 1]), queued, prs)
  {
    assert prs[..i + 1][..i] == prs[..i];
  }

  lemma PushedNone(w: World)
    requires Enabled(w, Step.Push)
    ensures Next(w, Step.Push).job.None?
  {
  }
}
