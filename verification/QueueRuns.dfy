/**
 The queue's machine with landings taken apart. The target moves first, then
 the members are told one by one; others act in between, and a tick may die
 there. A pull request is untold from the moment its commits reached the target
 until its comment says so, and again when a later comment erases that record.
 With the untold comments filled in, every run is a run of the machine whose
 landings are one step.
 */
module QueueRuns {
  import opened Options
  import opened Git
  import opened Queue
  import opened QueueWorld
  import opened QueueSafety
  import opened QueueStacks
  import opened QueueLanding
  import opened QueueRebase

  /** untold: the commit at which a pull request landed, where its comment does
      not say so. */
  datatype Fine = Fine(world: World, untold: map<int, Commit>)

  datatype FineStep =
    | Plainly(step: Step)        // a step that lands nothing
    | Forward(top: int)          // the target takes a stack
    | TellLanded(p: int)         // one member is told
    | Forget(p: int)             // a comment that erases a landed record
    | Recall(p: int)             // nobody writes: its author's pushes made that comment right

  function LandedAt(sha: Commit): Comment {
    Comment([], None, Some(sha))
  }

  function SettledPr(f: Fine, q: int): PullRequest
    requires q in f.world.prs
  {
    if q in f.untold then f.world.prs[q].(comment := LandedAt(f.untold[q])) else f.world.prs[q]
  }

  /** The world once every landed pull request has been told. */
  function Settled(f: Fine): World {
    f.world.(prs := map q | q in f.world.prs :: SettledPr(f, q))
  }

  function Untold(stack: Stack, untold: map<int, Commit>): map<int, Commit> {
    map q | q in untold.Keys + (set i | 0 <= i < |stack.members| :: stack.members[i].number) ::
      var i := IndexOf(stack.members, q);
      if i >= 0 then stack.members[i].sha else if q in untold then untold[q] else Root
  }

  /** No untold pull request is stacked, told anything else, or the top of a
      stack that lands. */
  predicate Careful(f: Fine, step: Step) {
    match step
    case Begin(ns, _) => forall i :: 0 <= i < |ns| ==> ns[i] !in f.untold
    case Plain(p) => p !in f.untold
    case Retry(top, index, _) =>
      && top !in f.untold && Marked(f.world, top) && index < |f.world.prs[top].comment.stack.value.members|
      && f.world.prs[top].comment.stack.value.members[index].number !in f.untold
    case Advance(_) => false
    case _ => true
  }

  /** Its landed record was erased, and its author has pushed since: a comment
      without records describes the branch. */
  predicate Recallable(f: Fine, p: int) {
    && p in f.untold && p in f.world.prs
    && f.world.prs[p].comment == PlainComment([]) && f.world.prs[p].head != f.untold[p]
  }

  /** What is left once some are recalled. */
  ghost predicate Recalls(f: Fine, g: Fine) {
    && g.world == f.world && (forall p :: p in g.untold ==> p in f.untold && g.untold[p] == f.untold[p])
    && forall p :: p in f.untold && p !in g.untold ==> Recallable(f, p)
  }

  lemma SameFine(f: Fine, g: Fine)
    requires g.world == f.world && forall p :: p in g.untold ==> p in f.untold && g.untold[p] == f.untold[p]
    requires forall p :: p in f.untold ==> p in g.untold
    ensures f == g
  {
    forall p | p in g.untold ensures p in f.untold && g.untold[p] == f.untold[p] {}
    forall p | p in f.untold ensures p in g.untold {}
    assert f.untold == g.untold;
  }

  predicate FineEnabled(f: Fine, s: FineStep) {
    match s
    case Plainly(step) => Enabled(f.world, step) && Careful(f, step)
    case Forward(top) => Enabled(f.world, Advance(top)) && top !in f.untold
    case TellLanded(p) => p in f.untold && p in f.world.prs
    case Forget(p) => f.world.job.None? && p in f.world.prs && p !in f.untold && f.world.prs[p].AlreadyLanded()
    case Recall(p) => f.world.job.None? && Recallable(f, p)
  }

  function FineNext(f: Fine, s: FineStep): Fine
    requires FineEnabled(f, s)
  {
    match s
    case Plainly(step) => f.(world := Next(f.world, step))
    case Forward(top) =>
      var stack := f.world.prs[top].comment.stack.value;
      Fine(f.world.(target := stack.Top().sha, seen := stack.Top().sha), Untold(stack, f.untold))
    case TellLanded(p) => Fine(WithComment(f.world, p, LandedAt(f.untold[p])), f.untold - {p})
    case Forget(p) =>
      Fine(WithComment(f.world, p, PlainComment(f.world.prs[p].comment.owns)), f.untold[p := f.world.prs[p].head])
    case Recall(p) => f.(untold := f.untold - {p})
  }

  // ---- what every run keeps ----

  /** A comment that names a landing names nothing else. */
  predicate LandedShape(w: World) {
    forall q :: q in w.prs && w.prs[q].comment.landed.Some? ==>
      w.prs[q].comment == LandedAt(w.prs[q].comment.landed.value)
  }

  predicate JobTold(f: Fine) {
    f.world.job.Some? ==>
      forall i :: 0 <= i < |f.world.job.value.stack.members| ==> f.world.job.value.stack.members[i].number !in f.untold
  }

  /** The record that describes an untold branch takes landed commits for the
      pull request's own. */
  ghost predicate Outdated(f: Fine, p: int)
    requires p in f.world.prs
  {
    var pr := f.world.prs[p];
    Chosen(pr.comment.owns, pr.head).Some? ==>
      exists from: nat :: TooMany(pr, p, from, Git.Landed(p, f.world.target))
  }

  predicate TooMany(pr: PullRequest, p: int, from: nat, landed: nat) {
    && from < landed && from <= pr.written && Chosen(pr.comment.owns, pr.head).Some?
    && Range(Chosen(pr.comment.owns, pr.head).value.upstream, pr.head) == Seg(p, from, pr.written)
  }

  ghost predicate FineInv(f: Fine) {
    && Inv(Settled(f)) && Bounded(f.world) && f.untold.Keys <= f.world.prs.Keys
    && LandedShape(f.world) && JobTold(f)
    && forall p :: p in f.untold ==> Outdated(f, p) && Based(f.world, p)
  }

  /** A marker is on its own top, and its stack was built on a commit of the
      target. */
  ghost predicate Based(w: World, p: int)
    requires p in w.prs
  {
    w.prs[p].comment.stack.Some? ==>
      && Marked(w, p) && IsAncestor(w.prs[p].comment.stack.value.base, w.target)
      && Chain(w, w.prs[p].comment.stack.value)
  }

  /** Every marker there is, untold or not. */
  lemma AllBased(f: Fine, p: int)
    requires FineInv(f) && p in f.world.prs
    ensures Based(f.world, p)
  {
    SettledSame(f);
    if p !in f.untold && f.world.prs[p].comment.stack.Some? {
      assert Settled(f).prs[p] == f.world.prs[p] && Marked(Settled(f), p);
      KeptChain(Settled(f), f.world.prs[p].comment.stack.value);
    }
  }

  lemma KeptChain(w: World, stack: Stack)
    requires StackKept(w, stack)
    ensures Chain(w, stack)
  {
    ExactLinked(stack);
  }

  lemma TargetGrows(f: Fine, s: FineStep)
    requires FineEnabled(f, s)
    ensures IsAncestor(f.world.target, FineNext(f, s).world.target)
  {
    hide Build, Commits;
  }

  lemma BasedKept(f: Fine, s: FineStep, p: int)
    requires FineInv(f) && FineEnabled(f, s) && p in FineNext(f, s).untold && p in FineNext(f, s).world.prs
    ensures Based(FineNext(f, s).world, p)
  {
    hide Inv, Settled, Outdated, Bounded, LandedShape, IsAncestor, FineNext, FineEnabled, Linked;
    UntoldComment(f, s, p);
    TargetGrows(f, s);
    NextGrows(f, s);
    AllBased(f, p);
    if f.world.prs[p].comment.stack.Some? {
      BelowMono(f.world.prs[p].comment.stack.value.Top().sha, f.world.nextId, FineNext(f, s).world.nextId);
      AncestorTrans(f.world.prs[p].comment.stack.value.base, f.world.target, FineNext(f, s).world.target);
    }
  }

  /** Steps the queue does not take. */
  predicate ByOthers(step: Step) {
    step.Open? || step.Append? || step.PushTarget? || step.SetLabel? || step.SetEntry?
  }

  // ---- every step is a step of the machine, or none ----

  lemma SettledSame(f: Fine)
    ensures Settled(f) == f.world.(prs := Settled(f).prs) && Settled(f).prs.Keys == f.world.prs.Keys
    ensures forall q :: q in f.world.prs ==> Settled(f).prs[q] == f.world.prs[q].(comment := Settled(f).prs[q].comment)
    ensures f.untold == map[] ==> Settled(f) == f.world
  {
    if f.untold == map[] { assert Settled(f).prs == f.world.prs; }
  }

  lemma BeginSame(f: Fine, ns: seq<int>, at: int)
    requires Enabled(f.world, Begin(ns, at)) && Careful(f, Begin(ns, at))
    ensures Enabled(Settled(f), Begin(ns, at)) && NewJob(Settled(f), ns, at) == NewJob(f.world, ns, at)
    ensures Settled(FineNext(f, Plainly(Begin(ns, at)))) == Next(Settled(f), Begin(ns, at))
  {
    hide Build, Commits, Used;
    var w, v := f.world, Settled(f);
    forall i | 0 <= i < |ns| ensures ns[i] in v.prs && v.prs[ns[i]] == w.prs[ns[i]] {}
    NewJobSame(w, v, ns, at);
    assert Settled(FineNext(f, Plainly(Begin(ns, at)))).prs == v.prs;
  }

  lemma SettledIs(f: Fine, v: World)
    requires v == f.world.(prs := v.prs) && v.prs.Keys == f.world.prs.Keys
    requires forall q :: q in f.world.prs ==> v.prs[q] == SettledPr(f, q)
    ensures Settled(f) == v
  {
    assert Settled(f).prs == v.prs;
  }

  /** Steps by others, and those of a tick that write no comment. */
  lemma QuietSame(f: Fine, step: Step)
    requires Enabled(f.world, step) && f.untold.Keys <= f.world.prs.Keys
    requires step.Append? || step.PushTarget? || step.SetLabel? || step.SetEntry? || step.Look? || step.Drop?
    ensures Enabled(Settled(f), step) && Settled(FineNext(f, Plainly(step))) == Next(Settled(f), step)
  {
    SettledIs(FineNext(f, Plainly(step)), Next(Settled(f), step));
  }

  lemma OpenSame(f: Fine, step: Step)
    requires Enabled(f.world, step) && f.untold.Keys <= f.world.prs.Keys && step.Open?
    ensures Enabled(Settled(f), step) && Settled(FineNext(f, Plainly(step))) == Next(Settled(f), step)
  {
    SettledIs(FineNext(f, Plainly(step)), Next(Settled(f), step));
  }

  lemma PushSame(f: Fine)
    requires Enabled(f.world, Step.Push)
    ensures Enabled(Settled(f), Step.Push) && Settled(FineNext(f, Plainly(Step.Push))) == Next(Settled(f), Step.Push)
  {
    SettledIs(FineNext(f, Plainly(Step.Push)), Next(Settled(f), Step.Push));
  }

  lemma WriteSame(f: Fine)
    requires Enabled(f.world, WriteNext) && JobTold(f)
    ensures Enabled(Settled(f), WriteNext) && Settled(FineNext(f, Plainly(WriteNext))) == Next(Settled(f), WriteNext)
  {
    SettledIs(FineNext(f, Plainly(WriteNext)), Next(Settled(f), WriteNext));
  }

  lemma CommentSame(f: Fine, step: Step)
    requires Enabled(f.world, step) && Careful(f, step) && (step.Plain? || step.Retry?)
    ensures Enabled(Settled(f), step) && Settled(FineNext(f, Plainly(step))) == Next(Settled(f), step)
  {
    SettledIs(FineNext(f, Plainly(step)), Next(Settled(f), step));
  }

  lemma ForwardSame(f: Fine, top: int)
    requires FineEnabled(f, Forward(top))
    ensures Enabled(Settled(f), Advance(top)) && Settled(FineNext(f, Forward(top))) == Next(Settled(f), Advance(top))
  {
    var stack := f.world.prs[top].comment.stack.value;
    assert Settled(f).prs[top] == f.world.prs[top];
    var g, v := FineNext(f, Forward(top)), Next(Settled(f), Advance(top));
    forall q | q in f.world.prs ensures v.prs[q] == SettledPr(g, q) {
      UntoldAt(stack, f.untold, q);
    }
    SettledIs(g, v);
  }

  lemma UntoldAt(stack: Stack, untold: map<int, Commit>, q: int)
    ensures var i := IndexOf(stack.members, q);
            && (q in Untold(stack, untold) <==> q in untold || i >= 0)
            && (q in Untold(stack, untold) ==>
                  Untold(stack, untold)[q] == if i >= 0 then stack.members[i].sha else untold[q])
  {
    var i := IndexOf(stack.members, q);
    if i >= 0 { assert stack.members[i].number == q; }
  }

  lemma TellSame(f: Fine, p: int)
    requires FineEnabled(f, TellLanded(p))
    ensures Settled(FineNext(f, TellLanded(p))) == Settled(f)
  {
    assert Settled(FineNext(f, TellLanded(p))).prs == Settled(f).prs;
  }

  lemma ForgetSame(f: Fine, p: int)
    requires FineEnabled(f, Forget(p)) && LandedShape(f.world)
    ensures Settled(FineNext(f, Forget(p))) == Settled(f)
  {
    assert Settled(FineNext(f, Forget(p))).prs == Settled(f).prs;
  }

  /** A right comment without records is what a plain one would have left. */
  lemma RecallSame(f: Fine, p: int)
    requires FineEnabled(f, Recall(p))
    ensures Enabled(Settled(f), Plain(p)) && Settled(FineNext(f, Recall(p))) == Next(Settled(f), Plain(p))
  {
    SettledIs(FineNext(f, Recall(p)), Next(Settled(f), Plain(p)));
  }

  /** The step of the machine a step stands for, if it is one. */
  function Coarse(s: FineStep): Option<Step> {
    match s
    case Plainly(step) => Some(step)
    case Forward(top) => Some(Advance(top))
    case Recall(p) => Some(Plain(p))
    case _ => None
  }

  /** Every step is the machine's own step on the settled world, or leaves it
      as it is. */
  lemma StepRefines(f: Fine, s: FineStep)
    requires FineInv(f) && FineEnabled(f, s)
    ensures match Coarse(s)
            case None => Settled(FineNext(f, s)) == Settled(f)
            case Some(step) => Enabled(Settled(f), step) && Settled(FineNext(f, s)) == Next(Settled(f), step)
  {
    hide Inv, Enabled, Next, Settled, Bounded;
    match s {
      case Plainly(step) =>
        if step.Begin? {
          BeginSame(f, step.ns, step.at);
        } else if step.Plain? || step.Retry? {
          CommentSame(f, step);
        } else if step.WriteNext? {
          WriteSame(f);
        } else if step.Open? {
          OpenSame(f, step);
        } else if step.Push? {
          PushSame(f);
        } else {
          QuietSame(f, step);
        }
      case Forward(top) => ForwardSame(f, top);
      case TellLanded(p) => TellSame(f, p);
      case Forget(p) => ForgetSame(f, p);
      case Recall(p) => RecallSame(f, p);
    }
  }

  // ---- what is kept of the comments as they are ----

  lemma BoundedKept(f: Fine, s: FineStep)
    requires FineInv(f) && FineEnabled(f, s) && Bounded(Settled(FineNext(f, s)))
    ensures Bounded(FineNext(f, s).world) && FineNext(f, s).untold.Keys <= FineNext(f, s).world.prs.Keys
  {
    hide Inv, Settled, Outdated, Git.Below, IsAncestor, FineNext, FineEnabled, LandedShape, Based;
    var g := FineNext(f, s);
    SettledSame(g);
    UntoldThere(f, s);
    forall q | q in g.world.prs
      ensures |g.world.prs[q].comment.owns| <= MAX_OWNS
      ensures g.world.prs[q].comment.landed.Some? ==> Git.Below(g.world.prs[q].comment.landed.value, g.world.nextId)
      ensures forall own :: own in g.world.prs[q].comment.owns ==> Git.Below(own.head, g.world.nextId)
    {
      CommentBounded(f, s, q);
    }
  }

  lemma UntoldThere(f: Fine, s: FineStep)
    requires FineInv(f) && FineEnabled(f, s)
    ensures FineNext(f, s).untold.Keys <= FineNext(f, s).world.prs.Keys
  {
    hide Inv, Settled, Outdated, Bounded;
    NextGrows(f, s);
    forall q | q in FineNext(f, s).untold ensures q in FineNext(f, s).world.prs {
      if s.Forward? { ForwardMembers(f, s.top, q); }
    }
  }

  lemma ForwardMembers(f: Fine, top: int, q: int)
    requires FineEnabled(f, Forward(top)) && f.untold.Keys <= f.world.prs.Keys && q in FineNext(f, Forward(top)).untold
    ensures q in f.world.prs
  {
    UntoldAt(f.world.prs[top].comment.stack.value, f.untold, q);
  }

  lemma NextGrows(f: Fine, s: FineStep)
    requires FineEnabled(f, s)
    ensures f.world.nextId <= FineNext(f, s).world.nextId && f.world.prs.Keys <= FineNext(f, s).world.prs.Keys
  {
    hide Commits;
  }

  lemma CommentBounded(f: Fine, s: FineStep, q: int)
    requires FineEnabled(f, s) && Bounded(f.world) && Bounded(Settled(FineNext(f, s))) && q in FineNext(f, s).world.prs
    requires JobTold(f)
    requires f.untold.Keys <= f.world.prs.Keys
    ensures var comment, id := FineNext(f, s).world.prs[q].comment, FineNext(f, s).world.nextId;
            && |comment.owns| <= MAX_OWNS && (comment.landed.Some? ==> Git.Below(comment.landed.value, id))
            && forall own :: own in comment.owns ==> Git.Below(own.head, id)
  {
    hide Git.Below, IsAncestor;
    var g := FineNext(f, s);
    NextGrows(f, s);
    if q in g.untold {
      UntoldComment(f, s, q);
      var before := f.world.prs[q].comment;
      if before.landed.Some? { BelowMono(before.landed.value, f.world.nextId, g.world.nextId); }
      forall own | own in before.owns ensures Git.Below(own.head, g.world.nextId) {
        BelowMono(own.head, f.world.nextId, g.world.nextId);
      }
    } else {
      assert Settled(g).prs[q] == g.world.prs[q];
    }
  }

  /** What an untold comment is: what it was, or a landed record erased. */
  lemma UntoldComment(f: Fine, s: FineStep, q: int)
    requires FineEnabled(f, s) && JobTold(f) && q in FineNext(f, s).untold && q in FineNext(f, s).world.prs
    requires f.untold.Keys <= f.world.prs.Keys
    ensures q in f.world.prs
    ensures FineNext(f, s).world.prs[q].comment ==
            if s == Forget(q) then PlainComment(f.world.prs[q].comment.owns) else f.world.prs[q].comment
  {
    if s.Forward? {
      UntoldAt(f.world.prs[s.top].comment.stack.value, f.untold, q);
    }
  }

  lemma ShapeKept(f: Fine, s: FineStep)
    requires FineEnabled(f, s) && LandedShape(f.world) && JobTold(f)
    ensures LandedShape(FineNext(f, s).world) && JobTold(FineNext(f, s))
  {
    hide Build, Commits;
    var g := FineNext(f, s);
    forall q | q in g.world.prs && g.world.prs[q].comment.landed.Some?
      ensures g.world.prs[q].comment == LandedAt(g.world.prs[q].comment.landed.value)
    {
      assert q in f.world.prs;
    }
    if s.Plainly? && s.step.Begin? { JobNumbers(f.world, s.step.ns, s.step.at); }
  }

  lemma JobNumbers(w: World, ns: seq<int>, at: int)
    requires Enabled(w, Begin(ns, at))
    ensures var ms := NewJob(w, ns, at).stack.members;
            |ms| == |ns| && forall i :: 0 <= i < |ms| ==> ms[i].number == ns[i]
  {
  }

  // ---- outdated records ----

  lemma OutdatedAppend(f: Fine, p: int)
    requires FineInv(f) && p in f.untold && Enabled(f.world, Append(p))
    ensures Outdated(FineNext(f, Plainly(Append(p))), p)
  {
    hide Inv, Settled, LandedShape, JobTold;
    var pr, id := f.world.prs[p], f.world.nextId;
    var after := Next(f.world, Append(p)).prs[p];
    ChosenAfterPush(pr.comment.owns, pr.head, after.head, id);
    if Chosen(pr.comment.owns, pr.head).Some? {
      var own := Chosen(pr.comment.owns, pr.head).value;
      ChosenUsable(pr.comment.owns, pr.head);
      BelowAncestor(own.upstream, own.head, id);
      var from: nat :| TooMany(pr, p, from, Git.Landed(p, f.world.target));
      AppendOwn(own.upstream, pr.head, after.head, p, from, pr.written, id);
      assert TooMany(after, p, from, Git.Landed(p, f.world.target));
    }
  }

  /** A branch left alone while at least as much of it is on the target. */
  lemma OutdatedStays(f: Fine, g: Fine, p: int)
    requires p in f.world.prs && p in g.world.prs && Outdated(f, p)
    requires g.world.prs[p].(labelled := false, entry := f.world.prs[p].entry) == f.world.prs[p].(labelled := false)
    requires Git.Landed(p, f.world.target) <= Git.Landed(p, g.world.target)
    ensures Outdated(g, p)
  {
    var pr := f.world.prs[p];
    if Chosen(pr.comment.owns, pr.head).Some? {
      var from: nat :| TooMany(pr, p, from, Git.Landed(p, f.world.target));
      assert TooMany(g.world.prs[p], p, from, Git.Landed(p, g.world.target));
    }
  }

  lemma LandedAfterPush(p: int, c: Commit, id: nat)
    requires p > 0
    ensures Git.Landed(p, Commit(c, id, Patch(0, id))) == Git.Landed(p, c)
  {
  }

  /** A landing adds to a member's patches on the target, and takes none. */
  lemma LandedMore(stack: Stack, p: int)
    requires Exact(stack)
    ensures Git.Landed(p, stack.base) <= Git.Landed(p, stack.Top().sha)
    ensures IndexOf(stack.members, p) >= 0 ==> Git.Landed(p, stack.base) < Git.Landed(p, stack.Top().sha)
  {
    LandedPatches(stack, p);
    var i := IndexOf(stack.members, p);
    if i >= 0 { assert ExactMember(stack, i); }
  }

  lemma ForwardFacts(f: Fine, top: int)
    requires FineInv(f) && FineEnabled(f, Forward(top))
    ensures var stack := f.world.prs[top].comment.stack.value; Exact(stack) && f.world.target == stack.base
  {
    ForwardSame(f, top);
    assert Marked(Settled(f), top);
    FastForwardFromBase(Settled(f), f.world.prs[top].comment.stack.value);
  }

  lemma OutdatedForward(f: Fine, top: int, p: int)
    requires FineInv(f) && FineEnabled(f, Forward(top)) && p in FineNext(f, Forward(top)).untold
    ensures p in f.world.prs && Outdated(FineNext(f, Forward(top)), p)
  {
    hide Inv, Settled, Outdated, Bounded, LandedShape, Exact, Untold;
    var stack := f.world.prs[top].comment.stack.value;
    var g := FineNext(f, Forward(top));
    ForwardFacts(f, top);
    LandedMore(stack, p);
    UntoldAt(stack, f.untold, p);
    if p in f.untold {
      OutdatedStays(f, g, p);
    } else {
      NewlyOutdated(f, p, Git.Landed(p, g.world.target));
      OutdatedMeans(g, p);
    }
  }

  lemma OutdatedMeans(f: Fine, p: int)
    requires p in f.world.prs
    requires var pr := f.world.prs[p];
             Chosen(pr.comment.owns, pr.head).Some? ==> exists from: nat :: TooMany(pr, p, from,
                    Git.Landed(p, f.world.target))
    ensures Outdated(f, p)
  {
  }

  lemma NewlyOutdated(f: Fine, p: int, landed: nat)
    requires FineInv(f) && p in f.world.prs && p !in f.untold && Git.Landed(p, f.world.target) < landed
    ensures var pr := f.world.prs[p];
            Chosen(pr.comment.owns, pr.head).Some? ==> exists from: nat :: TooMany(pr, p, from, landed)
  {
    var pr := f.world.prs[p];
    assert Settled(f).prs[p] == pr && Described(Settled(f), p);
    if Chosen(pr.comment.owns, pr.head).Some? {
      assert TooMany(pr, p, Git.Landed(p, f.world.target), landed);
    }
  }

  lemma OutdatedKept(f: Fine, s: FineStep, p: int)
    requires FineInv(f) && FineEnabled(f, s) && p in FineNext(f, s).untold
    ensures p in FineNext(f, s).world.prs && Outdated(FineNext(f, s), p)
  {
    hide Inv, Settled, Bounded, Outdated, LandedShape;
    NextGrows(f, s);
    match s {
      case Plainly(step) =>
        if step == Append(p) {
          OutdatedAppend(f, p);
        } else {
          OutdatedPlainly(f, step, p);
        }
      case Forward(top) => OutdatedForward(f, top, p);
      case TellLanded(q) => OutdatedStays(f, FineNext(f, s), p);
      case Forget(q) =>
        if p == q { OutdatedForget(f, p); } else { OutdatedStays(f, FineNext(f, s), p); }
      case Recall(q) => OutdatedStays(f, FineNext(f, s), p);
    }
  }

  lemma OutdatedForget(f: Fine, p: int)
    requires FineEnabled(f, Forget(p)) && LandedShape(f.world)
    ensures Outdated(FineNext(f, Forget(p)), p)
  {
  }

  lemma OutdatedPlainly(f: Fine, step: Step, p: int)
    requires FineInv(f) && FineEnabled(f, Plainly(step)) && p in f.untold && step != Append(p)
    ensures Outdated(FineNext(f, Plainly(step)), p)
  {
    hide Inv, Settled, Outdated, LandedShape, Build, Commits, Git.Landed;
    var g := FineNext(f, Plainly(step));
    UntouchedPr(f, step, p);
    if step.PushTarget? { LandedAfterPush(p, f.world.target, f.world.nextId); }
    OutdatedStays(f, g, p);
  }

  /** A careful step leaves an untold pull request's branch and comment. */
  lemma UntouchedPr(f: Fine, step: Step, p: int)
    requires FineEnabled(f, Plainly(step)) && JobTold(f) && p in f.untold && p in f.world.prs && step != Append(p)
    ensures var g := FineNext(f, Plainly(step)).world;
            && p in g.prs
            && g.prs[p].(labelled := false, entry := f.world.prs[p].entry) == f.world.prs[p].(labelled := false)
            && (g.target == f.world.target || step.PushTarget?)
  {
    hide Build, Commits;
    if step.Push? {
      var i := IndexOf(f.world.job.value.stack.members, p);
    }
  }

  /** Every step keeps the invariant. */
  lemma FineKept(f: Fine, s: FineStep)
    requires FineInv(f) && FineEnabled(f, s)
    ensures FineInv(FineNext(f, s))
  {
    hide Inv, Settled, Outdated, LandedShape, Bounded, Enabled, Next, FineEnabled, FineNext, JobTold, Based;
    var g := FineNext(f, s);
    StepRefines(f, s);
    match Coarse(s) {
      case None =>
      case Some(step) => StepKeepsInv(Settled(f), step);
    }
    SettledBounded(g);
    BoundedKept(f, s);
    ShapeKept(f, s);
    forall p | p in g.untold ensures p in g.world.prs && Outdated(g, p) && Based(g.world, p) {
      OutdatedKept(f, s, p);
      BasedKept(f, s, p);
    }
  }

  lemma SettledBounded(f: Fine)
    requires Inv(Settled(f))
    ensures Bounded(Settled(f))
  {
  }

  // ---- runs ----

  ghost predicate FineRun(fines: seq<Fine>, steps: seq<FineStep>) {
    && |fines| == |steps| + 1 && Fresh(fines[0].world) && fines[0].untold == map[]
    && forall i :: 0 <= i < |steps| ==> FineEnabled(fines[i], steps[i]) && fines[i + 1] == FineNext(fines[i], steps[i])
  }

  lemma FreshKept(f: Fine)
    requires Fresh(f.world) && f.untold == map[]
    ensures FineInv(f)
  {
    SettledSame(f);
    var run := [f.world];
    RunKeepsInv(run, [], 0);
  }

  lemma {:induction false} FineRunKept(fines: seq<Fine>, steps: seq<FineStep>, i: nat)
    requires FineRun(fines, steps) && i < |fines|
    ensures FineInv(fines[i])
  {
    hide FineInv, FineEnabled, FineNext;
    if i == 0 {
      FreshKept(fines[0]);
    } else {
      FineRunKept(fines, steps, i - 1);
      FineKept(fines[i - 1], steps[i - 1]);
    }
  }

  /** The machine after steps, skipping those that are not enabled. */
  function FineAfter(f: Fine, steps: seq<FineStep>): Fine {
    if steps == [] then f
    else
      var before := FineAfter(f, steps[..|steps| - 1]);
      if FineEnabled(before, steps[|steps| - 1]) then FineNext(before, steps[|steps| - 1]) else before
  }

  lemma {:induction false} FineAfterKept(f: Fine, steps: seq<FineStep>)
    requires FineInv(f)
    ensures FineInv(FineAfter(f, steps))
  {
    hide FineInv, FineEnabled, FineNext;
    if steps != [] {
      var before := FineAfter(f, steps[..|steps| - 1]);
      FineAfterKept(f, steps[..|steps| - 1]);
      if FineEnabled(before, steps[|steps| - 1]) { FineKept(before, steps[|steps| - 1]); }
    }
  }

  lemma FineOneMore(f: Fine, steps: seq<FineStep>, step: FineStep)
    requires FineEnabled(FineAfter(f, steps), step)
    ensures FineAfter(f, steps + [step]) == FineNext(FineAfter(f, steps), step)
  {
    assert (steps + [step])[..|steps|] == steps;
  }

  /** In every run, whatever authors, others, failed pushes and landings cut
      short did before, every stack a tick builds of pull requests that are
      not untold is the target it read followed by each member's own patches,
      with no commit of a pull request outside it. */
  lemma StackExactInRun(fines: seq<Fine>, steps: seq<FineStep>, i: nat)
    requires FineRun(fines, steps) && i < |steps| && steps[i].Plainly? && steps[i].step.Begin?
    ensures fines[i + 1].world.job.Some?
    ensures BasePlusOwn(fines[i].world, fines[i + 1].world.job.value.stack, steps[i].step.ns)
  {
    hide Inv, BasePlusOwn, NewJob, Outdated;
    var f, step := fines[i], steps[i].step;
    FineRunKept(fines, steps, i);
    BeginSame(f, step.ns, step.at);
    BuiltFromBase(Settled(f), step.ns, step.at);
    SettledBase(f, fines[i + 1].world.job.value.stack, step.ns);
  }

  lemma SettledBase(f: Fine, stack: Stack, ns: seq<int>)
    ensures BasePlusOwn(f.world, stack, ns) <==> BasePlusOwn(Settled(f), stack, ns)
  {
    SettledSame(f);
    forall k | 0 <= k < |ns|
      ensures (ns[k] in f.world.prs <==> ns[k] in Settled(f).prs)
      ensures ns[k] in f.world.prs ==> Settled(f).prs[ns[k]].written == f.world.prs[ns[k]].written
    {}
  }

  /** In every run, the target holds a prefix of each pull request's patches,
      each once and in order. */
  lemma PatchLandsOnceInRun(fines: seq<Fine>, steps: seq<FineStep>, i: nat, p: int)
    requires FineRun(fines, steps) && i < |fines| && p in fines[i].world.prs
    ensures var w := fines[i].world;
            var landed := Git.Landed(p, w.target);
            landed <= w.prs[p].written && Of(p, w.target) == Seg(p, 0, landed)
  {
    FineRunKept(fines, steps, i);
    InvLands(Settled(fines[i]), p);
    SettledSame(fines[i]);
  }

  lemma InvLands(w: World, p: int)
    requires Inv(w) && p in w.prs
    ensures Git.Landed(p, w.target) <= w.prs[p].written && Of(p, w.target) == Seg(p, 0, Git.Landed(p, w.target))
  {
    assert p > 0;
  }

  /** And what the queue would stack for it next is exactly the rest, if and
      only if it is not untold or no record describes its branch. */
  lemma DescriptionInRun(fines: seq<Fine>, steps: seq<FineStep>, i: nat, p: int)
    requires FineRun(fines, steps) && i < |fines| && p in fines[i].world.prs
    ensures Git.Landed(p, fines[i].world.target) <= fines[i].world.prs[p].written
    ensures var w := fines[i].world;
            OwnPatches(w.prs[p], w.target) == Seg(p, Git.Landed(p, w.target), w.prs[p].written) <==>
            p !in fines[i].untold || Chosen(w.prs[p].comment.owns, w.prs[p].head).None?
  {
    FineRunKept(fines, steps, i);
    DescriptionOfFine(fines[i], p);
  }

  lemma DescriptionOfFine(f: Fine, p: int)
    requires FineInv(f) && p in f.world.prs
    ensures Git.Landed(p, f.world.target) <= f.world.prs[p].written
    ensures OwnPatches(f.world.prs[p], f.world.target) == Seg(p, Git.Landed(p, f.world.target), f.world.prs[p].written) <==>
            p !in f.untold || Chosen(f.world.prs[p].comment.owns, f.world.prs[p].head).None?
  {
    var pr := f.world.prs[p];
    SettledSame(f);
    assert Described(Settled(f), p);
    if p in f.untold && Chosen(pr.comment.owns, pr.head).Some? {
      var from: nat :| TooMany(pr, p, from, Git.Landed(p, f.world.target));
      assert |Seg(p, from, pr.written)| > |Seg(p, Git.Landed(p, f.world.target), pr.written)|;
    }
  }

  /** What a tick would build of any pull requests, untold or not, is exact if
      and only if a right record, or none, describes each. */
  lemma StackExactIff(f: Fine, ns: seq<int>, at: int)
    requires FineInv(f) && Enabled(f.world, Begin(ns, at))
    ensures BasePlusRest(f.world, NewJob(f.world, ns, at).stack, ns) <==>
            forall k :: 0 <= k < |ns| ==>
              ns[k] !in f.untold || Chosen(f.world.prs[ns[k]].comment.owns, f.world.prs[ns[k]].head).None?
  {
    hide Inv, Settled, Outdated, Bounded, LandedShape, BasePlusRest, Build;
    FineBounded(f);
    BuiltLinked(f.world, ns, at);
    forall k | 0 <= k < |ns|
      ensures Git.Landed(ns[k], f.world.target) <= f.world.prs[ns[k]].written
      ensures OwnPatches(f.world.prs[ns[k]], f.world.target) ==
              Seg(ns[k], Git.Landed(ns[k], f.world.target), f.world.prs[ns[k]].written) <==>
              ns[k] !in f.untold || Chosen(f.world.prs[ns[k]].comment.owns, f.world.prs[ns[k]].head).None?
    {
      DescriptionOfFine(f, ns[k]);
    }
    RestIff(f.world, NewJob(f.world, ns, at).stack, ns);
  }

  lemma FineBounded(f: Fine)
    requires FineInv(f)
    ensures Bounded(f.world)
  {
  }

  /** Whatever the records say, each member is what the queue takes for its
      own, above the member below. */
  lemma BuiltLinked(w: World, ns: seq<int>, at: int)
    requires Git.Below(w.target, w.nextId) && ns != [] && forall k :: 0 <= k < |ns| ==> ns[k] in w.prs
    ensures var stack := NewJob(w, ns, at).stack;
            && Linked(stack) && stack.base == w.target && stack.Numbers() == ns
            && forall k {:trigger stack.Under(k)} :: 0 <= k < |ns| ==>
                 Range(stack.Under(k), stack.members[k].sha) == OwnPatches(w.prs[ns[k]], w.target)
  {
    hide Build, OwnPatches, Range;
    var stack := NewJob(w, ns, at).stack;
    assert stack.Numbers() == ns;
    forall k | 0 <= k < |ns|
      ensures IsAncestor(stack.Under(k), stack.members[k].sha)
      ensures Range(stack.Under(k), stack.members[k].sha) == OwnPatches(w.prs[ns[k]], w.target)
    {
      BuildMember(w.prs, ns, w.target, w.target, w.nextId, k);
      assert stack.Under(k) == QueueStacks.Under(stack.members, w.target, k);
    }
  }

  lemma RestIff(w: World, stack: Stack, ns: seq<int>)
    requires Linked(stack) && stack.base == w.target && stack.Numbers() == ns
    requires forall k :: 0 <= k < |ns| ==>
               && ns[k] in w.prs && Git.Landed(ns[k], w.target) <= w.prs[ns[k]].written
               && Range(stack.Under(k), stack.members[k].sha) == OwnPatches(w.prs[ns[k]], w.target)
    ensures BasePlusRest(w, stack, ns) <==>
            forall k :: 0 <= k < |ns| ==>
              OwnPatches(w.prs[ns[k]], w.target) == Seg(ns[k], Git.Landed(ns[k], w.target), w.prs[ns[k]].written)
  {
    hide OwnPatches, Range, Linked, Git.Landed, IsAncestor;
    if forall k :: 0 <= k < |ns| ==>
         OwnPatches(w.prs[ns[k]], w.target) == Seg(ns[k], Git.Landed(ns[k], w.target), w.prs[ns[k]].written)
    {
      RestFromBase(w, stack, ns);
    } else {
      var k :| 0 <= k < |ns| && OwnPatches(w.prs[ns[k]], w.target) !=
                                Seg(ns[k], Git.Landed(ns[k], w.target), w.prs[ns[k]].written);
      assert stack.members[k].number == ns[k];
    }
  }

  /** A member is stacked without a commit of its own if and only if its whole
      branch landed and the comment that said so was erased. */
  lemma EmptyMemberIff(f: Fine, ns: seq<int>, at: int, k: nat)
    requires FineInv(f) && Enabled(f.world, Begin(ns, at)) && k < |ns|
    ensures var stack, pr := NewJob(f.world, ns, at).stack, f.world.prs[ns[k]];
            stack.members[k].sha == stack.Under(k) <==>
            ns[k] in f.untold && f.untold[ns[k]] == pr.head && Chosen(pr.comment.owns, pr.head).None?
  {
    hide Inv, Settled, Bounded, LandedShape, Build;
    var stack := NewJob(f.world, ns, at).stack;
    FineBounded(f);
    BuiltLinked(f.world, ns, at);
    RangeNothing(stack.Under(k), stack.members[k].sha);
    NothingLeft(f, ns[k]);
  }

  lemma NothingLeft(f: Fine, p: int)
    requires FineInv(f) && p in f.world.prs && !f.world.prs[p].AlreadyLanded()
    ensures var pr := f.world.prs[p];
            OwnPatches(pr, f.world.target) == [] <==>
            p in f.untold && f.untold[p] == pr.head && Chosen(pr.comment.owns, pr.head).None?
  {
    var pr := f.world.prs[p];
    SettledSame(f);
    DescriptionOfFine(f, p);
    assert Described(Settled(f), p);
    assert p in f.untold ==> Settled(f).prs[p].comment == LandedAt(f.untold[p]);
    if p in f.untold && Chosen(pr.comment.owns, pr.head).Some? {
      var from: nat :| TooMany(pr, p, from, Git.Landed(p, f.world.target));
    }
  }

  /** So a landed pull request whose record a comment erases is next stacked
      without a commit ... */
  lemma ForgottenIsEmpty(f: Fine, p: int, ns: seq<int>, at: int, k: nat)
    requires FineInv(f) && FineEnabled(f, Forget(p)) && k < |ns| && ns[k] == p
    requires Enabled(FineNext(f, Forget(p)).world, Begin(ns, at))
    ensures var stack := NewJob(FineNext(f, Forget(p)).world, ns, at).stack; stack.members[k].sha == stack.Under(k)
  {
    hide FineInv, Build;
    var g := FineNext(f, Forget(p));
    FineKept(f, Forget(p));
    ErasedOwns(f, p);
    EmptyMemberIff(g, ns, at, k);
  }

  lemma ErasedOwns(f: Fine, p: int)
    requires FineInv(f) && FineEnabled(f, Forget(p))
    ensures FineNext(f, Forget(p)).world.prs[p].comment == PlainComment([])
  {
  }

  /** ... until its author pushes again, from when on what is stacked of it is
      what its author pushed. */
  lemma PushedIsRecallable(f: Fine, p: int)
    requires FineInv(f) && p in f.untold && f.world.prs[p].comment == PlainComment([])
    ensures Recallable(FineNext(f, Plainly(Append(p))), p)
    ensures f.world.job.None? ==> FineEnabled(FineNext(f, Plainly(Append(p))), Recall(p))
  {
    assert Settled(f).prs[p].comment == LandedAt(f.untold[p]);
    SettledBounded(f);
    assert Git.Below(f.untold[p], f.world.nextId);
  }
}
