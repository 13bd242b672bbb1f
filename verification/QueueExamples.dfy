/**
 Short runs that reach what the queue does not promise: a landing told in part,
 a stale marker that outlives ticks, a landed record erased, and a landing that
 a measure over eligible pull requests would not see.
 */
module QueueExamples {
  import opened Options
  import opened Git
  import opened Queue
  import opened QueueWorld
  import opened QueueLanding
  import opened QueueRuns
  import opened QueueStacks
  import opened QueueTick
  import opened QueueTickSafety
  import opened QueueDrainForm
  import opened QueueDrainStacks
  import opened QueueDrainTurns
  import opened QueueDrain
  import Checks
  import QueueRebase
  import P = QueuePlan
  import Q = QueueQuiet
  import Torn = QueueTorn

  const READY: Entry := Entry(true, false, true, true)
  const EMPTY: World := World(Root, Root, map[], 0, None)

  // ---- a landing told in part ----

  const WRITTEN: Commit := Commit(Root, 0, Patch(1, 0))
  const STACKED: Commit := Commit(Root, 1, Patch(1, 0))
  const ALONE: Stack := Stack(Root, [Member(1, STACKED)], 0, 0)
  const ONE: PullRequest := PullRequest(WRITTEN, 1, false, READY, Comment([], None, None))
  const NOTED: PullRequest := ONE.(comment := Comment([Own(STACKED, Root)], Some(ALONE), None))

  lemma BeginOne(w: World)
    requires w == EMPTY.(prs := map[1 := ONE], nextId := 1)
    ensures Enabled(w, Begin([1], 0))
    ensures Next(w, Begin([1], 0)) == w.(job := Some(Job(ALONE, [[]], [WRITTEN], 0)), nextId := 2)
  {
    assert OwnPatches(ONE, Root) == [Patch(1, 0)];
    assert Replay(Root, [Patch(1, 0)], 1) == STACKED;
    assert [1][1..] == [];
    assert Build(w.prs, [1], Root, Root, 1) == [Member(1, STACKED)];
    assert Commits(w.prs, [1], Root) == 1;
    var job := NewJob(w, [1], 0);
    assert job.keeps == [[]] && job.expected == [WRITTEN];
  }

  lemma WriteOne(w: World)
    requires w == World(Root, Root, map[1 := ONE], 2, Some(Job(ALONE, [[]], [WRITTEN], 0)))
    ensures Enabled(w, WriteNext)
    ensures Next(w, WriteNext) == World(Root, Root, map[1 := NOTED], 2, Some(Job(ALONE, [[]], [WRITTEN], 1)))
  {
    assert [StackOwn(ALONE, 0)] + [] == [Own(STACKED, Root)];
    assert StackComment(ALONE, 0, []) == NOTED.comment;
  }

  lemma PushOne(w: World)
    requires w == World(Root, Root, map[1 := NOTED], 2, Some(Job(ALONE, [[]], [WRITTEN], 1)))
    ensures Enabled(w, Step.Push)
    ensures Next(w, Step.Push) == World(Root, Root, map[1 := NOTED.(head := STACKED)], 2, None)
  {
    assert IndexOf(ALONE.members, 1) == 0;
    assert PushedPrs(w.prs, ALONE) == map[1 := NOTED.(head := STACKED)];
  }

  lemma ForwardOne(f: Fine)
    requires f == Fine(World(Root, Root, map[1 := NOTED.(head := STACKED)], 2, None), map[])
    ensures FineEnabled(f, Forward(1))
    ensures FineNext(f, Forward(1)) ==
            Fine(World(STACKED, STACKED, map[1 := NOTED.(head := STACKED)], 2, None), map[1 := STACKED])
  {
    assert ALONE.Top() == Member(1, STACKED);
    assert IsAncestor(Root, STACKED) && IsAncestor(STACKED, STACKED);
    forall q ensures q in Untold(ALONE, map[]) <==> q == 1 { UntoldAt(ALONE, map[], q); }
    UntoldAt(ALONE, map[], 1);
    assert IndexOf(ALONE.members, 1) == 0;
    assert Untold(ALONE, map[]) == map[1 := STACKED];
  }

  lemma Emptiness()
    ensures Fresh(EMPTY)
  {
  }

  /** The target has the pull request's only commit, and the record in its
      comment still takes that commit for one to be stacked. */
  lemma UntoldInstance() returns (fines: seq<Fine>, steps: seq<FineStep>)
    ensures FineRun(fines, steps)
    ensures var f := fines[|steps|];
            && 1 in f.world.prs && 1 in f.untold && Git.Landed(1, f.world.target) == f.world.prs[1].written == 1
            && OwnPatches(f.world.prs[1], f.world.target) == [Patch(1, 0)]
  {
    hide Next, Enabled, FineNext, FineEnabled, Careful;
    var w1 := EMPTY.(prs := map[1 := ONE], nextId := 1);
    var w2 := World(Root, Root, map[1 := ONE], 2, Some(Job(ALONE, [[]], [WRITTEN], 0)));
    var w3 := World(Root, Root, map[1 := NOTED], 2, Some(Job(ALONE, [[]], [WRITTEN], 1)));
    var w4 := World(Root, Root, map[1 := NOTED.(head := STACKED)], 2, None);
    var w5 := w4.(target := STACKED, seen := STACKED);
    steps := [Plainly(Open(1, Root, READY)), Plainly(Begin([1], 0)), Plainly(WriteNext), Plainly(Step.Push), Forward(1)];
    fines := [Fine(EMPTY, map[]), Fine(w1, map[]), Fine(w2, map[]), Fine(w3, map[]), Fine(w4, map[]), Fine(w5, map[1 := STACKED])];
    Emptiness();
    OpenOne();
    BeginOne(w1);
    WriteOne(w2);
    PushOne(w3);
    ForwardOne(fines[4]);
    forall i | 0 <= i < 4 ensures FineEnabled(fines[i], steps[i]) && FineNext(fines[i], steps[i]) == fines[i + 1] {
      PlainStep(fines[i], steps[i].step);
    }
    NotedDescribes();
  }

  lemma OpenOne()
    ensures Enabled(EMPTY, Open(1, Root, READY))
    ensures Next(EMPTY, Open(1, Root, READY)) == EMPTY.(prs := map[1 := ONE], nextId := 1)
  {
  }

  /** With nobody untold every step but a landing is as in the machine. */
  lemma PlainStep(f: Fine, step: Step)
    requires Enabled(f.world, step) && f.untold == map[] && !step.Advance? && !step.Retry?
    ensures FineEnabled(f, Plainly(step)) && FineNext(f, Plainly(step)) == Fine(Next(f.world, step), map[])
  {
  }

  lemma NotedDescribes()
    ensures OwnPatches(NOTED.(head := STACKED), STACKED) == [Patch(1, 0)] && Git.Landed(1, STACKED) == 1
  {
    assert IsAncestor(Root, STACKED) && IsAncestor(STACKED, STACKED) && !IsAncestor(STACKED, Root);
    assert Chosen([Own(STACKED, Root)], STACKED) == Some(Own(STACKED, Root));
    assert Range(Root, STACKED) == [Patch(1, 0)];
    assert Of(1, STACKED) == [Patch(1, 0)];
  }

  // ---- two pull requests in one stack ----

  const FIRST: Commit := Commit(Root, 2, Patch(1, 0))
  const SECOND: Commit := Commit(FIRST, 3, Patch(2, 0))
  const BOTH: Stack := Stack(Root, [Member(1, FIRST), Member(2, SECOND)], 0, 0)

  function Plainly1(head: Commit, labelled: bool, comment: Comment): PullRequest {
    PullRequest(head, 1, labelled, READY, comment)
  }

  const NOTHING: Comment := Comment([], None, None)
  const LEFT: Commit := Commit(Root, 0, Patch(1, 0))
  const RIGHT: Commit := Commit(Root, 1, Patch(2, 0))
  const LOWER: Comment := Comment([Own(FIRST, Root)], None, None)
  const UPPER: Comment := Comment([Own(SECOND, FIRST)], Some(BOTH), None)

  const OPENED: World := World(Root, Root, map[1 := Plainly1(LEFT, true, NOTHING), 2 := Plainly1(RIGHT, true, NOTHING)],
                               2, None)
  const PAIR: World := World(Root, Root, map[1 := Plainly1(FIRST, true, LOWER), 2 := Plainly1(SECOND, true, UPPER)], 4,
                             None)

  lemma OpenBoth() returns (worlds: seq<World>, steps: seq<Step>)
    ensures Run(worlds, steps) && worlds[|steps|] == OPENED
  {
    var a := EMPTY.(prs := map[1 := Plainly1(LEFT, false, NOTHING)], nextId := 1);
    var b := a.(prs := map[1 := Plainly1(LEFT, false, NOTHING), 2 := Plainly1(RIGHT, false, NOTHING)], nextId := 2);
    var c := b.(prs := map[1 := Plainly1(LEFT, true, NOTHING), 2 := Plainly1(RIGHT, false, NOTHING)]);
    steps := [Open(1, Root, READY), Open(2, Root, READY), SetLabel(1, true), SetLabel(2, true)];
    worlds := [EMPTY, a, b, c, OPENED];
    Emptiness();
    assert Next(worlds[0], steps[0]) == worlds[1];
    assert Next(worlds[1], steps[1]) == worlds[2];
    assert Next(worlds[2], steps[2]) == worlds[3];
    assert Next(worlds[3], steps[3]) == worlds[4];
  }

  lemma BuildBoth()
    ensures Build(OPENED.prs, [1, 2], Root, Root, 2) == [Member(1, FIRST), Member(2, SECOND)]
    ensures Commits(OPENED.prs, [1, 2], Root) == 2
  {
    var prs := OPENED.prs;
    assert OwnPatches(prs[1], Root) == [Patch(1, 0)];
    assert OwnPatches(prs[2], Root) == [Patch(2, 0)];
    assert Replay(Root, [Patch(1, 0)], 2) == FIRST;
    assert Replay(FIRST, [Patch(2, 0)], 3) == SECOND;
    assert [1, 2][1..] == [2] && [2][1..] == [];
    assert Build(prs, [2], Root, FIRST, 3) == [Member(2, SECOND)];
    assert Commits(prs, [2], Root) == 1;
  }

  lemma BeginBoth()
    ensures Enabled(OPENED, Begin([1, 2], 0))
    ensures Next(OPENED, Begin([1, 2], 0)) == OPENED.(job := Some(Job(BOTH, [[], []], [LEFT, RIGHT], 0)), nextId := 4)
  {
    BuildBoth();
    var job := NewJob(OPENED, [1, 2], 0);
    assert job.keeps == [[], []] && job.expected == [LEFT, RIGHT];
  }

  lemma WriteBoth(a: World, b: World, c: World)
    requires a == OPENED.(job := Some(Job(BOTH, [[], []], [LEFT, RIGHT], 0)), nextId := 4)
    requires b == a.(job := Some(Job(BOTH, [[], []], [LEFT, RIGHT], 1)),
                     prs := map[1 := Plainly1(LEFT, true, LOWER), 2 := Plainly1(RIGHT, true, NOTHING)])
    requires c == b.(job := Some(Job(BOTH, [[], []], [LEFT, RIGHT], 2)),
                     prs := map[1 := Plainly1(LEFT, true, LOWER), 2 := Plainly1(RIGHT, true, UPPER)])
    ensures Enabled(a, WriteNext) && Next(a, WriteNext) == b && Enabled(b, WriteNext) && Next(b, WriteNext) == c
  {
    assert [StackOwn(BOTH, 0)] + [] == [Own(FIRST, Root)] && [StackOwn(BOTH, 1)] + [] == [Own(SECOND, FIRST)];
    assert StackComment(BOTH, 0, []) == LOWER && StackComment(BOTH, 1, []) == UPPER;
  }

  lemma PushBoth(c: World)
    requires c == World(Root, Root, map[1 := Plainly1(LEFT, true, LOWER), 2 := Plainly1(RIGHT, true, UPPER)], 4,
                        Some(Job(BOTH, [[], []], [LEFT, RIGHT], 2)))
    ensures Enabled(c, Step.Push) && Next(c, Step.Push) == PAIR
  {
    assert BOTH.Numbers() == [1, 2];
    IndexOfMember(BOTH, 0);
    IndexOfMember(BOTH, 1);
    assert PushedPrs(c.prs, BOTH) == PAIR.prs;
  }

  lemma ReachPair() returns (worlds: seq<World>, steps: seq<Step>)
    ensures Run(worlds, steps) && worlds[|steps|] == PAIR
  {
    hide Next, Enabled;
    worlds, steps := OpenBoth();
    var a := OPENED.(job := Some(Job(BOTH, [[], []], [LEFT, RIGHT], 0)), nextId := 4);
    var b := a.(job := Some(Job(BOTH, [[], []], [LEFT, RIGHT], 1)),
                prs := map[1 := Plainly1(LEFT, true, LOWER), 2 := Plainly1(RIGHT, true, NOTHING)]);
    var c := b.(job := Some(Job(BOTH, [[], []], [LEFT, RIGHT], 2)),
                prs := map[1 := Plainly1(LEFT, true, LOWER), 2 := Plainly1(RIGHT, true, UPPER)]);
    BeginBoth();
    WriteBoth(a, b, c);
    PushBoth(c);
    worlds, steps := OneMore(worlds, steps, Begin([1, 2], 0));
    worlds, steps := OneMore(worlds, steps, WriteNext);
    worlds, steps := OneMore(worlds, steps, WriteNext);
    worlds, steps := OneMore(worlds, steps, Step.Push);
  }

  lemma OneMore(worlds: seq<World>, steps: seq<Step>, step: Step) returns (more: seq<World>, longer: seq<Step>)
    requires Run(worlds, steps) && Enabled(worlds[|steps|], step)
    ensures Run(more, longer) && more[|longer|] == Next(worlds[|steps|], step)
  {
    more, longer := worlds + [Next(worlds[|steps|], step)], steps + [step];
    forall i | 0 <= i < |longer| ensures Enabled(more[i], longer[i]) && more[i + 1] == Next(more[i], longer[i]) {
      if i < |steps| { assert more[i] == worlds[i] && more[i + 1] == worlds[i + 1] && longer[i] == steps[i]; }
    }
  }

  lemma PairLive()
    ensures Inv(PAIR) && Calm(PAIR) && Live(PAIR, 2) && NumbersOf(PAIR, 2) == [1, 2]
  {
    var worlds, steps := ReachPair();
    RunKeepsInv(worlds, steps, |steps|);
    assert BOTH.Numbers() == [1, 2];
  }

  // ---- a stale marker that outlives ticks ----

  /** A tick stacks p alone, writes its comment and dies. */
  ghost function Interrupted(w: World, p: int, at: int): World {
    if !Enabled(w, Begin([p], at)) then w
    else
      var begun := Next(w, Begin([p], at));
      if Enabled(begun, WriteNext) then Next(Next(begun, WriteNext), Drop) else w
  }

  /** A member of a live stack that is stacked again by a tick that dies before
      its push: its new marker is stale, and the old stack is as live as
      before. */
  lemma StaleBeside(w: World, t: int, p: int, at: int)
    requires Inv(w) && Calm(w) && Live(w, t) && p in NumbersOf(w, t) && p != t
    ensures var w' := Interrupted(w, p, at);
            && Inv(w') && Calm(w') && Stale(w', p) && Live(w', t) && w'.prs[t] == w.prs[t]
            && w'.target == w.target && w'.prs.Keys == w.prs.Keys
            && forall q :: q in w.prs ==> w'.prs[q].labelled == w.prs[q].labelled
  {
    hide Inv, Build, Commits, IsAncestor, Git.Below;
    InvTidy(w);
    LiveNotLanded(w, t, p);
    var w1 := Next(w, Begin([p], at));
    var w2 := Next(w1, WriteNext);
    StepKeepsInv(w, Begin([p], at));
    NewJobShape(w, [p], at);
    StepKeepsInv(w1, WriteNext);
    StepKeepsInv(w2, Drop);
    NewCommit(w, p, at);
    var stack := w.prs[t].comment.stack.value;
    assert Next(w2, Drop).prs[p].comment.stack == Some(NewJob(w, [p], at).stack);
  }

  lemma NewCommit(w: World, p: int, at: int)
    requires Inv(w) && Enabled(w, Begin([p], at))
    ensures NewJob(w, [p], at).stack.members[0].sha != w.prs[p].head
  {
    BuiltExact(w, [p], at);
    BuiltMemberFresh(w, [p], at, 0);
  }

  function NoRuns(c: Commit): seq<Checks.CheckRun> { [] }
  function NoWorkflows(c: Commit): seq<WorkflowRun> { [] }
  function NoFiles(n: int): seq<string> { [] }
  predicate NoMatch(pattern: string, file: string) { false }

  const SILENT: GitHub := GitHub(NoRuns, NoWorkflows, NoFiles)
  const WAITING: Config := Config([Checks.RequiredCheck("ci", [])], 10, 1, NoMatch)
  const UNCHECKED: Config := Config([], 10, 1, NoMatch)

  /** While the older stack waits for its checks, ticks resolve the stale stack
      again and again and change nothing. */
  lemma StaleOutlives() returns (w: World)
    ensures Inv(w) && Calm(w) && Stale(w, 1) && Live(w, 2) && Listing(w, [1, 2])
    ensures var snap := SnapshotOf(w, [1, 2], SILENT, WAITING, 0);
            P.SomeResolved(snap, |snap.stacks|) && !Moves(snap, WAITING.batch)
    ensures forall clean: seq<int> -> bool ::
              var w' := QuietTick(w, [1, 2], SILENT, WAITING, 0, clean);
              Same(w, w') && Stale(w', 1) && Live(w', 2)
  {
    hide Inv, Interrupted, Live, Stale;
    PairLive();
    StaleBeside(PAIR, 2, 1, 0);
    w := Interrupted(PAIR, 1, 0);
    StaleListed(w);
    var snap := SnapshotOf(w, [1, 2], SILENT, WAITING, 0);
    InvTidy(w);
    StaleWaits(w);
    forall clean: seq<int> -> bool
      ensures var w' := QuietTick(w, [1, 2], SILENT, WAITING, 0, clean); Same(w, w') && Stale(w', 1) && Live(w', 2)
    {
      TickFalls(w, [1, 2], SILENT, WAITING, 0, clean);
      SameLive(w, QuietTick(w, [1, 2], SILENT, WAITING, 0, clean));
    }
  }

  lemma StaleListed(w: World)
    requires w.prs.Keys == PAIR.prs.Keys && forall q :: q in PAIR.prs ==> w.prs[q].labelled == PAIR.prs[q].labelled
    ensures Listing(w, [1, 2])
  {
  }

  lemma StaleWaits(w: World)
    requires Tidy(w) && Listing(w, [1, 2]) && Stale(w, 1) && Live(w, 2) && w.prs[2] == PAIR.prs[2]
    ensures var snap := SnapshotOf(w, [1, 2], SILENT, WAITING, 0);
            P.SomeResolved(snap, |snap.stacks|) && !Moves(snap, WAITING.batch)
  {
    hide SnapshotOf, P.StaleReason, Tidy;
    assert Marked(w, 1) && Marked(w, 2);
    var snap := SnapshotOf(w, [1, 2], SILENT, WAITING, 0);
    TopsOfTwo(w);
    ReadsTidy(w, [1, 2], SILENT, WAITING, 0);
    StackRead(w, [1, 2], SILENT, WAITING, 0, 1);
    assert snap.stacks[1].stack == BOTH && BOTH.Numbers() == [1, 2];
    CheckPending();
    TwoStacks(snap);
  }

  lemma TwoStacks(snap: P.Snapshot)
    requires |snap.stacks| == 2 && !snap.stacks[0].landed && !snap.stacks[1].landed && snap.stacks[1].state.Pending?
    requires snap.stacks[1].stack == BOTH && snap.stacks[0].stack.members != []
    requires snap.stacks[0].stack.Top().number == 1
    requires P.StaleReason(snap.stacks[0].stack, snap.target, P.ByNumber(snap.queued)) != P.Fits
    requires P.StaleReason(snap.stacks[1].stack, snap.target, P.ByNumber(snap.queued)) == P.Fits
    ensures P.SomeResolved(snap, 2) && !Moves(snap, WAITING.batch)
  {
    hide P.StaleReason;
    assert P.FirstGreen(snap, 0) < 0 && P.FirstGreen(snap, 1) < 0 && P.FirstGreen(snap, 2) < 0;
    assert P.Waiting(snap, 1) && P.Claims(snap, 1) && BOTH.Numbers() == [1, 2];
    assert P.Claimed(snap, 1) && !P.Claims(snap, 0) && !P.Waiting(snap, 0);
    assert P.SomeResolved(snap, 1);
  }

  lemma TopsOfTwo(w: World)
    requires Marked(w, 1) && Marked(w, 2)
    ensures Tops(w, [1, 2]) == [1, 2]
  {
    assert [1, 2][..1] == [1] && [1][..0] == [];
    assert Tops(w, []) == [];
    assert Tops(w, [1]) == [1];
  }

  lemma CheckPending()
    ensures Checks.StatusOf(WAITING.required, NoRuns(SECOND), InputsOf(SILENT, WAITING, BOTH, 0)).state.Pending?
  {
    var check, inputs := Checks.RequiredCheck("ci", []), InputsOf(SILENT, WAITING, BOTH, 0);
    assert WAITING.required[..0] == [];
    assert Checks.VerdictOf(check, [], inputs).Waits?;
    Checks.StatusMeans(WAITING.required, [], inputs);
  }

  lemma SameLive(w: World, w': World)
    requires Same(w, w')
    ensures forall p :: (Live(w', p) <==> Live(w, p)) && (Stale(w', p) <==> Stale(w, p))
  {
  }

  // ---- a landed record erased ----

  const AGAIN: Commit := Commit(Root, 4, Patch(1, 0))
  const SOLO: Stack := Stack(Root, [Member(1, AGAIN)], 0, 0)
  const APART: World := PAIR.(prs := map[1 := Plainly1(FIRST, true, LOWER), 2 := Plainly1(SECOND, false, UPPER)])
  const MARKED: Comment := Comment([Own(AGAIN, Root), Own(FIRST, Root)], Some(SOLO), None)
  const LANDED: World := World(AGAIN, AGAIN, map[1 := Plainly1(AGAIN, true, Comment([], None, Some(AGAIN))),
                                                 2 := Plainly1(SECOND, false, UPPER)], 5, None)

  lemma BeginSolo()
    ensures Enabled(APART, Begin([1], 0))
    ensures Next(APART, Begin([1], 0)) == APART.(job := Some(Job(SOLO, [[Own(FIRST, Root)]], [FIRST], 0)), nextId := 5)
  {
    SoloCommits();
    assert Build(APART.prs, [1], Root, Root, 4) == [Member(1, AGAIN)];
    var job := NewJob(APART, [1], 0);
    assert job.keeps == [[Own(FIRST, Root)]] && job.expected == [FIRST];
  }

  lemma SoloCommits()
    ensures Build(APART.prs, [1], Root, Root, 4) == [Member(1, AGAIN)] && Commits(APART.prs, [1], Root) == 1
    ensures IsAncestor(Root, FIRST) && Chosen([Own(FIRST, Root)], FIRST) == Some(Own(FIRST, Root))
  {
    hide OwnPatches;
    SoloPatches();
    assert Replay(Root, [Patch(1, 0)], 4) == AGAIN;
    assert [1][1..] == [];
  }

  lemma SoloPatches()
    ensures OwnPatches(APART.prs[1], Root) == [Patch(1, 0)]
    ensures IsAncestor(Root, FIRST) && Chosen([Own(FIRST, Root)], FIRST) == Some(Own(FIRST, Root))
  {
    assert IsAncestor(Root, FIRST) && IsAncestor(FIRST, FIRST) && !IsAncestor(FIRST, Root);
    assert Chosen([Own(FIRST, Root)], FIRST) == Some(Own(FIRST, Root));
    assert Range(Root, FIRST) == [Patch(1, 0)];
  }

  lemma WriteSolo(a: World, b: World)
    requires a == APART.(job := Some(Job(SOLO, [[Own(FIRST, Root)]], [FIRST], 0)), nextId := 5)
    requires b == a.(job := Some(Job(SOLO, [[Own(FIRST, Root)]], [FIRST], 1)),
                     prs := map[1 := Plainly1(FIRST, true, MARKED), 2 := Plainly1(SECOND, false, UPPER)])
    ensures Enabled(a, WriteNext) && Next(a, WriteNext) == b
  {
    assert [StackOwn(SOLO, 0)] + [Own(FIRST, Root)] == [Own(AGAIN, Root), Own(FIRST, Root)];
    assert StackComment(SOLO, 0, [Own(FIRST, Root)]) == MARKED;
  }

  lemma PushSolo(b: World, c: World)
    requires b == World(Root, Root, map[1 := Plainly1(FIRST, true, MARKED), 2 := Plainly1(SECOND, false, UPPER)], 5,
                        Some(Job(SOLO, [[Own(FIRST, Root)]], [FIRST], 1)))
    requires c == World(Root, Root, map[1 := Plainly1(AGAIN, true, MARKED), 2 := Plainly1(SECOND, false, UPPER)], 5, None)
    ensures Enabled(b, Step.Push) && Next(b, Step.Push) == c
  {
    assert IndexOf(SOLO.members, 1) == 0 && IndexOf(SOLO.members, 2) == -1;
    assert PushedPrs(b.prs, SOLO) == c.prs;
  }

  lemma LandSolo(c: World)
    requires c == World(Root, Root, map[1 := Plainly1(AGAIN, true, MARKED), 2 := Plainly1(SECOND, false, UPPER)], 5, None)
    ensures Enabled(c, Step.Advance(1)) && Next(c, Step.Advance(1)) == LANDED
  {
    assert IndexOf(SOLO.members, 1) == 0 && IndexOf(SOLO.members, 2) == -1;
    assert SOLO.Top() == Member(1, AGAIN) && IsAncestor(Root, AGAIN) && IsAncestor(AGAIN, AGAIN);
    assert LandedPrs(c.prs, SOLO) == LANDED.prs;
  }

  /** Stacked with another that then lost its label, landed alone, and listed
      when the other is labelled again: the stale stack names a landed pull
      request. */
  lemma ForgetsInstance() returns (worlds: seq<World>, steps: seq<Step>)
    ensures Run(worlds, steps)
    ensures var w := worlds[|steps|];
            && Calm(w) && 1 in w.prs && w.prs[1].labelled && w.prs[1].AlreadyLanded() && Stale(w, 2)
            && 1 in NumbersOf(w, 2)
  {
    hide Next, Enabled;
    worlds, steps := ReachPair();
    var a := APART.(job := Some(Job(SOLO, [[Own(FIRST, Root)]], [FIRST], 0)), nextId := 5);
    var b := a.(job := Some(Job(SOLO, [[Own(FIRST, Root)]], [FIRST], 1)),
                prs := map[1 := Plainly1(FIRST, true, MARKED), 2 := Plainly1(SECOND, false, UPPER)]);
    var c := World(Root, Root, map[1 := Plainly1(AGAIN, true, MARKED), 2 := Plainly1(SECOND, false, UPPER)], 5, None);
    Labels();
    BeginSolo();
    WriteSolo(a, b);
    PushSolo(b, c);
    LandSolo(c);
    worlds, steps := OneMore(worlds, steps, SetLabel(2, false));
    worlds, steps := OneMore(worlds, steps, Begin([1], 0));
    worlds, steps := OneMore(worlds, steps, WriteNext);
    worlds, steps := OneMore(worlds, steps, Step.Push);
    worlds, steps := OneMore(worlds, steps, Step.Advance(1));
    worlds, steps := OneMore(worlds, steps, SetLabel(2, true));
  }

  lemma Labels()
    ensures Enabled(PAIR, SetLabel(2, false)) && Next(PAIR, SetLabel(2, false)) == APART
    ensures Enabled(LANDED, SetLabel(2, true))
    ensures var w := Next(LANDED, SetLabel(2, true));
            && Calm(w) && 1 in w.prs && w.prs[1].labelled && w.prs[1].AlreadyLanded() && Stale(w, 2)
            && 1 in NumbersOf(w, 2)
  {
    assert Next(PAIR, SetLabel(2, false)).prs == APART.prs;
    assert BOTH.Numbers() == [1, 2];
  }

  /** And wherever that is so, the plan abandons the stale stack and tells the
      landed pull request that it waits again. */
  lemma AbandonNames(w: World, order: seq<int>, gh: GitHub, cfg: Config, now: int, t: int, p: int)
    requires Tidy(w) && Listing(w, order) && Stale(w, t) && p in NumbersOf(w, t)
    requires p in w.prs && w.prs[p].labelled && w.prs[p].AlreadyLanded()
    ensures var stack := w.prs[t].comment.stack.value;
            exists reason, prs :: p in prs
              && P.Abandon(stack, reason, prs) in P.Plan(SnapshotOf(w, order, gh, cfg, now), cfg.batch)
    ensures forall clean: seq<int> -> bool ::
              var w' := QuietTick(w, order, gh, cfg, now, clean); p in w'.prs && !w'.prs[p].AlreadyLanded()
  {
    hide Tidy, P.StaleReason, Live, P.Unclaimed, QuietTick;
    var snap, tops := SnapshotOf(w, order, gh, cfg, now), Tops(w, order);
    ReadsTidy(w, order, gh, cfg, now);
    var i :| 0 <= i < |tops| && tops[i] == t;
    var ns := NumbersOf(w, t);
    assert P.Verdict(snap, i) != P.Fits;
    Q.LandedUnclaimed(w, snap, tops, p);
    UnclaimedMeans(snap, ns, p);
    var action := P.Abandon(snap.stacks[i].stack, P.Verdict(snap, i), P.Unclaimed(snap, ns));
    assert action in P.StackActions(snap, i);
    Torn.TurnInPlan(snap, i, |snap.stacks|, action);
    assert p in action.prs && action in P.Plan(snap, cfg.batch);
    forall clean: seq<int> -> bool
      ensures var w' := QuietTick(w, order, gh, cfg, now, clean); p in w'.prs && !w'.prs[p].AlreadyLanded()
    {
      Q.TickForgets(w, order, gh, cfg, now, clean, p);
      assert P.InStack(snap, p);
    }
  }

  // ---- a measure over eligible pull requests ----

  function EligibleQueue(w: World): set<int> {
    set p | p in w.prs && w.prs[p].labelled && !w.prs[p].AlreadyLanded() && w.prs[p].entry.Eligible()
  }

  /** Work left on the stacks in flight, or on the queue when there is none. */
  ghost function Work(w: World): int {
    if LiveTops(w) == {} then 4 * |EligibleQueue(w)| else StackWork(w, LiveTops(w))
  }

  ghost function StackWork(w: World, tops: set<int>): int
    requires forall p :: p in tops ==> Marked(w, p)
    decreases |tops|
  {
    if exists p :: p in tops then
      var p :| p in tops;
      4 * |NumbersOf(w, p)| - 2 - w.prs[p].comment.stack.value.retry + StackWork(w, tops - {p})
    else 0
  }

  const DRAFT: Entry := READY.(draft := true)
  const MIXED: World := World(Root, Root,
                              map[1 := PullRequest(FIRST, 1, true, DRAFT, Comment([Own(FIRST, Root)], Some(LONE), None)),
                                              2 := Plainly1(RIGHT, true, NOTHING)], 3, None)
  const LONE: Stack := Stack(Root, [Member(1, FIRST)], 0, 0)
  const LANDS: World := World(FIRST, FIRST, map[1 := PullRequest(FIRST, 1, true, DRAFT, Comment([], None, Some(FIRST))),
                                                2 := Plainly1(RIGHT, true, NOTHING)], 3, None)

  lemma MixedReads()
    ensures Listing(MIXED, [1, 2]) && Tops(MIXED, [1, 2]) == [1] && Live(MIXED, 1)
    ensures var snap := SnapshotOf(MIXED, [1, 2], SILENT, UNCHECKED, 0);
            && |snap.stacks| == 1 && snap.stacks[0].stack == LONE && !snap.stacks[0].landed
            && snap.stacks[0].state.Success?
            && P.StaleReason(LONE, snap.target, P.ByNumber(snap.queued)) == P.Fits
            && snap.queued == [QueuedOf(MIXED, 1), QueuedOf(MIXED, 2)] && snap.target == Root && snap.now == 0
  {
    hide LoadInFlight, P.StaleReason, P.ByNumber, InputsOf;
    MixedTops();
    StackRead(MIXED, [1, 2], SILENT, UNCHECKED, 0, 0);
    assert Checks.StatusOf([], NoRuns(FIRST), InputsOf(SILENT, UNCHECKED, LONE, 0)).state.Success?;
  }

  lemma MixedTops()
    ensures Listing(MIXED, [1, 2]) && Tops(MIXED, [1, 2]) == [1] && Live(MIXED, 1)
  {
    assert [1, 2][..1] == [1] && [1][..0] == [];
    assert Tops(MIXED, []) == [];
    assert Tops(MIXED, [1]) == [1];
  }

  lemma MixedPlan(snap: P.Snapshot)
    requires |snap.stacks| == 1 && snap.stacks[0].stack == LONE && !snap.stacks[0].landed
    requires snap.stacks[0].state.Success?
    requires P.StaleReason(LONE, snap.target, P.ByNumber(snap.queued)) == P.Fits
    requires snap.queued == [QueuedOf(MIXED, 1), QueuedOf(MIXED, 2)] && snap.now == 0
    ensures P.Plan(snap, 1) == [P.Advance(LONE), P.Tell(2, P.Position(1, 1))]
  {
    hide P.StaleReason;
    assert LONE.Numbers() == [1];
    assert P.FirstGreen(snap, 0) < 0 && P.FirstGreen(snap, 1) == 0;
    assert P.StacksActions(snap, 0) == [] && P.StackActions(snap, 0) == [P.Advance(LONE)];
    assert P.StacksActions(snap, 1) == [P.Advance(LONE)];
    assert P.InStack(snap, 1) && !P.InStack(snap, 2);
    assert P.Candidates(snap, 0) == [] && P.Candidates(snap, 1) == [];
    assert P.Candidates(snap, 2) == [2];
    assert P.NotEligibleTells(snap, 0) == [] && P.NotEligibleTells(snap, 1) == [];
    assert P.NotEligibleTells(snap, 2) == [];
    assert P.Taken(snap, 1) == 0 && [2][0..] == [2];
    assert P.PositionTells([2], 0) == [] && P.PositionTells([2], 1) == [P.Tell(2, P.Position(1, 1))];
  }

  lemma MixedTick(clean: seq<int> -> bool)
    ensures Listing(MIXED, [1, 2]) && QuietTick(MIXED, [1, 2], SILENT, UNCHECKED, 0, clean) == LANDS
  {
    hide SnapshotOf;
    MixedReads();
    MixedPlan(SnapshotOf(MIXED, [1, 2], SILENT, UNCHECKED, 0));
    var a, b := P.Advance(LONE), P.Tell(2, P.Position(1, 1));
    assert [a, b][..1] == [a] && [a][..0] == [];
    assert ActAll(MIXED, [], 0, clean) == MIXED;
    MixedLands();
    assert ActAll(MIXED, [a], 0, clean) == LANDS;
    assert Act(LANDS, b, 0, clean) == LANDS;
    assert MIXED.(seen := MIXED.target) == MIXED;
  }

  lemma MixedLands()
    ensures FastForward(MIXED, LONE) == LANDS
    ensures WithComment(LANDS, 2, PlainComment([])) == LANDS
  {
    assert LONE.Top() == Member(1, FIRST) && IsAncestor(Root, FIRST);
    assert IndexOf(LONE.members, 1) == 0 && IndexOf(LONE.members, 2) == -1;
    assert LandedPrs(MIXED.prs, LONE) == LANDS.prs;
  }

  /** A draft in a live stack lands: as many eligible pull requests wait as
      before, and more work counts as left. */
  lemma EligibleDoesNotFall(clean: seq<int> -> bool)
    ensures Listing(MIXED, [1, 2])
    ensures var w' := QuietTick(MIXED, [1, 2], SILENT, UNCHECKED, 0, clean);
            |EligibleQueue(w')| == |EligibleQueue(MIXED)| && Work(w') > Work(MIXED)
  {
    MixedTick(clean);
    MixedReads();
    assert EligibleQueue(MIXED) == {2} && EligibleQueue(LANDS) == {2};
    assert LiveTops(LANDS) == {} && LiveTops(MIXED) == {1};
    assert LONE.Numbers() == [1] && {1} - {1} == {};
    assert StackWork(MIXED, {1}) == 2 + StackWork(MIXED, {});
  }

  /** And that world is reached. */
  lemma ReachMixed() returns (worlds: seq<World>, steps: seq<Step>)
    ensures Run(worlds, steps) && worlds[|steps|] == MIXED
  {
    hide Next, Enabled;
    worlds, steps := OpenBoth();
    var a := OPENED.(job := Some(Job(LONE, [[]], [LEFT], 0)), nextId := 3);
    var noted := PullRequest(LEFT, 1, true, READY, Comment([Own(FIRST, Root)], Some(LONE), None));
    var b := a.(job := Some(Job(LONE, [[]], [LEFT], 1)), prs := map[1 := noted, 2 := Plainly1(RIGHT, true, NOTHING)]);
    var c := World(Root, Root, map[1 := noted.(head := FIRST), 2 := Plainly1(RIGHT, true, NOTHING)], 3, None);
    BeginLone();
    WriteLone(a, b);
    PushLone(b, c);
    worlds, steps := OneMore(worlds, steps, Begin([1], 0));
    worlds, steps := OneMore(worlds, steps, WriteNext);
    worlds, steps := OneMore(worlds, steps, Step.Push);
    worlds, steps := OneMore(worlds, steps, SetEntry(1, DRAFT));
  }

  lemma BeginLone()
    ensures Enabled(OPENED, Begin([1], 0))
    ensures Next(OPENED, Begin([1], 0)) == OPENED.(job := Some(Job(LONE, [[]], [LEFT], 0)), nextId := 3)
  {
    hide Build, Commits;
    BuildLone();
    var job := NewJob(OPENED, [1], 0);
    assert job.keeps == [[]] && job.expected == [LEFT];
  }

  lemma BuildLone()
    ensures Build(OPENED.prs, [1], Root, Root, 2) == [Member(1, FIRST)] && Commits(OPENED.prs, [1], Root) == 1
  {
    hide Build, Commits;
    LoneOwn();
    QueueRebase.BuildFirst(OPENED.prs, [1], Root, Root, 2);
    QueueRebase.BuildNothing(OPENED.prs, Root, FIRST, 3);
    assert [1][1..] == [];
  }

  lemma LoneOwn()
    ensures OwnPatches(OPENED.prs[1], Root) == [Patch(1, 0)] && Replay(Root, [Patch(1, 0)], 2) == FIRST
  {
    assert [Patch(1, 0)][..0] == [];
  }

  lemma WriteLone(a: World, b: World)
    requires a == OPENED.(job := Some(Job(LONE, [[]], [LEFT], 0)), nextId := 3)
    requires b == a.(job := Some(Job(LONE, [[]], [LEFT], 1)),
                     prs := map[1 := PullRequest(LEFT, 1, true, READY, Comment([Own(FIRST, Root)], Some(LONE), None)),
                                2 := Plainly1(RIGHT, true, NOTHING)])
    ensures Enabled(a, WriteNext) && Next(a, WriteNext) == b
  {
    assert [StackOwn(LONE, 0)] + [] == [Own(FIRST, Root)];
    assert StackComment(LONE, 0, []) == Comment([Own(FIRST, Root)], Some(LONE), None);
  }

  lemma PushLone(b: World, c: World)
    requires var noted := PullRequest(LEFT, 1, true, READY, Comment([Own(FIRST, Root)], Some(LONE), None));
             && b == World(Root, Root, map[1 := noted, 2 := Plainly1(RIGHT, true, NOTHING)], 3, Some(Job(LONE, [[]], [LEFT], 1)))
             && c == World(Root, Root, map[1 := noted.(head := FIRST), 2 := Plainly1(RIGHT, true, NOTHING)], 3, None)
    ensures Enabled(b, Step.Push) && Next(b, Step.Push) == c && Enabled(c, SetEntry(1, DRAFT))
    ensures Next(c, SetEntry(1, DRAFT)) == MIXED
  {
    assert IndexOf(LONE.members, 1) == 0 && IndexOf(LONE.members, 2) == -1;
    assert PushedPrs(b.prs, LONE) == c.prs;
    assert Next(c, SetEntry(1, DRAFT)).prs == MIXED.prs;
  }
}
