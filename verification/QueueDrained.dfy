/**
 Where draining ends. A tick that reads no stack whose checks are still
 running either resolves or forms a stack, which only a bounded number of
 ticks can do, or finds every pull request that may be stacked landed.
 */
module QueueDrained {
  import opened Queue
  import opened QueueWorld
  import opened QueueStacks
  import opened QueueTick
  import opened QueueTickSafety
  import opened QueueDrainForm
  import opened QueueDrainStacks
  import opened QueueDrainTurns
  import opened QueueDrain
  import opened QueueRuns
  import opened QueueWholeTick
  import QueueDrainFailure
  import D = QueueDrain
  import P = QueuePlan

  /** No stack is in flight, and every queued pull request that may be
      stacked has landed. */
  predicate Drained(w: World) {
    forall p :: p in w.prs && w.prs[p].labelled ==>
      w.prs[p].comment.stack.None? && (w.prs[p].entry.Eligible() ==> w.prs[p].AlreadyLanded())
  }

  /** No stack the tick reads still waits for its checks. */
  predicate AllReported(snap: P.Snapshot) {
    forall i :: 0 <= i < |snap.stacks| ==> !P.Waiting(snap, i)
  }

  /** A tick that neither resolves nor forms a stack, with no checks running,
      has no stack at all. */
  lemma NothingInFlight(w: World, order: seq<int>, gh: GitHub, cfg: Config, now: int)
    requires Tidy(w) && Listing(w, order)
    requires var snap := SnapshotOf(w, order, gh, cfg, now); AllReported(snap) && !Moves(snap, cfg.batch)
    ensures Tops(w, order) == []
  {
    var snap := SnapshotOf(w, order, gh, cfg, now);
    var tops := Tops(w, order);
    assert |snap.stacks| == |tops|;
    forall i | 0 <= i < |snap.stacks| ensures !P.Claims(snap, i) {
      assert !Resolves(snap, i);
    }
    if tops != [] {
      TopInStack(w, tops[0]);
      assert Resolves(snap, 0);
    }
  }

  /** Such a tick finds the queue drained. */
  lemma RestIsDrained(w: World, order: seq<int>, gh: GitHub, cfg: Config, now: int)
    requires Tidy(w) && Listing(w, order) && cfg.batch > 0
    requires var snap := SnapshotOf(w, order, gh, cfg, now); AllReported(snap) && !Moves(snap, cfg.batch)
    ensures Drained(w)
  {
    hide Tidy, Moves, AllReported;
    TidyMarkers(w);
    NothingInFlight(w, order, gh, cfg, now);
    forall p | p in w.prs && w.prs[p].labelled ensures w.prs[p].comment.stack.None? {
      if w.prs[p].comment.stack.Some? { MarkedIsTop(w, order, p); }
    }
    forall p | p in w.prs && w.prs[p].labelled && w.prs[p].entry.Eligible() ensures w.prs[p].AlreadyLanded() {
      IdleMeansDrained(w, order, gh, cfg, now, p);
    }
  }

  /** Once drained, a queue stays drained. */
  lemma DrainedStays(w: World, order: seq<int>, gh: GitHub, cfg: Config, now: int, clean: seq<int> -> bool)
    requires Tidy(w) && Listing(w, order) && Drained(w)
    ensures Drained(QuietTick(w, order, gh, cfg, now, clean))
  {
    hide Tidy;
    var snap := SnapshotOf(w, order, gh, cfg, now);
    var w' := QuietTick(w, order, gh, cfg, now, clean);
    TidyCalm(w);
    TidyMarkers(w);
    NoCandidates(w, order, gh, cfg, now, |snap.queued|);
    NoTops(w, order);
    PlanState(w, snap, cfg.batch, clean);
    assert AfterStacks(w, snap, 0, clean) == w;
    AfterTells(w, w, order, gh, cfg, now, clean);
    assert Alike(w, w');
  }

  lemma TidyMarkers(w: World)
    requires Tidy(w)
    ensures MarkersOwn(w)
  {
  }

  lemma {:induction false} NoCandidates(w: World, order: seq<int>, gh: GitHub, cfg: Config, now: int, n: nat)
    requires Listing(w, order) && Drained(w) && n <= |SnapshotOf(w, order, gh, cfg, now).queued|
    ensures P.Candidates(SnapshotOf(w, order, gh, cfg, now), n) == []
  {
    if n > 0 {
      NoCandidates(w, order, gh, cfg, now, n - 1);
      assert SnapshotOf(w, order, gh, cfg, now).queued[n - 1] == QueuedOf(w, order[n - 1]);
    }
  }

  lemma {:induction false} NoTops(w: World, order: seq<int>)
    requires forall p :: p in order ==> p in w.prs && w.prs[p].comment.stack.None?
    ensures Tops(w, order) == []
  {
    if order != [] { NoTops(w, order[..|order| - 1]); }
  }

  // ---- over a run ----

  predicate DrainedFrom(worlds: seq<World>, i: nat) {
    forall k :: i <= k < |worlds| ==> Drained(worlds[k])
  }

  ghost predicate ReportedAt(worlds: seq<World>, ticks: seq<Tick>, cfg: Config, i: nat)
    requires QuietRun(worlds, ticks, cfg) && i < |ticks|
  {
    AllReported(SnapshotOf(worlds[i], ticks[i].order, ticks[i].gh, cfg, ticks[i].now))
  }

  /** How many of the first n ticks read no stack that still waits. */
  ghost function Reported(worlds: seq<World>, ticks: seq<Tick>, cfg: Config, n: nat): nat
    requires QuietRun(worlds, ticks, cfg) && n <= |ticks|
  {
    if n == 0 then 0
    else Reported(worlds, ticks, cfg, n - 1) + if ReportedAt(worlds, ticks, cfg, n - 1) then 1 else 0
  }

  lemma {:induction false} RestFound(worlds: seq<World>, ticks: seq<Tick>, cfg: Config, n: nat) returns (i: nat)
    requires QuietRun(worlds, ticks, cfg) && n <= |ticks|
    requires Reported(worlds, ticks, cfg, n) > Moving(worlds, ticks, cfg, n)
    ensures i < n && ReportedAt(worlds, ticks, cfg, i) && !MovesAt(worlds, ticks, cfg, i)
  {
    hide MovesAt, ReportedAt, QuietRun;
    if ReportedAt(worlds, ticks, cfg, n - 1) && !MovesAt(worlds, ticks, cfg, n - 1) {
      i := n - 1;
    } else {
      i := RestFound(worlds, ticks, cfg, n - 1);
    }
  }

  lemma {:induction false} StaysDrained(worlds: seq<World>, ticks: seq<Tick>, cfg: Config, i: nat, k: nat)
    requires QuietRun(worlds, ticks, cfg) && i <= k <= |ticks| && Tidy(worlds[0]) && Drained(worlds[i])
    ensures Drained(worlds[k])
  {
    hide Tidy, Drained, QuietRun;
    RunLength(worlds, ticks, cfg);
    if i < k {
      StaysDrained(worlds, ticks, cfg, i, k - 1);
      RunFalls(worlds, ticks, cfg, k - 1, |D.Open(worlds[0])|);
      DrainedAt(worlds, ticks, cfg, k - 1);
    }
  }

  lemma RunLength(worlds: seq<World>, ticks: seq<Tick>, cfg: Config)
    requires QuietRun(worlds, ticks, cfg)
    ensures |worlds| == |ticks| + 1
  {
  }

  lemma DrainedAt(worlds: seq<World>, ticks: seq<Tick>, cfg: Config, i: nat)
    requires QuietRun(worlds, ticks, cfg) && i < |ticks| && Tidy(worlds[i]) && Drained(worlds[i])
    ensures Drained(worlds[i + 1])
  {
    hide Tidy, Drained;
    var t := ticks[i];
    DrainedStays(worlds[i], t.order, t.gh, cfg, t.now, t.clean);
  }

  /** With n pull requests queued or named by stale stacks: once more than
      n (4 n + 5) quiet ticks have found no checks running, every queued pull
      request that may be stacked has landed, and from then on it stays so. */
  lemma QueueIsDrained(worlds: seq<World>, ticks: seq<Tick>, cfg: Config)
    requires QuietRun(worlds, ticks, cfg) && Tidy(worlds[0]) && cfg.batch > 0
    requires Reported(worlds, ticks, cfg, |ticks|) > MostMoves(|D.Open(worlds[0])|)
    ensures exists i :: 0 <= i < |ticks| && DrainedFrom(worlds, i)
  {
    hide Tidy, MovesAt, ReportedAt, D.Open, Rank, Drained, QuietRun, MostMoves;
    RunLength(worlds, ticks, cfg);
    var n := |D.Open(worlds[0])|;
    RunFalls(worlds, ticks, cfg, |ticks|, n);
    RankBound(worlds[0], n);
    RankBound(worlds[|ticks|], n);
    var i := RestFound(worlds, ticks, cfg, |ticks|);
    RunFalls(worlds, ticks, cfg, i, n);
    RestAt(worlds, ticks, cfg, i);
    forall k | i <= k < |worlds| ensures Drained(worlds[k]) { StaysDrained(worlds, ticks, cfg, i, k); }
    assert DrainedFrom(worlds, i);
  }

  lemma RestAt(worlds: seq<World>, ticks: seq<Tick>, cfg: Config, i: nat)
    requires QuietRun(worlds, ticks, cfg) && cfg.batch > 0 && i < |ticks| && Tidy(worlds[i])
    requires ReportedAt(worlds, ticks, cfg, i) && !MovesAt(worlds, ticks, cfg, i)
    ensures Drained(worlds[i])
  {
    hide Tidy, Moves, AllReported, Drained;
    var t := ticks[i];
    RestIsDrained(worlds[i], t.order, t.gh, cfg, t.now);
  }

  // ---- landings cut short ----

  /** One of the first k stacks that names q landed, or nobody else claims q. */
  predicate Cleared(snap: P.Snapshot, k: nat, q: int) {
    exists i :: 0 <= i < k && i < |snap.stacks| && q in snap.stacks[i].stack.Numbers()
      && (snap.stacks[i].landed || !P.Claimed(snap, q))
  }

  ghost predicate HandledAt(w0: World, w: World, snap: P.Snapshot, k: nat, q: int)
    requires q in w0.prs && q in w.prs
  {
    && w.prs[q] == w0.prs[q].(comment := w.prs[q].comment)
    && (w.prs[q].comment.stack.Some? ==> w.prs[q].comment == w0.prs[q].comment)
    && (!InFirst(snap, k, q) ==> w.prs[q] == w0.prs[q])
    && (w.prs[q].labelled && Cleared(snap, k, q) ==> w.prs[q].comment.stack.None?)
  }

  /** After the first k turns. */
  ghost predicate Handled(w0: World, w: World, snap: P.Snapshot, k: nat) {
    w == w0.(prs := w.prs) && w.prs.Keys == w0.prs.Keys && forall q :: q in w0.prs ==> HandledAt(w0, w, snap, k, q)
  }

  lemma HandledNext(w0: World, w: World, snap: P.Snapshot, k: nat, clean: seq<int> -> bool)
    requires Handled(w0, w, snap, k) && k < |snap.stacks|
    requires !snap.stacks[k].landed ==> !P.Claims(snap, k)
    ensures Handled(w0, ActAll(w, P.StackActions(snap, k), snap.now, clean), snap, k + 1)
  {
    hide P.Claims, P.Verdict, P.Claimed;
    var stack := snap.stacks[k].stack;
    var w' := ActAll(w, P.StackActions(snap, k), snap.now, clean);
    if snap.stacks[k].landed {
      QueueDrainFailure.ActOne(w, P.Record(stack), snap.now, clean);
    } else {
      AbandonTurn(w, snap, k, clean);
      TellAllShape(w, P.Unclaimed(snap, stack.Numbers()));
    }
    forall q | q in w0.prs ensures HandledAt(w0, w', snap, k + 1, q) {
      assert HandledAt(w0, w, snap, k, q);
      UnclaimedMeans(snap, stack.Numbers(), q);
      NamedIn(stack, q);
      ClearedNext(snap, k, q);
    }
  }

  lemma ClearedNext(snap: P.Snapshot, k: nat, q: int)
    requires k < |snap.stacks|
    ensures InFirst(snap, k + 1, q) <==> InFirst(snap, k, q) || q in snap.stacks[k].stack.Numbers()
    ensures Cleared(snap, k + 1, q) <==>
            || Cleared(snap, k, q)
            || (q in snap.stacks[k].stack.Numbers() && (snap.stacks[k].landed || !P.Claimed(snap, q)))
  {
    hide P.Claimed;
  }

  lemma {:induction false} StacksHandled(w0: World, snap: P.Snapshot, k: nat, clean: seq<int> -> bool)
    requires k <= |snap.stacks|
    requires forall i :: 0 <= i < |snap.stacks| && !snap.stacks[i].landed ==> !P.Claims(snap, i)
    ensures Handled(w0, AfterStacks(w0, snap, k, clean), snap, k)
  {
    hide P.Claims, P.StackActions;
    if k == 0 {
      assert AfterStacks(w0, snap, 0, clean) == w0;
    } else {
      StacksHandled(w0, snap, k - 1, clean);
      StacksState(w0, snap, k, clean);
      HandledNext(w0, AfterStacks(w0, snap, k - 1, clean), snap, k - 1, clean);
    }
  }

  /** The first tick tells every member of a landed stack and gives the other
      stacks up. */
  lemma CutCleared(w: World, order: seq<int>, gh: GitHub, cfg: Config, now: int, p: int)
    requires Cut(w) && Listing(w, order) && Marked(w, p) && w.prs[p].labelled
    ensures var snap := SnapshotOf(w, order, gh, cfg, now); Cleared(snap, |snap.stacks|, p)
  {
    hide P.Claims, SnapshotOf;
    var snap, tops := SnapshotOf(w, order, gh, cfg, now), Tops(w, order);
    MarkedIsTop(w, order, p);
    var i :| 0 <= i < |tops| && tops[i] == p;
    CutReads(w, order, gh, cfg, now, i);
    if P.Claimed(snap, p) {
      var j :| 0 <= j < |snap.stacks| && P.Claims(snap, j) && p in snap.stacks[j].stack.Numbers();
      CutReads(w, order, gh, cfg, now, j);
    }
  }

  /** A tick that finds landings cut short, however many, or stale stacks, and
      no stack to test, leaves no stack and a queue that drains. */
  lemma CutTick(w: World, order: seq<int>, gh: GitHub, cfg: Config, now: int, clean: seq<int> -> bool)
    requires Cut(w) && Listing(w, order) && Tops(w, order) != []
    ensures var w' := QuietTick(w, order, gh, cfg, now, clean);
            && Tidy(w') && w'.prs.Keys == w.prs.Keys
            && forall q :: q in w.prs ==>
                 w'.prs[q].labelled == w.prs[q].labelled && (w'.prs[q].labelled ==> w'.prs[q].comment.stack.None?)
  {
    hide Tidy, P.Claims, P.StackActions, Cleared;
    var snap, tops := SnapshotOf(w, order, gh, cfg, now), Tops(w, order);
    forall i | 0 <= i < |snap.stacks| ensures P.Claims(snap, i) <==> snap.stacks[i].landed {
      CutReads(w, order, gh, cfg, now, i);
    }
    CutReads(w, order, gh, cfg, now, 0);
    PlanState(w, snap, cfg.batch, clean);
    StacksHandled(w, snap, |snap.stacks|, clean);
    var w1 := AfterStacks(w, snap, |snap.stacks|, clean);
    forall q | q in w.prs && w1.prs[q].labelled ensures w1.prs[q].comment.stack.None? {
      assert HandledAt(w, w1, snap, |snap.stacks|, q);
      if Marked(w, q) { CutCleared(w, order, gh, cfg, now, q); }
    }
    HandledIdle(w, w1, snap);
    NoMarkersTidy(w, w1, snap);
    AfterTells(w, w1, order, gh, cfg, now, clean);
    AlikeSame(w1, QuietTick(w, order, gh, cfg, now, clean));
  }

  lemma HandledIdle(w: World, w1: World, snap: P.Snapshot)
    requires Handled(w, w1, snap, |snap.stacks|)
    ensures IdleSame(w, w1, snap)
  {
    forall q | q in w.prs && !P.InStack(snap, q) ensures w1.prs[q] == w.prs[q] {
      assert HandledAt(w, w1, snap, |snap.stacks|, q);
    }
  }

  lemma NoMarkersTidy(w: World, w1: World, snap: P.Snapshot)
    requires Cut(w) && Handled(w, w1, snap, |snap.stacks|)
    requires forall q :: q in w.prs && w1.prs[q].labelled ==> w1.prs[q].comment.stack.None?
    ensures Tidy(w1)
  {
    forall q | q in w1.prs && w1.prs[q].comment.stack.Some? ensures Marked(w1, q) && !w1.prs[q].labelled {
      assert HandledAt(w, w1, snap, |snap.stacks|, q);
    }
  }

  // ---- from wherever a tick left the queue ----

  function Queued(w: World): set<int> {
    set p | p in w.prs && w.prs[p].labelled
  }

  lemma FirstTick(worlds: seq<World>, ticks: seq<Tick>, cfg: Config)
    requires QuietRun(worlds, ticks, cfg) && ticks != [] && Cut(worlds[0]) && !Tidy(worlds[0])
    ensures Tidy(worlds[1]) && Queued(worlds[1]) == Queued(worlds[0])
  {
    hide Tidy;
    var w, t := worlds[0], ticks[0];
    if Tops(w, t.order) == [] { EmptyTidy(w, t.order); }
    CutTick(w, t.order, t.gh, cfg, t.now, t.clean);
    forall q ensures q in Queued(worlds[1]) <==> q in Queued(w) {}
  }

  lemma QueuedBound(w: World)
    ensures |D.Open(w)| <= |Queued(w)|
  {
    Cardinality(D.Open(w), Queued(w));
  }

  lemma BoundMono(m: nat, n: nat)
    requires m <= n
    ensures MostMoves(m) <= MostMoves(n)
  {
    assert m * (4 * m + 5) <= n * (4 * m + 5) <= n * (4 * n + 5);
  }

  lemma {:induction false} TailCounts(worlds: seq<World>, ticks: seq<Tick>, cfg: Config, n: nat)
    requires 0 < n <= |ticks| && |worlds| > 0
    requires QuietRun(worlds, ticks, cfg) && QuietRun(worlds[1..], ticks[1..], cfg)
    ensures Moving(worlds, ticks, cfg, n) <= 1 + Moving(worlds[1..], ticks[1..], cfg, n - 1)
    ensures Reported(worlds, ticks, cfg, n) <= 1 + Reported(worlds[1..], ticks[1..], cfg, n - 1)
  {
    hide Moves, AllReported, SnapshotOf;
    if n > 1 { TailCounts(worlds, ticks, cfg, n - 1); }
  }

  lemma TailRun(worlds: seq<World>, ticks: seq<Tick>, cfg: Config)
    requires QuietRun(worlds, ticks, cfg) && ticks != []
    ensures QuietRun(worlds[1..], ticks[1..], cfg)
  {
    hide QuietTick;
    forall i | 0 <= i < |ticks[1..]|
      ensures Listing(worlds[1..][i], ticks[1..][i].order)
      ensures var t := ticks[1..][i];
              worlds[1..][i + 1] == QuietTick(worlds[1..][i], t.order, t.gh, cfg, t.now, t.clean)
    {
      assert ticks[1..][i] == ticks[i + 1] && worlds[1..][i] == worlds[i + 1] && worlds[1..][i + 1] == worlds[i + 2];
    }
  }

  /** With n pull requests queued, wherever the last tick left them: at most
      n (4 n + 5) + 1 quiet ticks resolve or form a stack; and once more quiet
      ticks than that have found no checks running, every queued pull request
      that may be stacked has landed, and it stays so. */
  lemma DrainsFromAnywhere(worlds: seq<World>, ticks: seq<Tick>, cfg: Config)
    requires QuietRun(worlds, ticks, cfg) && Between(worlds[0])
    ensures var n := |Queued(worlds[0])|;
            && Moving(worlds, ticks, cfg, |ticks|) <= MostMoves(n) + 1
            && (cfg.batch > 0 && Reported(worlds, ticks, cfg, |ticks|) > MostMoves(n) + 1 ==>
                  exists i :: 0 <= i < |worlds| && DrainedFrom(worlds, i))
  {
    hide Tidy, Cut, D.Open, QuietRun, MovesAt, ReportedAt, Drained, MostMoves;
    RunLength(worlds, ticks, cfg);
    var n := |Queued(worlds[0])|;
    if Tidy(worlds[0]) {
      DrainsTidy(worlds, ticks, cfg, n);
    } else if ticks != [] {
      var rest, later := worlds[1..], ticks[1..];
      FirstTick(worlds, ticks, cfg);
      TailRun(worlds, ticks, cfg);
      TailCounts(worlds, ticks, cfg, |ticks|);
      DrainsTidy(rest, later, cfg, n);
      if i :| 0 <= i < |rest| && DrainedFrom(rest, i) {
        forall k | i + 1 <= k < |worlds| ensures Drained(worlds[k]) { assert worlds[k] == rest[k - 1]; }
        assert DrainedFrom(worlds, i + 1);
      }
    }
  }

  lemma DrainsTidy(worlds: seq<World>, ticks: seq<Tick>, cfg: Config, n: nat)
    requires QuietRun(worlds, ticks, cfg) && |worlds| > 0 && Tidy(worlds[0]) && n == |Queued(worlds[0])|
    ensures Moving(worlds, ticks, cfg, |ticks|) <= MostMoves(n)
    ensures cfg.batch > 0 && Reported(worlds, ticks, cfg, |ticks|) > MostMoves(n) ==>
              exists i :: 0 <= i < |worlds| && DrainedFrom(worlds, i)
  {
    hide Tidy, D.Open, QuietRun, MovesAt, ReportedAt, Drained, MostMoves;
    RunLength(worlds, ticks, cfg);
    QueuedBound(worlds[0]);
    BoundMono(|D.Open(worlds[0])|, n);
    QueueDrains(worlds, ticks, cfg);
    if cfg.batch > 0 && Reported(worlds, ticks, cfg, |ticks|) > MostMoves(n) {
      QueueIsDrained(worlds, ticks, cfg);
    }
  }

  // ---- every world a sound tick starts from is one of these ----

  /** The queued pull requests are alike in both: only comment texts and
      pull requests outside the queue differ. */
  predicate QueueAlike(w: World, w': World) {
    && w' == w.(prs := w'.prs) && w'.prs.Keys == w.prs.Keys
    && forall q :: q in w.prs ==>
         && w'.prs[q] == w.prs[q].(comment := w'.prs[q].comment)
         && (w.prs[q].labelled ==>
               && w'.prs[q].comment.stack == w.prs[q].comment.stack
               && w'.prs[q].AlreadyLanded() == w.prs[q].AlreadyLanded())
  }

  lemma AlikeInQueue(w: World, w': World)
    requires QueueAlike(w, w') && Tidy(w) && MarkersOwn(w')
    ensures Tidy(w')
  {
    hide Frozen;
    forall p ensures Live(w', p) <==> Live(w, p) {}
    forall p ensures Stale(w', p) <==> Stale(w, p) {}
    forall p | Live(w', p) ensures Sturdy(w', p) {
      assert Sturdy(w, p) && NumbersOf(w', p) == NumbersOf(w, p);
    }
    forall p | Stale(w', p) ensures Frozen(w', w'.prs[p].comment.stack.value) {
      FrozenAlike(w, w', w.prs[p].comment.stack.value);
    }
    forall p, q, n | Live(w', p) && Live(w', q) && p != q && n in NumbersOf(w', p) ensures n !in NumbersOf(w', q) {
      assert Live(w, p) && Live(w, q);
    }
  }

  lemma FrozenAlike(w: World, w': World, stack: Stack)
    requires QueueAlike(w, w') && Frozen(w, stack)
    ensures Frozen(w', stack)
  {
  }

  lemma ReachedBetween(f: Fine)
    requires FineInv(f) && Calm(f.world) && Repairable(f)
    ensures Between(f.world)
  {
    hide FineInv, Tidy, OneHidden, NoneHidden, Between;
    var g :| Recalls(f, g) && OthersListed(f, g) && Startable(g);
    MarkersAreOwn(f);
    if NoneHidden(g) {
      SettledAlike(f, g);
      SettledTidy(f);
      AlikeInQueue(Settled(f), f.world);
      TidyBetween(f.world);
    } else {
      var top :| OneHidden(g, top);
      HiddenCut(f, g, top);
    }
  }

  lemma MarkersAreOwn(f: Fine)
    requires FineInv(f)
    ensures MarkersOwn(f.world)
  {
    hide FineInv;
    forall p | p in f.world.prs && f.world.prs[p].comment.stack.Some? ensures Marked(f.world, p) { AllBased(f, p); }
  }

  lemma SettledTidy(f: Fine)
    requires FineInv(f) && Calm(f.world)
    ensures Tidy(Settled(f))
  {
    hide Inv, Tidy;
    SettledSame(f);
    InvTidy(Settled(f));
  }

  lemma SettledAlike(f: Fine, g: Fine)
    requires Recalls(f, g) && NoneHidden(g)
    ensures QueueAlike(Settled(f), f.world)
  {
    SettledSame(f);
    forall q | q in f.world.prs && f.world.prs[q].labelled
      ensures Settled(f).prs[q].comment.stack == f.world.prs[q].comment.stack
      ensures Settled(f).prs[q].AlreadyLanded() == f.world.prs[q].AlreadyLanded()
    {
      if q in f.untold { assert q !in g.untold && Recallable(f, q); }
    }
  }

  lemma TidyBetween(w: World)
    requires Tidy(w)
    ensures Between(w)
  {
  }

  lemma HiddenCut(f: Fine, g: Fine, top: int)
    requires Calm(f.world) && MarkersOwn(f.world) && g.world == f.world && OneHidden(g, top)
    ensures Between(f.world)
  {
  }
}
