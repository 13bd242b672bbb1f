/**
 The queue drains. While nobody else writes, every tick leaves the queue as it
 is, or makes it shorter, or leaves it as long and better tested; so only a
 bounded number of ticks can change anything. Stale markers do not matter: one
 survives a tick exactly while another stack that names its top is tested.
 */
module QueueDrain {
  import opened QueueWorld
  import opened QueueTick
  import opened QueueTickSafety
  import opened QueueDrainForm
  import opened QueueDrainStacks
  import opened QueueDrainTurns
  import QueueDrainFailure
  import P = QueuePlan

  // ---- the measure ----

  /** Queued pull requests that have not landed or that a stale stack may put
      back. */
  ghost function Open(w: World): set<int> {
    InQueue(w, Back(w))
  }

  ghost predicate NotHigher(w': World, w: World) {
    && Open(w') <= Open(w)
    && (Open(w') == Open(w) ==> Score(w') >= Score(w) && StaleTops(w') <= StaleTops(w))
  }

  /** The queue shrank, or it is the same and better tested or freed of a
      stale marker. */
  ghost predicate Lower(w': World, w: World) {
    NotHigher(w', w) && (Open(w') != Open(w) || Score(w') > Score(w) || StaleTops(w') != StaleTops(w))
  }

  /** The tick resolves a stack or forms one. A stale stack is resolved when
      its top is told, which is when no other stack claims it. */
  predicate Moves(snap: P.Snapshot, batch: nat) {
    || P.Taken(snap, batch) > 0
    || exists i :: 0 <= i < |snap.stacks| && Resolves(snap, i)
  }

  predicate Resolves(snap: P.Snapshot, i: nat)
    requires i < |snap.stacks|
  {
    if P.Claims(snap, i) then !P.Waiting(snap, i)
    else snap.stacks[i].stack.members != [] && !P.Claimed(snap, snap.stacks[i].stack.Top().number)
  }

  /** The same target, branches, labels and stack markers. */
  predicate Same(w: World, w': World) {
    && w'.target == w.target && w'.prs.Keys == w.prs.Keys
    && forall q :: q in w.prs ==>
         && w'.prs[q].head == w.prs[q].head && w'.prs[q].labelled == w.prs[q].labelled
         && w'.prs[q].comment.stack == w.prs[q].comment.stack
  }

  // ---- the pull requests a tick only comments on ----

  /** n is queued, has not landed and is in no stack. */
  predicate IdleNumber(snap: P.Snapshot, n: int) {
    exists i :: 0 <= i < |snap.queued| && snap.queued[i].number == n && P.Idle(snap, snap.queued[i])
  }

  predicate IdleTells(snap: P.Snapshot, actions: seq<P.Action>) {
    forall i :: 0 <= i < |actions| ==> actions[i].Tell? && IdleNumber(snap, actions[i].number)
  }

  lemma {:induction false} NotEligibleIdle(snap: P.Snapshot, n: nat)
    requires n <= |snap.queued|
    ensures IdleTells(snap, P.NotEligibleTells(snap, n))
  {
    if n > 0 {
      NotEligibleIdle(snap, n - 1);
      assert P.Idle(snap, snap.queued[n - 1]) ==> IdleNumber(snap, snap.queued[n - 1].number);
    }
  }

  lemma {:induction false} PositionsIdle(snap: P.Snapshot, waiting: seq<int>, n: nat)
    requires n <= |waiting| && forall i :: 0 <= i < |waiting| ==> IdleNumber(snap, waiting[i])
    ensures IdleTells(snap, P.PositionTells(waiting, n))
  {
    if n > 0 { PositionsIdle(snap, waiting, n - 1); }
  }

  lemma {:induction false} CandidatesIdle(snap: P.Snapshot, n: nat)
    requires n <= |snap.queued|
    ensures forall i :: 0 <= i < |P.Candidates(snap, n)| ==> IdleNumber(snap, P.Candidates(snap, n)[i])
  {
    if n > 0 {
      CandidatesIdle(snap, n - 1);
      assert P.Idle(snap, snap.queued[n - 1]) ==> IdleNumber(snap, snap.queued[n - 1].number);
    }
  }

  /** An idle pull request carries no marker and is in no stack. */
  lemma IdleFacts(w: World, order: seq<int>, gh: GitHub, cfg: Config, now: int, n: int)
    requires MarkersOwn(w) && Listing(w, order) && IdleNumber(SnapshotOf(w, order, gh, cfg, now), n)
    ensures n in w.prs && w.prs[n].labelled && Tellable(w, n)
    ensures var snap := SnapshotOf(w, order, gh, cfg, now); !P.InStack(snap, n) && !P.Claimed(snap, n)
  {
    var snap := SnapshotOf(w, order, gh, cfg, now);
    var tops := Tops(w, order);
    var i :| 0 <= i < |snap.queued| && snap.queued[i].number == n && P.Idle(snap, snap.queued[i]);
    forall j | 0 <= j < |tops| ensures n !in NumbersOf(w, tops[j]) {
      assert snap.stacks[j].stack == w.prs[tops[j]].comment.stack.value;
    }
    if Marked(w, n) {
      MarkedIsTop(w, order, n);
      TopInStack(w, n);
    }
  }

  /** What the tick says of idle pull requests, once the stacks had their
      turn, changes nothing that counts. */
  lemma TellsFit(w0: World, w: World, order: seq<int>, gh: GitHub, cfg: Config, now: int, actions: seq<P.Action>)
    requires MarkersOwn(w0) && Listing(w0, order) && IdleTells(SnapshotOf(w0, order, gh, cfg, now), actions)
    requires w.prs.Keys == w0.prs.Keys && IdleSame(w0, w, SnapshotOf(w0, order, gh, cfg, now))
    ensures AllTells(w, actions)
  {
    forall i | 0 <= i < |actions| ensures actions[i].Tell? && Tellable(w, actions[i].number) {
      IdleFacts(w0, order, gh, cfg, now, actions[i].number);
    }
  }

  /** Pull requests of no stack are as they were. */
  predicate IdleSame(w0: World, w: World, snap: P.Snapshot)
    requires w.prs.Keys == w0.prs.Keys
  {
    forall q :: q in w0.prs && !P.InStack(snap, q) && !P.Claimed(snap, q) ==> w.prs[q] == w0.prs[q]
  }

  // ---- the tick in three parts ----

  function Tells(snap: P.Snapshot, batch: nat): seq<P.Action> {
    var waiting := P.Candidates(snap, |snap.queued|)[P.Taken(snap, batch)..];
    P.NotEligibleTells(snap, |snap.queued|) + P.PositionTells(waiting, |waiting|)
  }

  function Group(snap: P.Snapshot, batch: nat): seq<int> {
    P.Candidates(snap, |snap.queued|)[..P.Taken(snap, batch)]
  }

  lemma TellsIdle(snap: P.Snapshot, batch: nat)
    ensures IdleTells(snap, Tells(snap, batch))
    ensures forall i :: 0 <= i < |Group(snap, batch)| ==> IdleNumber(snap, Group(snap, batch)[i])
  {
    var waiting := P.Candidates(snap, |snap.queued|)[P.Taken(snap, batch)..];
    CandidatesIdle(snap, |snap.queued|);
    NotEligibleIdle(snap, |snap.queued|);
    PositionsIdle(snap, waiting, |waiting|);
  }

  lemma PlanState(w: World, snap: P.Snapshot, batch: nat, clean: seq<int> -> bool)
    ensures var told := ActAll(AfterStacks(w, snap, |snap.stacks|, clean), Tells(snap, batch), snap.now, clean);
            ActAll(w, P.Plan(snap, batch), snap.now, clean) ==
            if P.Taken(snap, batch) == 0 then told
            else Act(told, P.Form(Group(snap, batch), snap.target), snap.now, clean)
  {
    var a := P.StacksActions(snap, |snap.stacks|);
    var waiting := P.Candidates(snap, |snap.queued|)[P.Taken(snap, batch)..];
    var b, c := P.NotEligibleTells(snap, |snap.queued|), P.PositionTells(waiting, |waiting|);
    var form := P.Form(Group(snap, batch), snap.target);
    ActConcat(w, a, b + c, snap.now, clean);
    assert a + b + c == a + (b + c);
    if P.Taken(snap, batch) == 0 {
      assert P.Plan(snap, batch) == a + b + c;
    } else {
      ActConcat(w, a + b + c, [form], snap.now, clean);
      QueueDrainFailure.ActOne(ActAll(w, a + b + c, snap.now, clean), form, snap.now, clean);
    }
  }

  // ---- after the stacks' turns ----

  lemma BackShrinks(w: World, w': World)
    requires StaleKept(w', w) && w'.prs.Keys == w.prs.Keys
    ensures Back(w') <= Back(w) && StaleTops(w') <= StaleTops(w)
  {
    forall n | n in w'.prs && InStale(w', n) ensures InStale(w, n) {
      var p :| Stale(w', p) && n in NumbersOf(w', p);
      assert Stale(w, p) && n in NumbersOf(w, p);
    }
  }

  lemma DownIsNotHigher(w: World, w': World)
    requires Down(w', w, Back(w)) && w'.prs.Keys == w.prs.Keys
    ensures NotHigher(w', w) && (Better(w', w, Back(w)) ==> Lower(w', w))
    ensures StaleTops(w') != StaleTops(w) ==> Lower(w', w)
  {
    hide Score, Stale, InStale;
    BackShrinks(w, w');
    assert Open(w') <= InQueue(w', Back(w));
  }

  /** The turns of a tick that lands nothing. */
  lemma MidwayEnds(w0: World, w1: World, snap: P.Snapshot, tops: seq<int>)
    requires Tidy(w0) && Reads(w0, snap, tops) && P.FirstGreen(snap, |snap.stacks|) < 0
    requires Midway(w0, w1, snap, |snap.stacks|)
    ensures NotHigher(w1, w0) && ((exists i :: 0 <= i < |snap.stacks| && Resolves(snap, i)) ==> Lower(w1, w0))
  {
    hide Down, Better, Tidy, InFailed, P.Claims, P.Waiting, P.Claimed, PassedAt, Lower, NotHigher;
    DownIsNotHigher(w0, w1);
    if i :| 0 <= i < |snap.stacks| && Resolves(snap, i) {
      if P.Claims(snap, i) {
        assert SomeFailed(snap, |snap.stacks|);
      } else {
        StaleGone(w0, w1, snap, tops, i);
      }
    }
  }

  lemma StaleGone(w0: World, w1: World, snap: P.Snapshot, tops: seq<int>, i: nat)
    requires Reads(w0, snap, tops) && P.FirstGreen(snap, |snap.stacks|) < 0 && i < |snap.stacks|
    requires !P.Claims(snap, i) && !P.Claimed(snap, snap.stacks[i].stack.Top().number) && w1.prs.Keys == w0.prs.Keys
    requires forall q :: q in w0.prs ==> PassedAt(w0, w1, snap, |snap.stacks|, q)
    ensures StaleTops(w1) != StaleTops(w0)
  {
    var t := tops[i];
    ClaimsLive(w0, snap, tops, i);
    TopInStack(w0, t);
    assert PassedAt(w0, w1, snap, |snap.stacks|, t) && InFirst(snap, |snap.stacks|, t);
    assert t in StaleTops(w0) && t !in StaleTops(w1);
  }

  /** A stale marker survives such turns exactly while a stack that names its
      top is tested. */
  lemma MidwaySurvives(w0: World, w1: World, snap: P.Snapshot, tops: seq<int>, p: int)
    requires Tidy(w0) && Reads(w0, snap, tops) && P.FirstGreen(snap, |snap.stacks|) < 0
    requires Midway(w0, w1, snap, |snap.stacks|) && Stale(w0, p)
    ensures w1.prs[p].comment.stack == w0.prs[p].comment.stack <==> Kept(snap, p)
  {
    hide Down, Better, Tidy, Frozen;
    var n := |snap.stacks|;
    var t :| 0 <= t < |tops| && tops[t] == p;
    TopInStack(w0, p);
    assert PassedAt(w0, w1, snap, n, p) && InFirst(snap, n, p);
    if InFailed(snap, n, p) {
      if w1.prs[p].comment.stack == w0.prs[p].comment.stack { LiveIsFit(w1, p); }
      KeptOrFailed(w0, snap, tops, p);
    } else if P.Claimed(snap, p) {
      var i :| 0 <= i < n && P.Claims(snap, i) && p in snap.stacks[i].stack.Numbers();
      assert P.Waiting(snap, i);
    } else {
      forall i | 0 <= i < n && P.Waiting(snap, i) ensures p !in snap.stacks[i].stack.Numbers() {}
    }
  }

  /** Some stack that names p is still tested after this tick. */
  predicate Kept(snap: P.Snapshot, p: int) {
    exists i :: 0 <= i < |snap.stacks| && P.Waiting(snap, i) && p in snap.stacks[i].stack.Numbers()
  }

  lemma KeptOrFailed(w0: World, snap: P.Snapshot, tops: seq<int>, p: int)
    requires Tidy(w0) && Reads(w0, snap, tops) && P.FirstGreen(snap, |snap.stacks|) < 0
    requires InFailed(snap, |snap.stacks|, p)
    ensures !Kept(snap, p)
  {
    hide P.FirstGreen, Live, P.StaleReason;
    var j :| 0 <= j < |snap.stacks| && P.Claims(snap, j) && !P.Waiting(snap, j) && p in snap.stacks[j].stack.Numbers();
    ClaimsLive(w0, snap, tops, j);
    forall i | 0 <= i < |snap.stacks| && P.Waiting(snap, i) ensures p !in snap.stacks[i].stack.Numbers() {
      ClaimsLive(w0, snap, tops, i);
      assert tops[i] != tops[j] && p in NumbersOf(w0, tops[j]);
    }
  }

  /** Turns that resolve nothing leave everything but comment texts. */
  lemma MidwayRests(w0: World, w1: World, snap: P.Snapshot, tops: seq<int>)
    requires Tidy(w0) && Reads(w0, snap, tops) && P.FirstGreen(snap, |snap.stacks|) < 0
    requires Midway(w0, w1, snap, |snap.stacks|)
    requires forall i :: 0 <= i < |snap.stacks| ==> !Resolves(snap, i)
    ensures Same(w0, w1)
  {
    hide Down, Better, Separate, Reads, Resolves, PassedAt, Live, Fit;
    forall q | q in w0.prs
      ensures w1.prs[q].head == w0.prs[q].head && w1.prs[q].labelled == w0.prs[q].labelled
      ensures w1.prs[q].comment.stack == w0.prs[q].comment.stack
    {
      RestsAt(w0, w1, snap, tops, q);
    }
  }

  lemma RestsAt(w0: World, w1: World, snap: P.Snapshot, tops: seq<int>, q: int)
    requires MarkersOwn(w0) && Reads(w0, snap, tops) && P.FirstGreen(snap, |snap.stacks|) < 0
    requires forall i :: 0 <= i < |snap.stacks| ==> !Resolves(snap, i)
    requires q in w0.prs && q in w1.prs && PassedAt(w0, w1, snap, |snap.stacks|, q)
    ensures w1.prs[q].head == w0.prs[q].head && w1.prs[q].labelled == w0.prs[q].labelled
    ensures w1.prs[q].comment.stack == w0.prs[q].comment.stack
  {
    hide P.Claims, P.Waiting, P.Claimed, Reads, P.FirstGreen;
    forall j | 0 <= j < |snap.stacks| ensures P.Claims(snap, j) ==> P.Waiting(snap, j) {
      assert !Resolves(snap, j);
    }
    if !P.Claimed(snap, q) && w0.prs[q].labelled { UnclaimedRests(w0, snap, tops, q); }
  }

  lemma UnclaimedRests(w0: World, snap: P.Snapshot, tops: seq<int>, q: int)
    requires MarkersOwn(w0) && Reads(w0, snap, tops) && P.FirstGreen(snap, |snap.stacks|) < 0
    requires forall i :: 0 <= i < |snap.stacks| ==> !Resolves(snap, i)
    requires q in w0.prs && w0.prs[q].labelled && !P.Claimed(snap, q)
    ensures w0.prs[q].comment.stack.None?
  {
    forall i | 0 <= i < |tops| ensures tops[i] != q {
      ClaimsLive(w0, snap, tops, i);
      TopInStack(w0, tops[i]);
      assert !Resolves(snap, i);
    }
  }

  /** The turns of a tick that lands a stack leave no marker to read. */
  lemma ClearingEnds(w0: World, w1: World, snap: P.Snapshot, tops: seq<int>)
    requires Tidy(w0) && Reads(w0, snap, tops) && P.FirstGreen(snap, |snap.stacks|) >= 0
    requires var lands := P.FirstGreen(snap, |snap.stacks|);
             snap.stacks[lands].stack.members != [] && Clearing(w0, w1, snap, |snap.stacks|, lands)
    ensures MarkersOwn(w1) && forall p :: p in w1.prs && w1.prs[p].labelled ==> w1.prs[p].comment.stack.None?
    ensures Tidy(w1) && Lower(w1, w0)
  {
    hide P.FirstGreen, ClearedAt, Reads, Open, Tidy;
    TidyMarkers(w0);
    forall p | p in w1.prs
      ensures w1.prs[p].labelled ==> w1.prs[p].comment.stack.None?
      ensures w1.prs[p].comment.stack.Some? ==> Marked(w1, p)
    {
      ClearedMarker(w0, w1, snap, tops, p);
    }
    UnmarkedTidy(w1);
    ClearedQueue(w0, w1, snap, tops);
  }

  lemma TidyMarkers(w: World)
    requires Tidy(w)
    ensures MarkersOwn(w)
  {
  }

  lemma UnmarkedTidy(w: World)
    requires Calm(w) && MarkersOwn(w) && forall p :: p in w.prs && w.prs[p].labelled ==> w.prs[p].comment.stack.None?
    ensures Tidy(w) && StaleTops(w) == {}
  {
  }

  lemma ClearedMarker(w0: World, w1: World, snap: P.Snapshot, tops: seq<int>, p: int)
    requires MarkersOwn(w0) && Reads(w0, snap, tops) && P.FirstGreen(snap, |snap.stacks|) >= 0 && p in w0.prs
    requires p in w1.prs
    requires ClearedAt(w0, w1, snap, |snap.stacks|, P.FirstGreen(snap, |snap.stacks|), p)
    ensures w1.prs[p].labelled ==> w1.prs[p].comment.stack.None?
    ensures w1.prs[p].comment.stack.Some? ==> w1.prs[p].comment == w0.prs[p].comment
  {
    var lands := P.FirstGreen(snap, |snap.stacks|);
    var stack := snap.stacks[lands].stack;
    ClaimedLanding(snap, tops, w0, p);
    if P.Claimed(snap, p) {
      Member(stack, p);
    } else if Marked(w0, p) && w0.prs[p].labelled {
      var i :| 0 <= i < |tops| && tops[i] == p;
      TopInStack(w0, p);
      assert InFirst(snap, |snap.stacks|, p);
    }
  }

  lemma Member(stack: Queue.Stack, q: int)
    requires q in stack.Numbers()
    ensures Queue.IndexOf(stack.members, q) >= 0
  {
    var ns := stack.Numbers();
    var i :| 0 <= i < |ns| && ns[i] == q;
    assert stack.members[i].number == q;
  }

  lemma ClearedQueue(w0: World, w1: World, snap: P.Snapshot, tops: seq<int>)
    requires Tidy(w0) && Reads(w0, snap, tops) && P.FirstGreen(snap, |snap.stacks|) >= 0
    requires var lands := P.FirstGreen(snap, |snap.stacks|);
             snap.stacks[lands].stack.members != [] && Clearing(w0, w1, snap, |snap.stacks|, lands)
    requires StaleTops(w1) == {}
    ensures Open(w1) <= Open(w0) && Open(w1) != Open(w0)
  {
    hide P.FirstGreen, Frozen, Separate, P.Claimed;
    var lands := P.FirstGreen(snap, |snap.stacks|);
    var t := tops[lands];
    NothingBack(w1);
    forall p | p in Open(w1) ensures p in Open(w0) && p != t {
      ClaimedLanding(snap, tops, w0, p);
      ClaimsLanding(snap, tops, w0, lands);
      assert ClearedAt(w0, w1, snap, |snap.stacks|, lands, p);
      TopInStack(w0, t);
      if P.Claimed(snap, p) {
        LandedIsLanded(w0, t, p);
      } else {
        GivenUpWasOpen(w0, snap, tops, p);
      }
    }
    ClaimsLanding(snap, tops, w0, lands);
    TopOpen(w0, t);
  }

  lemma NothingBack(w: World)
    requires StaleTops(w) == {}
    ensures Back(w) == {}
  {
    forall p | p in w.prs ensures !Stale(w, p) {
      assert p !in StaleTops(w);
    }
  }

  lemma LandedIsLanded(w: World, t: int, p: int)
    requires Live(w, t) && p in NumbersOf(w, t)
    ensures p in w.prs && LandedIn(w.prs[p], w.prs[t].comment.stack.value, p).AlreadyLanded()
  {
    Member(w.prs[t].comment.stack.value, p);
  }

  lemma GivenUpWasOpen(w0: World, snap: P.Snapshot, tops: seq<int>, p: int)
    requires Tidy(w0) && Reads(w0, snap, tops) && p in w0.prs && w0.prs[p].labelled
    requires !Requeued(w0.prs[p], InFirst(snap, |snap.stacks|, p)).AlreadyLanded()
    ensures p in Open(w0)
  {
    if w0.prs[p].AlreadyLanded() {
      var j :| 0 <= j < |snap.stacks| && p in snap.stacks[j].stack.Numbers();
      if Live(w0, tops[j]) {
        LiveNotLanded(w0, tops[j], p);
      } else {
        assert Stale(w0, tops[j]) && p in NumbersOf(w0, tops[j]);
      }
    }
  }

  lemma LiveNotLanded(w: World, t: int, p: int)
    requires Tidy(w) && Live(w, t) && p in NumbersOf(w, t)
    ensures p in w.prs && w.prs[p].labelled && !w.prs[p].AlreadyLanded()
  {
    var ns := NumbersOf(w, t);
    assert Sturdy(w, t);
    var i :| 0 <= i < |ns| && ns[i] == p;
  }

  lemma TopOpen(w: World, t: int)
    requires Tidy(w) && Live(w, t)
    ensures t in Open(w)
  {
    TopInStack(w, t);
    LiveNotLanded(w, t, t);
  }

  // ---- the whole tick ----

  /** After the stacks' turns and the comments. */
  function ToldState(w: World, snap: P.Snapshot, batch: nat, clean: seq<int> -> bool): World {
    ActAll(AfterStacks(w, snap, |snap.stacks|, clean), Tells(snap, batch), snap.now, clean)
  }

  /** The comments of a tick whose stacks had their turn. */
  lemma AfterTells(w0: World, w1: World, order: seq<int>, gh: GitHub, cfg: Config, now: int, clean: seq<int> -> bool)
    requires MarkersOwn(w0) && Listing(w0, order) && Calm(w1) && w1.prs.Keys == w0.prs.Keys
    requires IdleSame(w0, w1, SnapshotOf(w0, order, gh, cfg, now))
    ensures var tells := Tells(SnapshotOf(w0, order, gh, cfg, now), cfg.batch);
            AllTells(w1, tells) && Alike(w1, ActAll(w1, tells, now, clean))
  {
    var snap := SnapshotOf(w0, order, gh, cfg, now);
    TellsIdle(snap, cfg.batch);
    TellsFit(w0, w1, order, gh, cfg, now, Tells(snap, cfg.batch));
    TellsAlike(w1, Tells(snap, cfg.batch), now, clean);
  }

  lemma ToldFalls(w0: World, w1: World, w2: World)
    requires Tidy(w1) && Alike(w1, w2)
    ensures Tidy(w2) && (NotHigher(w1, w0) ==> NotHigher(w2, w0)) && (Lower(w1, w0) ==> Lower(w2, w0))
    ensures Same(w0, w1) ==> Same(w0, w2)
  {
    AlikeSame(w1, w2);
  }

  /** A tick with no green stack, up to the new stack it may form. */
  lemma WithoutGreen(w: World, order: seq<int>, gh: GitHub, cfg: Config, now: int, clean: seq<int> -> bool)
    requires Tidy(w) && Listing(w, order)
    requires var snap := SnapshotOf(w, order, gh, cfg, now); P.FirstGreen(snap, |snap.stacks|) < 0
    ensures var snap := SnapshotOf(w, order, gh, cfg, now);
            var w2 := ToldState(w, snap, cfg.batch, clean);
            && Tidy(w2) && NotHigher(w2, w)
            && (if exists i :: 0 <= i < |snap.stacks| && Resolves(snap, i) then Lower(w2, w) else Same(w, w2))
            && forall p :: Stale(w, p) ==>
                 p in w2.prs && (w2.prs[p].comment.stack == w.prs[p].comment.stack <==> Kept(snap, p))
  {
    hide Down, Better, Lower, NotHigher, Resolves, Kept, Frozen, Sturdy, P.FirstGreen;
    var snap := SnapshotOf(w, order, gh, cfg, now);
    var tops := Tops(w, order);
    ReadsTidy(w, order, gh, cfg, now);
    StacksFall(w, snap, tops, |tops|, clean);
    var w1 := AfterStacks(w, snap, |tops|, clean);
    MidwayEnds(w, w1, snap, tops);
    MidwayIdle(w, w1, snap);
    AfterTells(w, w1, order, gh, cfg, now, clean);
    if forall i :: 0 <= i < |snap.stacks| ==> !Resolves(snap, i) { MidwayRests(w, w1, snap, tops); }
    ToldFalls(w, w1, ToldState(w, snap, cfg.batch, clean));
    forall p | Stale(w, p) ensures w1.prs[p].comment.stack == w.prs[p].comment.stack <==> Kept(snap, p) {
      MidwaySurvives(w, w1, snap, tops, p);
    }
  }

  lemma MidwayIdle(w0: World, w1: World, snap: P.Snapshot)
    requires Midway(w0, w1, snap, |snap.stacks|)
    ensures IdleSame(w0, w1, snap)
  {
    forall q | q in w0.prs && !P.InStack(snap, q) && !P.Claimed(snap, q) ensures w1.prs[q] == w0.prs[q] {
      assert PassedAt(w0, w1, snap, |snap.stacks|, q) && !InFirst(snap, |snap.stacks|, q);
    }
  }

  lemma WithGreen(w: World, order: seq<int>, gh: GitHub, cfg: Config, now: int, clean: seq<int> -> bool)
    requires Tidy(w) && Listing(w, order)
    requires var snap := SnapshotOf(w, order, gh, cfg, now); P.FirstGreen(snap, |snap.stacks|) >= 0
    ensures var w2 := ToldState(w, SnapshotOf(w, order, gh, cfg, now), cfg.batch, clean);
            && Tidy(w2) && Lower(w2, w) && StaleTops(w2) == {}
            && forall p :: Stale(w, p) ==> p in w2.prs && w2.prs[p].comment.stack.None?
  {
    hide Lower, NotHigher, Frozen, Sturdy, P.FirstGreen, ClearedAt, P.Claimed;
    var snap := SnapshotOf(w, order, gh, cfg, now);
    var tops := Tops(w, order);
    var lands := P.FirstGreen(snap, |snap.stacks|);
    ReadsTidy(w, order, gh, cfg, now);
    StacksClear(w, snap, tops, |tops|, clean);
    var w1 := AfterStacks(w, snap, |tops|, clean);
    ClearingEnds(w, w1, snap, tops);
    ClearingIdle(w, w1, snap, lands);
    AfterTells(w, w1, order, gh, cfg, now, clean);
    ToldFalls(w, w1, ToldState(w, snap, cfg.batch, clean));
    LabelsCleared(w, w1, snap, lands);
  }

  lemma ClearingIdle(w0: World, w1: World, snap: P.Snapshot, lands: nat)
    requires lands < |snap.stacks| && snap.stacks[lands].stack.members != []
    requires Clearing(w0, w1, snap, |snap.stacks|, lands)
    ensures IdleSame(w0, w1, snap)
  {
    forall q | q in w0.prs && !P.InStack(snap, q) && !P.Claimed(snap, q) ensures w1.prs[q] == w0.prs[q] {
      assert ClearedAt(w0, w1, snap, |snap.stacks|, lands, q) && !InFirst(snap, |snap.stacks|, q);
    }
  }

  lemma LabelsCleared(w0: World, w1: World, snap: P.Snapshot, lands: nat)
    requires lands < |snap.stacks| && snap.stacks[lands].stack.members != []
    requires Clearing(w0, w1, snap, |snap.stacks|, lands)
    ensures forall q :: q in w0.prs ==> w1.prs[q].labelled == w0.prs[q].labelled && w1.prs[q].head == w0.prs[q].head
  {
    forall q | q in w0.prs ensures w1.prs[q].labelled == w0.prs[q].labelled && w1.prs[q].head == w0.prs[q].head {
      assert ClearedAt(w0, w1, snap, |snap.stacks|, lands, q);
    }
  }

  /** Forming a stack where none is in flight raises the score. */
  lemma FormLowers(w: World, w': World, ns: seq<int>)
    requires Tidy(w) && Stackable(w, ns) && Reformed(w, w', ns) && Touches(w, w', ns)
    requires forall p :: p in w.prs && w.prs[p].labelled ==> !Marked(w, p)
    ensures Tidy(w') && Lower(w', w)
  {
    hide Frozen, Sturdy;
    ReformedStacks(w', w, ns);
    FormTidy(w, w', ns);
    assert LiveTops(w) == {} && RetriedTops(w) == {} && StaleTops(w) == {} && StaleTops(w') == {};
    NothingBack(w);
    NothingBack(w');
    ReformedQueue(w, w', ns, {});
    if !SomeRejected(w', ns) {
      var i :| 0 <= i < |ns| && Live(w', ns[i]);
      assert ns[i] in LiveTops(w');
    }
  }

  lemma FormTidy(w: World, w': World, ns: seq<int>)
    requires Tidy(w) && Calm(w') && Touches(w, w', ns) && NewStacks(w', ns)
    requires forall p :: p in w.prs && w.prs[p].labelled ==> !Marked(w, p)
    ensures Tidy(w') && forall p :: !Stale(w', p)
  {
    forall q | q in w'.prs && w'.prs[q].comment.stack.Some?
      ensures Marked(w', q) && (w'.prs[q].labelled ==> q in ns && Live(w', q) && Sturdy(w', q))
    {
      if q in ns { var i :| 0 <= i < |ns| && ns[i] == q; }
    }
    forall a, b, n | Live(w', a) && Live(w', b) && a != b && n in NumbersOf(w', a) ensures n !in NumbersOf(w', b) {
      var i :| 0 <= i < |ns| && ns[i] == a;
      var j :| 0 <= j < |ns| && ns[j] == b;
    }
  }

  lemma GroupStackable(w0: World, w: World, order: seq<int>, gh: GitHub, cfg: Config, now: int)
    requires MarkersOwn(w0) && Listing(w0, order) && Alike(w0, w)
    requires P.Taken(SnapshotOf(w0, order, gh, cfg, now), cfg.batch) > 0
    ensures Stackable(w, Group(SnapshotOf(w0, order, gh, cfg, now), cfg.batch))
  {
    var snap := SnapshotOf(w0, order, gh, cfg, now);
    var ns := Group(snap, cfg.batch);
    CandidatesDistinct(snap, |snap.queued|);
    TellsIdle(snap, cfg.batch);
    forall i | 0 <= i < |ns| ensures ns[i] in w.prs && w.prs[ns[i]].labelled && !w.prs[ns[i]].AlreadyLanded() {
      IdleFacts(w0, order, gh, cfg, now, ns[i]);
    }
  }

  lemma NobodyMarked(w: World, order: seq<int>)
    requires Listing(w, order) && Tops(w, order) == []
    ensures forall p :: p in w.prs && w.prs[p].labelled ==> !Marked(w, p)
  {
    forall p | p in w.prs && w.prs[p].labelled ensures !Marked(w, p) {
      if Marked(w, p) { MarkedIsTop(w, order, p); }
    }
  }

  lemma Forming(w: World, order: seq<int>, gh: GitHub, cfg: Config, now: int, clean: seq<int> -> bool)
    requires Tidy(w) && Listing(w, order) && P.Taken(SnapshotOf(w, order, gh, cfg, now), cfg.batch) > 0
    ensures var snap := SnapshotOf(w, order, gh, cfg, now);
            var w' := Act(ToldState(w, snap, cfg.batch, clean), P.Form(Group(snap, cfg.batch), snap.target), now, clean);
            Tidy(w') && Lower(w', w)
    ensures forall p :: !Stale(w, p)
  {
    hide Lower, NotHigher, Sturdy, Frozen, Separate, FormGroup;
    var snap := SnapshotOf(w, order, gh, cfg, now);
    var ns := Group(snap, cfg.batch);
    var told := ToldState(w, snap, cfg.batch, clean);
    assert AfterStacks(w, snap, 0, clean) == w;
    AfterTells(w, w, order, gh, cfg, now, clean);
    GroupStackable(w, told, order, gh, cfg, now);
    NobodyMarked(w, order);
    FormGroupReforms(told, ns, now, clean);
    FormGroupTouches(told, ns, now, clean);
    AlikeSame(w, told);
    FormLowers(told, FormGroup(told, ns, now, clean), ns);
    AlikeLower(w, told, FormGroup(told, ns, now, clean));
  }

  lemma AlikeLower(w: World, told: World, w': World)
    requires Alike(w, told) && Lower(w', told)
    ensures Lower(w', w)
  {
    AlikeSame(w, told);
  }

  /** Every quiet tick of a tidy world leaves it tidy and no higher. A tick
      that resolves or forms a stack leaves it lower, and any other changes
      neither target, branches, labels nor markers. */
  lemma TickFalls(w: World, order: seq<int>, gh: GitHub, cfg: Config, now: int, clean: seq<int> -> bool)
    requires Tidy(w) && Listing(w, order)
    ensures var w' := QuietTick(w, order, gh, cfg, now, clean);
            && Tidy(w') && NotHigher(w', w)
            && (if Moves(SnapshotOf(w, order, gh, cfg, now), cfg.batch) then Lower(w', w) else Same(w, w'))
  {
    hide Tidy, Resolves, P.FirstGreen;
    var snap := SnapshotOf(w, order, gh, cfg, now);
    PlanState(w, snap, cfg.batch, clean);
    TidyCalm(w);
    if P.Taken(snap, cfg.batch) > 0 {
      Forming(w, order, gh, cfg, now, clean);
    } else if P.FirstGreen(snap, |snap.stacks|) < 0 {
      WithoutGreen(w, order, gh, cfg, now, clean);
    } else {
      GreenResolves(snap);
      WithGreen(w, order, gh, cfg, now, clean);
    }
  }

  lemma TidyCalm(w: World)
    requires Tidy(w)
    ensures Calm(w) && w.(seen := w.target) == w
  {
  }

  lemma GreenResolves(snap: P.Snapshot)
    requires P.FirstGreen(snap, |snap.stacks|) >= 0
    ensures exists i :: 0 <= i < |snap.stacks| && Resolves(snap, i)
  {
    var lands := P.FirstGreen(snap, |snap.stacks|);
    OnlyGreen(snap, lands);
    assert Resolves(snap, lands);
  }

  /** A stale marker survives a tick if and only if a stack that names its top
      is still tested after it. */
  lemma StaleSurvives(w: World, order: seq<int>, gh: GitHub, cfg: Config, now: int, clean: seq<int> -> bool, p: int)
    requires Tidy(w) && Listing(w, order) && Stale(w, p)
    ensures var w' := QuietTick(w, order, gh, cfg, now, clean);
            && p in w'.prs
            && (w'.prs[p].comment.stack == w.prs[p].comment.stack <==> Kept(SnapshotOf(w, order, gh, cfg, now), p))
  {
    hide Tidy, P.FirstGreen, Kept;
    var snap := SnapshotOf(w, order, gh, cfg, now);
    PlanState(w, snap, cfg.batch, clean);
    TidyCalm(w);
    if P.Taken(snap, cfg.batch) > 0 {
      Forming(w, order, gh, cfg, now, clean);
    } else if P.FirstGreen(snap, |snap.stacks|) < 0 {
      WithoutGreen(w, order, gh, cfg, now, clean);
    } else {
      NoneKept(snap, p);
      WithGreen(w, order, gh, cfg, now, clean);
    }
  }

  lemma NoneKept(snap: P.Snapshot, p: int)
    requires P.FirstGreen(snap, |snap.stacks|) >= 0
    ensures !Kept(snap, p)
  {
    forall i | 0 <= i < |snap.stacks| ensures !P.Waiting(snap, i) { OnlyGreen(snap, i); }
  }

  // ---- how long it can go on ----

  lemma ScoreBound(w: World)
    requires Tidy(w)
    ensures Score(w) <= 3 * |Open(w)| && |StaleTops(w)| <= |Open(w)|
  {
    forall p | p in LiveTops(w) ensures p in Open(w) { TopOpen(w, p); }
    forall p | p in StaleTops(w) ensures p in Open(w) { TopInStack(w, p); }
    Cardinality(LiveTops(w), Open(w));
    Cardinality(RetriedTops(w), LiveTops(w));
    Cardinality(StaleTops(w), Open(w));
  }

  /** What is left to do, bounded by the length of the queue at the start. */
  ghost function Rank(w: World, n: nat): int {
    |Open(w)| * (4 * n + 1) + 3 * |Open(w)| - Score(w) + |StaleTops(w)|
  }

  lemma RankFalls(w: World, w': World, n: nat)
    requires Lower(w', w) && |Open(w)| <= n && Tidy(w) && Tidy(w')
    ensures Rank(w', n) < Rank(w, n) && |Open(w')| <= n
  {
    hide Tidy, Score, Open, StaleTops;
    ScoreBound(w);
    ScoreBound(w');
    Cardinality(Open(w'), Open(w));
    if |Open(w')| < |Open(w)| {
      ProductFalls(|Open(w')|, |Open(w)|, 4 * n + 1);
    } else {
      Cardinality(StaleTops(w'), StaleTops(w));
    }
  }

  lemma ProductFalls(a: nat, b: nat, k: nat)
    requires a < b
    ensures a * k <= b * k - k
  {
    assert a * k <= (b - 1) * k;
  }

  datatype Tick = Tick(order: seq<int>, gh: GitHub, now: int, clean: seq<int> -> bool)

  /** Quiet ticks one after the other, whatever each of them does. */
  ghost predicate QuietRun(worlds: seq<World>, ticks: seq<Tick>, cfg: Config) {
    && |worlds| == |ticks| + 1
    && forall i :: 0 <= i < |ticks| ==>
         && Listing(worlds[i], ticks[i].order)
         && worlds[i + 1] == QuietTick(worlds[i], ticks[i].order, ticks[i].gh, cfg, ticks[i].now, ticks[i].clean)
  }

  /** How many of the first n ticks resolve or form a stack. */
  ghost function Moving(worlds: seq<World>, ticks: seq<Tick>, cfg: Config, n: nat): nat
    requires QuietRun(worlds, ticks, cfg) && n <= |ticks|
  {
    if n == 0 then 0
    else
      Moving(worlds, ticks, cfg, n - 1) + if MovesAt(worlds, ticks, cfg, n - 1) then 1 else 0
  }

  /** Tick i resolves or forms a stack. */
  ghost predicate MovesAt(worlds: seq<World>, ticks: seq<Tick>, cfg: Config, i: nat)
    requires QuietRun(worlds, ticks, cfg) && i < |ticks|
  {
    Moves(SnapshotOf(worlds[i], ticks[i].order, ticks[i].gh, cfg, ticks[i].now), cfg.batch)
  }

  lemma {:induction false} RunFalls(worlds: seq<World>, ticks: seq<Tick>, cfg: Config, i: nat, n: nat)
    requires QuietRun(worlds, ticks, cfg) && i <= |ticks| && Tidy(worlds[0]) && n == |Open(worlds[0])|
    ensures Tidy(worlds[i]) && |Open(worlds[i])| <= n
    ensures Rank(worlds[i], n) <= Rank(worlds[0], n) - Moving(worlds, ticks, cfg, i)
  {
    hide Tidy, Lower, NotHigher, Rank, Open, MovesAt, Same;
    if i > 0 {
      RunFalls(worlds, ticks, cfg, i - 1, n);
      TickAt(worlds, ticks, cfg, i - 1);
      if MovesAt(worlds, ticks, cfg, i - 1) {
        RankFalls(worlds[i - 1], worlds[i], n);
      } else {
        RankStays(worlds[i - 1], worlds[i], n);
      }
    }
  }

  lemma RankStays(w: World, w': World, n: nat)
    requires NotHigher(w', w) && |Open(w)| <= n && Tidy(w) && Tidy(w')
    ensures Rank(w', n) <= Rank(w, n) && |Open(w')| <= n
  {
    hide Tidy, Score, Open, StaleTops;
    ScoreBound(w);
    ScoreBound(w');
    Cardinality(Open(w'), Open(w));
    if |Open(w')| < |Open(w)| {
      ProductFalls(|Open(w')|, |Open(w)|, 4 * n + 1);
    } else {
      Cardinality(StaleTops(w'), StaleTops(w));
    }
  }

  function MostMoves(n: nat): nat {
    n * (4 * n + 5)
  }

  /** From a tidy world, with n pull requests queued or named by stale stacks,
      at most n (4 n + 5) quiet ticks resolve or form a stack, whatever the
      checks report, whichever groups conflict and however the queue is listed;
      every other tick changes nothing but comment texts. */
  lemma QueueDrains(worlds: seq<World>, ticks: seq<Tick>, cfg: Config)
    requires QuietRun(worlds, ticks, cfg) && Tidy(worlds[0])
    ensures Moving(worlds, ticks, cfg, |ticks|) <= MostMoves(|Open(worlds[0])|)
    ensures forall i :: 0 <= i < |ticks| && !MovesAt(worlds, ticks, cfg, i) ==> Same(worlds[i], worlds[i + 1])
  {
    hide Tidy, MovesAt, Same, Open, Rank, Listing, MostMoves;
    var n := |Open(worlds[0])|;
    RunFalls(worlds, ticks, cfg, |ticks|, n);
    RankBound(worlds[0], n);
    RankBound(worlds[|ticks|], n);
    forall i | 0 <= i < |ticks| && !MovesAt(worlds, ticks, cfg, i) ensures Same(worlds[i], worlds[i + 1]) {
      StillAt(worlds, ticks, cfg, i, n);
    }
  }

  lemma StillAt(worlds: seq<World>, ticks: seq<Tick>, cfg: Config, i: nat, n: nat)
    requires QuietRun(worlds, ticks, cfg) && Tidy(worlds[0]) && n == |Open(worlds[0])|
    requires i < |ticks| && !MovesAt(worlds, ticks, cfg, i)
    ensures Same(worlds[i], worlds[i + 1])
  {
    hide Tidy, MovesAt, Same, Open, Rank, Listing, QuietRun;
    RunFalls(worlds, ticks, cfg, i, n);
    TickAt(worlds, ticks, cfg, i);
  }

  lemma TickAt(worlds: seq<World>, ticks: seq<Tick>, cfg: Config, i: nat)
    requires QuietRun(worlds, ticks, cfg) && i < |ticks| && Tidy(worlds[i])
    ensures Tidy(worlds[i + 1]) && NotHigher(worlds[i + 1], worlds[i])
    ensures if MovesAt(worlds, ticks, cfg, i) then Lower(worlds[i + 1], worlds[i]) else Same(worlds[i], worlds[i + 1])
  {
    hide Tidy, Lower, NotHigher, Moves, Same;
    var t := ticks[i];
    TickFalls(worlds[i], t.order, t.gh, cfg, t.now, t.clean);
  }

  lemma RankBound(w: World, n: nat)
    requires Tidy(w)
    ensures Rank(w, n) >= 0 && (n == |Open(w)| ==> Rank(w, n) <= MostMoves(n))
  {
    hide Tidy, Open, Score, StaleTops;
    ScoreBound(w);
    ProductPositive(|Open(w)|, 4 * n + 1);
  }

  lemma ProductPositive(a: nat, b: nat)
    ensures a * b >= 0
  {
  }

  /** When a tick has nothing to do and no stack is tested, every pull request
      that may be stacked has landed. */
  lemma IdleMeansDrained(w: World, order: seq<int>, gh: GitHub, cfg: Config, now: int, p: int)
    requires Listing(w, order) && cfg.batch > 0 && Tops(w, order) == []
    requires !Moves(SnapshotOf(w, order, gh, cfg, now), cfg.batch)
    requires p in w.prs && w.prs[p].labelled && w.prs[p].entry.Eligible()
    ensures w.prs[p].AlreadyLanded()
  {
    var snap := SnapshotOf(w, order, gh, cfg, now);
    var i :| 0 <= i < |order| && order[i] == p;
    assert snap.queued[i] == QueuedOf(w, p) && snap.stacks == [];
    if !w.prs[p].AlreadyLanded() {
      assert P.Idle(snap, snap.queued[i]);
      CandidateFound(snap, i, |snap.queued|);
    }
  }

  lemma {:induction false} CandidateFound(snap: P.Snapshot, i: nat, n: nat)
    requires i < n <= |snap.queued| && P.Idle(snap, snap.queued[i]) && snap.queued[i].entry.Eligible()
    ensures P.Candidates(snap, n) != []
  {
    if i < n - 1 { CandidateFound(snap, i, n - 1); }
  }
}
