/**
 The stacks' turns in one quiet tick, one after the other: with no green stack
 each waits, falls or, if it is stale, is given up; with a green one it lands
 and the others go back to the queue.
 */
module QueueDrainTurns {
  import opened Queue
  import opened QueueWorld
  import opened QueueLanding
  import opened QueueTick
  import opened QueueTickSafety
  import opened QueueDrainForm
  import opened QueueDrainStacks
  import opened QueueDrainFailure
  import P = QueuePlan

  // ---- comments that only say where a pull request stands ----

  predicate Tellable(w: World, n: int) {
    n in w.prs && w.prs[n].comment.stack.None? && !w.prs[n].AlreadyLanded()
  }

  /** The same branches, labels and markers: only comment texts differ. */
  predicate Alike(w: World, w': World) {
    && Calm(w') && w'.target == w.target && w'.nextId == w.nextId && w'.prs.Keys == w.prs.Keys
    && forall q :: q in w.prs ==>
         && w'.prs[q] == w.prs[q].(comment := w'.prs[q].comment)
         && w'.prs[q].comment.stack == w.prs[q].comment.stack
         && w'.prs[q].AlreadyLanded() == w.prs[q].AlreadyLanded()
  }

  lemma AlikeLive(w: World, w': World, q: int)
    requires Alike(w, w')
    ensures (Live(w', q) <==> Live(w, q)) && (Marked(w', q) <==> Marked(w, q)) && (Stale(w', q) <==> Stale(w, q))
  {
  }

  lemma AlikeSame(w: World, w': World)
    requires Alike(w, w')
    ensures InQueue(w', Back(w')) == InQueue(w, Back(w)) && Score(w') == Score(w)
    ensures LiveTops(w') == LiveTops(w) && StaleTops(w') == StaleTops(w)
    ensures Tidy(w) ==> Tidy(w')
  {
    forall q | q in w.prs
      ensures (Live(w', q) <==> Live(w, q)) && (Marked(w', q) <==> Marked(w, q)) && (Stale(w', q) <==> Stale(w, q))
    {
      AlikeLive(w, w', q);
    }
    assert LiveTops(w') == LiveTops(w);
    assert RetriedTops(w') == RetriedTops(w);
    assert StaleTops(w') == StaleTops(w);
    AlikeBack(w, w');
    forall q ensures q in InQueue(w', Back(w)) <==> q in InQueue(w, Back(w)) {}
    if Tidy(w) { AlikeTidy(w, w'); }
  }

  lemma AlikeBack(w: World, w': World)
    requires Alike(w, w')
    ensures Back(w') == Back(w)
  {
    forall n | n in w.prs ensures InStale(w', n) <==> InStale(w, n) {
      if InStale(w, n) {
        var p :| Stale(w, p) && n in NumbersOf(w, p);
        AlikeLive(w, w', p);
      }
      if InStale(w', n) {
        var p :| Stale(w', p) && n in NumbersOf(w', p);
        AlikeLive(w, w', p);
      }
    }
  }

  lemma AlikeTidy(w: World, w': World)
    requires Alike(w, w') && Tidy(w)
    ensures Tidy(w')
  {
    forall q
      ensures (Live(w', q) <==> Live(w, q)) && (Marked(w', q) <==> Marked(w, q)) && (Stale(w', q) <==> Stale(w, q))
    {
      AlikeLive(w, w', q);
    }
    forall q | Live(w', q) ensures Sturdy(w', q) {
      assert Sturdy(w, q);
    }
    forall q | Stale(w', q) ensures Frozen(w', w'.prs[q].comment.stack.value) {
      assert Frozen(w, w.prs[q].comment.stack.value);
    }
  }

  ghost predicate AllTells(w: World, actions: seq<P.Action>) {
    forall i :: 0 <= i < |actions| ==> actions[i].Tell? && Tellable(w, actions[i].number)
  }

  lemma {:induction false} TellsAlike(w: World, actions: seq<P.Action>, at: int, clean: seq<int> -> bool)
    requires Calm(w) && AllTells(w, actions)
    ensures Alike(w, ActAll(w, actions, at, clean))
  {
    if actions != [] {
      var front := actions[..|actions| - 1];
      assert forall i :: 0 <= i < |front| ==> front[i] == actions[i];
      TellsAlike(w, front, at, clean);
      var last := actions[|actions| - 1];
      assert last.Tell? && Tellable(w, last.number);
    }
  }

  lemma TellKeepsInv(w: World, n: int)
    requires Inv(w) && Calm(w) && Tellable(w, n)
    ensures Inv(Tell(w, n))
  {
    hide Inv;
    StepKeepsInv(w, Plain(n));
  }

  lemma {:induction false} TellsKeepInv(w: World, actions: seq<P.Action>, at: int, clean: seq<int> -> bool)
    requires Inv(w) && Calm(w) && AllTells(w, actions)
    ensures Inv(ActAll(w, actions, at, clean))
  {
    hide Inv;
    if actions != [] {
      var front := actions[..|actions| - 1];
      assert forall i :: 0 <= i < |front| ==> front[i] == actions[i];
      TellsAlike(w, front, at, clean);
      TellsKeepInv(w, front, at, clean);
      var last := actions[|actions| - 1];
      assert last.Tell? && Tellable(w, last.number);
      TellKeepsInv(ActAll(w, front, at, clean), last.number);
    }
  }

  // ---- what a tick reads ----

  /** What a snapshot says of a tidy world's stacks. */
  ghost predicate Reads(w: World, snap: P.Snapshot, tops: seq<int>) {
    && |snap.stacks| == |tops| && Distinct(tops) && snap.target == w.target
    && (forall i :: 0 <= i < |tops| ==>
          && Marked(w, tops[i]) && w.prs[tops[i]].labelled
          && snap.stacks[i].stack == w.prs[tops[i]].comment.stack.value && !snap.stacks[i].landed
          && (P.StaleReason(snap.stacks[i].stack, snap.target, P.ByNumber(snap.queued)) == P.Fits <==>
                Live(w, tops[i])))
    && forall p :: Marked(w, p) && w.prs[p].labelled ==> p in tops
  }

  lemma ReadsTidy(w: World, order: seq<int>, gh: GitHub, cfg: Config, now: int)
    requires Tidy(w) && Listing(w, order)
    ensures Reads(w, SnapshotOf(w, order, gh, cfg, now), Tops(w, order))
  {
    var tops := Tops(w, order);
    var snap := SnapshotOf(w, order, gh, cfg, now);
    TopsDistinct(w, order);
    forall i | 0 <= i < |tops|
      ensures Marked(w, tops[i]) && w.prs[tops[i]].labelled
      ensures |snap.stacks| == |tops| && snap.stacks[i].stack == w.prs[tops[i]].comment.stack.value
      ensures !snap.stacks[i].landed
      ensures P.StaleReason(snap.stacks[i].stack, snap.target, P.ByNumber(snap.queued)) == P.Fits <==> Live(w, tops[i])
    {
      StackRead(w, order, gh, cfg, now, i);
      if !Live(w, tops[i]) { assert Stale(w, tops[i]); }
    }
    forall p | Marked(w, p) && w.prs[p].labelled ensures p in tops {
      MarkedIsTop(w, order, p);
    }
  }

  /** Without a green stack, the live stacks claim their members. */
  lemma ClaimsLive(w: World, snap: P.Snapshot, tops: seq<int>, i: nat)
    requires Reads(w, snap, tops) && P.FirstGreen(snap, |snap.stacks|) < 0 && i < |tops|
    ensures P.Claims(snap, i) <==> Live(w, tops[i])
    ensures P.Claims(snap, i) ==> !snap.stacks[i].state.Success?
  {
    OnlyGreen(snap, i);
  }

  lemma ClaimedLive(w: World, snap: P.Snapshot, tops: seq<int>, n: int)
    requires Reads(w, snap, tops) && P.FirstGreen(snap, |snap.stacks|) < 0
    ensures P.Claimed(snap, n) <==> exists i :: 0 <= i < |tops| && Live(w, tops[i]) && n in NumbersOf(w, tops[i])
  {
    if P.Claimed(snap, n) {
      var i :| 0 <= i < |snap.stacks| && P.Claims(snap, i) && n in snap.stacks[i].stack.Numbers();
      ClaimsLive(w, snap, tops, i);
      assert n in NumbersOf(w, tops[i]);
    }
    if i :| 0 <= i < |tops| && Live(w, tops[i]) && n in NumbersOf(w, tops[i]) {
      ClaimsLive(w, snap, tops, i);
    }
  }

  /** n is a member of one of the first k stacks. */
  predicate InFirst(snap: P.Snapshot, k: nat, n: int) {
    exists j :: 0 <= j < k && j < |snap.stacks| && n in snap.stacks[j].stack.Numbers()
  }

  /** n is a member of one of the first k stacks, which failed its checks. */
  predicate InFailed(snap: P.Snapshot, k: nat, n: int) {
    exists j :: 0 <= j < k && j < |snap.stacks| && P.Claims(snap, j) && !P.Waiting(snap, j)
      && n in snap.stacks[j].stack.Numbers()
  }

  predicate SomeFailed(snap: P.Snapshot, k: nat) {
    exists j :: 0 <= j < k && j < |snap.stacks| && P.Claims(snap, j) && !P.Waiting(snap, j)
  }

  /** A queued pull request told that it waits again. */
  function Requeued(pr: PullRequest, told: bool): PullRequest {
    if told && pr.labelled then pr.(comment := PlainComment(pr.comment.owns)) else pr
  }

  lemma RequeuedTwice(pr: PullRequest, a: bool, b: bool)
    ensures Requeued(Requeued(pr, a), b) == Requeued(pr, a || b)
  {
  }

  lemma {:induction false} TellAllShape(w: World, ns: seq<int>)
    ensures var r := TellAll(w, ns);
            && r == w.(prs := r.prs) && r.prs.Keys == w.prs.Keys
            && forall q :: q in w.prs ==> r.prs[q] == Requeued(w.prs[q], q in ns)
  {
    if ns != [] {
      var front, last := ns[..|ns| - 1], ns[|ns| - 1];
      TellAllShape(w, front);
      forall q | q in w.prs ensures TellAll(w, ns).prs[q] == Requeued(w.prs[q], q in ns) {
        assert q in ns <==> q in front || q == last by { assert ns == front + [last]; }
        RequeuedTwice(w.prs[q], q in front, q == last);
      }
    }
  }

  lemma {:induction false} UnclaimedMeans(snap: P.Snapshot, ns: seq<int>, n: int)
    ensures n in P.Unclaimed(snap, ns) <==> n in ns && !P.Claimed(snap, n)
  {
    hide P.Claimed;
    if ns != [] {
      var front, last := ns[..|ns| - 1], ns[|ns| - 1];
      UnclaimedMeans(snap, front, n);
      assert n in ns <==> n in front || n == last by { assert ns == front + [last]; }
    }
  }

  /** A stack given up: its members that nobody claims are told. */
  lemma AbandonTurn(w: World, snap: P.Snapshot, k: nat, clean: seq<int> -> bool)
    requires k < |snap.stacks| && !P.Claims(snap, k)
    ensures ActAll(w, P.StackActions(snap, k), snap.now, clean) == TellAll(w, P.Unclaimed(snap, snap.stacks[k].stack.Numbers()))
  {
    ActOne(w, P.Abandon(snap.stacks[k].stack, P.Verdict(snap, k), P.Unclaimed(snap, snap.stacks[k].stack.Numbers())),
           snap.now, clean);
  }

  /** Pull request q after the first k turns, if nobody claims it. */
  ghost predicate GivenUpAt(w0: World, w: World, snap: P.Snapshot, k: nat, q: int)
    requires q in w0.prs && q in w.prs
  {
    !P.Claimed(snap, q) ==> w.prs[q] == Requeued(w0.prs[q], InFirst(snap, k, q))
  }

  /** One more stack is given up. */
  lemma GivenUpOneMore(w0: World, w: World, snap: P.Snapshot, k: nat, q: int)
    requires k < |snap.stacks| && q in w0.prs && q in w.prs && w.prs.Keys == w0.prs.Keys
    requires GivenUpAt(w0, w, snap, k, q)
    ensures var ns := P.Unclaimed(snap, snap.stacks[k].stack.Numbers());
            && q in TellAll(w, ns).prs && GivenUpAt(w0, TellAll(w, ns), snap, k + 1, q)
            && (P.Claimed(snap, q) ==> TellAll(w, ns).prs[q] == w.prs[q])
  {
    var all := snap.stacks[k].stack.Numbers();
    TellAllShape(w, P.Unclaimed(snap, all));
    UnclaimedMeans(snap, all, q);
    if !P.Claimed(snap, q) {
      RequeuedTwice(w0.prs[q], InFirst(snap, k, q), q in all);
      assert InFirst(snap, k + 1, q) <==> InFirst(snap, k, q) || q in all;
    }
  }

  lemma StacksState(w0: World, snap: P.Snapshot, k: nat, clean: seq<int> -> bool)
    requires 0 < k <= |snap.stacks|
    ensures ActAll(w0, P.StacksActions(snap, k), snap.now, clean) ==
            ActAll(ActAll(w0, P.StacksActions(snap, k - 1), snap.now, clean), P.StackActions(snap, k - 1), snap.now,
                   clean)
  {
    ActConcat(w0, P.StacksActions(snap, k - 1), P.StackActions(snap, k - 1), snap.now, clean);
  }

  function AfterStacks(w0: World, snap: P.Snapshot, k: nat, clean: seq<int> -> bool): World
    requires k <= |snap.stacks|
  {
    ActAll(w0, P.StacksActions(snap, k), snap.now, clean)
  }

  // ---- a tick that lands nothing ----

  /** Pull request q after the first k turns: given up if nobody claims it,
      untouched while its stack waits or has yet to come, and otherwise in a
      live stack or in none. */
  ghost predicate PassedAt(w0: World, w: World, snap: P.Snapshot, k: nat, q: int)
    requires q in w0.prs && q in w.prs
  {
    && GivenUpAt(w0, w, snap, k, q)
    && (P.Claimed(snap, q) && !InFailed(snap, k, q) ==> w.prs[q] == w0.prs[q])
    && (InFailed(snap, k, q) && w.prs[q].comment.stack.Some? ==> Live(w, q))
  }

  /** The first k stacks had their turn. */
  ghost predicate Midway(w0: World, w: World, snap: P.Snapshot, k: nat) {
    && Tidy(w) && w.target == w0.target && w.prs.Keys == w0.prs.Keys && w0.nextId <= w.nextId
    && (forall q :: q in w0.prs ==> PassedAt(w0, w, snap, k, q))
    && (forall p, n :: Live(w, p) && n in NumbersOf(w, p) ==> P.Claimed(snap, n))
    && (forall p :: Stale(w0, p) ==> !Fit(w, w0.prs[p].comment.stack.value))
    && Down(w, w0, Back(w0)) && (SomeFailed(snap, k) ==> Better(w, w0, Back(w0)))
  }

  lemma AtStart(w0: World, snap: P.Snapshot, tops: seq<int>, clean: seq<int> -> bool)
    requires Tidy(w0) && Reads(w0, snap, tops) && P.FirstGreen(snap, |snap.stacks|) < 0
    ensures AfterStacks(w0, snap, 0, clean) == w0 && Midway(w0, w0, snap, 0)
  {
    forall p, n | Live(w0, p) && n in NumbersOf(w0, p) ensures P.Claimed(snap, n) {
      var i :| 0 <= i < |tops| && tops[i] == p;
      ClaimedLive(w0, snap, tops, n);
    }
  }

  /** A live stack whose turn comes is as the snapshot saw it. */
  lemma UpNext(w0: World, w: World, snap: P.Snapshot, tops: seq<int>, k: nat)
    requires Tidy(w0) && Reads(w0, snap, tops) && P.FirstGreen(snap, |snap.stacks|) < 0 && k < |tops|
    requires Live(w0, tops[k])
    requires w.target == w0.target && w.prs.Keys == w0.prs.Keys
    requires forall q :: q in w0.prs && P.Claimed(snap, q) && !InFailed(snap, k, q) ==> w.prs[q] == w0.prs[q]
    ensures Live(w, tops[k]) && w.prs[tops[k]] == w0.prs[tops[k]]
    ensures forall n :: n in NumbersOf(w0, tops[k]) ==>
              n in w0.prs && w.prs[n] == w0.prs[n] && P.Claimed(snap, n) && !InFailed(snap, k, n)
  {
    var p := tops[k];
    var stack := w0.prs[p].comment.stack.value;
    var ns := NumbersOf(w0, p);
    TopInStack(w0, p);
    forall n | n in ns ensures n in w0.prs && w.prs[n] == w0.prs[n] && P.Claimed(snap, n) && !InFailed(snap, k, n) {
      var i :| 0 <= i < |ns| && ns[i] == n;
      ClaimedLive(w0, snap, tops, n);
      NotFailedYet(w0, snap, tops, k, n);
    }
    forall i | 0 <= i < |stack.members|
      ensures stack.members[i].number in w.prs && w.prs[stack.members[i].number] == w0.prs[stack.members[i].number]
    {
      assert ns[i] in ns;
    }
    LiveCarries(w0, w, p);
  }

  lemma NotFailedYet(w0: World, snap: P.Snapshot, tops: seq<int>, k: nat, n: int)
    requires Tidy(w0) && Reads(w0, snap, tops) && P.FirstGreen(snap, |snap.stacks|) < 0
    requires k < |tops| && Live(w0, tops[k]) && n in NumbersOf(w0, tops[k])
    ensures !InFailed(snap, k, n)
  {
    forall j | 0 <= j < k && P.Claims(snap, j) ensures n !in snap.stacks[j].stack.Numbers() {
      ClaimsLive(w0, snap, tops, j);
      assert tops[j] != tops[k];
    }
  }

  /** With no green stack a live stack waits for its checks or has failed. */
  lemma NoGreenTurn(w: World, snap: P.Snapshot, i: nat, clean: seq<int> -> bool)
    requires i < |snap.stacks| && P.FirstGreen(snap, |snap.stacks|) < 0 && !snap.stacks[i].landed && P.Claims(snap, i)
    ensures ActAll(w, P.StackActions(snap, i), snap.now, clean) ==
            if P.Waiting(snap, i) then w else FailureState(w, snap.now, snap.stacks[i], clean)
  {
    OnlyGreen(snap, i);
    if P.Waiting(snap, i) && |snap.stacks[i].batchmates| > 0 {
      ActOne(w, P.Cancel(snap.stacks[i].stack, snap.stacks[i].batchmates), snap.now, clean);
    }
  }

  lemma WaitTurn(w0: World, w: World, snap: P.Snapshot, k: nat)
    requires k < |snap.stacks| && Midway(w0, w, snap, k) && P.Waiting(snap, k)
    ensures Midway(w0, w, snap, k + 1)
  {
    hide PassedAt, Tidy, Down, Better, Stale, Fit, Live, P.Claimed, P.Waiting, P.Claims;
    forall q | q in w0.prs ensures PassedAt(w0, w, snap, k + 1, q) {
      WaitAt(w0, w, snap, k, q);
    }
    assert SomeFailed(snap, k + 1) <==> SomeFailed(snap, k);
  }

  lemma WaitAt(w0: World, w: World, snap: P.Snapshot, k: nat, q: int)
    requires k < |snap.stacks| && P.Waiting(snap, k) && q in w0.prs && q in w.prs && PassedAt(w0, w, snap, k, q)
    ensures PassedAt(w0, w, snap, k + 1, q)
  {
    hide Live;
    assert InFailed(snap, k + 1, q) <==> InFailed(snap, k, q);
    if !P.Claimed(snap, q) { assert InFirst(snap, k + 1, q) <==> InFirst(snap, k, q); }
  }

  /** A failing stack's turn, seen from pull request q. */
  lemma FailAt(w0: World, w: World, w': World, snap: P.Snapshot, k: nat, ns: seq<int>, q: int)
    requires k < |snap.stacks| && P.Claims(snap, k) && !P.Waiting(snap, k) && ns == snap.stacks[k].stack.Numbers()
    requires q in w0.prs && w.prs.Keys == w0.prs.Keys && Only(w, w', ns) && NewStacks(w', ns)
    requires PassedAt(w0, w, snap, k, q)
    requires q !in ns && Live(w, q) ==> Live(w', q)
    ensures PassedAt(w0, w', snap, k + 1, q)
  {
    assert q in ns ==> P.Claimed(snap, q) && InFailed(snap, k + 1, q);
    assert InFailed(snap, k + 1, q) ==> InFailed(snap, k, q) || q in ns;
    if !P.Claimed(snap, q) { assert InFirst(snap, k + 1, q) <==> InFirst(snap, k, q); }
    if q in ns { var i :| 0 <= i < |ns| && ns[i] == q; }
  }

  lemma FailTurn(w0: World, w: World, w': World, snap: P.Snapshot, tops: seq<int>, k: nat)
    requires Tidy(w0) && Reads(w0, snap, tops) && k < |tops| && Midway(w0, w, snap, k)
    requires P.Claims(snap, k) && !P.Waiting(snap, k) && Live(w, tops[k]) && w.prs[tops[k]] == w0.prs[tops[k]]
    requires Fell(w, w', NumbersOf(w0, tops[k]), Back(w0))
    ensures Midway(w0, w', snap, k + 1)
  {
    hide Down, Better, Tidy, Fit, PassedAt, NewStacks, InFailed, InFirst, P.Claims, P.Waiting, P.Claimed, Reads;
    TidyAfter(w, w', tops[k]);
    DownTrans(w0, w, w', Back(w0));
    FailPassed(w0, w, w', snap, tops, k);
    FailClaimed(w0, w, w', snap, tops, k);
    forall q | Stale(w0, q) ensures !Fit(w', w0.prs[q].comment.stack.value) {
      StaleFrozen(w0, w, q);
      StaysUnfit(w, w', NumbersOf(w0, tops[k]), w0.prs[q].comment.stack.value);
    }
  }

  lemma FailPassed(w0: World, w: World, w': World, snap: P.Snapshot, tops: seq<int>, k: nat)
    requires Tidy(w) && Reads(w0, snap, tops) && k < |tops| && w.prs.Keys == w0.prs.Keys
    requires P.Claims(snap, k) && !P.Waiting(snap, k) && Live(w, tops[k]) && w.prs[tops[k]] == w0.prs[tops[k]]
    requires Touches(w, w', NumbersOf(w0, tops[k])) && NewStacks(w', NumbersOf(w0, tops[k]))
    requires forall q :: q in w0.prs ==> PassedAt(w0, w, snap, k, q)
    ensures forall q :: q in w0.prs ==> q in w'.prs && PassedAt(w0, w', snap, k + 1, q)
  {
    hide PassedAt, NewStacks, InFailed, InFirst, P.Claims, P.Waiting, P.Claimed, Tidy;
    LiveAfter(w, w', tops[k]);
    var ns := NumbersOf(w0, tops[k]);
    forall q | q in w0.prs ensures PassedAt(w0, w', snap, k + 1, q) {
      if q !in ns && Live(w, q) { assert q in LiveTops(w) && q in LiveTops(w'); }
      FailAt(w0, w, w', snap, k, ns, q);
    }
  }

  lemma FailClaimed(w0: World, w: World, w': World, snap: P.Snapshot, tops: seq<int>, k: nat)
    requires Tidy(w) && Reads(w0, snap, tops) && k < |tops| && w.prs.Keys == w0.prs.Keys
    requires P.Claims(snap, k) && Live(w, tops[k]) && w.prs[tops[k]] == w0.prs[tops[k]]
    requires Touches(w, w', NumbersOf(w0, tops[k])) && NewStacks(w', NumbersOf(w0, tops[k]))
    requires forall p, n :: Live(w, p) && n in NumbersOf(w, p) ==> P.Claimed(snap, n)
    ensures forall p, n :: Live(w', p) && n in NumbersOf(w', p) ==> P.Claimed(snap, n)
    ensures forall i :: 0 <= i < k + 1 && i < |snap.stacks| && P.Claims(snap, i) && !P.Waiting(snap, i) && i != k ==>
              SomeFailed(snap, k)
  {
    hide P.Claims, P.Waiting;
    LiveAfter(w, w', tops[k]);
    var ns := NumbersOf(w0, tops[k]);
    forall q, n | Live(w', q) && n in NumbersOf(w', q) ensures P.Claimed(snap, n) {
      assert q in LiveTops(w');
      if q in ns {
        var i :| 0 <= i < |ns| && ns[i] == q;
        var stack := w'.prs[q].comment.stack.value;
        var j :| 0 <= j < |stack.members| && stack.Numbers()[j] == n;
        assert stack.members[j].number in ns;
      } else {
        assert Live(w, q);
      }
    }
  }

  lemma StaleFrozen(w0: World, w: World, q: int)
    requires Tidy(w0) && Stale(w0, q) && w.target == w0.target && w0.nextId <= w.nextId
    ensures Frozen(w, w0.prs[q].comment.stack.value)
  {
    StaysFrozen(w0, w, w0.prs[q].comment.stack.value);
  }

  /** Telling pull requests of no live stack touches no live stack. */
  lemma ToldTidy(w: World, w': World, ns: seq<int>)
    requires Tidy(w) && w' == w.(prs := w'.prs) && w'.prs.Keys == w.prs.Keys
    requires forall q :: q in w.prs ==> w'.prs[q] == Requeued(w.prs[q], q in ns)
    requires forall p, n :: Live(w, p) && n in NumbersOf(w, p) ==> n !in ns
    ensures Tidy(w') && StaleKept(w', w)
    ensures forall q :: Live(w', q) <==> Live(w, q)
    ensures forall q :: Live(w, q) ==> w'.prs[q] == w.prs[q]
  {
    forall q | Live(w, q) ensures w'.prs[q] == w.prs[q] {
      TopInStack(w, q);
    }
    forall q
      ensures Live(w', q) <==> Live(w, q)
      ensures Marked(w', q) ==> Marked(w, q) && w'.prs[q].comment.stack == w.prs[q].comment.stack
    {}
    forall q | Live(w', q) ensures Sturdy(w', q) {
      assert Sturdy(w, q);
      var ms := NumbersOf(w, q);
      forall i | 0 <= i < |ms| ensures w'.prs[ms[i]] == w.prs[ms[i]] { assert ms[i] in ms; }
    }
    forall q | Stale(w', q) ensures Frozen(w', w'.prs[q].comment.stack.value) {
      assert Frozen(w, w.prs[q].comment.stack.value);
    }
  }

  lemma ToldDown(w: World, w': World, ns: seq<int>, back: set<int>)
    requires w'.prs.Keys == w.prs.Keys && StaleKept(w', w)
    requires forall q :: q in w.prs ==> w'.prs[q] == Requeued(w.prs[q], q in ns)
    requires forall q :: q in ns && q in w.prs && w.prs[q].labelled ==> q in back
    requires forall q :: Live(w', q) <==> Live(w, q)
    requires forall q :: Live(w, q) ==> w'.prs[q] == w.prs[q]
    ensures Down(w', w, back)
  {
    forall q ensures q in InQueue(w', back) <==> q in InQueue(w, back) {}
    assert InQueue(w', back) == InQueue(w, back);
    assert LiveTops(w') == LiveTops(w);
    assert RetriedTops(w') == RetriedTops(w);
  }

  /** A stale stack's turn. */
  lemma StaleTurn(w0: World, w: World, snap: P.Snapshot, tops: seq<int>, k: nat)
    requires Reads(w0, snap, tops) && k < |tops| == |snap.stacks| && Midway(w0, w, snap, k)
    requires Stale(w0, tops[k]) && !P.Claims(snap, k)
    ensures Midway(w0, TellAll(w, P.Unclaimed(snap, snap.stacks[k].stack.Numbers())), snap, k + 1)
  {
    hide Down, Better, Tidy, PassedAt, InFailed, InFirst, P.Claims, P.Waiting, P.Claimed, P.Unclaimed;
    hide TellAll, Fit, Reads, SomeFailed, Live, Stale;
    var ns := P.Unclaimed(snap, snap.stacks[k].stack.Numbers());
    var w' := TellAll(w, ns);
    StaleTells(w0, w, w', snap, tops, k, ns);
    StalePassed(w0, w, snap, k);
    StaleStays(w0, w, w', snap, k, ns);
  }

  /** What the members of a stale stack being told leaves. */
  lemma StaleTells(w0: World, w: World, w': World, snap: P.Snapshot, tops: seq<int>, k: nat, ns: seq<int>)
    requires Reads(w0, snap, tops) && k < |tops| == |snap.stacks| && Midway(w0, w, snap, k) && Stale(w0, tops[k])
    requires ns == P.Unclaimed(snap, snap.stacks[k].stack.Numbers()) && w' == TellAll(w, ns)
    ensures Tidy(w') && w'.target == w0.target && w'.prs.Keys == w.prs.Keys == w0.prs.Keys && w0.nextId <= w'.nextId
    ensures forall p, n :: Live(w', p) && n in NumbersOf(w', p) ==> P.Claimed(snap, n)
    ensures Down(w', w0, Back(w0)) && (SomeFailed(snap, k) ==> Better(w', w0, Back(w0)))
  {
    hide Down, Better, Tidy, PassedAt, InFailed, InFirst, P.Claimed, P.Unclaimed;
    hide TellAll, Fit, Reads, SomeFailed, Live, StaleKept, Stale;
    TellAllShape(w, ns);
    StaleTold(w0, w, snap, tops, k, ns);
    ToldTidy(w, w', ns);
    ToldDown(w, w', ns, Back(w0));
    DownTrans(w0, w, w', Back(w0));
    ClaimedStays(w, w', snap);
  }

  lemma ClaimedStays(w: World, w': World, snap: P.Snapshot)
    requires w'.prs.Keys == w.prs.Keys && forall p, n :: Live(w, p) && n in NumbersOf(w, p) ==> P.Claimed(snap, n)
    requires forall q :: Live(w', q) <==> Live(w, q)
    requires forall q :: Live(w, q) ==> w'.prs[q] == w.prs[q]
    ensures forall p, n :: Live(w', p) && n in NumbersOf(w', p) ==> P.Claimed(snap, n)
  {
    hide P.Claimed;
    forall p, n | Live(w', p) && n in NumbersOf(w', p) ensures P.Claimed(snap, n) {
      assert Live(w, p) && NumbersOf(w', p) == NumbersOf(w, p);
    }
  }

  /** Telling somebody makes no live stack and revives no stale one. */
  lemma StaleStays(w0: World, w: World, w': World, snap: P.Snapshot, k: nat, ns: seq<int>)
    requires Midway(w0, w, snap, k) && w' == TellAll(w, ns) && w'.prs.Keys == w.prs.Keys
    ensures forall q :: Stale(w0, q) ==> !Fit(w', w0.prs[q].comment.stack.value)
  {
    hide Down, Better, Tidy, PassedAt, SomeFailed, P.Claimed, TellAll, Fit, Live;
    TellAllShape(w, ns);
    forall q | Stale(w0, q) ensures !Fit(w', w0.prs[q].comment.stack.value) {
      SameFit(w, w', w0.prs[q].comment.stack.value);
    }
  }

  /** Whom a stale stack tells: nobody in a live stack, and only members. */
  lemma StaleTold(w0: World, w: World, snap: P.Snapshot, tops: seq<int>, k: nat, ns: seq<int>)
    requires Reads(w0, snap, tops) && k < |tops| && Midway(w0, w, snap, k) && Stale(w0, tops[k])
    requires ns == P.Unclaimed(snap, snap.stacks[k].stack.Numbers())
    ensures forall p, n :: Live(w, p) && n in NumbersOf(w, p) ==> n !in ns
    ensures forall q :: q in ns && q in w.prs && w.prs[q].labelled ==> q in Back(w0)
  {
    hide Down, Better, Tidy, PassedAt, P.Claimed, P.Unclaimed;
    var all := snap.stacks[k].stack.Numbers();
    forall n ensures n in ns <==> n in all && !P.Claimed(snap, n) { UnclaimedMeans(snap, all, n); }
    forall q | q in all && q in w.prs ensures q in Back(w0) {
      assert q in NumbersOf(w0, tops[k]);
    }
  }

  lemma StalePassed(w0: World, w: World, snap: P.Snapshot, k: nat)
    requires k < |snap.stacks| && w.prs.Keys == w0.prs.Keys && !P.Claims(snap, k)
    requires forall q :: q in w0.prs ==> PassedAt(w0, w, snap, k, q)
    ensures var w' := TellAll(w, P.Unclaimed(snap, snap.stacks[k].stack.Numbers()));
            forall q :: q in w0.prs ==> q in w'.prs && PassedAt(w0, w', snap, k + 1, q)
    ensures SomeFailed(snap, k + 1) <==> SomeFailed(snap, k)
  {
    hide P.Claims, P.Waiting, P.Claimed, P.Unclaimed, TellAll, InFirst;
    var ns := P.Unclaimed(snap, snap.stacks[k].stack.Numbers());
    var w' := TellAll(w, ns);
    TellAllShape(w, ns);
    forall q | q in w0.prs ensures PassedAt(w0, w', snap, k + 1, q) {
      assert PassedAt(w0, w, snap, k, q);
      GivenUpOneMore(w0, w, snap, k, q);
      FailedIsClaimed(snap, k, q);
    }
  }

  lemma FailedIsClaimed(snap: P.Snapshot, k: nat, q: int)
    requires k < |snap.stacks|
    ensures InFailed(snap, k, q) ==> P.Claimed(snap, q)
    ensures !P.Claims(snap, k) ==> (InFailed(snap, k + 1, q) <==> InFailed(snap, k, q))
  {
    hide P.Claims, P.Waiting;
  }

  lemma SameFit(w: World, w': World, stack: Stack)
    requires w'.target == w.target && w'.prs.Keys == w.prs.Keys
    requires forall q :: q in w.prs ==> w'.prs[q].head == w.prs[q].head && w'.prs[q].labelled == w.prs[q].labelled
    ensures Fit(w', stack) <==> Fit(w, stack)
  {
  }

  /** One stack's turn in a tick that lands nothing. */
  lemma TurnWithoutGreen(w0: World, w: World, snap: P.Snapshot, tops: seq<int>, k: nat, clean: seq<int> -> bool)
    requires Tidy(w0) && Reads(w0, snap, tops) && P.FirstGreen(snap, |snap.stacks|) < 0 && k < |tops|
    requires Midway(w0, w, snap, k)
    ensures Midway(w0, ActAll(w, P.StackActions(snap, k), snap.now, clean), snap, k + 1)
  {
    hide Midway, Tidy, Fell, P.StackActions;
    ClaimsLive(w0, snap, tops, k);
    if !P.Claims(snap, k) {
      AbandonTurn(w, snap, k, clean);
      StaleTurn(w0, w, snap, tops, k);
    } else {
      NoGreenTurn(w, snap, k, clean);
      if P.Waiting(snap, k) {
        WaitTurn(w0, w, snap, k);
      } else {
        MidwayUpNext(w0, w, snap, tops, k);
        FailureFalls(w, tops[k], snap.now, snap.stacks[k], clean, Back(w0));
        FailTurn(w0, w, FailureState(w, snap.now, snap.stacks[k], clean), snap, tops, k);
      }
    }
  }

  lemma MidwayUpNext(w0: World, w: World, snap: P.Snapshot, tops: seq<int>, k: nat)
    requires Tidy(w0) && Reads(w0, snap, tops) && P.FirstGreen(snap, |snap.stacks|) < 0 && k < |tops|
    requires Live(w0, tops[k])
    requires Midway(w0, w, snap, k)
    ensures Tidy(w) && Live(w, tops[k]) && w.prs[tops[k]] == w0.prs[tops[k]]
    ensures forall n :: n in NumbersOf(w0, tops[k]) ==> n in w0.prs && w.prs[n] == w0.prs[n]
  {
    forall q | q in w0.prs && P.Claimed(snap, q) && !InFailed(snap, k, q) ensures w.prs[q] == w0.prs[q] {
      assert PassedAt(w0, w, snap, k, q);
    }
    UpNext(w0, w, snap, tops, k);
  }

  /** With no green stack, the stacks' turns leave the queue no higher, and
      lower as soon as one of them failed its checks. */
  lemma {:induction false} StacksFall(w0: World, snap: P.Snapshot, tops: seq<int>, k: nat, clean: seq<int> -> bool)
    requires Tidy(w0) && Reads(w0, snap, tops) && P.FirstGreen(snap, |snap.stacks|) < 0 && k <= |tops|
    ensures Midway(w0, AfterStacks(w0, snap, k, clean), snap, k)
  {
    hide Midway, Tidy, P.FirstGreen, P.StackActions, P.StacksActions, ActAll;
    if k == 0 {
      AtStart(w0, snap, tops, clean);
    } else {
      StacksFall(w0, snap, tops, k - 1, clean);
      StacksState(w0, snap, k, clean);
      TurnWithoutGreen(w0, AfterStacks(w0, snap, k - 1, clean), snap, tops, k - 1, clean);
    }
  }

  // ---- a tick that lands a stack ----

  /** Only the stack that lands claims its members. */
  lemma ClaimsLanding(snap: P.Snapshot, tops: seq<int>, w: World, i: nat)
    requires Reads(w, snap, tops) && P.FirstGreen(snap, |snap.stacks|) >= 0 && i < |tops|
    ensures P.Claims(snap, i) <==> i == P.FirstGreen(snap, |snap.stacks|)
    ensures Live(w, tops[P.FirstGreen(snap, |snap.stacks|)])
  {
    OnlyGreen(snap, i);
  }

  lemma ClaimedLanding(snap: P.Snapshot, tops: seq<int>, w: World, n: int)
    requires Reads(w, snap, tops) && P.FirstGreen(snap, |snap.stacks|) >= 0
    ensures P.Claimed(snap, n) <==> n in snap.stacks[P.FirstGreen(snap, |snap.stacks|)].stack.Numbers()
  {
    var lands := P.FirstGreen(snap, |snap.stacks|);
    ClaimsLanding(snap, tops, w, lands);
    if P.Claimed(snap, n) {
      var j :| 0 <= j < |snap.stacks| && P.Claims(snap, j) && n in snap.stacks[j].stack.Numbers();
      ClaimsLanding(snap, tops, w, j);
    }
  }

  /** Pull request q after the first k turns: landed with its stack, or given
      up with the others. */
  ghost predicate ClearedAt(w0: World, w: World, snap: P.Snapshot, k: nat, lands: nat, q: int)
    requires q in w0.prs && q in w.prs && lands < |snap.stacks|
  {
    && GivenUpAt(w0, w, snap, k, q)
    && (P.Claimed(snap, q) ==>
          w.prs[q] == if lands < k then LandedIn(w0.prs[q], snap.stacks[lands].stack, q) else w0.prs[q])
  }

  function LandedIn(pr: PullRequest, stack: Stack, q: int): PullRequest {
    pr.(comment := var i := IndexOf(stack.members, q); if i >= 0 then LandedComment(stack, i) else pr.comment)
  }

  /** The first k stacks had their turn. */
  ghost predicate Clearing(w0: World, w: World, snap: P.Snapshot, k: nat, lands: nat)
    requires lands < |snap.stacks| && snap.stacks[lands].stack.members != []
  {
    && Calm(w) && w.prs.Keys == w0.prs.Keys
    && w.target == (if lands < k then snap.stacks[lands].stack.Top().sha else w0.target)
    && forall q :: q in w0.prs ==> ClearedAt(w0, w, snap, k, lands, q)
  }

  /** The stack that lands is fast-forwarded as the machine's own step. */
  lemma LandIsStep(w: World, p: int)
    requires Calm(w) && Live(w, p) && Sturdy(w, p)
    ensures Enabled(w, Step.Advance(p)) && Next(w, Step.Advance(p)) == FastForward(w, w.prs[p].comment.stack.value)
  {
    var stack := w.prs[p].comment.stack.value;
    assert w.prs[p].head == stack.members[|stack.members| - 1].sha;
  }

  lemma AdvanceTurn(w: World, snap: P.Snapshot, k: nat, clean: seq<int> -> bool)
    requires k < |snap.stacks| && P.FirstGreen(snap, |snap.stacks|) == k && snap.stacks[k].stack.members != []
    ensures ActAll(w, P.StackActions(snap, k), snap.now, clean) == FastForward(w, snap.stacks[k].stack)
  {
    OnlyGreen(snap, k);
    ActOne(w, P.Advance(snap.stacks[k].stack), snap.now, clean);
  }

  /** The stack that lands is still as the snapshot saw it. */
  lemma LandReady(w0: World, w: World, snap: P.Snapshot, tops: seq<int>)
    requires Tidy(w0) && Reads(w0, snap, tops) && P.FirstGreen(snap, |snap.stacks|) >= 0
    requires var lands := P.FirstGreen(snap, |snap.stacks|);
             snap.stacks[lands].stack.members != [] && Clearing(w0, w, snap, lands, lands)
    ensures var p := tops[P.FirstGreen(snap, |snap.stacks|)];
            Live(w, p) && Sturdy(w, p) && w.prs[p] == w0.prs[p] && w.target == w0.target
  {
    var lands := P.FirstGreen(snap, |snap.stacks|);
    var p := tops[lands];
    ClaimsLanding(snap, tops, w0, lands);
    var stack := w0.prs[p].comment.stack.value;
    var ns := NumbersOf(w0, p);
    TopInStack(w0, p);
    assert Sturdy(w0, p);
    forall n | n in ns ensures n in w0.prs && w.prs[n] == w0.prs[n] {
      var i :| 0 <= i < |ns| && ns[i] == n;
      ClaimedLanding(snap, tops, w0, n);
      assert ClearedAt(w0, w, snap, lands, lands, n);
    }
    forall i | 0 <= i < |stack.members|
      ensures stack.members[i].number in w.prs && w.prs[stack.members[i].number] == w0.prs[stack.members[i].number]
    {
      assert ns[i] in ns;
    }
    LiveCarries(w0, w, p);
    forall i | 0 <= i < |ns| ensures w.prs[ns[i]] == w0.prs[ns[i]] { assert ns[i] in ns; }
  }

  lemma LandTurn(w0: World, w: World, snap: P.Snapshot, tops: seq<int>)
    requires Tidy(w0) && Reads(w0, snap, tops) && P.FirstGreen(snap, |snap.stacks|) >= 0
    requires var lands := P.FirstGreen(snap, |snap.stacks|);
             snap.stacks[lands].stack.members != [] && Clearing(w0, w, snap, lands, lands)
    ensures var lands := P.FirstGreen(snap, |snap.stacks|);
            Clearing(w0, FastForward(w, snap.stacks[lands].stack), snap, lands + 1, lands)
  {
    hide Tidy, ClearedAt, P.Claimed, Live, Sturdy, P.FirstGreen;
    var lands := P.FirstGreen(snap, |snap.stacks|);
    var stack := snap.stacks[lands].stack;
    LandReady(w0, w, snap, tops);
    LandForwards(w, tops[lands]);
    forall q | q in w0.prs ensures ClearedAt(w0, FastForward(w, stack), snap, lands + 1, lands, q) {
      ClaimedLanding(snap, tops, w0, q);
      LandAt(w0, w, FastForward(w, stack), snap, lands, q);
    }
  }

  lemma LandForwards(w: World, p: int)
    requires Calm(w) && Live(w, p) && Sturdy(w, p)
    ensures var stack := w.prs[p].comment.stack.value;
            FastForward(w, stack) ==
            w.(target := stack.Top().sha, seen := stack.Top().sha, prs := LandedPrs(w.prs, stack))
  {
    LandIsStep(w, p);
  }

  lemma LandAt(w0: World, w: World, w': World, snap: P.Snapshot, lands: nat, q: int)
    requires lands < |snap.stacks| && q in w0.prs && q in w.prs && w'.prs == LandedPrs(w.prs, snap.stacks[lands].stack)
    requires ClearedAt(w0, w, snap, lands, lands, q)
    requires P.Claimed(snap, q) <==> q in snap.stacks[lands].stack.Numbers()
    ensures ClearedAt(w0, w', snap, lands + 1, lands, q)
  {
    hide P.Claimed;
    var stack := snap.stacks[lands].stack;
    if q !in stack.Numbers() {
      NotMember(stack, q);
      assert InFirst(snap, lands + 1, q) <==> InFirst(snap, lands, q);
    }
  }

  lemma NotMember(stack: Stack, q: int)
    requires q !in stack.Numbers()
    ensures IndexOf(stack.members, q) < 0
  {
    forall i | 0 <= i < |stack.members| ensures stack.members[i].number != q {
      assert stack.Numbers()[i] in stack.Numbers();
    }
  }

  lemma GiveUpTurn(w0: World, w: World, snap: P.Snapshot, k: nat, lands: nat)
    requires k < |snap.stacks| && lands < |snap.stacks| && k != lands && snap.stacks[lands].stack.members != []
    requires Clearing(w0, w, snap, k, lands)
    ensures Clearing(w0, TellAll(w, P.Unclaimed(snap, snap.stacks[k].stack.Numbers())), snap, k + 1, lands)
  {
    var ns := P.Unclaimed(snap, snap.stacks[k].stack.Numbers());
    TellAllShape(w, ns);
    forall q | q in w0.prs ensures ClearedAt(w0, TellAll(w, ns), snap, k + 1, lands, q) {
      assert ClearedAt(w0, w, snap, k, lands, q);
      GivenUpOneMore(w0, w, snap, k, q);
    }
  }

  /** With a green stack, the stacks' turns land it and give up the others. */
  lemma {:induction false} StacksClear(w0: World, snap: P.Snapshot, tops: seq<int>, k: nat, clean: seq<int> -> bool)
    requires Tidy(w0) && Reads(w0, snap, tops) && P.FirstGreen(snap, |snap.stacks|) >= 0 && k <= |tops|
    ensures var lands := P.FirstGreen(snap, |snap.stacks|);
            snap.stacks[lands].stack.members != [] && Clearing(w0, AfterStacks(w0, snap, k, clean), snap, k, lands)
  {
    hide Tidy, Clearing, P.StackActions, P.Claims, P.FirstGreen, P.Unclaimed, TellAll, FastForward, Live;
    var lands := P.FirstGreen(snap, |snap.stacks|);
    assert Marked(w0, tops[lands]);
    if k == 0 {
      ClearingStart(w0, snap, lands, clean);
    } else {
      StacksClear(w0, snap, tops, k - 1, clean);
      StacksState(w0, snap, k, clean);
      var w := AfterStacks(w0, snap, k - 1, clean);
      ClaimsLanding(snap, tops, w0, k - 1);
      if k - 1 == lands {
        AdvanceTurn(w, snap, lands, clean);
        LandTurn(w0, w, snap, tops);
      } else {
        AbandonTurn(w, snap, k - 1, clean);
        GiveUpTurn(w0, w, snap, k - 1, lands);
      }
    }
  }

  lemma ClearingStart(w0: World, snap: P.Snapshot, lands: nat, clean: seq<int> -> bool)
    requires Tidy(w0) && lands < |snap.stacks| && snap.stacks[lands].stack.members != []
    ensures AfterStacks(w0, snap, 0, clean) == w0 && Clearing(w0, w0, snap, 0, lands)
  {
  }

  // ---- a queue with landings cut short ----

  lemma CutReads(w: World, order: seq<int>, gh: GitHub, cfg: Config, now: int, i: nat)
    requires Cut(w) && Listing(w, order) && i < |Tops(w, order)|
    ensures var snap := SnapshotOf(w, order, gh, cfg, now);
            && |snap.stacks| == |Tops(w, order)|
            && snap.stacks[i].stack == w.prs[Tops(w, order)[i]].comment.stack.value
            && (P.Claims(snap, i) <==> snap.stacks[i].landed)
            && Tops(w, order)[i] in snap.stacks[i].stack.Numbers()
  {
    StackRead(w, order, gh, cfg, now, i);
    TopInStack(w, Tops(w, order)[i]);
  }

  lemma EmptyTidy(w: World, order: seq<int>)
    requires Cut(w) && Listing(w, order) && Tops(w, order) == []
    ensures Tidy(w)
  {
    forall p | p in w.prs && w.prs[p].labelled ensures w.prs[p].comment.stack.None? {
      if w.prs[p].comment.stack.Some? { MarkedIsTop(w, order, p); }
    }
  }
}
