/**
 What a plan promises: the target moves at most once, only to a commit whose
 required checks all passed on it, and no branch is pushed twice.
 */
module QueueTickSafety {
  import opened Options
  import opened Git
  import opened Queue
  import opened Checks
  import opened QueueWorld
  import opened QueueSafety
  import opened QueueLanding
  import opened QueueTick
  import P = QueuePlan

  function Advances(actions: seq<P.Action>): nat {
    if actions == [] then 0
    else Advances(actions[..|actions| - 1]) + if actions[|actions| - 1].Advance? then 1 else 0
  }

  /** The branches a plan rebases, in the order of its form actions. */
  function Formed(actions: seq<P.Action>): seq<int> {
    if actions == [] then []
    else Formed(actions[..|actions| - 1]) + if actions[|actions| - 1].Form? then actions[|actions| - 1].prs else []
  }

  lemma {:induction false} CountsConcat(a: seq<P.Action>, b: seq<P.Action>)
    ensures Advances(a + b) == Advances(a) + Advances(b)
    ensures Formed(a + b) == Formed(a) + Formed(b)
    decreases |b|
  {
    hide Advances, Formed;
    if b == [] {
      NothingCounts();
      assert a + b == a;
    } else {
      var front, last := b[..|b| - 1], b[|b| - 1];
      CountsConcat(a, front);
      OneCounts(front, last);
      OneCounts(a + front, last);
      assert a + b == (a + front) + [last] && b == front + [last];
    }
  }

  lemma OneCounts(a: seq<P.Action>, last: P.Action)
    ensures Advances(a + [last]) == Advances(a) + if last.Advance? then 1 else 0
    ensures Formed(a + [last]) == Formed(a) + if last.Form? then last.prs else []
  {
    assert (a + [last])[..|a|] == a;
  }

  /** Failing stacks whose bisection forms new stacks. */
  predicate Bisected(snap: P.Snapshot, i: nat)
    requires i < |snap.stacks|
  {
    && !snap.stacks[i].landed && P.Verdict(snap, i) == P.Fits && snap.stacks[i].state.Failure?
    && !(snap.stacks[i].stack.retry == 0 && |snap.stacks[i].rerun| > 0) && |snap.stacks[i].stack.members| != 1
  }

  /** The stack that lands is the only green one left standing. */
  lemma OnlyGreen(snap: P.Snapshot, i: nat)
    requires i < |snap.stacks|
    ensures var lands := P.FirstGreen(snap, |snap.stacks|);
            && (i == lands <==> !snap.stacks[i].landed && P.Verdict(snap, i) == P.Fits && snap.stacks[i].state.Success?)
            && (lands >= 0 && i != lands && !snap.stacks[i].landed ==> P.Verdict(snap, i) != P.Fits)
  {
    assert P.Green(snap, i) || !P.Green(snap, i);
  }

  lemma BisectionCounts(stack: Stack)
    requires |stack.members| != 1
    ensures var halves := P.Halves(stack.Numbers());
            var actions := [P.Split(stack), P.Form(halves.0, stack.base), P.Form(halves.1, stack.base)];
            Advances(actions) == 0 && Formed(actions) == stack.Numbers()
  {
    var halves := P.Halves(stack.Numbers());
    assert halves.0 + halves.1 == stack.Numbers();
    ThreeCounts(P.Split(stack), P.Form(halves.0, stack.base), P.Form(halves.1, stack.base));
  }

  lemma ThreeCounts(a: P.Action, b: P.Action, c: P.Action)
    requires a.Split? && b.Form? && c.Form?
    ensures Advances([a, b, c]) == 0 && Formed([a, b, c]) == b.prs + c.prs
  {
    assert [a, b, c][..2] == [a, b] && [a, b][..1] == [a] && [a][..0] == [];
    assert Advances([a]) == 0 && Formed([a]) == [];
    assert Advances([a, b]) == 0 && Formed([a, b]) == b.prs;
  }

  lemma StackCounts(snap: P.Snapshot, i: nat)
    requires i < |snap.stacks|
    ensures Advances(P.StackActions(snap, i)) == if i == P.FirstGreen(snap, |snap.stacks|) then 1 else 0
    ensures Formed(P.StackActions(snap, i)) == if Bisected(snap, i) then snap.stacks[i].stack.Numbers() else []
    ensures Bisected(snap, i) ==> P.FirstGreen(snap, |snap.stacks|) < 0
  {
    OnlyGreen(snap, i);
    if Bisected(snap, i) {
      BisectionCounts(snap.stacks[i].stack);
    }
  }

  /** The numbers of the bisected stacks among the first n. */
  function BisectedNumbers(snap: P.Snapshot, n: nat): seq<int>
    requires n <= |snap.stacks|
  {
    if n == 0 then []
    else BisectedNumbers(snap, n - 1) + if Bisected(snap, n - 1) then snap.stacks[n - 1].stack.Numbers() else []
  }

  lemma NothingCounts()
    ensures Advances([]) == 0 && Formed([]) == []
  {
  }

  lemma {:induction false} StacksCounts(snap: P.Snapshot, n: nat)
    requires n <= |snap.stacks|
    ensures Advances(P.StacksActions(snap, n)) == if 0 <= P.FirstGreen(snap, |snap.stacks|) < n then 1 else 0
    ensures Formed(P.StacksActions(snap, n)) == BisectedNumbers(snap, n)
    ensures P.FirstGreen(snap, |snap.stacks|) >= 0 ==> BisectedNumbers(snap, n) == []
  {
    hide Advances, Formed, P.StackActions, P.FirstGreen, Bisected;
    if n == 0 {
      NothingCounts();
    } else {
      StacksCounts(snap, n - 1);
      StackCounts(snap, n - 1);
      CountsConcat(P.StacksActions(snap, n - 1), P.StackActions(snap, n - 1));
    }
  }

  lemma {:induction false} NotEligibleCounts(snap: P.Snapshot, n: nat)
    requires n <= |snap.queued|
    ensures Advances(P.NotEligibleTells(snap, n)) == 0 && Formed(P.NotEligibleTells(snap, n)) == []
  {
    if n > 0 {
      NotEligibleCounts(snap, n - 1);
      var pr := snap.queued[n - 1];
      var more := if P.Idle(snap, pr) && !pr.entry.Eligible() then [P.Tell(pr.number, P.NotEligible)] else [];
      CountsConcat(P.NotEligibleTells(snap, n - 1), more);
    }
  }

  lemma {:induction false} PositionCounts(waiting: seq<int>, n: nat)
    requires n <= |waiting|
    ensures Advances(P.PositionTells(waiting, n)) == 0 && Formed(P.PositionTells(waiting, n)) == []
  {
    if n > 0 {
      PositionCounts(waiting, n - 1);
      CountsConcat(P.PositionTells(waiting, n - 1), [P.Tell(waiting[n - 1], P.Position(n, |waiting|))]);
    }
  }

  /** A plan moves the target at most once, and only in a tick that rebases
      nothing; otherwise it rebases the bisected stacks, or with no stack in
      flight the first candidates. */
  lemma PlanCounts(snap: P.Snapshot, batch: nat)
    ensures var plan := P.Plan(snap, batch);
            var candidates := P.Candidates(snap, |snap.queued|);
            && Advances(plan) == (if P.FirstGreen(snap, |snap.stacks|) >= 0 then 1 else 0)
            && Formed(plan) == BisectedNumbers(snap, |snap.stacks|) + candidates[..P.Taken(snap, batch)]
            && (Advances(plan) > 0 ==> Formed(plan) == [])
            && (snap.stacks == [] || P.Taken(snap, batch) == 0)
  {
    var candidates := P.Candidates(snap, |snap.queued|);
    var k := P.Taken(snap, batch);
    var waiting := candidates[k..];
    var a, b := P.StacksActions(snap, |snap.stacks|), P.NotEligibleTells(snap, |snap.queued|);
    var c := P.PositionTells(waiting, |waiting|);
    var d := if k > 0 then [P.Form(candidates[..k], snap.target)] else [];
    StacksCounts(snap, |snap.stacks|);
    NotEligibleCounts(snap, |snap.queued|);
    PositionCounts(waiting, |waiting|);
    CountsConcat(a, b);
    CountsConcat(a + b, c);
    CountsConcat(a + b + c, d);
    assert Formed(d) == candidates[..k];
  }

  // ---- the plan of what a tick reads ----

  lemma {:induction false} ByNumberOf(w: World, order: seq<int>, p: int)
    requires (forall i :: 0 <= i < |order| ==> order[i] in w.prs)
    ensures var index := P.ByNumber(QueuedList(w, order));
            (p in index <==> p in order) && (p in order ==> index[p] == QueuedOf(w, p))
  {
    if order != [] {
      var front := order[..|order| - 1];
      ByNumberOf(w, front, p);
      assert QueuedList(w, order)[..|order| - 1] == QueuedList(w, front);
      assert order == front + [order[|order| - 1]];
    }
  }

  /** A stack that matches what the tick read: built on the target, and every
      member still queued at the commit the stack gave it. */
  ghost predicate Live(w: World, p: int) {
    && Marked(w, p) && w.prs[p].labelled
    && var stack := w.prs[p].comment.stack.value;
    && stack.base == w.target
    && forall i :: 0 <= i < |stack.members| ==>
         var m := stack.members[i];
         m.number in w.prs && w.prs[m.number].labelled && w.prs[m.number].head == m.sha
  }

  lemma {:induction false} MembersFit(w: World, order: seq<int>, members: seq<Member>, n: nat)
    requires Listing(w, order) && n <= |members|
    ensures P.MemberStaleness(members, n, P.ByNumber(QueuedList(w, order))) == P.Fits <==>
            forall i :: 0 <= i < n ==>
              members[i].number in w.prs && w.prs[members[i].number].labelled && w.prs[members[i].number].head == members[i].sha
  {
    if n > 0 {
      MembersFit(w, order, members, n - 1);
      ByNumberOf(w, order, members[n - 1].number);
    }
  }

  /** staleReason is empty exactly for the live stacks. */
  lemma FitsMeansLive(w: World, order: seq<int>, p: int)
    requires Listing(w, order) && Marked(w, p) && w.prs[p].labelled
    ensures P.StaleReason(w.prs[p].comment.stack.value, w.target, P.ByNumber(QueuedList(w, order))) == P.Fits <==>
              Live(w, p)
  {
    var stack := w.prs[p].comment.stack.value;
    MembersFit(w, order, stack.members, |stack.members|);
  }

  lemma StackRead(w: World, order: seq<int>, gh: GitHub, cfg: Config, now: int, i: nat)
    requires Listing(w, order) && i < |Tops(w, order)|
    ensures var snap := SnapshotOf(w, order, gh, cfg, now);
            var p := Tops(w, order)[i];
            var stack := w.prs[p].comment.stack.value;
            && Marked(w, p) && w.prs[p].labelled
            && |snap.stacks| == |Tops(w, order)| && snap.stacks[i].stack == stack
            && (P.StaleReason(stack, snap.target, P.ByNumber(snap.queued)) == P.Fits <==> Live(w, p))
            && (Live(w, p) ==>
                  && !snap.stacks[i].landed
                  && snap.stacks[i].state == StatusOf(cfg.required, gh.runs(stack.Top().sha), InputsOf(gh, cfg, stack, now)).state)
  {
    var p := Tops(w, order)[i];
    FitsMeansLive(w, order, p);
  }

  /** And its state, what may be run again and what runs below it are what
      GitHub reports. */
  lemma LiveRead(w: World, order: seq<int>, gh: GitHub, cfg: Config, now: int, i: nat)
    requires Listing(w, order) && i < |Tops(w, order)| && Live(w, Tops(w, order)[i])
    ensures |SnapshotOf(w, order, gh, cfg, now).stacks| == |Tops(w, order)|
    ensures var stack := w.prs[Tops(w, order)[i]].comment.stack.value;
            ReadAs(gh, cfg, stack, now, SnapshotOf(w, order, gh, cfg, now).stacks[i])
  {
    hide ReadAs, LoadInFlight, Live;
    var snap := SnapshotOf(w, order, gh, cfg, now);
    var stack := w.prs[Tops(w, order)[i]].comment.stack.value;
    StackRead(w, order, gh, cfg, now, i);
    ReadMeans(gh, cfg, stack, w.target, P.ByNumber(snap.queued), now);
  }

  /** Every required check without paths, or with a path that matches a file
      some member changes, has its newest run on exactly this commit completed
      and passed. */
  ghost predicate Tested(gh: GitHub, cfg: Config, stack: Stack, sha: Commit) {
    forall c :: c in cfg.required && Covers(gh, cfg, stack, c) ==>
      exists run :: run in gh.runs(sha) && run.name == c.name && Good(run)
        && forall r :: r in gh.runs(sha) && r.name == c.name ==> r.id <= run.id
  }

  /** A plan that moves the target moves it to the top of a live stack whose
      required checks all passed on that exact commit, and the plan says so
      once. */
  lemma AdvanceIsTested(w: World, order: seq<int>, gh: GitHub, cfg: Config, now: int, stack: Stack)
    requires Listing(w, order)
    requires P.Advance(stack) in P.Plan(SnapshotOf(w, order, gh, cfg, now), cfg.batch)
    ensures stack.members != [] && Live(w, stack.Top().number) && w.prs[stack.Top().number].comment.stack == Some(stack)
    ensures Tested(gh, cfg, stack, stack.Top().sha)
    ensures Advances(P.Plan(SnapshotOf(w, order, gh, cfg, now), cfg.batch)) == 1
    ensures Formed(P.Plan(SnapshotOf(w, order, gh, cfg, now), cfg.batch)) == []
  {
    hide Covers, ReadAs, SnapshotOf;
    var snap := SnapshotOf(w, order, gh, cfg, now);
    PlanCounts(snap, cfg.batch);
    AdvanceIsGreen(snap, cfg.batch, stack);
    var i := P.FirstGreen(snap, |snap.stacks|);
    StackCount(w, order, gh, cfg, now);
    StackRead(w, order, gh, cfg, now, i);
    LiveRead(w, order, gh, cfg, now, i);
    GreenIsTested(gh, cfg, stack, now, snap.stacks[i]);
  }

  lemma StackCount(w: World, order: seq<int>, gh: GitHub, cfg: Config, now: int)
    requires Listing(w, order)
    ensures |SnapshotOf(w, order, gh, cfg, now).stacks| == |Tops(w, order)|
  {
  }

  lemma GreenIsTested(gh: GitHub, cfg: Config, stack: Stack, now: int, r: P.InFlight)
    requires stack.members != [] && ReadAs(gh, cfg, stack, now, r) && r.state.Success?
    ensures Tested(gh, cfg, stack, stack.Top().sha)
  {
    hide Covers;
    var runs := gh.runs(stack.Top().sha);
    forall c | c in cfg.required && Covers(gh, cfg, stack, c)
      ensures exists run :: run in runs && run.name == c.name && Good(run)
                && forall r :: r in runs && r.name == c.name ==> r.id <= run.id
    {
      var k :| NewestAt(runs, c.name, k) && Good(runs[k]);
      forall r | r in runs && r.name == c.name ensures r.id <= runs[k].id {
        var j :| 0 <= j < |runs| && runs[j] == r;
      }
      assert runs[k] in runs;
    }
  }

  /** The stack a plan advances is the first green one. */
  lemma AdvanceIsGreen(snap: P.Snapshot, batch: nat, stack: Stack)
    requires P.Advance(stack) in P.Plan(snap, batch)
    ensures var i := P.FirstGreen(snap, |snap.stacks|); i >= 0 && snap.stacks[i].stack == stack
  {
    var candidates := P.Candidates(snap, |snap.queued|);
    var waiting := candidates[P.Taken(snap, batch)..];
    NoAdvanceInNotEligible(snap, |snap.queued|, stack);
    NoAdvanceInPositions(waiting, |waiting|, stack);
    AdvanceInStacks(snap, |snap.stacks|, stack);
  }

  lemma {:induction false} NoAdvanceInNotEligible(snap: P.Snapshot, n: nat, stack: Stack)
    requires n <= |snap.queued|
    ensures P.Advance(stack) !in P.NotEligibleTells(snap, n)
  {
    if n > 0 { NoAdvanceInNotEligible(snap, n - 1, stack); }
  }

  lemma {:induction false} NoAdvanceInPositions(waiting: seq<int>, n: nat, stack: Stack)
    requires n <= |waiting|
    ensures P.Advance(stack) !in P.PositionTells(waiting, n)
  {
    if n > 0 { NoAdvanceInPositions(waiting, n - 1, stack); }
  }

  lemma {:induction false} AdvanceInStacks(snap: P.Snapshot, n: nat, stack: Stack)
    requires n <= |snap.stacks| && P.Advance(stack) in P.StacksActions(snap, n)
    ensures var i := P.FirstGreen(snap, |snap.stacks|); i >= 0 && snap.stacks[i].stack == stack
  {
    hide P.ByNumber, P.Halves;
    if n > 0 {
      OnlyGreen(snap, n - 1);
      if P.Advance(stack) !in P.StackActions(snap, n - 1) { AdvanceInStacks(snap, n - 1, stack); }
    }
  }

  /** Whatever moved since the snapshot, the target a landing leaves is the
      stack's top, contains every member's recorded head, and was the stack's
      own base before. */
  lemma LandingContainsMembers(w: World, top: int)
    requires Inv(w) && Enabled(w, Step.Advance(top))
    ensures var stack := w.prs[top].comment.stack.value;
            var w' := Next(w, Step.Advance(top));
            && w.target == stack.base && w'.target == stack.Top().sha
            && forall i :: 0 <= i < |stack.members| ==> IsAncestor(stack.members[i].sha, w'.target)
  {
    var stack := w.prs[top].comment.stack.value;
    assert Marked(w, top) && StackKept(w, stack);
    FastForwardFromBase(w, stack);
    forall i | 0 <= i < |stack.members| ensures IsAncestor(stack.members[i].sha, stack.Top().sha) {
      MemberInTop(stack, i);
    }
  }

  // ---- no branch is pushed twice ----

  lemma {:induction false} MarkedIsTop(w: World, order: seq<int>, p: int)
    requires p in order && Marked(w, p)
    ensures p in Tops(w, order)
  {
    var front := order[..|order| - 1];
    if p in front { MarkedIsTop(w, front, p); }
  }

  lemma {:induction false} TopsDistinct(w: World, order: seq<int>)
    requires Distinct(order)
    ensures Distinct(Tops(w, order))
  {
    if order != [] {
      var front := order[..|order| - 1];
      TopsDistinct(w, front);
      assert order == front + [order[|order| - 1]];
    }
  }

  /** Two stacks of one snapshot that both match GitHub share no member. */
  lemma SnapshotDisjoint(w: World, order: seq<int>, gh: GitHub, cfg: Config, now: int, i: nat, j: nat, n: int)
    requires Inv(w) && Listing(w, order)
    requires var snap := SnapshotOf(w, order, gh, cfg, now);
             && i < |snap.stacks| && j < |snap.stacks| && i != j
             && !snap.stacks[i].landed && P.Verdict(snap, i) == P.Fits
             && !snap.stacks[j].landed && P.Verdict(snap, j) == P.Fits
    ensures var snap := SnapshotOf(w, order, gh, cfg, now);
            !(n in snap.stacks[i].stack.Numbers() && n in snap.stacks[j].stack.Numbers())
  {
    var snap := SnapshotOf(w, order, gh, cfg, now);
    TopsDistinct(w, order);
    StackRead(w, order, gh, cfg, now, i);
    StackRead(w, order, gh, cfg, now, j);
    var a, b := snap.stacks[i].stack.Numbers(), snap.stacks[j].stack.Numbers();
    if n in a && n in b {
      var x :| 0 <= x < |a| && a[x] == n;
      var y :| 0 <= y < |b| && b[y] == n;
      LiveStacksDisjoint(w, Tops(w, order)[i], Tops(w, order)[j], x, y);
    }
  }

  lemma {:induction false} BisectedSource(snap: P.Snapshot, n: nat, x: int) returns (j: nat)
    requires n <= |snap.stacks| && x in BisectedNumbers(snap, n)
    ensures j < n && Bisected(snap, j) && x in snap.stacks[j].stack.Numbers()
  {
    if Bisected(snap, n - 1) && x in snap.stacks[n - 1].stack.Numbers() {
      j := n - 1;
    } else {
      j := BisectedSource(snap, n - 1, x);
    }
  }

  lemma DistinctConcat(a: seq<int>, b: seq<int>)
    requires Distinct(a) && Distinct(b) && forall x :: x in a ==> x !in b
    ensures Distinct(a + b)
  {
    forall i, j | 0 <= i < j < |a + b| ensures (a + b)[i] != (a + b)[j] {
      if i < |a| <= j { assert a[i] in a && b[j - |a|] in b; }
    }
  }

  /** No number stands in two stacks that a plan bisects, or twice in one. */
  ghost predicate BisectedOnce(snap: P.Snapshot) {
    && (forall i :: 0 <= i < |snap.stacks| && Bisected(snap, i) ==> Distinct(snap.stacks[i].stack.Numbers()))
    && forall i, j, x :: 0 <= i < j < |snap.stacks| && Bisected(snap, i) && Bisected(snap, j) && x in snap.stacks[i].stack.Numbers() ==>
         x !in snap.stacks[j].stack.Numbers()
  }

  lemma BisectedOnceHolds(w: World, order: seq<int>, gh: GitHub, cfg: Config, now: int)
    requires Inv(w) && Listing(w, order)
    ensures BisectedOnce(SnapshotOf(w, order, gh, cfg, now))
  {
    var snap := SnapshotOf(w, order, gh, cfg, now);
    forall i | 0 <= i < |snap.stacks| && Bisected(snap, i) ensures Distinct(snap.stacks[i].stack.Numbers()) {
      StackRead(w, order, gh, cfg, now, i);
      assert StackKept(w, snap.stacks[i].stack);
    }
    forall i, j, x | 0 <= i < j < |snap.stacks| && Bisected(snap, i) && Bisected(snap, j) && x in snap.stacks[i].stack.Numbers()
      ensures x !in snap.stacks[j].stack.Numbers()
    {
      SnapshotDisjoint(w, order, gh, cfg, now, i, j, x);
    }
  }

  lemma {:induction false} BisectedDistinct(snap: P.Snapshot, n: nat)
    requires BisectedOnce(snap) && n <= |snap.stacks|
    ensures Distinct(BisectedNumbers(snap, n))
  {
    if n > 0 {
      BisectedDistinct(snap, n - 1);
      if Bisected(snap, n - 1) {
        var earlier, here := BisectedNumbers(snap, n - 1), snap.stacks[n - 1].stack.Numbers();
        forall x | x in earlier ensures x !in here {
          var j := BisectedSource(snap, n - 1, x);
        }
        DistinctConcat(earlier, here);
      }
    }
  }

  lemma {:induction false} CandidatesDistinct(snap: P.Snapshot, n: nat)
    requires n <= |snap.queued|
    requires forall i, j :: 0 <= i < j < |snap.queued| ==> snap.queued[i].number != snap.queued[j].number
    ensures Distinct(P.Candidates(snap, n))
    ensures forall x :: x in P.Candidates(snap, n) ==>
              exists i :: 0 <= i < n && snap.queued[i].number == x && P.Idle(snap, snap.queued[i])
                && snap.queued[i].entry.Eligible()
  {
    if n > 0 {
      CandidatesDistinct(snap, n - 1);
      if P.Idle(snap, snap.queued[n - 1]) && snap.queued[n - 1].entry.Eligible() {
        DistinctConcat(P.Candidates(snap, n - 1), [snap.queued[n - 1].number]);
      }
    }
  }

  /** One tick rebases no branch twice, and none of a stack still tested. */
  lemma FormsDisjoint(w: World, order: seq<int>, gh: GitHub, cfg: Config, now: int)
    requires Inv(w) && Listing(w, order)
    ensures var snap := SnapshotOf(w, order, gh, cfg, now);
            var formed := Formed(P.Plan(snap, cfg.batch));
            && Distinct(formed)
            && forall i, n :: 0 <= i < |snap.stacks| && P.Waiting(snap, i) && n in snap.stacks[i].stack.Numbers() ==>
                 n !in formed
  {
    var snap := SnapshotOf(w, order, gh, cfg, now);
    PlanCounts(snap, cfg.batch);
    CandidatesDistinct(snap, |snap.queued|);
    BisectedOnceHolds(w, order, gh, cfg, now);
    BisectedDistinct(snap, |snap.stacks|);
    if snap.stacks != [] {
      forall i, n | 0 <= i < |snap.stacks| && P.Waiting(snap, i) && n in snap.stacks[i].stack.Numbers()
        ensures n !in BisectedNumbers(snap, |snap.stacks|)
      {
        if n in BisectedNumbers(snap, |snap.stacks|) {
          var j := BisectedSource(snap, |snap.stacks|, n);
          SnapshotDisjoint(w, order, gh, cfg, now, i, j, n);
        }
      }
    }
  }
}
