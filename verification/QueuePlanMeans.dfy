/**
 What a plan means, said without the planner's own loops: which actions it
 holds for which stacks and which pull requests.
 */
module QueuePlanMeans {
  import opened Basics
  import opened Queue
  import opened QueuePlan

  // ---- which stacks still match GitHub ----

  /** The last entry of the queue for a number. */
  ghost predicate Last(queued: seq<Queued>, j: int, n: int) {
    0 <= j < |queued| && queued[j].number == n && forall k :: j < k < |queued| ==> queued[k].number != n
  }

  ghost predicate Listed(queued: seq<Queued>, n: int) {
    exists j :: 0 <= j < |queued| && queued[j].number == n
  }

  /** The member's pull request is queued and its branch is at the member's commit. */
  ghost predicate AtHead(queued: seq<Queued>, m: Member) {
    exists j :: Last(queued, j, m.number) && queued[j].head == m.sha
  }

  lemma {:induction false} ByNumberMeans(queued: seq<Queued>, n: int)
    ensures n in ByNumber(queued) <==> Listed(queued, n)
    ensures n in ByNumber(queued) ==> exists j :: Last(queued, j, n) && ByNumber(queued)[n] == queued[j]
    decreases |queued|
  {
    if queued != [] {
      var front, last := queued[..|queued| - 1], queued[|queued| - 1];
      ByNumberMeans(front, n);
      if last.number == n {
        assert Last(queued, |queued| - 1, n);
      } else if n in ByNumber(front) {
        var j :| Last(front, j, n) && ByNumber(front)[n] == front[j];
        assert Last(queued, j, n) && queued[j] == front[j];
      } else {
        assert forall j :: 0 <= j < |front| ==> queued[j] == front[j];
      }
    }
  }

  lemma AtHeadMeans(queued: seq<Queued>, m: Member)
    ensures AtHead(queued, m) <==> m.number in ByNumber(queued) && ByNumber(queued)[m.number].head == m.sha
  {
    hide ByNumber;
    ByNumberMeans(queued, m.number);
    if AtHead(queued, m) {
      var j :| Last(queued, j, m.number) && queued[j].head == m.sha;
      var k :| Last(queued, k, m.number) && ByNumber(queued)[m.number] == queued[k];
      assert j == k;
    }
  }

  /** A stack on the target whose branches are all where it left them. */
  ghost predicate Current(snap: Snapshot, stack: Stack) {
    stack.base == snap.target && forall k :: 0 <= k < |stack.members| ==> AtHead(snap.queued, stack.members[k])
  }

  /** The first n members are, and the next is not. */
  ghost predicate OffAt(snap: Snapshot, stack: Stack, n: int) {
    && 0 <= n < |stack.members| && !AtHead(snap.queued, stack.members[n])
    && forall k :: 0 <= k < n ==> AtHead(snap.queued, stack.members[k])
  }

  /** Why a stack does not match GitHub. */
  ghost predicate Unfit(snap: Snapshot, stack: Stack, reason: Staleness) {
    match reason
    case Fits => Current(snap, stack)
    case TargetMoved => stack.base != snap.target
    case Left(n) =>
      && stack.base == snap.target && !Listed(snap.queued, n)
      && exists k :: OffAt(snap, stack, k) && stack.members[k].number == n
    case PushedTo(n) =>
      && stack.base == snap.target && Listed(snap.queued, n)
      && exists k :: OffAt(snap, stack, k) && stack.members[k].number == n
    case LandsFirst(_) => false
  }

  lemma {:induction false} MembersMean(snap: Snapshot, stack: Stack, n: nat)
    requires n <= |stack.members|
    ensures var reason := MemberStaleness(stack.members, n, ByNumber(snap.queued));
            if reason == Fits then forall k :: 0 <= k < n ==> AtHead(snap.queued, stack.members[k])
            else exists k ::
              && 0 <= k < n && OffAt(snap, stack, k)
              && reason == if Listed(snap.queued, stack.members[k].number) then PushedTo(stack.members[k].number)
              else Left(stack.members[k].number)
  {
    hide ByNumber, AtHead;
    if n > 0 {
      MembersMean(snap, stack, n - 1);
      AtHeadMeans(snap.queued, stack.members[n - 1]);
      ByNumberMeans(snap.queued, stack.members[n - 1].number);
      if MemberStaleness(stack.members, n - 1, ByNumber(snap.queued)) == Fits {
        assert AtHead(snap.queued, stack.members[n - 1]) || OffAt(snap, stack, n - 1);
      }
    }
  }

  lemma StaleMeans(snap: Snapshot, stack: Stack, reason: Staleness)
    ensures Unfit(snap, stack, reason) <==> reason == StaleReason(stack, snap.target, ByNumber(snap.queued))
  {
    hide ByNumber, AtHead, MemberStaleness, Listed;
    MembersMean(snap, stack, |stack.members|);
    OffOnce(snap, stack);
  }

  lemma OffOnce(snap: Snapshot, stack: Stack)
    ensures forall a, b :: OffAt(snap, stack, a) && OffAt(snap, stack, b) ==> a == b
    ensures (forall k :: 0 <= k < |stack.members| ==> AtHead(snap.queued, stack.members[k])) ==>
              forall a :: !OffAt(snap, stack, a)
  {
    hide AtHead;
  }

  // ---- which one lands, which stay ----

  ghost predicate CanLand(snap: Snapshot, i: int) {
    && 0 <= i < |snap.stacks| && !snap.stacks[i].landed && snap.stacks[i].state.Success?
    && Current(snap, snap.stacks[i].stack)
  }

  ghost predicate Lands(snap: Snapshot, i: int) {
    CanLand(snap, i) && forall j :: 0 <= j < i ==> !CanLand(snap, j)
  }

  /** A stack that no tick has to drop: it matches GitHub and no other lands. */
  ghost predicate Stays(snap: Snapshot, i: int) {
    && 0 <= i < |snap.stacks| && !snap.stacks[i].landed && Current(snap, snap.stacks[i].stack)
    && forall j :: Lands(snap, j) ==> j == i
  }

  /** One that is dropped, and why. */
  ghost predicate Dropped(snap: Snapshot, i: int, reason: Staleness) {
    && 0 <= i < |snap.stacks| && !snap.stacks[i].landed
    && if reason.LandsFirst? then
      && Current(snap, snap.stacks[i].stack)
      && exists j :: Lands(snap, j) && j != i && reason.numbers == snap.stacks[j].stack.Numbers()
    else reason != Fits && Unfit(snap, snap.stacks[i].stack, reason)
  }

  lemma CanLandMeans(snap: Snapshot, i: nat)
    requires i < |snap.stacks|
    ensures CanLand(snap, i) <==> Green(snap, i)
  {
    hide StaleReason, Current;
    StaleMeans(snap, snap.stacks[i].stack, Fits);
  }

  lemma LandsMeans(snap: Snapshot, i: int)
    ensures Lands(snap, i) <==> i >= 0 && i == FirstGreen(snap, |snap.stacks|)
  {
    hide CanLand, Green, FirstGreen;
    forall k | 0 <= k < |snap.stacks| ensures CanLand(snap, k) <==> Green(snap, k) { CanLandMeans(snap, k); }
    var first := FirstGreen(snap, |snap.stacks|);
    if first >= 0 && CanLand(snap, first) {}
    if Lands(snap, i) { InRange(snap, i); }
  }

  lemma InRange(snap: Snapshot, i: int)
    requires CanLand(snap, i)
    ensures 0 <= i < |snap.stacks|
  {
  }

  lemma VerdictMeans(snap: Snapshot, i: nat, reason: Staleness)
    requires i < |snap.stacks| && !snap.stacks[i].landed
    ensures Verdict(snap, i) == Fits <==> Stays(snap, i)
    ensures reason != Fits ==> (Verdict(snap, i) == reason <==> Dropped(snap, i, reason))
  {
    hide StaleReason, Current, Lands, FirstGreen, Unfit;
    var stack, first := snap.stacks[i].stack, FirstGreen(snap, |snap.stacks|);
    StaleMeans(snap, stack, Fits);
    StaleMeans(snap, stack, reason);
    UnfitMeans(snap, stack);
    forall j ensures Lands(snap, j) <==> j >= 0 && j == first { LandsMeans(snap, j); }
    if first >= 0 { assert Lands(snap, first); }
  }

  lemma UnfitMeans(snap: Snapshot, stack: Stack)
    ensures Unfit(snap, stack, Fits) <==> Current(snap, stack)
    ensures forall ns :: !Unfit(snap, stack, LandsFirst(ns))
    ensures StaleReason(stack, snap.target, ByNumber(snap.queued)) == Fits ==> Current(snap, stack)
    ensures !StaleReason(stack, snap.target, ByNumber(snap.queued)).LandsFirst?
  {
    hide StaleReason, ByNumber, Current;
    StaleMeans(snap, stack, Fits);
    StaleMeans(snap, stack, StaleReason(stack, snap.target, ByNumber(snap.queued)));
  }

  // ---- picking some, in order ----

  /** The positions below n that satisfy keep, in order. */
  ghost predicate Picks(at: seq<nat>, n: nat, keep: nat -> bool) {
    && (forall k :: 0 <= k < |at| ==> at[k] < n && keep(at[k]))
    && (forall j, k :: 0 <= j < k < |at| ==> at[j] < at[k])
    && (forall i :: 0 <= i < n && keep(i) ==> i in at)
  }

  /** There is only one way to pick them. */
  lemma {:induction false} PicksOnce(a: seq<nat>, b: seq<nat>, n: nat, keep: nat -> bool)
    requires Picks(a, n, keep) && Picks(b, n, keep)
    ensures a == b
    decreases n
  {
    hide Picks;
    if n == 0 {
      PicksNone(a, keep);
      PicksNone(b, keep);
    } else {
      PicksFewer(a, n, keep);
      PicksFewer(b, n, keep);
      if keep(n - 1) {
        PicksOnce(a[..|a| - 1], b[..|b| - 1], n - 1, keep);
        assert a == a[..|a| - 1] + [n - 1] && b == b[..|b| - 1] + [n - 1];
      } else {
        PicksOnce(a, b, n - 1, keep);
      }
    }
  }

  lemma PicksNone(a: seq<nat>, keep: nat -> bool)
    requires Picks(a, 0, keep)
    ensures a == []
  {
    if a != [] { FirstBelow(a, 0, keep); }
  }

  lemma FirstBelow(a: seq<nat>, n: nat, keep: nat -> bool)
    requires a != [] && Picks(a, n, keep)
    ensures n > 0
  {
    assert a[0] < n;
  }

  lemma PicksFewer(a: seq<nat>, n: nat, keep: nat -> bool)
    requires n > 0 && Picks(a, n, keep)
    ensures if keep(n - 1) then a != [] && a[|a| - 1] == n - 1 && Picks(a[..|a| - 1], n - 1, keep) else Picks(a, n - 1, keep)
  {
    if keep(n - 1) {
      assert n - 1 in a;
      var k :| 0 <= k < |a| && a[k] == n - 1;
      assert k == |a| - 1;
      forall i | 0 <= i < n - 1 && keep(i) ensures i in a[..|a| - 1] { assert i in a; }
    }
  }

  lemma PicksMore(a: seq<nat>, n: nat, keep: nat -> bool)
    requires Picks(a, n, keep)
    ensures Picks(if keep(n) then a + [n] else a, n + 1, keep)
  {
    if keep(n) {
      forall i | 0 <= i < n + 1 && keep(i) ensures i in a + [n] {
        if i < n { assert i in a; } else { assert (a + [n])[|a|] == n; }
      }
    }
  }

  function Those(ns: seq<int>, at: seq<nat>): seq<int>
    requires forall k :: 0 <= k < |at| ==> at[k] < |ns|
  {
    seq(|at|, k requires 0 <= k < |at| => ns[at[k]])
  }

  // ---- what is done with each stack ----

  /** A stack that landed or stays has the number as a member. */
  ghost predicate Keeps(snap: Snapshot, n: int) {
    exists i, k ::
      && 0 <= i < |snap.stacks| && 0 <= k < |snap.stacks[i].stack.members| && snap.stacks[i].stack.members[k].number == n
      && (snap.stacks[i].landed || Stays(snap, i))
  }

  lemma KeepsMeans(snap: Snapshot, n: int)
    ensures Keeps(snap, n) <==> Claimed(snap, n)
  {
    hide Verdict, Stays;
    forall i | 0 <= i < |snap.stacks| && !snap.stacks[i].landed ensures Verdict(snap, i) == Fits <==> Stays(snap, i) {
      VerdictMeans(snap, i, Fits);
    }
    if Claimed(snap, n) {
      var i :| 0 <= i < |snap.stacks| && Claims(snap, i) && n in snap.stacks[i].stack.Numbers();
      var k :| 0 <= k < |snap.stacks[i].stack.Numbers()| && snap.stacks[i].stack.Numbers()[k] == n;
      assert snap.stacks[i].stack.members[k].number == n;
    }
    if Keeps(snap, n) {
      var i, k :| && 0 <= i < |snap.stacks| && 0 <= k < |snap.stacks[i].stack.members|
                  && snap.stacks[i].stack.members[k].number == n && (snap.stacks[i].landed || Stays(snap, i));
      assert snap.stacks[i].stack.Numbers()[k] == n && Claims(snap, i);
    }
  }

  ghost function Freed(snap: Snapshot, ns: seq<int>): nat -> bool {
    (i: nat) => i < |ns| && !Keeps(snap, ns[i])
  }

  /** Those of the numbers that no stack keeps, in order. */
  ghost predicate Remaining(snap: Snapshot, ns: seq<int>, prs: seq<int>) {
    exists at :: Picks(at, |ns|, Freed(snap, ns)) && prs == Those(ns, at)
  }

  lemma {:induction false} FreedPicks(snap: Snapshot, ns: seq<int>, n: nat) returns (at: seq<nat>)
    requires n <= |ns|
    ensures Picks(at, n, Freed(snap, ns)) && Unclaimed(snap, ns[..n]) == Those(ns, at)
  {
    hide Picks, Keeps, Claimed;
    at := [];
    PicksNothing(Freed(snap, ns));
    if n > 0 {
      var before := FreedPicks(snap, ns, n - 1);
      PicksMore(before, n - 1, Freed(snap, ns));
      PicksBelow(before, n - 1, Freed(snap, ns));
      KeepsMeans(snap, ns[n - 1]);
      assert ns[..n][..n - 1] == ns[..n - 1];
      at := if Freed(snap, ns)(n - 1) then before + [n - 1] else before;
      PicksBelow(at, n, Freed(snap, ns));
    }
  }

  lemma PicksNothing(keep: nat -> bool)
    ensures Picks([], 0, keep)
  {
  }

  lemma PicksBelow(at: seq<nat>, n: nat, keep: nat -> bool)
    requires Picks(at, n, keep)
    ensures forall k :: 0 <= k < |at| ==> at[k] < n
  {
  }

  lemma RemainingMeans(snap: Snapshot, ns: seq<int>, prs: seq<int>)
    ensures Remaining(snap, ns, prs) <==> prs == Unclaimed(snap, ns)
  {
    hide Unclaimed, Freed;
    var at := FreedPicks(snap, ns, |ns|);
    assert ns[..|ns|] == ns;
    if Remaining(snap, ns, prs) {
      var b :| Picks(b, |ns|, Freed(snap, ns)) && prs == Those(ns, b);
      PicksOnce(at, b, |ns|, Freed(snap, ns));
    }
  }

  /** A stack that stays, failed, and has no run left to repeat. */
  ghost predicate GivenUp(snap: Snapshot, i: int) {
    && Stays(snap, i) && snap.stacks[i].state.Failure?
    && (snap.stacks[i].stack.retry > 0 || snap.stacks[i].rerun == [])
  }

  /** Two parts of a sequence, the first one longer if they differ. */
  predicate HalvesOf(ns: seq<int>, front: seq<int>, back: seq<int>) {
    front + back == ns && |back| <= |front| <= |back| + 1
  }

  lemma HalvesMean(ns: seq<int>, front: seq<int>, back: seq<int>)
    ensures HalvesOf(ns, front, back) <==> (front, back) == Halves(ns)
  {
    if HalvesOf(ns, front, back) { assert ns[..|front|] == front && ns[|front|..] == back; }
    if |ns| == 1 { assert ns + [] == ns; }
  }

  /** The stack counts its retry and the second it began. */
  predicate RetriedAt(now: int, before: Stack, after: Stack) {
    after == before.(retry := 1, at := after.at) && after.at % SECOND == 0 && after.at <= now < after.at + SECOND
  }

  /** What is done with stack i. */
  ghost predicate StackDoes(snap: Snapshot, i: int, a: Action) {
    && 0 <= i < |snap.stacks|
    && var f := snap.stacks[i];
    match a
    case Record(s) => f.landed && s == f.stack
    case Abandon(s, reason, prs) => s == f.stack && Dropped(snap, i, reason) && Remaining(snap, s.Numbers(), prs)
    case Cancel(s, runs) => s == f.stack && Stays(snap, i) && f.state.Pending? && runs == f.batchmates && runs != []
    case Advance(s) => s == f.stack && Lands(snap, i)
    case Retry(s, runs) =>
      && Stays(snap, i) && f.state.Failure? && f.stack.retry == 0 && runs == f.rerun && runs != []
      && RetriedAt(snap.now, f.stack, s)
    case Reject(n) => GivenUp(snap, i) && |f.stack.members| == 1 && n == f.stack.members[0].number
    case Split(s) => GivenUp(snap, i) && |f.stack.members| != 1 && s == f.stack
    case Form(prs, base) =>
      && GivenUp(snap, i) && |f.stack.members| != 1 && base == f.stack.base
      && exists front, back :: HalvesOf(f.stack.Numbers(), front, back) && (prs == front || prs == back)
    case Tell(_, _) => false
  }

  lemma StayingLands(snap: Snapshot, i: nat)
    requires i < |snap.stacks|
    ensures Lands(snap, i) <==> Stays(snap, i) && snap.stacks[i].state.Success?
  {
    hide Current, FirstGreen;
    forall j ensures Lands(snap, j) <==> j >= 0 && j == FirstGreen(snap, |snap.stacks|) { LandsMeans(snap, j); }
    CanLandMeans(snap, i);
    var first := FirstGreen(snap, |snap.stacks|);
    if CanLand(snap, i) { assert first >= 0; assert Lands(snap, first); }
  }

  lemma FailureMeans(snap: Snapshot, i: nat, a: Action)
    requires i < |snap.stacks| && Stays(snap, i) && snap.stacks[i].state.Failure?
    ensures a in FailureActions(snap.now, snap.stacks[i]) <==> StackDoes(snap, i, a)
  {
    hide Stays, Lands, Dropped, Remaining, Halves;
    var f := snap.stacks[i];
    StayingLands(snap, i);
    StaysOnly(snap, i);
    forall front, back ensures HalvesOf(f.stack.Numbers(), front, back) <==> (front, back) == Halves(f.stack.Numbers()) {
      HalvesMean(f.stack.Numbers(), front, back);
    }
    var halves := Halves(f.stack.Numbers());
    assert HalvesOf(f.stack.Numbers(), halves.0, halves.1);
  }

  lemma StaysOnly(snap: Snapshot, i: nat)
    requires i < |snap.stacks|
    ensures !Dropped(snap, i, Fits)
    ensures Stays(snap, i) ==> !snap.stacks[i].landed && forall reason :: !Dropped(snap, i, reason)
    ensures snap.stacks[i].landed ==> !Lands(snap, i) && !Stays(snap, i) && forall reason :: !Dropped(snap, i, reason)
    ensures forall reason :: Dropped(snap, i, reason) ==> !Stays(snap, i) && !Lands(snap, i)
  {
    hide Verdict, Current, Lands, Dropped, Stays;
    StayingLands(snap, i);
    if snap.stacks[i].landed {
      LandedOnly(snap, i);
    }
    if !snap.stacks[i].landed {
      forall reason ensures Dropped(snap, i, reason) ==> reason != Fits && !Stays(snap, i) {
        if Dropped(snap, i, reason) {
          DroppedHasReason(snap, i, reason);
          VerdictMeans(snap, i, reason);
        }
      }
    }
  }

  lemma DroppedHasReason(snap: Snapshot, i: nat, reason: Staleness)
    requires Dropped(snap, i, reason)
    ensures reason != Fits
  {
  }

  lemma LandedOnly(snap: Snapshot, i: nat)
    requires i < |snap.stacks| && snap.stacks[i].landed
    ensures !Lands(snap, i) && !Stays(snap, i) && forall reason :: !Dropped(snap, i, reason)
  {
  }

  lemma StackMeans(snap: Snapshot, i: nat, a: Action)
    requires i < |snap.stacks|
    ensures a in StackActions(snap, i) <==> StackDoes(snap, i, a)
  {
    hide Verdict, Stays, Lands, Dropped, Remaining, FailureActions, Unclaimed;
    var f := snap.stacks[i];
    StaysOnly(snap, i);
    StayingLands(snap, i);
    if !f.landed {
      VerdictMeans(snap, i, Verdict(snap, i));
      if Verdict(snap, i) != Fits {
        if a.Abandon? {
          RemainingMeans(snap, f.stack.Numbers(), a.prs);
          if a.reason != Fits { VerdictMeans(snap, i, a.reason); }
        }
      } else if f.state.Failure? {
        FailureMeans(snap, i, a);
      }
    }
  }

  lemma {:induction false} StacksMean(snap: Snapshot, n: nat, a: Action)
    requires n <= |snap.stacks|
    ensures a in StacksActions(snap, n) <==> exists i :: 0 <= i < n && StackDoes(snap, i, a)
  {
    hide StackActions, StackDoes;
    if n > 0 {
      StacksMean(snap, n - 1, a);
      StackMeans(snap, n - 1, a);
    }
  }

  // ---- what is done with the rest of the queue ----

  /** The i-th queued pull request has not landed and is in no stack. */
  ghost predicate Rests(snap: Snapshot, i: int) {
    && 0 <= i < |snap.queued| && !snap.queued[i].landed
    && forall j, k :: 0 <= j < |snap.stacks| && 0 <= k < |snap.stacks[j].stack.members| ==>
         snap.stacks[j].stack.members[k].number != snap.queued[i].number
  }

  /** And may enter a stack: a branch of this repository, no draft, into the
      queue's branch, labelled by someone who can write. */
  ghost predicate Joins(snap: Snapshot, i: int) {
    && Rests(snap, i)
    && var entry := snap.queued[i].entry;
    entry.sameRepo && !entry.draft && entry.targetsQueue && entry.labelerCanWrite
  }

  lemma RestsMeans(snap: Snapshot, i: nat)
    requires i < |snap.queued|
    ensures Rests(snap, i) <==> Idle(snap, snap.queued[i])
    ensures Joins(snap, i) <==> Idle(snap, snap.queued[i]) && snap.queued[i].entry.Eligible()
  {
    var n := snap.queued[i].number;
    if InStack(snap, n) {
      var j :| 0 <= j < |snap.stacks| && n in snap.stacks[j].stack.Numbers();
      var k :| 0 <= k < |snap.stacks[j].stack.Numbers()| && snap.stacks[j].stack.Numbers()[k] == n;
      assert snap.stacks[j].stack.members[k].number == n;
    } else {
      forall j, k | 0 <= j < |snap.stacks| && 0 <= k < |snap.stacks[j].stack.members|
        ensures snap.stacks[j].stack.members[k].number != n
      {
        assert snap.stacks[j].stack.Numbers()[k] == snap.stacks[j].stack.members[k].number;
      }
    }
  }

  ghost function Joining(snap: Snapshot): nat -> bool {
    (i: nat) => Joins(snap, i)
  }

  function NumbersOf(queued: seq<Queued>): seq<int> {
    seq(|queued|, i requires 0 <= i < |queued| => queued[i].number)
  }

  lemma {:induction false} CandidatePicks(snap: Snapshot, n: nat) returns (at: seq<nat>)
    requires n <= |snap.queued|
    ensures Picks(at, n, Joining(snap)) && Candidates(snap, n) == Those(NumbersOf(snap.queued), at)
  {
    hide Picks, Joins, Idle;
    at := [];
    PicksNothing(Joining(snap));
    if n > 0 {
      var before := CandidatePicks(snap, n - 1);
      PicksMore(before, n - 1, Joining(snap));
      PicksBelow(before, n - 1, Joining(snap));
      RestsMeans(snap, n - 1);
      at := if Joining(snap)(n - 1) then before + [n - 1] else before;
      PicksBelow(at, n, Joining(snap));
    }
  }

  /** The pull requests that may enter a stack, first come first. */
  ghost predicate Line(snap: Snapshot, line: seq<int>) {
    exists at :: Picks(at, |snap.queued|, Joining(snap)) && line == Those(NumbersOf(snap.queued), at)
  }

  lemma LineMeans(snap: Snapshot, line: seq<int>)
    ensures Line(snap, line) <==> line == Candidates(snap, |snap.queued|)
  {
    hide Candidates, Joining;
    var at := CandidatePicks(snap, |snap.queued|);
    if Line(snap, line) {
      var b :| Picks(b, |snap.queued|, Joining(snap)) && line == Those(NumbersOf(snap.queued), b);
      PicksOnce(at, b, |snap.queued|, Joining(snap));
    }
  }

  /** How many of them a new stack takes: none while another is in flight. */
  function Room(snap: Snapshot, batch: nat): nat {
    if snap.stacks == [] then batch else 0
  }

  /** What is done about queued pull requests: the first of the line that fit
      in a batch are stacked on the target, the others are told their place,
      those that may not enter are told that. */
  ghost predicate QueueDoes(snap: Snapshot, batch: nat, a: Action) {
    match a
    case Form(prs, base) =>
      && base == snap.target && prs != [] && |prs| <= Room(snap, batch)
      && exists line :: Line(snap, line) && prs <= line && (|prs| < Room(snap, batch) ==> prs == line)
    case Tell(n, NotEligible) => exists i :: Rests(snap, i) && !Joins(snap, i) && snap.queued[i].number == n
    case Tell(n, Position(place, total)) =>
      exists line ::
        && Line(snap, line) && total == |line| - Min(Room(snap, batch), |line|) && 1 <= place <= total
        && n == line[|line| - total + place - 1]
    case _ => false
  }

  lemma {:induction false} NotEligibleMeans(snap: Snapshot, k: nat, a: Action)
    requires k <= |snap.queued|
    ensures a in NotEligibleTells(snap, k) <==>
            && a.Tell? && a.note.NotEligible?
            && exists i :: 0 <= i < k && Rests(snap, i) && !Joins(snap, i) && snap.queued[i].number == a.number
  {
    hide Rests, Joins, Idle;
    if k > 0 {
      NotEligibleMeans(snap, k - 1, a);
      RestsMeans(snap, k - 1);
    }
  }

  lemma {:induction false} PositionsMean(waiting: seq<int>, k: nat, a: Action)
    requires k <= |waiting|
    ensures a in PositionTells(waiting, k) <==>
            && a.Tell? && a.note.Position? && a.note.total == |waiting| && 1 <= a.note.at <= k
            && waiting[a.note.at - 1] == a.number
  {
    if k > 0 { PositionsMean(waiting, k - 1, a); }
  }

  lemma QueueMeans(snap: Snapshot, batch: nat, a: Action)
    ensures var line := Candidates(snap, |snap.queued|);
            var waiting := line[Taken(snap, batch)..];
            QueueDoes(snap, batch, a) <==>
            || a in NotEligibleTells(snap, |snap.queued|) || a in PositionTells(waiting, |waiting|)
            || (Taken(snap, batch) > 0 && a == Form(line[..Taken(snap, batch)], snap.target))
  {
    hide Candidates, NotEligibleTells, PositionTells, Rests, Joins, Line;
    var line := Candidates(snap, |snap.queued|);
    var waiting := line[Taken(snap, batch)..];
    forall l ensures Line(snap, l) <==> l == line { LineMeans(snap, l); }
    assert Line(snap, line);
    NotEligibleMeans(snap, |snap.queued|, a);
    PositionsMean(waiting, |waiting|, a);
    RestsWithin(snap);
  }

  lemma RestsWithin(snap: Snapshot)
    ensures forall i :: Rests(snap, i) ==> 0 <= i < |snap.queued|
  {
  }

  /** What a tick does, action by action. */
  ghost predicate Does(snap: Snapshot, batch: nat, a: Action) {
    (exists i :: StackDoes(snap, i, a)) || QueueDoes(snap, batch, a)
  }

  /** A plan holds an action exactly if that is to be done. */
  lemma PlanMeans(snap: Snapshot, batch: nat, a: Action)
    ensures a in Plan(snap, batch) <==> Does(snap, batch, a)
  {
    hide StacksActions, NotEligibleTells, PositionTells, Candidates, QueueDoes, StackDoes, Taken;
    StacksMean(snap, |snap.stacks|, a);
    QueueMeans(snap, batch, a);
    StackWithin(snap, a);
  }

  lemma StackWithin(snap: Snapshot, a: Action)
    ensures forall i :: StackDoes(snap, i, a) ==> 0 <= i < |snap.stacks|
  {
  }

  /** In the order of the stacks, and those before the rest of the queue: what
      is done with the first k stacks comes first. A new stack comes last. */
  lemma PlanOrder(snap: Snapshot, batch: nat, k: nat)
    requires k <= |snap.stacks|
    ensures exists first :: first <= Plan(snap, batch) && OfFirst(snap, k, first)
    ensures forall a :: a in Plan(snap, batch) && a.Form? && QueueDoes(snap, batch, a) ==>
                          Plan(snap, batch)[|Plan(snap, batch)| - 1] == a
  {
    hide StacksActions, NotEligibleTells, PositionTells, Candidates, QueueDoes, StackDoes, Taken;
    var first := StacksActions(snap, k);
    StacksPrefix(snap, k, |snap.stacks|);
    forall a ensures a in first <==> exists i :: 0 <= i < k && StackDoes(snap, i, a) { StacksMean(snap, k, a); }
    assert OfFirst(snap, k, first);
    forall a | a in Plan(snap, batch) && a.Form? && QueueDoes(snap, batch, a)
      ensures Plan(snap, batch)[|Plan(snap, batch)| - 1] == a
    {
      QueueMeans(snap, batch, a);
      NotEligibleMeans(snap, |snap.queued|, a);
      var waiting := Candidates(snap, |snap.queued|)[Taken(snap, batch)..];
      PositionsMean(waiting, |waiting|, a);
    }
  }

  ghost predicate OfFirst(snap: Snapshot, k: nat, actions: seq<Action>) {
    forall a :: a in actions <==> exists i :: 0 <= i < k && StackDoes(snap, i, a)
  }

  lemma {:induction false} StacksPrefix(snap: Snapshot, k: nat, n: nat)
    requires k <= n <= |snap.stacks|
    ensures StacksActions(snap, k) <= StacksActions(snap, n)
  {
    hide StackActions;
    if k < n { StacksPrefix(snap, k, n - 1); }
  }

  /** A stack that is split is told so before its halves are formed, the front
      one first. */
  lemma SplitOrder(snap: Snapshot, i: nat)
    requires i < |snap.stacks| && GivenUp(snap, i) && |snap.stacks[i].stack.members| != 1
    ensures var stack := snap.stacks[i].stack;
            exists front, back ::
              && HalvesOf(stack.Numbers(), front, back)
              && StackActions(snap, i) == [Split(stack), Form(front, stack.base), Form(back, stack.base)]
  {
    hide Verdict, Stays, Halves;
    var stack := snap.stacks[i].stack;
    StaysOnly(snap, i);
    VerdictMeans(snap, i, Fits);
    var halves := Halves(stack.Numbers());
    HalvesMean(stack.Numbers(), halves.0, halves.1);
  }

  /** The planner calls a tick idle exactly if it does nothing but comment and
      cancel batchmates' runs. */
  lemma IdleMeans(snap: Snapshot, batch: nat)
    ensures !SomeResolved(snap, |snap.stacks|) && Taken(snap, batch) == 0 <==>
            forall a :: a in Plan(snap, batch) ==> a.Tell? || a.Cancel?
  {
    hide StacksActions, NotEligibleTells, PositionTells, Candidates, SomeResolved;
    var plan, stacks := Plan(snap, batch), StacksActions(snap, |snap.stacks|);
    var line := Candidates(snap, |snap.queued|);
    var waiting := line[Taken(snap, batch)..];
    ResolvedMeans(snap, |snap.stacks|);
    forall a ensures a in NotEligibleTells(snap, |snap.queued|) || a in PositionTells(waiting, |waiting|) ==> a.Tell? {
      NotEligibleMeans(snap, |snap.queued|, a);
      PositionsMean(waiting, |waiting|, a);
    }
    if Taken(snap, batch) > 0 {
      assert plan[|plan| - 1] == Form(line[..Taken(snap, batch)], snap.target);
      assert plan[|plan| - 1] in plan;
    } else if SomeResolved(snap, |snap.stacks|) {
      var a :| a in stacks && !a.Cancel?;
      assert a in plan && !a.Tell?;
    } else {
      forall a | a in plan ensures a.Tell? || a.Cancel? {
        assert a in stacks || a in NotEligibleTells(snap, |snap.queued|) || a in PositionTells(waiting, |waiting|);
      }
    }
  }

  lemma {:induction false} ResolvedMeans(snap: Snapshot, n: nat)
    requires n <= |snap.stacks|
    ensures SomeResolved(snap, n) <==> exists a :: a in StacksActions(snap, n) && !a.Cancel?
    ensures forall a :: a in StacksActions(snap, n) ==> !a.Tell?
  {
    hide Verdict;
    if n > 0 {
      ResolvedMeans(snap, n - 1);
      var more := StackActions(snap, n - 1);
      assert StacksActions(snap, n) == StacksActions(snap, n - 1) + more;
      if !Waiting(snap, n - 1) { assert more[0] in StacksActions(snap, n) && !more[0].Cancel?; }
    }
  }
}
