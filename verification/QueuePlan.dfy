/**
 The planner: one tick's actions from what the tick read, without I/O.
 */
module QueuePlan {
  import opened Basics
  import opened Git
  import opened Queue
  import opened Checks

  /** A pull request carrying the label, with what its status comment says. */
  datatype Queued = Queued(number: int, head: Commit, entry: Entry, owns: seq<Own>, landed: bool)

  /** A stack found through its marker. landed: the target contains its top. */
  datatype InFlight = InFlight(stack: Stack, landed: bool, state: State, rerun: seq<int>, batchmates: seq<int>)

  /** Queued is in FIFO order. */
  datatype Snapshot = Snapshot(now: int, target: Commit, queued: seq<Queued>, stacks: seq<InFlight>)

  datatype Staleness = Fits | TargetMoved | Left(number: int) | PushedTo(number: int) | LandsFirst(numbers: seq<int>)

  datatype Note = NotEligible | Position(at: nat, total: nat)

  datatype Action =
    | Form(prs: seq<int>, base: Commit)
    | Advance(stack: Stack)
    | Record(stack: Stack)                       // the target already contains it
    | Retry(stack: Stack, runs: seq<int>)
    | Reject(number: int)
    | Split(stack: Stack)
    | Abandon(stack: Stack, reason: Staleness, prs: seq<int>)
    | Cancel(stack: Stack, runs: seq<int>)
    | Tell(number: int, note: Note)

  function Halves(prs: seq<int>): (seq<int>, seq<int>) {
    if |prs| < 2 then (prs, [])
    else
      var mid := (|prs| + 1) / 2;
      (prs[..mid], prs[mid..])
  }

  function ByNumber(queued: seq<Queued>): map<int, Queued> {
    if queued == [] then map[]
    else
      var last := queued[|queued| - 1];
      ByNumber(queued[..|queued| - 1])[last.number := last]
  }

  /** Why the first n members no longer match the queue, if they do not. */
  function MemberStaleness(members: seq<Member>, n: nat, queued: map<int, Queued>): Staleness
    requires n <= |members|
  {
    if n == 0 then Fits
    else
      var before := MemberStaleness(members, n - 1, queued);
      var m := members[n - 1];
      if before != Fits then before
      else if m.number !in queued then Left(m.number)
      else if queued[m.number].head != m.sha then PushedTo(m.number)
      else Fits
  }

  function StaleReason(stack: Stack, target: Commit, queued: map<int, Queued>): Staleness {
    if stack.base != target then TargetMoved
    else MemberStaleness(stack.members, |stack.members|, queued)
  }

  // ---- the plan, stated stack by stack ----

  predicate Green(snap: Snapshot, i: nat)
    requires i < |snap.stacks|
  {
    && !snap.stacks[i].landed && snap.stacks[i].state.Success?
    && StaleReason(snap.stacks[i].stack, snap.target, ByNumber(snap.queued)) == Fits
  }

  /** The first of the first n stacks that can land, or -1. */
  function FirstGreen(snap: Snapshot, n: nat): (i: int)
    requires n <= |snap.stacks|
    ensures -1 <= i < n
    ensures i >= 0 ==> Green(snap, i)
    ensures forall j :: 0 <= j < (if i < 0 then n else i) ==> !Green(snap, j)
  {
    if n == 0 then -1
    else
      var before := FirstGreen(snap, n - 1);
      if before >= 0 then before else if Green(snap, n - 1) then n - 1 else -1
  }

  /** Why stack i is abandoned, if it is: it no longer matches GitHub, or
      another stack lands in this tick. */
  function Verdict(snap: Snapshot, i: nat): Staleness
    requires i < |snap.stacks|
  {
    var lands := FirstGreen(snap, |snap.stacks|);
    var reason := StaleReason(snap.stacks[i].stack, snap.target, ByNumber(snap.queued));
    if snap.stacks[i].landed then Fits
    else if reason == Fits && lands >= 0 && lands != i then LandsFirst(snap.stacks[lands].stack.Numbers())
    else reason
  }

  predicate Claims(snap: Snapshot, i: nat)
    requires i < |snap.stacks|
  {
    snap.stacks[i].landed || Verdict(snap, i) == Fits
  }

  predicate Claimed(snap: Snapshot, n: int) {
    exists i :: 0 <= i < |snap.stacks| && Claims(snap, i) && n in snap.stacks[i].stack.Numbers()
  }

  function Unclaimed(snap: Snapshot, ns: seq<int>): seq<int> {
    if ns == [] then []
    else
      var last := ns[|ns| - 1];
      Unclaimed(snap, ns[..|ns| - 1]) + if Claimed(snap, last) then [] else [last]
  }

  predicate Waiting(snap: Snapshot, i: nat)
    requires i < |snap.stacks|
  {
    !snap.stacks[i].landed && Verdict(snap, i) == Fits && snap.stacks[i].state.Pending?
  }

  function FailureActions(now: int, inFlight: InFlight): seq<Action> {
    var stack := inFlight.stack;
    if stack.retry == 0 && |inFlight.rerun| > 0 then
      [Retry(stack.(retry := 1, at := now / SECOND * SECOND), inFlight.rerun)]
    else if |stack.members| == 1 then
      [Reject(stack.members[0].number)]
    else
      var halves := Halves(stack.Numbers());
      [Split(stack), Form(halves.0, stack.base), Form(halves.1, stack.base)]
  }

  function StackActions(snap: Snapshot, i: nat): seq<Action>
    requires i < |snap.stacks|
  {
    var inFlight := snap.stacks[i];
    var stack := inFlight.stack;
    if inFlight.landed then [Record(stack)]
    else if Verdict(snap, i) != Fits then [Abandon(stack, Verdict(snap, i), Unclaimed(snap, stack.Numbers()))]
    else match inFlight.state
      case Pending => if |inFlight.batchmates| > 0 then [Cancel(stack, inFlight.batchmates)] else []
      case Success => [Advance(stack)]
      case Failure => FailureActions(snap.now, inFlight)
  }

  function StacksActions(snap: Snapshot, n: nat): seq<Action>
    requires n <= |snap.stacks|
  {
    if n == 0 then [] else StacksActions(snap, n - 1) + StackActions(snap, n - 1)
  }

  /** One of the first n stacks is resolved in this tick. */
  predicate SomeResolved(snap: Snapshot, n: nat)
    requires n <= |snap.stacks|
  {
    n > 0 && (SomeResolved(snap, n - 1) || !Waiting(snap, n - 1))
  }

  predicate InStack(snap: Snapshot, n: int) {
    exists i :: 0 <= i < |snap.stacks| && n in snap.stacks[i].stack.Numbers()
  }

  /** A queued pull request this tick has nothing else to do with. */
  predicate Idle(snap: Snapshot, pr: Queued) {
    !pr.landed && !InStack(snap, pr.number)
  }

  function Candidates(snap: Snapshot, n: nat): seq<int>
    requires n <= |snap.queued|
  {
    if n == 0 then []
    else
      var pr := snap.queued[n - 1];
      Candidates(snap, n - 1) + if Idle(snap, pr) && pr.entry.Eligible() then [pr.number] else []
  }

  function NotEligibleTells(snap: Snapshot, n: nat): seq<Action>
    requires n <= |snap.queued|
  {
    if n == 0 then []
    else
      var pr := snap.queued[n - 1];
      NotEligibleTells(snap, n - 1) + if Idle(snap,
                       pr) && !pr.entry.Eligible() then [Tell(pr.number, NotEligible)] else []
  }

  function PositionTells(waiting: seq<int>, n: nat): seq<Action>
    requires n <= |waiting|
  {
    if n == 0 then [] else PositionTells(waiting, n - 1) + [Tell(waiting[n - 1], Position(n, |waiting|))]
  }

  /** How many candidates a new stack takes: none while a stack is in flight,
      resolved in this tick or not. */
  function Taken(snap: Snapshot, batch: nat): (k: nat)
    ensures k <= |Candidates(snap, |snap.queued|)|
  {
    var all := |Candidates(snap, |snap.queued|)|;
    if snap.stacks != [] then 0 else if all < batch then all else batch
  }

  function Plan(snap: Snapshot, batch: nat): seq<Action> {
    var candidates := Candidates(snap, |snap.queued|);
    var k := Taken(snap, batch);
    var waiting := candidates[k..];
    StacksActions(snap, |snap.stacks|) + NotEligibleTells(snap, |snap.queued|) + PositionTells(waiting, |waiting|) +
    if k > 0 then [Form(candidates[..k], snap.target)] else []
  }

  // ---- the planner as it runs ----

  method StaleReasonOf(stack: Stack, target: Commit, queued: map<int, Queued>) returns (reason: Staleness)
    ensures reason == StaleReason(stack, target, queued)
  {
    if stack.base != target { return TargetMoved; }
    for i := 0 to |stack.members|
      invariant MemberStaleness(stack.members, i, queued) == Fits
    {
      var m := stack.members[i];
      if m.number !in queued {
        MemberStalenessStays(stack.members, i + 1, |stack.members|, queued);
        return Left(m.number);
      }
      if queued[m.number].head != m.sha {
        MemberStalenessStays(stack.members, i + 1, |stack.members|, queued);
        return PushedTo(m.number);
      }
    }
    return Fits;
  }

  lemma {:induction false} MemberStalenessStays(members: seq<Member>, i: nat, n: nat, queued: map<int, Queued>)
    requires i <= n <= |members| && MemberStaleness(members, i, queued) != Fits
    ensures MemberStaleness(members, n, queued) == MemberStaleness(members, i, queued)
  {
    if i < n { MemberStalenessStays(members, i, n - 1, queued); }
  }

  /** The stale reasons of every stack, and the stack that lands. */
  method JudgeStacks(snap: Snapshot, queued: map<int, Queued>) returns (stale: seq<Staleness>)
    requires queued == ByNumber(snap.queued)
    ensures |stale| == |snap.stacks| && forall i :: 0 <= i < |stale| ==> stale[i] == Verdict(snap, i)
  {
    stale := [];
    var advancing := -1;
    for i := 0 to |snap.stacks|
      invariant |stale| == i && advancing == FirstGreen(snap, i)
      invariant forall j :: 0 <= j < i ==>
                  stale[j] == if snap.stacks[j].landed then Fits else StaleReason(snap.stacks[j].stack, snap.target, queued)
    {
      var reason := Fits;
      if !snap.stacks[i].landed {
        reason := StaleReasonOf(snap.stacks[i].stack, snap.target, queued);
      }
      stale := stale + [reason];
      if advancing < 0 && !snap.stacks[i].landed && reason == Fits && snap.stacks[i].state.Success? {
        advancing := i;
      }
    }
    if advancing >= 0 {
      var first := snap.stacks[advancing].stack.Numbers();
      for i := 0 to |snap.stacks|
        invariant |stale| == |snap.stacks|
        invariant forall j :: 0 <= j < i ==> stale[j] == Verdict(snap, j)
        invariant forall j :: i <= j < |stale| ==>
                    stale[j] == if snap.stacks[j].landed then Fits else StaleReason(snap.stacks[j].stack, snap.target, queued)
      {
        if i != advancing && !snap.stacks[i].landed && stale[i] == Fits {
          stale := stale[i := LandsFirst(first)];
        }
      }
    }
  }

  method ClaimedNumbers(snap: Snapshot, stale: seq<Staleness>) returns (claimed: set<int>)
    requires |stale| == |snap.stacks| && forall i :: 0 <= i < |stale| ==> stale[i] == Verdict(snap, i)
    ensures forall n :: n in claimed <==> Claimed(snap, n)
  {
    claimed := {};
    for i := 0 to |snap.stacks|
      invariant forall n :: n in claimed <==> exists j :: 0 <= j < i && Claims(snap, j) && n in snap.stacks[j].stack.Numbers()
    {
      if snap.stacks[i].landed || stale[i] == Fits {
        var numbers := snap.stacks[i].stack.Numbers();
        claimed := claimed + set n | n in numbers;
      }
    }
  }

  method UnclaimedMembers(snap: Snapshot, ns: seq<int>, claimed: set<int>) returns (left: seq<int>)
    requires forall n :: n in claimed <==> Claimed(snap, n)
    ensures left == Unclaimed(snap, ns)
  {
    left := [];
    for i := 0 to |ns|
      invariant left == Unclaimed(snap, ns[..i])
    {
      assert ns[..i + 1][..i] == ns[..i];
      if ns[i] !in claimed { left := left + [ns[i]]; }
    }
    assert ns[..|ns|] == ns;
  }

  /** What happens to one stack in flight; waits: its checks still run. */
  method ResolveStack(snap: Snapshot, i: nat, stale: Staleness, claimed: set<int>)
    returns (actions: seq<Action>, waits: bool)
    requires i < |snap.stacks| && stale == Verdict(snap, i)
    requires forall n :: n in claimed <==> Claimed(snap, n)
    ensures actions == StackActions(snap, i) && (waits <==> Waiting(snap, i))
  {
    var inFlight := snap.stacks[i];
    var stack := inFlight.stack;
    waits := false;
    if inFlight.landed {
      actions := [Record(stack)];
    } else if stale != Fits {
      var left := UnclaimedMembers(snap, stack.Numbers(), claimed);
      actions := [Abandon(stack, stale, left)];
    } else {
      match inFlight.state
      case Pending =>
        waits := true;
        actions := if |inFlight.batchmates| > 0 then [Cancel(stack, inFlight.batchmates)] else [];
      case Success =>
        actions := [Advance(stack)];
      case Failure =>
        actions := FailureActions(snap.now, inFlight);
    }
  }

  method BusyNumbers(snap: Snapshot) returns (busy: set<int>)
    ensures forall n :: n in busy <==> InStack(snap, n)
  {
    busy := {};
    for i := 0 to |snap.stacks|
      invariant forall n :: n in busy <==> exists j :: 0 <= j < i && n in snap.stacks[j].stack.Numbers()
    {
      var numbers := snap.stacks[i].stack.Numbers();
      busy := busy + set n | n in numbers;
    }
  }

  /** What happens to the stacks in flight: the actions, whether any stack
      is resolved, and whether any is still tested. */
  method ResolveStacks(snap: Snapshot, stale: seq<Staleness>, claimed: set<int>)
    returns (actions: seq<Action>, resolved: bool, pending: bool)
    requires |stale| == |snap.stacks| && forall i :: 0 <= i < |stale| ==> stale[i] == Verdict(snap, i)
    requires forall n :: n in claimed <==> Claimed(snap, n)
    ensures actions == StacksActions(snap, |snap.stacks|)
    ensures resolved <==> SomeResolved(snap, |snap.stacks|)
    ensures !resolved && !pending <==> snap.stacks == []
  {
    resolved, pending, actions := false, false, [];
    for i := 0 to |snap.stacks|
      invariant actions == StacksActions(snap, i)
      invariant resolved <==> SomeResolved(snap, i)
      invariant !resolved && !pending <==> i == 0
    {
      var more, waits := ResolveStack(snap, i, stale[i], claimed);
      actions := actions + more;
      if waits { pending := true; } else { resolved := true; }
    }
  }

  /** One tick's plan. */
  method PlanTick(snap: Snapshot, batch: nat) returns (actions: seq<Action>, idle: bool)
    ensures actions == Plan(snap, batch)
    ensures idle <==> !SomeResolved(snap, |snap.stacks|) && Taken(snap, batch) == 0
  {
    var queued := IndexQueued(snap.queued);
    var stale := JudgeStacks(snap, queued);
    var claimed := ClaimedNumbers(snap, stale);
    var busy := BusyNumbers(snap);
    var stackActions, resolved, pending := ResolveStacks(snap, stale, claimed);
    var candidates, tells := PickCandidates(snap, busy);
    var k := 0;
    if !resolved && !pending {
      k := if |candidates| < batch then |candidates| else batch;
    }
    var positions := TellPositions(candidates[k..]);
    actions := stackActions + tells + positions;
    if k > 0 {
      actions := actions + [Form(candidates[..k], snap.target)];
    }
    idle := !resolved && k == 0;
  }

  method TellPositions(waiting: seq<int>) returns (tells: seq<Action>)
    ensures tells == PositionTells(waiting, |waiting|)
  {
    tells := [];
    for i := 0 to |waiting|
      invariant tells == PositionTells(waiting, i)
    {
      tells := tells + [Tell(waiting[i], Position(i + 1, |waiting|))];
    }
  }

  method IndexQueued(queued: seq<Queued>) returns (index: map<int, Queued>)
    ensures index == ByNumber(queued)
  {
    index := map[];
    for i := 0 to |queued|
      invariant index == ByNumber(queued[..i])
    {
      assert queued[..i + 1][..i] == queued[..i];
      index := index[queued[i].number := queued[i]];
    }
    assert queued[..|queued|] == queued;
  }

  method PickCandidates(snap: Snapshot, busy: set<int>) returns (candidates: seq<int>, tells: seq<Action>)
    requires forall n :: n in busy <==> InStack(snap, n)
    ensures candidates == Candidates(snap, |snap.queued|) && tells == NotEligibleTells(snap, |snap.queued|)
  {
    candidates, tells := [], [];
    for i := 0 to |snap.queued|
      invariant candidates == Candidates(snap, i) && tells == NotEligibleTells(snap, i)
    {
      var pr := snap.queued[i];
      if !pr.landed && pr.number !in busy {
        if !pr.entry.Eligible() {
          tells := tells + [Tell(pr.number, NotEligible)];
        } else {
          candidates := candidates + [pr.number];
        }
      }
    }
  }
}
