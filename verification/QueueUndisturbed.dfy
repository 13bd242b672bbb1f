/**
 A tick nobody disturbs: every action finds at its turn what the snapshot said
 of the pull requests it touches, so what the applier does is what the tick's
 own function says.
 */
module QueueUndisturbed {
  import opened Git
  import opened Queue
  import opened QueueWorld
  import opened QueueStacks
  import opened QueueRebase
  import opened QueueKeeping
  import opened QueueTick
  import opened QueueTickSafety
  import opened QueueDrainForm
  import opened QueueDrainStacks
  import opened QueueTickRun
  import opened QueueGrounds
  import D = QueueDrain
  import DT = QueueDrainTurns
  import Basics
  import P = QueuePlan

  // ---- what an action leaves ----

  ghost predicate Left(w: World, w': World, touched: seq<int>, soft: bool) {
    && Calm(w') && w'.prs.Keys == w.prs.Keys
    && (forall q :: q in w.prs && q !in touched ==> w'.prs[q] == w.prs[q])
    && (soft ==> forall q :: q in w.prs ==>
                   w'.prs[q].labelled == w.prs[q].labelled && w'.prs[q].comment.owns == w.prs[q].comment.owns)
  }

  predicate Short(queued: map<int, P.Queued>) {
    forall n :: n in queued ==> |queued[n].owns| <= MAX_OWNS
  }

  lemma ShortQueue(w: World, order: seq<int>)
    requires Listing(w, order) && Listed(w, QueuedAt(w, order))
    ensures Short(QueuedAt(w, order))
  {
  }

  lemma {:induction false} RetryLeaves(w: World, stack: Stack, n: nat)
    requires n <= |stack.members|
    ensures var w' := RetryAll(w, stack, n);
            && w' == w.(prs := w'.prs) && w'.prs.Keys == w.prs.Keys
            && forall q :: q in w.prs && q !in stack.Numbers() ==> w'.prs[q] == w.prs[q]
  {
    if n > 0 {
      RetryLeaves(w, stack, n - 1);
      assert stack.Numbers()[n - 1] == stack.members[n - 1].number;
    }
  }

  lemma AbandonLeaves(w: World, queued: map<int, P.Queued>, prs: seq<int>)
    requires Calm(w) && Short(queued) && LabelsKnown(w, queued, prs)
    ensures Left(w, TellAll(w, prs), prs, true)
  {
    DT.TellAllShape(w, prs);
    forall q | q in w.prs && q in prs && w.prs[q].labelled
      ensures PlainComment(w.prs[q].comment.owns).owns == w.prs[q].comment.owns
    {
      var i :| 0 <= i < |prs| && prs[i] == q;
    }
  }

  lemma LandedLeaves(w: World, stack: Stack)
    ensures var prs := LandedPrs(w.prs, stack);
            prs.Keys == w.prs.Keys && forall q :: q in w.prs && q !in stack.Numbers() ==> prs[q] == w.prs[q]
  {
    forall q | q in w.prs && q !in stack.Numbers() ensures LandedPrs(w.prs, stack)[q] == w.prs[q] { NamedIn(stack, q); }
  }

  lemma ActLeaves(w: World, queued: map<int, P.Queued>, action: P.Action, at: int,
                  clash: (Commit, Commit, Commit) -> bool, clean: seq<int> -> bool)
    requires Calm(w) && Short(queued) && QuietAction(w, queued, action, clash, clean)
    ensures var w' := Act(w, action, at, clean);
            Left(w, w', Touch(action), Soft(action)) && (!action.Advance? ==> w'.target == w.target)
  {
    hide FormGroup, RetryAll, TellAll, LandedPrs, Steady, LabelsKnown;
    match action {
      case Form(prs, base) => FormGroupReforms(w, prs, at, clean);
      case Advance(stack) => LandedLeaves(w, stack);
      case Record(stack) => LandedLeaves(w, stack);
      case Retry(stack, _) => RetryLeaves(w, stack, |stack.members|);
      case Reject(n) =>
      case Abandon(_, _, prs) =>
        AbandonLeaves(w, queued, prs);
        DT.TellAllShape(w, prs);
      case Tell(n, _) =>
      case Split(_) =>
      case Cancel(_, _) =>
    }
  }

  // ---- turn by turn ----

  /** Carried out the same whatever happened to the pull requests it touches. */
  predicate Exempt(action: P.Action) {
    action.Advance? || action.Record? || action.Split? || action.Cancel?
  }

  lemma QuietStays(w: World, w': World, queued: map<int, P.Queued>, touched: seq<int>, soft: bool, action: P.Action,
                   clash: (Commit, Commit, Commit) -> bool, clean: seq<int> -> bool)
    requires QuietAction(w, queued, action, clash, clean) && Left(w, w', touched, soft)
    requires || Exempt(action) || (soft && Soft(action))
             || forall i :: 0 <= i < |Touch(action)| ==> Touch(action)[i] !in touched
    requires NeedsSeen(action) ==> w'.target == w.target
    ensures QuietAction(w', queued, action, clash, clean)
  {
    hide Steady;
    match action {
      case Form(prs, _) =>
        forall i | 0 <= i < |prs| ensures prs[i] in w.prs && w'.prs[prs[i]] == w.prs[prs[i]] {
          assert Touch(action)[i] == prs[i];
        }
        SteadyStays(w, w', prs, clash, clean);
      case Retry(again, _) =>
        forall i | 0 <= i < |again.Numbers()|
          ensures again.Numbers()[i] in w.prs && w'.prs[again.Numbers()[i]] == w.prs[again.Numbers()[i]]
        {
          assert Touch(action)[i] == again.Numbers()[i];
        }
      case Reject(n) => assert Touch(action)[0] == n && [n][0] == n;
      case Abandon(_, _, prs) =>
        forall i | 0 <= i < |prs|
          ensures prs[i] in queued <==> prs[i] in w'.prs && w'.prs[prs[i]].labelled
          ensures prs[i] in queued ==> queued[prs[i]].owns == w'.prs[prs[i]].comment.owns
        {
          assert Touch(action)[i] == prs[i];
        }
      case Tell(n, _) => assert Touch(action)[0] == n;
      case _ =>
    }
  }

  /** Of two actions, the later one is exempt, or both only tell, or they touch
      different pull requests. */
  ghost predicate Spaced(actions: seq<P.Action>) {
    forall i, j :: 0 <= i < j < |actions| ==> Compatible(actions[i], actions[j])
  }

  predicate Compatible(a: P.Action, b: P.Action) {
    Exempt(b) || (Soft(a) && Soft(b)) || forall i :: 0 <= i < |Touch(b)| ==> Touch(b)[i] !in Touch(a)
  }

  ghost predicate AllQuiet(w: World, queued: map<int, P.Queued>, actions: seq<P.Action>, k: nat,
                           clash: (Commit, Commit, Commit) -> bool, clean: seq<int> -> bool) {
    forall j :: k <= j < |actions| ==> QuietAction(w, queued, actions[j], clash, clean)
  }

  lemma QuietNext(w: World, queued: map<int, P.Queued>, actions: seq<P.Action>, k: nat, at: int,
                  clash: (Commit, Commit, Commit) -> bool, clean: seq<int> -> bool)
    requires Calm(w) && Short(queued) && Spaced(actions) && Alone(actions) && k < |actions|
    requires AllQuiet(w, queued, actions, k, clash, clean)
    ensures var w' := Act(w, actions[k], at, clean); Calm(w') && AllQuiet(w', queued, actions, k + 1, clash, clean)
  {
    hide QuietAction, Act, Short, Touch;
    var w' := Act(w, actions[k], at, clean);
    ActLeaves(w, queued, actions[k], at, clash, clean);
    forall j | k < j < |actions| ensures QuietAction(w', queued, actions[j], clash, clean) {
      assert Compatible(actions[k], actions[j]);
      QuietStays(w, w', queued, Touch(actions[k]), Soft(actions[k]), actions[j], clash, clean);
    }
  }

  lemma {:induction false} QuietTurns(w: World, queued: map<int, P.Queued>, actions: seq<P.Action>, k: nat, at: int,
                                      clash: (Commit, Commit, Commit) -> bool, clean: seq<int> -> bool)
    requires Calm(w) && Short(queued) && Spaced(actions) && Alone(actions) && k <= |actions|
    requires AllQuiet(w, queued, actions, 0, clash, clean)
    ensures var w' := ActAll(w, actions[..k], at, clean); Calm(w') && AllQuiet(w', queued, actions, k, clash, clean)
  {
    hide AllQuiet, Spaced, Alone, Short, Act, ActAll;
    if k == 0 {
      NothingActed(w, actions, at, clean);
    } else {
      QuietTurns(w, queued, actions, k - 1, at, clash, clean);
      ActNext(w, actions, k - 1, at, clean);
      QuietNext(ActAll(w, actions[..k - 1], at, clean), queued, actions, k - 1, at, clash, clean);
    }
  }

  lemma QuietAtTurns(w: World, queued: map<int, P.Queued>, actions: seq<P.Action>, at: int,
                     clash: (Commit, Commit, Commit) -> bool, clean: seq<int> -> bool)
    requires Calm(w) && Short(queued) && Spaced(actions) && Alone(actions)
    requires AllQuiet(w, queued, actions, 0, clash, clean)
    ensures QuietPlan(w, queued, actions, at, clash, clean)
  {
    hide QuietAction, Spaced, Alone, Short, Act, ActAll;
    forall k | 0 <= k < |actions| ensures QuietTurn(w, queued, actions, k, at, clash, clean) {
      QuietTurns(w, queued, actions, k, at, clash, clean);
    }
  }

  // ---- the plan ----

  /** A group of queued pull requests that have not landed. */
  lemma GroupQuiet(w: World, order: seq<int>, prs: seq<int>, base: Commit, clash: (Commit, Commit, Commit) -> bool,
                   clean: seq<int> -> bool)
    requires Calm(w) && Listing(w, order) && Stackable(w, prs) && Steady(w, order, clash, clean)
    ensures QuietAction(w, QueuedAt(w, order), P.Form(prs, base), clash, clean)
  {
    hide Steady, QueuedAt;
    forall i | 0 <= i < |prs| ensures prs[i] in order { ListedIn(w, order, prs[i]); }
    SteadyPart(w, order, prs, clash, clean);
    forall i | 0 <= i < |prs| ensures Unmoved(w, QueuedAt(w, order), prs[i]) { QueuedMeans(w, order, prs[i]); }
    KnownListed(w, order, prs);
  }

  lemma ListedIn(w: World, order: seq<int>, n: int)
    requires Listing(w, order) && n in w.prs && w.prs[n].labelled
    ensures n in order
  {
  }

  lemma AbandonQuiet(w: World, order: seq<int>, prs: seq<int>)
    requires Listing(w, order)
    ensures LabelsKnown(w, QueuedAt(w, order), prs)
  {
    forall i | 0 <= i < |prs|
      ensures prs[i] in QueuedAt(w, order) <==> prs[i] in w.prs && w.prs[prs[i]].labelled
      ensures prs[i] in QueuedAt(w, order) ==> QueuedAt(w, order)[prs[i]].owns == w.prs[prs[i]].comment.owns
    {
      QueuedMeans(w, order, prs[i]);
    }
  }

  lemma FailureQuiet(w: World, order: seq<int>, now: int, inFlight: P.InFlight, action: P.Action,
                     clash: (Commit, Commit, Commit) -> bool, clean: seq<int> -> bool)
    requires Calm(w) && Listing(w, order) && Stackable(w, inFlight.stack.Numbers()) && Steady(w, order, clash, clean)
    requires action in P.FailureActions(now, inFlight)
    ensures QuietAction(w, QueuedAt(w, order), action, clash, clean)
  {
    hide Steady, QueuedAt, Known, P.Halves, Listing, QuietGroup;
    var stack := inFlight.stack;
    var ns := stack.Numbers();
    KnownListed(w, order, ns);
    if stack.retry == 0 && |inFlight.rerun| > 0 {
      var again := stack.(retry := 1, at := now / Basics.SECOND * Basics.SECOND);
      assert again.Numbers() == ns && action == P.Retry(again, inFlight.rerun);
    } else if |stack.members| == 1 {
      assert ns == [stack.members[0].number];
    } else {
      HalvesStackable(w, ns);
      GroupQuiet(w, order, P.Halves(ns).0, stack.base, clash, clean);
      GroupQuiet(w, order, P.Halves(ns).1, stack.base, clash, clean);
    }
  }

  lemma HalvesStackable(w: World, ns: seq<int>)
    requires Stackable(w, ns) && |ns| > 1
    ensures Stackable(w, P.Halves(ns).0) && Stackable(w, P.Halves(ns).1)
  {
    HalvesFacts(ns);
    var (front, back) := P.Halves(ns);
    forall k | 0 <= k < |front| ensures front[k] == ns[k] {}
    forall k | 0 <= k < |back| ensures back[k] == ns[|front| + k] {}
  }

  /** A stack the tick reads matches GitHub and is well formed, or landed, or
      is given up. */
  lemma ReadsBetween(w: World, order: seq<int>, gh: GitHub, cfg: Config, now: int, i: nat)
    requires Between(w) && Listing(w, order) && i < |Tops(w, order)|
    ensures var snap := SnapshotOf(w, order, gh, cfg, now);
            && |snap.stacks| == |Tops(w, order)|
            && (P.Claims(snap, i) && !snap.stacks[i].landed ==>
                  Tidy(w) && Stackable(w, snap.stacks[i].stack.Numbers()))
  {
    var snap := SnapshotOf(w, order, gh, cfg, now);
    StackRead(w, order, gh, cfg, now, i);
    if P.Claims(snap, i) && !snap.stacks[i].landed {
      assert Live(w, Tops(w, order)[i]);
      if Tidy(w) { assert Sturdy(w, Tops(w, order)[i]); }
    }
  }

  lemma StackQuiet(w: World, order: seq<int>, gh: GitHub, cfg: Config, now: int, i: nat, action: P.Action,
                   clash: (Commit, Commit, Commit) -> bool, clean: seq<int> -> bool)
    requires Between(w) && Listing(w, order) && i < |Tops(w, order)| && Steady(w, order, clash, clean)
    requires var snap := SnapshotOf(w, order, gh, cfg, now); i < |snap.stacks| && action in P.StackActions(snap, i)
    ensures QuietAction(w, QueuedAt(w, order), action, clash, clean)
  {
    hide Between, Steady, SnapshotOf, P.FailureActions, Stackable, QueuedAt, LabelsKnown;
    var snap := SnapshotOf(w, order, gh, cfg, now);
    BetweenCalm(w);
    ReadsBetween(w, order, gh, cfg, now, i);
    AbandonQuiet(w, order, P.Unclaimed(snap, snap.stacks[i].stack.Numbers()));
    if P.Claims(snap, i) && !snap.stacks[i].landed && snap.stacks[i].state.Failure? {
      FailureQuiet(w, order, snap.now, snap.stacks[i], action, clash, clean);
    }
  }

  lemma BetweenCalm(w: World)
    requires Between(w)
    ensures Calm(w)
  {
  }

  lemma TellQuiet(w: World, order: seq<int>, gh: GitHub, cfg: Config, now: int, action: P.Action,
                  clash: (Commit, Commit, Commit) -> bool, clean: seq<int> -> bool)
    requires Listing(w, order) && Beside(SnapshotOf(w, order, gh, cfg, now), cfg.batch, action)
    ensures QuietAction(w, QueuedAt(w, order), action, clash, clean)
  {
    IdleListed(w, order, gh, cfg, now, action.number);
    QueuedMeans(w, order, action.number);
  }

  lemma FormQuiet(w: World, order: seq<int>, gh: GitHub, cfg: Config, now: int,
                  clash: (Commit, Commit, Commit) -> bool, clean: seq<int> -> bool)
    requires Calm(w) && Listing(w, order) && Steady(w, order, clash, clean)
    requires P.Taken(SnapshotOf(w, order, gh, cfg, now), cfg.batch) > 0
    ensures var snap := SnapshotOf(w, order, gh, cfg, now);
            QuietAction(w, QueuedAt(w, order), P.Form(D.Group(snap, cfg.batch), snap.target), clash, clean)
  {
    hide Steady, QuietAction, QueuedAt;
    var snap := SnapshotOf(w, order, gh, cfg, now);
    GroupStackable(w, order, gh, cfg, now);
    GroupQuiet(w, order, D.Group(snap, cfg.batch), snap.target, clash, clean);
  }

  lemma GroupStackable(w: World, order: seq<int>, gh: GitHub, cfg: Config, now: int)
    requires Listing(w, order) && P.Taken(SnapshotOf(w, order, gh, cfg, now), cfg.batch) > 0
    ensures Stackable(w, D.Group(SnapshotOf(w, order, gh, cfg, now), cfg.batch))
  {
    var snap := SnapshotOf(w, order, gh, cfg, now);
    var ns := D.Group(snap, cfg.batch);
    DistinctQueue(w, order, gh, cfg, now);
    CandidatesDistinct(snap, |snap.queued|);
    D.CandidatesIdle(snap, |snap.queued|);
    forall i | 0 <= i < |ns| ensures ns[i] in w.prs && w.prs[ns[i]].labelled && !w.prs[ns[i]].AlreadyLanded() {
      assert D.IdleNumber(snap, P.Candidates(snap, |snap.queued|)[i]);
      var k :| 0 <= k < |snap.queued| && snap.queued[k].number == ns[i] && P.Idle(snap, snap.queued[k]);
      assert snap.queued[k] == QueuedOf(w, order[k]);
    }
  }

  lemma PlanQuiet(w: World, order: seq<int>, gh: GitHub, cfg: Config, now: int,
                  clash: (Commit, Commit, Commit) -> bool, clean: seq<int> -> bool)
    requires Between(w) && Listing(w, order) && Steady(w, order, clash, clean)
    ensures AllQuiet(w, QueuedAt(w, order), P.Plan(SnapshotOf(w, order, gh, cfg, now), cfg.batch), 0, clash, clean)
  {
    hide Between, Steady, QuietAction, P.Plan, P.StackActions, Beside, SnapshotOf, P.Taken, D.Group;
    var snap := SnapshotOf(w, order, gh, cfg, now);
    var plan := P.Plan(snap, cfg.batch);
    BetweenCalm(w);
    DistinctQueue(w, order, gh, cfg, now);
    AsManyStacks(w, order, gh, cfg, now);
    forall j | 0 <= j < |plan| ensures QuietAction(w, QueuedAt(w, order), plan[j], clash, clean) {
      PlanCases(snap, cfg.batch, plan[j]);
      if i :| 0 <= i < |snap.stacks| && plan[j] in P.StackActions(snap, i) {
        StackQuiet(w, order, gh, cfg, now, i, plan[j], clash, clean);
      } else if Beside(snap, cfg.batch, plan[j]) {
        TellQuiet(w, order, gh, cfg, now, plan[j], clash, clean);
      } else {
        FormQuiet(w, order, gh, cfg, now, clash, clean);
      }
    }
  }

  lemma AsManyStacks(w: World, order: seq<int>, gh: GitHub, cfg: Config, now: int)
    requires Listing(w, order)
    ensures |SnapshotOf(w, order, gh, cfg, now).stacks| == |Tops(w, order)|
  {
  }

  // ---- no action gets in a later one's way ----

  lemma {:induction false} OrderlyFrom(actions: seq<P.Action>, i: nat)
    requires Orderly(actions) && i <= |actions|
    ensures Orderly(actions[i..])
  {
    hide Orderly;
    if i == 0 {
      assert actions[0..] == actions;
    } else {
      OrderlyFrom(actions, i - 1);
      OrderlyRest(actions[i - 1..]);
      assert actions[i - 1..][1..] == actions[i..];
    }
  }

  lemma OrderlySpaced(actions: seq<P.Action>)
    requires Orderly(actions)
    ensures Spaced(actions)
  {
    hide Orderly, Touch;
    forall i, j | 0 <= i < j < |actions| ensures Compatible(actions[i], actions[j]) {
      OrderlyFrom(actions, i);
      var rest := actions[i..];
      assert rest[0] == actions[i] && rest[j - i] == actions[j];
      if !(Soft(actions[i]) && Soft(actions[j])) {
        forall k | 0 <= k < |Touch(actions[j])| ensures Touch(actions[j])[k] !in Touch(actions[i]) {
          FirstApart(rest, j - i, Touch(actions[j])[k]);
        }
      }
    }
  }

  /** Where no stack stands on the target, a plan records and tells. */
  lemma CutSpaced(w: World, order: seq<int>, gh: GitHub, cfg: Config, now: int)
    requires Cut(w) && Listing(w, order) && Tops(w, order) != []
    ensures Spaced(P.Plan(SnapshotOf(w, order, gh, cfg, now), cfg.batch))
  {
    hide P.Plan, Touch, Hard, SnapshotOf, Cut, D.Group, ResolvedNumbers;
    var snap := SnapshotOf(w, order, gh, cfg, now);
    var plan := P.Plan(snap, cfg.batch);
    DistinctQueue(w, order, gh, cfg, now);
    HardPlan(snap, cfg.batch);
    forall i, j | 0 <= i < j < |plan| ensures Compatible(plan[i], plan[j]) {
      CutTells(w, order, gh, cfg, now, plan[j]);
      if !Exempt(plan[j]) && !Soft(plan[i]) {
        HardHas(plan, i);
        forall k | 0 <= k < |Touch(plan[j])| ensures Touch(plan[j])[k] !in Touch(plan[i]) {
          SoftApart(snap, cfg.batch, plan[j], Touch(plan[j])[k]);
        }
      }
    }
  }

  lemma CutTells(w: World, order: seq<int>, gh: GitHub, cfg: Config, now: int, action: P.Action)
    requires Cut(w) && Listing(w, order) && Tops(w, order) != []
    requires action in P.Plan(SnapshotOf(w, order, gh, cfg, now), cfg.batch)
    ensures Exempt(action) || Soft(action)
  {
    hide P.Plan, SnapshotOf, Beside, P.Claims, D.Group;
    var snap := SnapshotOf(w, order, gh, cfg, now);
    DistinctQueue(w, order, gh, cfg, now);
    AsManyStacks(w, order, gh, cfg, now);
    PlanCases(snap, cfg.batch, action);
    if i :| 0 <= i < |snap.stacks| && action in P.StackActions(snap, i) {
      DT.CutReads(w, order, gh, cfg, now, i);
      ClaimedOrNot(snap, i, action);
    } else {
      BesideTells(snap, cfg.batch, action);
    }
  }

  lemma BesideTells(snap: P.Snapshot, batch: nat, action: P.Action)
    requires Beside(snap, batch, action)
    ensures action.Tell?
  {
  }

  lemma ClaimedOrNot(snap: P.Snapshot, i: nat, action: P.Action)
    requires i < |snap.stacks| && action in P.StackActions(snap, i) && (P.Claims(snap, i) <==> snap.stacks[i].landed)
    ensures action.Record? || action.Abandon?
  {
  }

  /** A tick that nobody disturbs, wherever the last tick left the queue. */
  lemma PlanUndisturbed(w: World, order: seq<int>, gh: GitHub, cfg: Config, at: int,
                        clash: (Commit, Commit, Commit) -> bool, clean: seq<int> -> bool)
    requires Between(w) && Listing(w, order) && Steady(w, order, clash, clean) && Short(QueuedAt(w, order))
    ensures QuietPlan(w, QueuedAt(w, order), P.Plan(SnapshotOf(w, order, gh, cfg, at), cfg.batch), at, clash, clean)
  {
    hide Between, Steady, AllQuiet, Spaced, P.Plan, SnapshotOf, Short, QuietPlan, Tidy, Cut, Orderly;
    var snap := SnapshotOf(w, order, gh, cfg, at);
    BetweenCalm(w);
    DistinctQueue(w, order, gh, cfg, at);
    PlanAlone(snap, cfg.batch);
    PlanQuiet(w, order, gh, cfg, at, clash, clean);
    if Cut(w) && Tops(w, order) != [] {
      CutSpaced(w, order, gh, cfg, at);
    } else {
      TidyAnyway(w, order);
      TidyOrderly(w, order, gh, cfg, at);
      OrderlySpaced(P.Plan(snap, cfg.batch));
    }
    QuietAtTurns(w, QueuedAt(w, order), P.Plan(snap, cfg.batch), at, clash, clean);
  }

  lemma TidyAnyway(w: World, order: seq<int>)
    requires Between(w) && Listing(w, order) && (Cut(w) ==> Tops(w, order) == [])
    ensures Tidy(w)
  {
    hide Tidy, Cut;
    if Cut(w) { DT.EmptyTidy(w, order); }
  }

  lemma TidyOrderly(w: World, order: seq<int>, gh: GitHub, cfg: Config, now: int)
    requires Tidy(w) && Listing(w, order)
    ensures Orderly(P.Plan(SnapshotOf(w, order, gh, cfg, now), cfg.batch))
  {
    hide Tidy, Orderly, P.Plan, Once, SnapshotOf;
    var snap := SnapshotOf(w, order, gh, cfg, now);
    DT.ReadsTidy(w, order, gh, cfg, now);
    ReadsOnce(w, snap, Tops(w, order));
    DistinctQueue(w, order, gh, cfg, now);
    PlanOrderly(snap, cfg.batch);
  }
}
