/**
 A whole tick as it runs: plan from one snapshot, then act on the plan while
 others go on pushing, labelling and moving the target, and any call may fail.
 */
module QueueTickRun {
  import opened Options
  import opened Git
  import opened Queue
  import opened QueueWorld
  import opened QueueRebase
  import opened QueueRuns
  import opened QueueRough
  import opened QueueTorn
  import opened QueueKeeping
  import opened QueueApply
  import P = QueuePlan
  import T = QueueTick

  // ---- what an action touches and needs ----

  /** An action that only says where pull requests stand. */
  predicate Soft(action: P.Action) {
    action.Abandon? || action.Tell?
  }

  /** An action on a stack built on what the tick saw. */
  predicate NeedsSeen(action: P.Action) {
    action.Form? || action.Advance? || action.Retry?
  }

  /** The pull requests whose comments or branches an action may change. */
  function Touch(action: P.Action): seq<int> {
    match action
    case Form(prs, _) => prs
    case Advance(stack) => stack.Numbers()
    case Record(stack) => stack.Numbers()
    case Retry(stack, _) => stack.Numbers()
    case Reject(n) => [n]
    case Abandon(_, _, prs) => prs
    case Tell(n, _) => [n]
    case _ => []
  }

  /** What the actions that do more than tell touch, in order. */
  function Hard(actions: seq<P.Action>): seq<int> {
    if actions == [] then [] else HardOf(actions[0]) + Hard(actions[1..])
  }

  function HardOf(action: P.Action): seq<int> {
    if Soft(action) then [] else Touch(action)
  }

  ghost predicate ClearOf(f: Fine, prs: seq<int>) {
    forall i :: 0 <= i < |prs| ==> prs[i] !in f.untold
  }

  /** What an action needs to be a step of the machine. */
  ghost predicate Grounded(f: Fine, queued: map<int, P.Queued>, action: P.Action) {
    match action
    case Form(prs, base) =>
      f.world.seen == base && prs != [] && Distinct(prs) && Known(f.world, queued, prs) && ClearOf(f, prs)
    case Advance(stack) => InFlight(f.world, stack) && ClearOf(f, stack.Numbers())
    case Record(stack) => Tellable(f, stack)
    case Retry(again, _) =>
      Retries(f.world, again) && Known(f.world, queued, again.Numbers()) && ClearOf(f, again.Numbers())
    case Reject(n) => Known(f.world, queued, [n]) && n !in f.untold
    case Abandon(_, _, prs) => AllSpeakable(f, queued, prs)
    case Tell(n, _) => n in queued && Speakable(f, queued, n)
    case _ => true
  }

  /** Acting elsewhere leaves an action grounded. */
  lemma GroundedStays(f: Fine, g: Fine, queued: map<int, P.Queued>, touched: seq<int>, action: P.Action)
    requires Grounded(f, queued, action) && KeptOutside(f.world, g.world, touched) && UntoldOutside(f, g, touched)
    requires NeedsSeen(action) ==> g.world.seen == f.world.seen
    requires forall i :: 0 <= i < |Touch(action)| ==> Touch(action)[i] !in touched
    ensures Grounded(g, queued, action)
  {
    var ns := Touch(action);
    forall i | 0 <= i < |ns| && ns[i] in f.world.prs ensures DisturbedAt(f.world, g.world, ns[i]) {}
    match action {
      case Form(prs, base) =>
      case Advance(stack) => AsideInFlight(f.world, g.world, stack);
      case Record(stack) =>
        forall i | 0 <= i < |stack.members| ensures ToldOrUntold(g, stack, i) {
          assert ToldOrUntold(f, stack, i) && stack.Numbers()[i] == stack.members[i].number;
        }
      case Retry(again, _) =>
        var stack := f.world.prs[again.Top().number].comment.stack.value;
        assert again.Numbers() == stack.Numbers() && again.Numbers()[|again.members| - 1] == again.Top().number;
        AsideInFlight(f.world, g.world, stack);
      case Reject(n) => assert ns[0] == n;
      case Abandon(_, _, prs) =>
      case Tell(n, _) => assert ns[0] == n;
      case Split(_) =>
      case Cancel(_, _) =>
    }
  }

  lemma AsideInFlight(w: World, w': World, stack: Stack)
    requires InFlight(w, stack) && w'.seen == w.seen
    requires forall i :: 0 <= i < |stack.members| ==>
               stack.Numbers()[i] in w.prs ==> DisturbedAt(w, w', stack.Numbers()[i])
    ensures InFlight(w', stack)
  {
    var ns := stack.Numbers();
    assert ns[|ns| - 1] == stack.Top().number && DisturbedAt(w, w', ns[|ns| - 1]);
    forall i | 0 <= i < |stack.members|
      ensures stack.members[i].number in w'.prs
      ensures IsAncestor(stack.members[i].sha, w'.prs[stack.members[i].number].head)
    {
      assert ns[i] == stack.members[i].number && DisturbedAt(w, w', ns[i]);
      AncestorTrans(stack.members[i].sha, w.prs[ns[i]].head, w'.prs[ns[i]].head);
    }
  }

  /** Telling somebody leaves it possible to tell somebody else. */
  lemma SpokenGrounded(f: Fine, g: Fine, queued: map<int, P.Queued>, ns: seq<int>, action: P.Action)
    requires Grounded(f, queued, action) && Soft(action) && Spoken(f, g, queued, ns)
    ensures Grounded(g, queued, action)
  {
    hide Speakable;
  }

  // ---- what an action needs to be carried out at all ----

  /** The stack is a chain of pull requests, the group is listed, and what is
      to land stands on the target the tick saw. */
  ghost predicate Ready(w: World, queued: map<int, P.Queued>, action: P.Action) {
    match action
    case Form(prs, base) =>
      w.seen == base && prs != [] && Distinct(prs) && forall i :: 0 <= i < |prs| ==> prs[i] in queued
    case Advance(stack) => OnTarget(w, stack)
    case Record(stack) => Chain(w, stack)
    case Retry(again, _) => Chain(w, again) && forall i :: 0 <= i < |again.Numbers()| ==> again.Numbers()[i] in queued
    case Reject(n) => n in queued
    case Tell(n, _) => n in queued
    case _ => true
  }

  lemma ReadyStays(w: World, w': World, queued: map<int, P.Queued>, action: P.Action)
    requires Ready(w, queued, action) && Grown(w, w') && (NeedsSeen(action) ==> w'.seen == w.seen && Newer(w, w'))
    ensures Ready(w', queued, action)
  {
    hide Newer, Chain;
    match action {
      case Advance(stack) => StaysOnTarget(w, w', stack);
      case Record(stack) => ChainGrows(w, w', stack);
      case Retry(again, _) => ChainGrows(w, w', again);
      case _ =>
    }
  }

  // ---- carrying out one action ----

  /** What an action leaves as it was, and where it leaves the target. */
  ghost predicate Acted(w: World, w': World, action: P.Action, landed: bool) {
    && KeptOutside(w, w', Touch(action)) && Grown(w, w')
    && (!landed ==> w'.seen == w.seen && Newer(w, w'))
    && (landed ==> action.Advance? && w.target == action.stack.base && Takes(action.stack, w'.target))
  }

  /** And what it leaves of what was told. */
  ghost predicate Aside(f: Fine, g: Fine, queued: map<int, P.Queued>, action: P.Action) {
    UntoldOutside(f, g, Touch(action)) && (Soft(action) ==> Spoken(f, g, queued, Touch(action)))
  }

  /** What the snapshot says of those it touches is so, and which groups
      conflict does not depend on the order. */
  ghost predicate QuietAction(w: World, queued: map<int, P.Queued>, action: P.Action,
                              clash: (Commit, Commit, Commit) -> bool, clean: seq<int> -> bool) {
    match action
    case Form(prs, _) => QuietGroup(w, queued, prs, clash, clean) && Known(w, queued, prs)
    case Retry(again, _) => Known(w, queued, again.Numbers())
    case Reject(n) => Known(w, queued, [n])
    case Abandon(_, _, prs) => LabelsKnown(w, queued, prs)
    case Tell(n, _) => n in w.prs && n in queued && queued[n].owns == w.prs[n].comment.owns
    case _ => true
  }

  /** Carries out one action, whatever the world it finds. Only an advance
      moves the target, from the stack's base to its top. Where the action is
      grounded the machine's invariant is kept, and with nobody else about it
      does what the tick's own function says. */
  method ApplyAction(a: Applier, action: P.Action) returns (ok: bool, landed: bool)
    requires a.Valid() && a.world.job.None? && Ready(a.world, a.queued, action)
    modifies a`world, a`untold, a`trace, a`script, a`report, a`splits, a`sound
    ensures a.Valid() && a.world.job.None? && Acted(old(a.world), a.world, action, landed)
    ensures old(a.sound && Grounded(a.Here(), a.queued, action)) ==>
              a.sound && Aside(old(a.Here()), a.Here(), a.queued, action)
    ensures old(a.script == [] && QuietAction(a.world, a.queued, action, a.clash, a.clean)) ==>
              ok && a.script == [] && a.world == T.Act(old(a.world), action, a.at, a.clean)
  {
    hide FineInv, FineAfter, Acted, Aside, Grounded, QuietAction, T.Act, Rough, Listed;
    ok, landed := true, false;
    match action {
      case Form(prs, base) => ok := ApplyForm(a, prs, base);
      case Advance(stack) => ok, landed := ApplyAdvance(a, stack);
      case Record(stack) => ok := ApplyRecord(a, stack);
      case Retry(again, ids) => ok := ApplyRetry(a, again, ids);
      case Reject(n) => ok := ApplyReject(a, n);
      case Abandon(stack, reason, prs) => ok := ApplyAbandon(a, stack, reason, prs);
      case Tell(n, note) => ok := ApplyTell(a, n, note);
      case Split(stack) =>
        a.NoteSplit(stack.Numbers());
        StillActed(a.Here(), a.queued, action, a.at, a.clean);
      case Cancel(_, _) => StillActed(a.Here(), a.queued, action, a.at, a.clean);
    }
  }

  method ApplyForm(a: Applier, prs: seq<int>, base: Commit) returns (ok: bool)
    requires a.Valid() && a.world.job.None? && Ready(a.world, a.queued, P.Form(prs, base))
    modifies a`world, a`untold, a`trace, a`script, a`report, a`splits, a`sound
    ensures a.Valid() && a.world.job.None? && Acted(old(a.world), a.world, P.Form(prs, base), false)
    ensures old(a.sound && Grounded(a.Here(), a.queued, P.Form(prs, base))) ==>
              a.sound && Aside(old(a.Here()), a.Here(), a.queued, P.Form(prs, base))
    ensures old(a.script == [] && QuietAction(a.world, a.queued, P.Form(prs, base), a.clash, a.clean)) ==>
              ok && a.script == [] && a.world == T.Act(old(a.world), P.Form(prs, base), a.at, a.clean)
  {
    hide FineInv, FineAfter, KeptOutside, Newer, Takes, Spoken, Speakable, InFlight, Known, Tellable, Rough, Listed,
         QuietGroup, LabelsKnown, T.FormGroup, T.FastForward, T.RetryAll, T.TellAll, LandedPrs, Chain, RetriedTo,
         OnlyGrew;
    ghost var outcomes, depth, calls;
    if a.Quiet(prs) { QuietTarget(a.world, a.queued, prs, a.clash, a.clean); }
    ok, outcomes, depth, calls := a.Form(prs, base);
    KeptParts(old(a.world), a.world, prs);
  }

  method ApplyAdvance(a: Applier, stack: Stack) returns (ok: bool, landed: bool)
    requires a.Valid() && a.world.job.None? && Ready(a.world, a.queued, P.Advance(stack))
    modifies a`world, a`untold, a`trace, a`script, a`report, a`splits, a`sound
    ensures a.Valid() && a.world.job.None? && Acted(old(a.world), a.world, P.Advance(stack), landed)
    ensures old(a.sound && Grounded(a.Here(), a.queued, P.Advance(stack))) ==>
              a.sound && Aside(old(a.Here()), a.Here(), a.queued, P.Advance(stack))
    ensures old(a.script == [] && QuietAction(a.world, a.queued, P.Advance(stack), a.clash, a.clean)) ==>
              ok && a.script == [] && a.world == T.Act(old(a.world), P.Advance(stack), a.at, a.clean)
  {
    hide FineInv, FineAfter, KeptOutside, Newer, Takes, Spoken, Speakable, InFlight, Known, Tellable, Rough, Listed,
         QuietGroup, LabelsKnown, T.FormGroup, T.FastForward, T.RetryAll, T.TellAll, LandedPrs, Chain, RetriedTo,
         OnlyGrew;
    ghost var flying := a.Flying(stack);
    OnTargetChain(a.world, stack);
    ok, landed := a.Land(stack);
    if landed {
      if flying { LandedAside(old(a.Here()), a.Here(), stack, ok); }
    } else {
      KeptParts(old(a.world), a.world, []);
    }
  }

  method ApplyRecord(a: Applier, stack: Stack) returns (ok: bool)
    requires a.Valid() && a.world.job.None? && Ready(a.world, a.queued, P.Record(stack))
    modifies a`world, a`untold, a`trace, a`script, a`report, a`splits, a`sound
    ensures a.Valid() && a.world.job.None? && Acted(old(a.world), a.world, P.Record(stack), false)
    ensures old(a.sound && Grounded(a.Here(), a.queued, P.Record(stack))) ==>
              a.sound && Aside(old(a.Here()), a.Here(), a.queued, P.Record(stack))
    ensures old(a.script == [] && QuietAction(a.world, a.queued, P.Record(stack), a.clash, a.clean)) ==>
              ok && a.script == [] && a.world == T.Act(old(a.world), P.Record(stack), a.at, a.clean)
  {
    hide FineInv, FineAfter, KeptOutside, Newer, Takes, Spoken, Speakable, InFlight, Known, Tellable, Rough, Listed,
         QuietGroup, LabelsKnown, T.FormGroup, T.FastForward, T.RetryAll, T.TellAll, LandedPrs, Chain, RetriedTo,
         OnlyGrew;
    ghost var telling := a.sound && Tellable(a.Here(), stack);
    ok := a.Record(stack);
    KeptParts(old(a.world), a.world, stack.Numbers());
    if telling { TellingAside(old(a.Here()), a.Here(), stack, if ok then |stack.members| else 0); }
  }

  method ApplyRetry(a: Applier, again: Stack, ids: seq<int>) returns (ok: bool)
    requires a.Valid() && a.world.job.None? && Ready(a.world, a.queued, P.Retry(again, ids))
    modifies a`world, a`untold, a`trace, a`script, a`report, a`splits, a`sound
    ensures a.Valid() && a.world.job.None? && Acted(old(a.world), a.world, P.Retry(again, ids), false)
    ensures old(a.sound && Grounded(a.Here(), a.queued, P.Retry(again, ids))) ==>
              a.sound && Aside(old(a.Here()), a.Here(), a.queued, P.Retry(again, ids))
    ensures old(a.script == [] && QuietAction(a.world, a.queued, P.Retry(again, ids), a.clash, a.clean)) ==>
              ok && a.script == [] && a.world == T.Act(old(a.world), P.Retry(again, ids), a.at, a.clean)
  {
    hide FineInv, FineAfter, KeptOutside, Newer, Takes, Spoken, Speakable, InFlight, Known, Tellable, Rough, Listed,
         QuietGroup, LabelsKnown, T.FormGroup, T.FastForward, T.RetryAll, T.TellAll, LandedPrs, Chain, RetriedTo,
         OnlyGrew;
    ok := a.RetryStack(again);
    KeptParts(old(a.world), a.world, again.Numbers());
  }

  method ApplyReject(a: Applier, n: int) returns (ok: bool)
    requires a.Valid() && a.world.job.None? && Ready(a.world, a.queued, P.Reject(n))
    modifies a`world, a`untold, a`trace, a`script, a`report, a`splits, a`sound
    ensures a.Valid() && a.world.job.None? && Acted(old(a.world), a.world, P.Reject(n), false)
    ensures old(a.sound && Grounded(a.Here(), a.queued, P.Reject(n))) ==>
              a.sound && Aside(old(a.Here()), a.Here(), a.queued, P.Reject(n))
    ensures old(a.script == [] && QuietAction(a.world, a.queued, P.Reject(n), a.clash, a.clean)) ==>
              ok && a.script == [] && a.world == T.Act(old(a.world), P.Reject(n), a.at, a.clean)
  {
    hide FineInv, FineAfter, KeptOutside, Newer, Takes, Spoken, Speakable, InFlight, Known, Tellable, Rough, Listed,
         QuietGroup, LabelsKnown, T.FormGroup, T.FastForward, T.RetryAll, T.TellAll, LandedPrs, Chain, RetriedTo,
         OnlyGrew;
    assert [n][0] == n;
    ok := a.Reject(n);
    KeptParts(old(a.world), a.world, [n]);
  }

  method ApplyAbandon(a: Applier, stack: Stack, reason: P.Staleness, prs: seq<int>) returns (ok: bool)
    requires a.Valid() && a.world.job.None? && Ready(a.world, a.queued, P.Abandon(stack, reason, prs))
    modifies a`world, a`untold, a`trace, a`script, a`report, a`splits, a`sound
    ensures a.Valid() && a.world.job.None? && Acted(old(a.world), a.world, P.Abandon(stack, reason, prs), false)
    ensures old(a.sound && Grounded(a.Here(), a.queued, P.Abandon(stack, reason, prs))) ==>
              a.sound && Aside(old(a.Here()), a.Here(), a.queued, P.Abandon(stack, reason, prs))
    ensures old(a.script == [] && QuietAction(a.world, a.queued, P.Abandon(stack, reason, prs), a.clash, a.clean)) ==>
              ok && a.script == [] && a.world == T.Act(old(a.world), P.Abandon(stack, reason, prs), a.at, a.clean)
  {
    hide FineInv, FineAfter, KeptOutside, Newer, Takes, Spoken, Speakable, InFlight, Known, Tellable, Rough, Listed,
         QuietGroup, LabelsKnown, T.FormGroup, T.FastForward, T.RetryAll, T.TellAll, LandedPrs, Chain, RetriedTo,
         OnlyGrew;
    ghost var speaks := a.sound && AllSpeakable(a.Here(), a.queued, prs);
    ok := a.Abandon(prs);
    KeptParts(old(a.world), a.world, prs);
    if speaks { SpokenOutside(old(a.Here()), a.Here(), a.queued, prs); }
  }

  method ApplyTell(a: Applier, n: int, note: P.Note) returns (ok: bool)
    requires a.Valid() && a.world.job.None? && Ready(a.world, a.queued, P.Tell(n, note))
    modifies a`world, a`untold, a`trace, a`script, a`report, a`splits, a`sound
    ensures a.Valid() && a.world.job.None? && Acted(old(a.world), a.world, P.Tell(n, note), false)
    ensures old(a.sound && Grounded(a.Here(), a.queued, P.Tell(n, note))) ==>
              a.sound && Aside(old(a.Here()), a.Here(), a.queued, P.Tell(n, note))
    ensures old(a.script == [] && QuietAction(a.world, a.queued, P.Tell(n, note), a.clash, a.clean)) ==>
              ok && a.script == [] && a.world == T.Act(old(a.world), P.Tell(n, note), a.at, a.clean)
  {
    hide FineInv, FineAfter, KeptOutside, Newer, Takes, Spoken, Speakable, InFlight, Known, Tellable, Rough, Listed,
         QuietGroup, LabelsKnown, T.FormGroup, T.FastForward, T.RetryAll, T.TellAll, LandedPrs, Chain, RetriedTo,
         OnlyGrew;
    ghost var speaks := a.sound && Speakable(a.Here(), a.queued, n);
    ok := a.Say(n);
    KeptParts(old(a.world), a.world, [n]);
    if speaks { SpokenOutside(old(a.Here()), a.Here(), a.queued, [n]); }
  }

  lemma StillActed(f: Fine, queued: map<int, P.Queued>, action: P.Action, at: int, clean: seq<int> -> bool)
    requires action.Split? || action.Cancel?
    ensures Acted(f.world, f.world, action, false) && Aside(f, f, queued, action)
    ensures T.Act(f.world, action, at, clean) == f.world
  {
    hide Newer;
    SameNewer(f.world, f.world);
    StillKept(f.world, Touch(action));
  }

  lemma QuietTarget(w: World, queued: map<int, P.Queued>, prs: seq<int>, clash: (Commit, Commit, Commit) -> bool,
                    clean: seq<int> -> bool)
    requires QuietGroup(w, queued, prs, clash, clean)
    ensures w.target == w.seen
  {
  }

  lemma KeptParts(w: World, w': World, prs: seq<int>)
    requires Kept(w, w', prs)
    ensures w'.seen == w.seen && Newer(w, w') && Grown(w, w') && KeptOutside(w, w', prs)
  {
  }

  lemma LandedAside(f: Fine, g: Fine, stack: Stack, all: bool)
    requires LandingTold(f, g, stack, all)
    ensures UntoldOutside(f, g, stack.Numbers())
  {
  }

  lemma TellingAside(f: Fine, g: Fine, stack: Stack, n: nat)
    requires Telling(f, g, stack, n)
    ensures UntoldOutside(f, g, stack.Numbers())
  {
  }

  lemma SpokenOutside(f: Fine, g: Fine, queued: map<int, P.Queued>, prs: seq<int>)
    requires Spoken(f, g, queued, prs)
    ensures UntoldOutside(f, g, prs)
  {
  }

  // ---- carrying out a plan ----

  /** No two actions touch a pull request but to tell it something, and a plan
      that moves the target does nothing else on what it saw. */
  ghost predicate Orderly(actions: seq<P.Action>) {
    && Distinct(Hard(actions))
    && (forall i, n :: 0 <= i < |actions| && Soft(actions[i]) && n in Touch(actions[i]) ==> n !in Hard(actions))
    && Alone(actions)
  }

  lemma {:induction false} HardHas(actions: seq<P.Action>, i: nat)
    requires i < |actions| && !Soft(actions[i])
    ensures forall n :: n in Touch(actions[i]) ==> n in Hard(actions)
  {
    if i > 0 { HardHas(actions[1..], i - 1); }
  }

  /** What the first action touches, no later one does, unless both only tell. */
  lemma {:induction false} FirstApart(actions: seq<P.Action>, j: nat, n: int)
    requires Orderly(actions) && 0 < j < |actions| && !(Soft(actions[0]) && Soft(actions[j])) && n in Touch(actions[j])
    ensures n !in Touch(actions[0])
  {
    var rest := actions[1..];
    var first, all := HardOf(actions[0]), Hard(actions);
    assert all == first + Hard(rest);
    if Soft(actions[j]) {
      assert n !in all;
    } else {
      assert rest[j - 1] == actions[j];
      HardHas(rest, j - 1);
      if !Soft(actions[0]) {
        var k :| 0 <= k < |Hard(rest)| && Hard(rest)[k] == n;
        assert all[|first| + k] == n;
        forall i | 0 <= i < |first| ensures first[i] != n { assert all[i] == first[i]; }
      } else {
        assert n in all;
      }
    }
  }

  lemma OrderlyRest(actions: seq<P.Action>)
    requires Orderly(actions) && actions != []
    ensures Orderly(actions[1..])
  {
    var rest := actions[1..];
    var first := HardOf(actions[0]);
    assert Hard(actions) == first + Hard(rest);
    forall i, j | 0 <= i < j < |Hard(rest)| ensures Hard(rest)[i] != Hard(rest)[j] {
      assert Hard(actions)[|first| + i] == Hard(rest)[i] && Hard(actions)[|first| + j] == Hard(rest)[j];
    }
    forall i, n | 0 <= i < |rest| && Soft(rest[i]) && n in Touch(rest[i]) ensures n !in Hard(rest) {
      assert rest[i] == actions[i + 1] && n !in Hard(actions);
    }
  }

  /** The actions left stay grounded. */
  lemma RestGrounded(f: Fine, g: Fine, queued: map<int, P.Queued>, actions: seq<P.Action>, landed: bool, j: nat)
    requires Orderly(actions) && 0 < j < |actions| && Grounded(f, queued, actions[j])
    requires Acted(f.world, g.world, actions[0], landed) && Aside(f, g, queued, actions[0])
    ensures Grounded(g, queued, actions[j])
  {
    hide Grounded, Orderly, KeptOutside, Spoken, Newer, Takes, Touch;
    if Soft(actions[0]) && Soft(actions[j]) {
      SpokenGrounded(f, g, queued, Touch(actions[0]), actions[j]);
    } else {
      forall i | 0 <= i < |Touch(actions[j])| ensures Touch(actions[j])[i] !in Touch(actions[0]) {
        FirstApart(actions, j, Touch(actions[j])[i]);
      }
      OrderlyAlone(actions);
      GroundedStays(f, g, queued, Touch(actions[0]), actions[j]);
    }
  }

  /** An action that moves the target is the only one on what the tick saw. */
  ghost predicate Alone(actions: seq<P.Action>) {
    forall i, j :: 0 <= i < |actions| && 0 <= j < |actions| && i != j && actions[i].Advance? ==> !NeedsSeen(actions[j])
  }

  lemma OrderlyAlone(actions: seq<P.Action>)
    requires Orderly(actions)
    ensures Alone(actions)
  {
  }

  /** Where the target is: moved by others only, or at a stack of the plan and
      moved by others since. */
  ghost predicate Placed(before: Commit, after: Commit, actions: seq<P.Action>, landed: Option<Stack>) {
    match landed
    case None => MovedByOthers(before, after)
    case Some(stack) => P.Advance(stack) in actions && MovedByOthers(before, stack.base) && Takes(stack, after)
  }

  ghost predicate AllReady(w: World, queued: map<int, P.Queued>, actions: seq<P.Action>, i: nat) {
    forall j :: i <= j < |actions| ==> Ready(w, queued, actions[j])
  }

  ghost predicate AllGrounded(f: Fine, queued: map<int, P.Queued>, actions: seq<P.Action>) {
    Orderly(actions) && forall j :: 0 <= j < |actions| ==> Grounded(f, queued, actions[j])
  }

  lemma AllReadyNext(w: World, w': World, queued: map<int, P.Queued>, actions: seq<P.Action>, i: nat, landed: bool)
    requires Alone(actions) && i < |actions| && AllReady(w, queued, actions, i) && Acted(w, w', actions[i], landed)
    ensures AllReady(w', queued, actions, i + 1)
    ensures landed ==> forall j :: i < j < |actions| ==> !actions[j].Advance?
  {
    hide Ready, KeptOutside, Newer, Takes;
    forall j | i < j < |actions| ensures Ready(w', queued, actions[j]) {
      ReadyStays(w, w', queued, actions[j]);
    }
  }

  lemma AllGroundedNext(f: Fine, g: Fine, queued: map<int, P.Queued>, actions: seq<P.Action>, landed: bool)
    requires actions != [] && AllGrounded(f, queued, actions) && Acted(f.world, g.world, actions[0], landed)
    requires Aside(f, g, queued, actions[0])
    ensures AllGrounded(g, queued, actions[1..])
  {
    hide Grounded, Orderly, Acted, Aside;
    OrderlyRest(actions);
    forall j | 0 <= j < |actions[1..]| ensures Grounded(g, queued, actions[1..][j]) {
      RestGrounded(f, g, queued, actions, landed, j + 1);
    }
  }

  /** With nobody else about, every action finds at its turn what the
      snapshot said. */
  ghost predicate QuietPlan(w: World, queued: map<int, P.Queued>, actions: seq<P.Action>, at: int,
                            clash: (Commit, Commit, Commit) -> bool, clean: seq<int> -> bool) {
    forall k :: 0 <= k < |actions| ==> QuietTurn(w, queued, actions, k, at, clash, clean)
  }

  ghost predicate QuietTurn(w: World, queued: map<int, P.Queued>, actions: seq<P.Action>, k: nat, at: int,
                            clash: (Commit, Commit, Commit) -> bool, clean: seq<int> -> bool)
    requires k < |actions|
  {
    QuietAction(T.ActAll(w, actions[..k], at, clean), queued, actions[k], clash, clean)
  }

  lemma ActNext(w: World, actions: seq<P.Action>, k: nat, at: int, clean: seq<int> -> bool)
    requires k < |actions|
    ensures T.ActAll(w, actions[..k + 1], at, clean) == T.Act(T.ActAll(w, actions[..k], at, clean), actions[k], at, clean)
  {
    assert actions[..k + 1][..k] == actions[..k];
  }

  /** Carries out a plan, whatever the world: the target is moved at most
      once. A plan whose actions are all grounded keeps the machine's
      invariant, and with nobody else about a plan does what the tick's own
      function says. */
  method RunPlan(a: Applier, actions: seq<P.Action>) returns (ok: bool, ghost landed: Option<Stack>)
    requires a.Valid() && a.world.job.None? && Alone(actions) && AllReady(a.world, a.queued, actions, 0)
    modifies a`world, a`untold, a`trace, a`script, a`report, a`splits, a`sound
    ensures a.Valid() && a.world.job.None? && Placed(old(a.world).target, a.world.target, actions, landed)
    ensures old(a.sound && AllGrounded(a.Here(), a.queued, actions)) ==> a.sound
    ensures old(a.script == [] && QuietPlan(a.world, a.queued, actions, a.at, a.clash, a.clean)) ==>
              ok && a.script == [] && a.world == T.ActAll(old(a.world), actions, a.at, a.clean)
  {
    hide FineInv, FineAfter, Grounded, AllGrounded, AllReady, Alone, MovedByOthers, Takes, Acted, Aside, Rough, Listed,
         QuietAction, T.Act, T.ActAll;
    ghost var quiet := a.script == [] && QuietPlan(a.world, a.queued, actions, a.at, a.clash, a.clean);
    if quiet { NothingActed(a.world, actions, a.at, a.clean); }
    ghost var grounded := a.sound && AllGrounded(a.Here(), a.queued, actions);
    ok, landed := true, None;
    NotMoved(a.world.target);
    assert actions[0..] == actions;
    for i := 0 to |actions|
      invariant a.Valid() && a.world.job.None? && AllReady(a.world, a.queued, actions, i)
      invariant grounded ==> a.sound && AllGrounded(a.Here(), a.queued, actions[i..])
      invariant quiet ==> ok && a.script == [] && a.world == T.ActAll(old(a.world), actions[..i], a.at, a.clean)
      invariant Placed(old(a.world).target, a.world.target, actions, landed)
      invariant landed.Some? ==> forall j :: i <= j < |actions| ==> !actions[j].Advance?
    {
      ghost var f := a.Here();
      ReadyAt(a.world, a.queued, actions, i);
      if grounded { GroundedFirst(f, a.queued, actions[i..]); }
      if quiet {
        assert QuietTurn(old(a.world), a.queued, actions, i, a.at, a.clash, a.clean);
        ActNext(old(a.world), actions, i, a.at, a.clean);
      }
      var moved;
      ok, moved := ApplyAction(a, actions[i]);
      AllReadyNext(f.world, a.world, a.queued, actions, i, moved);
      if grounded { AllGroundedNext(f, a.Here(), a.queued, actions[i..], moved); }
      assert actions[i..][1..] == actions[i + 1..];
      PlacedNext(f.world, a.world, actions, old(a.world).target, landed, i, moved);
      if moved { landed := Some(actions[i].stack); }
      if !ok { return; }
    }
    assert actions[..|actions|] == actions;
  }

  lemma NothingActed(w: World, actions: seq<P.Action>, at: int, clean: seq<int> -> bool)
    ensures T.ActAll(w, actions[..0], at, clean) == w
  {
  }

  lemma ReadyAt(w: World, queued: map<int, P.Queued>, actions: seq<P.Action>, i: nat)
    requires AllReady(w, queued, actions, i) && i < |actions|
    ensures Ready(w, queued, actions[i])
  {
    hide Ready;
  }

  lemma GroundedFirst(f: Fine, queued: map<int, P.Queued>, actions: seq<P.Action>)
    requires AllGrounded(f, queued, actions) && actions != []
    ensures Grounded(f, queued, actions[0])
  {
    hide Grounded;
  }

  lemma PlacedNext(w: World, w': World, actions: seq<P.Action>, before: Commit, landed: Option<Stack>, i: nat,
                   moved: bool)
    requires i < |actions| && Acted(w, w', actions[i], moved) && Placed(before, w.target, actions, landed)
    requires landed.Some? ==> !actions[i].Advance?
    ensures moved ==> actions[i].Advance?
    ensures Placed(before, w'.target, actions, if moved then Some(actions[i].stack) else landed)
  {
    if !moved {
      match landed {
        case None => MovedTrans(before, w.target, w'.target);
        case Some(stack) => TakesMore(stack, w.target, w'.target);
      }
    }
  }

  lemma TakesMore(stack: Stack, a: Commit, b: Commit)
    requires Takes(stack, a) && MovedByOthers(a, b)
    ensures Takes(stack, b)
  {
    MovedTrans(stack.Top().sha, a, b);
    forall i | 0 <= i < |stack.members| ensures IsAncestor(stack.members[i].sha, b) {
      AncestorTrans(stack.members[i].sha, a, b);
    }
  }
}
