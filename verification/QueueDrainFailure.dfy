/**
 A failing stack's turn in a quiet tick: whichever of retry, rejection and
 bisection it is, the queue gets shorter or better tested.
 */
module QueueDrainFailure {
  import opened QueueWorld
  import opened QueueTick
  import opened QueueTickSafety
  import opened QueueDrainForm
  import opened QueueDrainStacks
  import Basics
  import P = QueuePlan

  lemma ActOne(w: World, a: P.Action, at: int, clean: seq<int> -> bool)
    ensures ActAll(w, [a], at, clean) == Act(w, a, at, clean)
  {
    assert [a][..0] == [];
  }

  lemma ActSplit(w: World, a: P.Action, b: P.Action, c: P.Action, at: int, clean: seq<int> -> bool)
    requires a.Split?
    ensures ActAll(w, [a, b, c], at, clean) == Act(Act(w, b, at, clean), c, at, clean)
  {
    assert [a, b, c] == [a] + [b] + [c];
    ActConcat(w, [a] + [b], [c], at, clean);
    ActConcat(w, [a], [b], at, clean);
    ActOne(w, a, at, clean);
    ActOne(w, b, at, clean);
    ActOne(Act(w, b, at, clean), c, at, clean);
  }

  // ---- a failing stack ----

  /** A resolved stack: only its members were touched, their markers are live
      stacks of their own, and the queue fell. */
  ghost predicate Fell(w: World, w': World, ns: seq<int>, back: set<int>) {
    && Calm(w') && Touches(w, w', ns) && NewStacks(w', ns)
    && Down(w', w, back) && Better(w', w, back)
  }

  lemma SplitFalls(w: World, p: int, at: int, clean: seq<int> -> bool, back: set<int>)
    requires Tidy(w) && Live(w, p) && |NumbersOf(w, p)| > 1
    ensures var halves := P.Halves(NumbersOf(w, p));
            Fell(w, FormGroup(FormGroup(w, halves.0, at, clean), halves.1, at, clean), NumbersOf(w, p), back)
  {
    hide Fell, Touches;
    var ns := NumbersOf(w, p);
    assert Sturdy(w, p);
    var (front, rear) := P.Halves(ns);
    HalvesFacts(ns);
    FrontStackable(w, ns, front, rear);
    var w1 := FormGroup(w, front, at, clean);
    FormGroupReforms(w, front, at, clean);
    FormGroupTouches(w, front, at, clean);
    BackStackable(w, w1, ns, front, rear);
    var w2 := FormGroup(w1, rear, at, clean);
    FormGroupReforms(w1, rear, at, clean);
    FormGroupTouches(w1, rear, at, clean);
    ReformsJoin(w, w1, w2, front, rear);
    TouchesJoin(w, w1, w2, front, rear);
    SplitOutcome(w, w2, p, front, rear, back);
  }

  lemma SplitOutcome(w: World, w2: World, p: int, front: seq<int>, rear: seq<int>, back: set<int>)
    requires Tidy(w) && Live(w, p) && NumbersOf(w, p) == front + rear
    requires Touches(w, w2, front + rear) && Reformed(w, w2, front + rear)
    requires forall i, j :: 0 <= i < |front| && 0 <= j < |rear| ==> front[i] != rear[j]
    requires SomeRejected(w2, front + rear) || (SomeLive(w2, front) && SomeLive(w2, rear))
    ensures Fell(w, w2, front + rear, back)
  {
    hide Touches, Down, Better, Tidy;
    ReformedStacks(w2, w, front + rear);
    if SomeRejected(w2, front + rear) {
      RejectLowers(w, w2, p, back);
    } else {
      var i :| 0 <= i < |front| && Live(w2, front[i]);
      var j :| 0 <= j < |rear| && Live(w2, rear[j]);
      assert front[i] in front + rear && rear[j] in front + rear;
      SplitLowers(w, w2, p, front[i], rear[j], back);
    }
  }

  lemma SplitKeepsInv(w: World, ns: seq<int>, at: int, clean: seq<int> -> bool)
    requires Inv(w) && Calm(w) && Stackable(w, ns) && |ns| > 1
    ensures var halves := P.Halves(ns);
            Inv(FormGroup(FormGroup(w, halves.0, at, clean), halves.1, at, clean))
  {
    var (front, back) := P.Halves(ns);
    HalvesFacts(ns);
    FrontStackable(w, ns, front, back);
    FormGroupReforms(w, front, at, clean);
    BackStackable(w, FormGroup(w, front, at, clean), ns, front, back);
    FormGroupKeepsInv(w, front, at, clean);
    FormGroupKeepsInv(FormGroup(w, front, at, clean), back, at, clean);
  }

  lemma RejectFalls(w: World, p: int, back: set<int>)
    requires Tidy(w) && Live(w, p) && |NumbersOf(w, p)| == 1
    ensures var n := NumbersOf(w, p)[0]; Fell(w, Tell(Unlabel(w, n), n), NumbersOf(w, p), back)
  {
    var ns := NumbersOf(w, p);
    assert ns == [ns[0]] && Sturdy(w, p);
    RejectReforms(w, ns[0]);
    RejectTouches(w, ns[0]);
    var w' := Tell(Unlabel(w, ns[0]), ns[0]);
    assert !w'.prs[ns[0]].labelled;
    ReformedStacks(w', w, ns);
    RejectLowers(w, w', p, back);
  }

  function FailureState(w: World, now: int, inFlight: P.InFlight, clean: seq<int> -> bool): World {
    ActAll(w, P.FailureActions(now, inFlight), now, clean)
  }

  lemma FailureStateIs(w: World, p: int, now: int, inFlight: P.InFlight, clean: seq<int> -> bool)
    requires Calm(w) && Live(w, p) && Stackable(w, NumbersOf(w, p)) && inFlight.stack == w.prs[p].comment.stack.value
    ensures var stack := inFlight.stack;
            var ns := NumbersOf(w, p);
            var again := stack.(retry := 1, at := now / Basics.SECOND * Basics.SECOND);
            FailureState(w, now, inFlight, clean) ==
            if stack.retry == 0 && |inFlight.rerun| > 0 then RetryAll(w, again, |again.members|)
            else if |ns| == 1 then Tell(Unlabel(w, ns[0]), ns[0])
            else FormGroup(FormGroup(w, P.Halves(ns).0, now, clean), P.Halves(ns).1, now, clean)
  {
    hide RetryAll;
    var stack := inFlight.stack;
    var ns := NumbersOf(w, p);
    if stack.retry == 0 && |inFlight.rerun| > 0 {
      ActOne(w, P.Retry(stack.(retry := 1, at := now / Basics.SECOND * Basics.SECOND), inFlight.rerun), now, clean);
    } else if |ns| == 1 {
      ActOne(w, P.Reject(ns[0]), now, clean);
    } else {
      var (front, back) := P.Halves(ns);
      ActSplit(w, P.Split(stack), P.Form(front, stack.base), P.Form(back, stack.base), now, clean);
      HalvesFacts(ns);
      FrontStackable(w, ns, front, back);
      FormGroupReforms(w, front, now, clean);
    }
  }

  /** Whatever a failing stack's turn brings, the queue falls. */
  lemma FailureFalls(w: World, p: int, now: int, inFlight: P.InFlight, clean: seq<int> -> bool, back: set<int>)
    requires Tidy(w) && Live(w, p) && inFlight.stack == w.prs[p].comment.stack.value
    ensures Fell(w, FailureState(w, now, inFlight, clean), NumbersOf(w, p), back)
  {
    hide Touches, NewStacks, Down, Better;
    assert Sturdy(w, p);
    FailureStateIs(w, p, now, inFlight, clean);
    if inFlight.stack.retry == 0 && |inFlight.rerun| > 0 {
      RetryRaises(w, p, now / Basics.SECOND * Basics.SECOND, back);
    } else if |NumbersOf(w, p)| == 1 {
      RejectFalls(w, p, back);
    } else {
      SplitFalls(w, p, now, clean, back);
    }
  }

  lemma FailureKeepsInv(w: World, p: int, now: int, inFlight: P.InFlight, clean: seq<int> -> bool)
    requires Inv(w) && Calm(w) && Live(w, p) && Stackable(w, NumbersOf(w, p))
    requires inFlight.stack == w.prs[p].comment.stack.value
    ensures Inv(FailureState(w, now, inFlight, clean))
  {
    FailureStateIs(w, p, now, inFlight, clean);
    var ns := NumbersOf(w, p);
    if inFlight.stack.retry == 0 && |inFlight.rerun| > 0 {
      var again := inFlight.stack.(retry := 1, at := now / Basics.SECOND * Basics.SECOND);
      assert again.Numbers() == ns;
      RetryAllKeepsInv(w, p, again);
    } else if |ns| == 1 {
      assert ns[0] in w.prs;
      RejectKeepsInv(w, ns[0]);
    } else {
      SplitKeepsInv(w, ns, now, clean);
    }
  }
}
