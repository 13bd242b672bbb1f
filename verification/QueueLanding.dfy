/**
 Landing a stack: the target takes exactly its members' patches, and what is
 left of every pull request is still described. Then the invariant holds in
 every run.
 */
module QueueLanding {
  import opened Git
  import opened Queue
  import opened QueueWorld
  import opened QueueSafety
  import opened QueueStacks

  /** A fast-forward the remote accepts starts from the stack's own base: the
      target did not move since the stack was built. */
  lemma FastForwardFromBase(w: World, stack: Stack)
    requires StackKept(w, stack) && IsAncestor(w.target, stack.Top().sha)
    ensures w.target == stack.base
  {
    AncestorAntisym(w.target, stack.base);
  }

  /** The members' own patches up to position n, bottom first. */
  ghost function StackPatches(stack: Stack, n: nat): seq<Patch>
    requires n <= |stack.members|
  {
    if n == 0 then [] else StackPatches(stack, n - 1) + Range(stack.Under(n - 1), stack.members[n - 1].sha)
  }

  /** A stack is its base, then each member's patches in order. */
  lemma {:induction false} LinkedRange(stack: Stack, n: nat)
    requires Linked(stack) && n < |stack.members|
    ensures IsAncestor(stack.base, stack.members[n].sha)
    ensures Range(stack.base, stack.members[n].sha) == StackPatches(stack, n + 1)
  {
    hide Range, IsAncestor;
    RangeSelf(stack.base);
    AncestorItself(stack.base);
    if n > 0 { LinkedRange(stack, n - 1); }
    AncestorTrans(stack.base, stack.Under(n), stack.members[n].sha);
    RangeSplit(stack.base, stack.Under(n), stack.members[n].sha);
  }

  lemma MemberFilter(stack: Stack, p: int, k: nat)
    requires Exact(stack) && k < |stack.members|
    ensures var own := Range(stack.Under(k), stack.members[k].sha);
            Filter(p, own) == if IndexOf(stack.members, p) == k then own else []
  {
    var own := Range(stack.Under(k), stack.members[k].sha);
    assert ExactMember(stack, k);
    IndexOfMember(stack, k);
    if stack.members[k].number == p { FilterAll(p, own); } else { FilterNone(p, own); }
  }

  lemma FilterEmpty(p: int)
    ensures Filter(p, []) == []
  {
  }

  /** Which of a stack's patches belong to pull request p. */
  lemma {:induction false} StackFilter(stack: Stack, p: int, n: nat)
    requires Exact(stack) && n <= |stack.members|
    ensures var i := IndexOf(stack.members, p);
            Filter(p, StackPatches(stack, n)) == if 0 <= i < n then Range(stack.Under(i), stack.members[i].sha) else []
  {
    hide Range, IsAncestor, Exact, Filter;
    if n == 0 {
      FilterEmpty(p);
    } else {
      StackFilter(stack, p, n - 1);
      MemberFilter(stack, p, n - 1);
      FilterConcat(p, StackPatches(stack, n - 1), Range(stack.Under(n - 1), stack.members[n - 1].sha));
    }
  }

  /** What landing a stack does to pull request p's patches on the target. */
  lemma LandedPatches(stack: Stack, p: int)
    requires Exact(stack)
    ensures var i := IndexOf(stack.members, p);
            Of(p, stack.Top().sha) == Of(p, stack.base) + if i >= 0 then Range(stack.Under(i),
               stack.members[i].sha) else []
  {
    var last := |stack.members| - 1;
    ExactLinked(stack);
    LinkedRange(stack, last);
    RangeOf(p, stack.base, stack.Top().sha);
    StackFilter(stack, p, last + 1);
  }

  /** A commit of the top above member i belongs to a later member. */
  lemma {:induction false} AboveMember(stack: Stack, i: nat, n: nat, c: Commit)
    requires Exact(stack) && i <= n < |stack.members|
    requires IsAncestor(c, stack.members[n].sha) && !IsAncestor(c, stack.members[i].sha)
    ensures c.Commit? && c.patch.pr != stack.members[i].number && IndexOf(stack.members, c.patch.pr) >= 0
    decreases n
  {
    assert ExactMember(stack, n);
    if n > i {
      if IsAncestor(c, stack.Under(n)) {
        AboveMember(stack, i, n - 1, c);
      } else {
        RangeHas(stack.Under(n), stack.members[n].sha, c);
        IndexOfMember(stack, n);
        IndexOfMember(stack, i);
      }
    }
  }

  /** A commit of the top above the base belongs to a member. */
  lemma AboveBase(stack: Stack, c: Commit)
    requires Exact(stack) && IsAncestor(c, stack.Top().sha) && !IsAncestor(c, stack.base)
    ensures c.Commit? && IndexOf(stack.members, c.patch.pr) >= 0
  {
    assert ExactMember(stack, 0);
    if IsAncestor(c, stack.members[0].sha) {
      RangeHas(stack.base, stack.members[0].sha, c);
      IndexOfMember(stack, 0);
    } else {
      AboveMember(stack, 0, |stack.members| - 1, c);
    }
  }

  /** After landing, a member's remaining patches are those its author pushed
      above the commit that landed. */
  lemma LandedMember(w: World, stack: Stack, i: nat)
    requires StackKept(w, stack) && i < |stack.members|
    requires IsAncestor(stack.members[i].sha, w.prs[stack.members[i].number].head)
    ensures var head := w.prs[stack.members[i].number].head;
            Range(stack.Top().sha, head) == Range(stack.members[i].sha, head)
  {
    var m := stack.members[i];
    var head := w.prs[m.number].head;
    MemberInTop(stack, i);
    MemberHasPatches(w, stack, i);
    forall c | IsAncestor(c, head) ensures IsAncestor(c, stack.Top().sha) <==> IsAncestor(c, m.sha) {
      if IsAncestor(c, m.sha) {
        AncestorTrans(c, m.sha, stack.Top().sha);
      } else if IsAncestor(c, stack.Top().sha) {
        AboveMember(stack, i, |stack.members| - 1, c);
        RangeHas(m.sha, head, c);
      }
    }
    RangeStable(stack.Top().sha, m.sha, head);
  }

  /** Landing leaves another pull request's own patches as they are. */
  lemma LandedOther(w: World, stack: Stack, q: int)
    requires Exact(stack) && w.target == stack.base && q in w.prs && IndexOf(stack.members, q) < 0 && Described(w, q)
    ensures OwnPatches(w.prs[q], stack.Top().sha) == OwnPatches(w.prs[q], w.target)
  {
    var head := w.prs[q].head;
    if Chosen(w.prs[q].comment.owns, head).None? {
      forall c | IsAncestor(c, head) ensures IsAncestor(c, stack.Top().sha) <==> IsAncestor(c, w.target) {
        MemberAboveBase(stack, |stack.members| - 1);
        if IsAncestor(c, w.target) {
          AncestorTrans(c, stack.base, stack.Top().sha);
        } else if IsAncestor(c, stack.Top().sha) {
          AboveBase(stack, c);
          RangeHas(w.target, head, c);
        }
      }
      RangeStable(stack.Top().sha, w.target, head);
    }
  }

  lemma AdvanceMember(w: World, w': World, stack: Stack, i: nat)
    requires StackKept(w, stack) && w.target == stack.base && i < |stack.members|
    requires IsAncestor(stack.members[i].sha, w.prs[stack.members[i].number].head)
    requires var n := stack.members[i].number;
             w'.target == stack.Top().sha && n in w'.prs && w'.prs[n] == w.prs[n].(comment := LandedComment(stack, i))
    ensures Described(w', stack.members[i].number)
  {
    var m := stack.members[i];
    LandedPatches(stack, m.number);
    IndexOfMember(stack, i);
    LandedMember(w, stack, i);
    MemberHasPatches(w, stack, i);
    if m.sha != w.prs[m.number].head { AdvanceLandedFlag(m.sha, w.prs[m.number].head); }
  }

  lemma AdvanceDescribed(w: World, top: int, q: int)
    requires Inv(w) && Enabled(w, Advance(top)) && q in w.prs
    ensures Described(Next(w, Advance(top)), q)
  {
    var stack := w.prs[top].comment.stack.value;
    assert Marked(w, top) && StackKept(w, stack);
    FastForwardFromBase(w, stack);
    var i := IndexOf(stack.members, q);
    if i >= 0 {
      AdvanceMember(w, Next(w, Advance(top)), stack, i);
    } else {
      assert Described(w, q);
      LandedPatches(stack, q);
      LandedOther(w, stack, q);
    }
  }

  lemma AdvanceLandedFlag(sha: Commit, head: Commit)
    requires IsAncestor(sha, head) && sha != head
    ensures Range(sha, head) != []
  {
    if IsAncestor(head, sha) { AncestorAntisym(sha, head); }
  }

  /** Landing appends a member's next patches to those on the target. */
  lemma AdvanceInOrder(stack: Stack, p: int)
    requires Exact(stack) && Of(p, stack.base) == Seg(p, 0, Git.Landed(p, stack.base))
    ensures Of(p, stack.Top().sha) == Seg(p, 0, Git.Landed(p, stack.Top().sha))
  {
    LandedPatches(stack, p);
    var i := IndexOf(stack.members, p);
    if i >= 0 {
      assert ExactMember(stack, i);
      var from := Git.Landed(p, stack.base);
      SegSplit(p, 0, from, from + |Range(stack.Under(i), stack.members[i].sha)|);
    }
  }

  lemma AdvanceTargetExact(w: World, w': World, stack: Stack)
    requires TargetExact(w) && StackKept(w, stack) && w.target == stack.base
    requires w'.target == stack.Top().sha && w'.prs.Keys == w.prs.Keys
    requires forall p :: p in w'.prs ==> Described(w', p)
    ensures TargetExact(w')
  {
    forall p | p > 0
      ensures Git.Landed(p, w'.target) <= Written(w', p) && Of(p, w'.target) == Seg(p, 0, Git.Landed(p, w'.target))
    {
      AdvanceInOrder(stack, p);
      if p in w'.prs {
        assert Described(w', p);
      } else {
        LandedPatches(stack, p);
      }
    }
  }

  lemma AdvanceBounded(w: World, w': World, stack: Stack)
    requires Bounded(w) && StackKept(w, stack)
    requires w' == w.(target := stack.Top().sha, seen := stack.Top().sha, prs := LandedPrs(w.prs, stack))
    ensures Bounded(w')
  {
    forall q | q in w'.prs && w'.prs[q].comment.landed.Some?
      ensures Git.Below(w'.prs[q].comment.landed.value, w'.nextId)
    {
      var i := IndexOf(stack.members, q);
      if i >= 0 { MemberBounded(w, stack, i); }
    }
  }

  lemma AdvanceKeepsStack(w: World, top: int, q: int)
    requires Inv(w) && Enabled(w, Advance(top)) && Marked(w, q) && q != top
    ensures StackKept(Next(w, Advance(top)), w.prs[q].comment.stack.value)
  {
    var stack := w.prs[top].comment.stack.value;
    var other := w.prs[q].comment.stack.value;
    assert StackKept(w, stack) && StackKept(w, other) && Apart(other, stack);
    FastForwardFromBase(w, stack);
    MemberAboveBase(stack, |stack.members| - 1);
    AncestorTrans(other.base, stack.base, stack.Top().sha);
  }

  lemma AdvanceKeepsInv(w: World, top: int)
    requires Inv(w) && Enabled(w, Advance(top))
    ensures Inv(Next(w, Advance(top)))
  {
    var w' := Next(w, Advance(top));
    var stack := w.prs[top].comment.stack.value;
    assert StackKept(w, stack) by { assert Marked(w, top); }
    FastForwardFromBase(w, stack);
    forall q | q in w'.prs ensures Described(w', q) { AdvanceDescribed(w, top, q); }
    AdvanceTargetExact(w, w', stack);
    AdvanceBounded(w, w', stack);
    AdvanceMarkers(w, top);
  }

  lemma AdvanceMarkers(w: World, top: int)
    requires Inv(w) && Enabled(w, Advance(top))
    ensures MarkersKept(Next(w, Advance(top)))
  {
    var w' := Next(w, Advance(top));
    var stack := w.prs[top].comment.stack.value;
    assert Marked(w, top) && StackKept(w, stack);
    IndexOfMember(stack, |stack.members| - 1);
    assert w'.prs[top].comment.stack.None?;
    forall q | Marked(w', q) ensures StackKept(w', w'.prs[q].comment.stack.value) {
      assert w'.prs[q].comment == w.prs[q].comment;
      AdvanceKeepsStack(w, top, q);
    }
    MarkersCarry(w, w');
  }

  // ---- every step, every run ----

  lemma StepKeepsInv(w: World, step: Step)
    requires Inv(w) && Enabled(w, step)
    ensures Inv(Next(w, step))
  {
    hide Inv;
    match step
    case Open(p, fork, entry) => OpenKeepsInv(w, p, fork, entry);
    case Append(p) => AppendKeepsInv(w, p);
    case PushTarget => PushTargetKeepsInv(w);
    case SetLabel(p, on) => FlagsKeepInv(w, p, on, w.prs[p].entry);
    case SetEntry(p, entry) => FlagsKeepInv(w, p, w.prs[p].labelled, entry);
    case Look => LookKeepsInv(w);
    case Begin(ns, at) => BeginKeepsInv(w, ns, at);
    case WriteNext => WriteNextKeepsInv(w);
    case Push => PushKeepsInv(w);
    case Drop => DropKeepsInv(w);
    case Plain(p) => PlainKeepsInv(w, p);
    case Retry(top, index, at) => RetryKeepsInv(w, top, index, at);
    case Advance(top) => AdvanceKeepsInv(w, top);
  }

  /** A repository before the queue's first tick: no pull request, and no
      pull request's patch on the target. */
  ghost predicate Fresh(w: World) {
    && w.prs == map[] && w.job.None? && w.seen == w.target && Git.Below(w.target, w.nextId)
    && forall p :: p > 0 ==> Of(p, w.target) == []
  }

  /** worlds[0] starts fresh and every world follows from the one before. */
  ghost predicate Run(worlds: seq<World>, steps: seq<Step>) {
    && |worlds| == |steps| + 1 && Fresh(worlds[0])
    && forall i :: 0 <= i < |steps| ==> Enabled(worlds[i], steps[i]) && worlds[i + 1] == Next(worlds[i], steps[i])
  }

  lemma {:induction false} RunKeepsInv(worlds: seq<World>, steps: seq<Step>, i: nat)
    requires Run(worlds, steps) && i < |worlds|
    ensures Inv(worlds[i])
  {
    if i > 0 {
      RunKeepsInv(worlds, steps, i - 1);
      StepKeepsInv(worlds[i - 1], steps[i - 1]);
    }
  }

  /** The machine after steps, skipping those that are not enabled. */
  function After(w: World, steps: seq<Step>): World {
    if steps == [] then w
    else
      var before := After(w, steps[..|steps| - 1]);
      var last := steps[|steps| - 1];
      if Enabled(before, last) then Next(before, last) else before
  }

  lemma {:induction false} AfterKeepsInv(w: World, steps: seq<Step>)
    requires Inv(w)
    ensures Inv(After(w, steps))
  {
    if steps != [] {
      AfterKeepsInv(w, steps[..|steps| - 1]);
      var before := After(w, steps[..|steps| - 1]);
      var last := steps[|steps| - 1];
      if Enabled(before, last) { StepKeepsInv(before, last); }
    }
  }

  lemma AfterOneMore(w: World, steps: seq<Step>, step: Step)
    requires Enabled(After(w, steps), step)
    ensures After(w, steps + [step]) == Next(After(w, steps), step)
  {
    var all := steps + [step];
    assert all[..|all| - 1] == steps;
  }

  /** The stack is base followed by each pull request's patches that are not
      on base, all of them, once, in order, and nothing else. */
  ghost predicate BasePlusRest(w: World, stack: Stack, ns: seq<int>) {
    && stack.members != [] && stack.Numbers() == ns && stack.base == w.target
    && IsAncestor(w.target, stack.Top().sha)
    && Range(w.target, stack.Top().sha) == StackPatches(stack, |stack.members|)
    && forall k :: 0 <= k < |stack.members| ==>
         var n := stack.members[k].number;
         && n in w.prs && Git.Landed(n, w.target) <= w.prs[n].written
         && Range(stack.Under(k), stack.members[k].sha) == Seg(n, Git.Landed(n, w.target), w.prs[n].written)
  }

  /** And every pull request has some. */
  ghost predicate BasePlusOwn(w: World, stack: Stack, ns: seq<int>) {
    && BasePlusRest(w, stack, ns)
    && forall k :: 0 <= k < |ns| ==> Git.Landed(ns[k], w.target) < w.prs[ns[k]].written
  }

  lemma RestFromBase(w: World, stack: Stack, ns: seq<int>)
    requires Linked(stack) && stack.base == w.target && stack.Numbers() == ns
    requires forall k :: 0 <= k < |ns| ==>
               && ns[k] in w.prs && Git.Landed(ns[k], w.target) <= w.prs[ns[k]].written
               && Range(stack.Under(k), stack.members[k].sha) == Seg(ns[k], Git.Landed(ns[k], w.target), w.prs[ns[k]].written)
    ensures BasePlusRest(w, stack, ns)
  {
    hide Range, IsAncestor, Git.Landed, Linked, Seg;
    LinkedTop(stack);
    forall k | 0 <= k < |stack.members|
      ensures var n := stack.members[k].number;
              && n in w.prs && Git.Landed(n, w.target) <= w.prs[n].written
              && Range(stack.Under(k), stack.members[k].sha) == Seg(n, Git.Landed(n, w.target), w.prs[n].written)
    {
      assert ns[k] == stack.members[k].number;
    }
  }

  lemma LinkedTop(stack: Stack)
    requires Linked(stack)
    ensures stack.members != [] && IsAncestor(stack.base, stack.Top().sha)
    ensures Range(stack.base, stack.Top().sha) == StackPatches(stack, |stack.members|)
  {
    LinkedRange(stack, |stack.members| - 1);
  }

  lemma BuiltFromBase(w: World, ns: seq<int>, at: int)
    requires Inv(w) && Enabled(w, Begin(ns, at))
    ensures BasePlusOwn(w, NewJob(w, ns, at).stack, ns)
  {
    BuiltExact(w, ns, at);
    forall k | 0 <= k < |ns| ensures Git.Landed(ns[k], w.target) < w.prs[ns[k]].written {
      assert Described(w, ns[k]);
    }
    ExactLinked(NewJob(w, ns, at).stack);
    RestFromBase(w, NewJob(w, ns, at).stack, ns);
  }

  /** In every run, whatever authors, others and failed pushes did before,
      every stack a tick builds is the target it read followed by each
      member's own patches, with no commit of a pull request outside it. */
  lemma EveryStackExact(worlds: seq<World>, steps: seq<Step>, i: nat)
    requires Run(worlds, steps) && i < |steps| && steps[i].Begin?
    ensures worlds[i + 1].job.Some? && BasePlusOwn(worlds[i], worlds[i + 1].job.value.stack, steps[i].ns)
  {
    RunKeepsInv(worlds, steps, i);
    BuiltFromBase(worlds[i], steps[i].ns, steps[i].at);
  }

  /** In every run, the target holds a prefix of each pull request's patches,
      each once and in order, and what the queue would stack for it next is
      exactly the rest. */
  lemma EveryPatchLandsOnce(worlds: seq<World>, steps: seq<Step>, i: nat, p: int)
    requires Run(worlds, steps) && i < |worlds| && p in worlds[i].prs
    ensures var w := worlds[i];
            var landed := Git.Landed(p, w.target);
            && landed <= w.prs[p].written
            && Of(p, w.target) + OwnPatches(w.prs[p], w.target) == Seg(p, 0, w.prs[p].written)
  {
    var w := worlds[i];
    RunKeepsInv(worlds, steps, i);
    assert Described(w, p);
    SegSplit(p, 0, Git.Landed(p, w.target), w.prs[p].written);
  }

  /** In every run, two stacks that still match GitHub share no member. */
  lemma LiveStacksDisjoint(w: World, p: int, q: int, i: nat, j: nat)
    requires Inv(w) && Marked(w, p) && Marked(w, q) && p != q
    requires i < |w.prs[p].comment.stack.value.members| && j < |w.prs[q].comment.stack.value.members|
    requires var m := w.prs[p].comment.stack.value.members[i]; m.number in w.prs && w.prs[m.number].head == m.sha
    requires var m := w.prs[q].comment.stack.value.members[j]; m.number in w.prs && w.prs[m.number].head == m.sha
    ensures w.prs[p].comment.stack.value.members[i].number != w.prs[q].comment.stack.value.members[j].number
  {
    var a, b := w.prs[p].comment.stack.value, w.prs[q].comment.stack.value;
    assert StackKept(w, a) && StackKept(w, b) && Apart(a, b);
    if a.members[i].number == b.members[j].number {
      MemberInTop(a, i);
      MemberInTop(b, j);
      MemberAboveBase(a, i);
    }
  }
}
