/**
 What a quiet tick does to one stack in flight whose checks failed: it is
 retried once, split in two, or its only pull request is rejected. Each time
 the queue gets smaller or its stacks more tested, and no other stack is
 touched.
 */
module QueueDrainStacks {
  import opened Options
  import opened Git
  import opened Queue
  import opened QueueWorld
  import opened QueueSafety
  import opened QueueLanding
  import opened QueueTick
  import opened QueueTickSafety
  import opened QueueDrainForm

  function NumbersOf(w: World, p: int): seq<int>
    requires Marked(w, p)
  {
    w.prs[p].comment.stack.value.Numbers()
  }

  /** A marker a tick reads whose stack no longer matches GitHub. */
  ghost predicate Stale(w: World, p: int) {
    Marked(w, p) && w.prs[p].labelled && !Live(w, p)
  }

  /** The stack matches the target, the branches and the labels. */
  ghost predicate Fit(w: World, stack: Stack) {
    && stack.base == w.target
    && forall i :: 0 <= i < |stack.members| ==>
         var m := stack.members[i];
         m.number in w.prs && w.prs[m.number].labelled && w.prs[m.number].head == m.sha
  }

  lemma LiveIsFit(w: World, p: int)
    requires Marked(w, p) && w.prs[p].labelled
    ensures Live(w, p) <==> Fit(w, w.prs[p].comment.stack.value)
  {
  }

  // ---- the measure ----

  /** Queued pull requests that have not landed, and those in back, which an
      abandoned stack may put back into the queue. */
  function InQueue(w: World, back: set<int>): set<int> {
    set p | p in w.prs && w.prs[p].labelled && (!w.prs[p].AlreadyLanded() || p in back)
  }

  ghost predicate InStale(w: World, n: int) {
    exists p :: Stale(w, p) && n in NumbersOf(w, p)
  }

  /** The members of stale stacks. */
  ghost function Back(w: World): set<int> {
    set n | n in w.prs && InStale(w, n)
  }

  ghost function LiveTops(w: World): set<int> {
    set p | p in w.prs && Live(w, p)
  }

  ghost function RetriedTops(w: World): set<int> {
    set p | p in w.prs && Live(w, p) && w.prs[p].comment.stack.value.retry > 0
  }

  ghost function StaleTops(w: World): set<int> {
    set p | p in w.prs && Stale(w, p)
  }

  /** Grows as stacks are retried and split. */
  ghost function Score(w: World): nat {
    2 * |LiveTops(w)| + |RetriedTops(w)|
  }

  /** Every stale marker was there before. */
  ghost predicate StaleKept(w': World, w: World) {
    forall q :: Stale(w', q) ==> Stale(w, q) && w'.prs[q].comment.stack == w.prs[q].comment.stack
  }

  /** The queue did not grow, and if it is the same it is as well tested. */
  ghost predicate Down(w': World, w: World, back: set<int>) {
    && InQueue(w', back) <= InQueue(w, back)
    && (InQueue(w', back) == InQueue(w, back) ==> Score(w') >= Score(w))
    && StaleKept(w', w)
  }

  /** The queue shrank or is better tested. */
  ghost predicate Better(w': World, w: World, back: set<int>) {
    InQueue(w', back) != InQueue(w, back) || Score(w') > Score(w)
  }

  lemma DownTrans(w0: World, w: World, w': World, back: set<int>)
    requires Down(w, w0, back) && Down(w', w, back)
    ensures Down(w', w0, back)
    ensures Better(w, w0, back) || Better(w', w, back) ==> Better(w', w0, back)
  {
    hide Score;
    forall q | Stale(w', q) ensures Stale(w0, q) && w'.prs[q].comment.stack == w0.prs[q].comment.stack {
      assert Stale(w, q);
    }
  }

  // ---- what quiet ticks keep ----

  /** No pull request is a member of two live stacks. */
  ghost predicate Separate(w: World) {
    forall p, q, n :: Live(w, p) && Live(w, q) && p != q && n in NumbersOf(w, p) ==> n !in NumbersOf(w, q)
  }

  /** The stack's members are queued, each once, and it lies above the target. */
  ghost predicate Sturdy(w: World, p: int)
    requires Marked(w, p)
  {
    Stackable(w, NumbersOf(w, p)) && IsAncestor(w.target, w.prs[p].comment.stack.value.Top().sha)
  }

  /** Every commit of the stack is an old one above its base, and the stack has
      not landed: it will not match GitHub again. */
  ghost predicate Frozen(w: World, stack: Stack) {
    && stack.members != []
    && (forall i :: 0 <= i < |stack.members| ==>
          Git.Below(stack.members[i].sha, w.nextId) && stack.members[i].sha != stack.base)
    && (stack.base == w.target || !IsAncestor(stack.Top().sha, w.target))
  }

  ghost predicate MarkersOwn(w: World) {
    forall p :: p in w.prs && w.prs[p].comment.stack.Some? ==> Marked(w, p)
  }

  /** Between two actions of a quiet tick, whatever markers there are. */
  ghost predicate Tidy(w: World) {
    && Calm(w) && MarkersOwn(w) && Separate(w)
    && (forall p :: Live(w, p) ==> Sturdy(w, p))
    && (forall p :: Stale(w, p) ==> Frozen(w, w.prs[p].comment.stack.value))
  }

  /** No stack in the queue stands on the target as it is: those that are
      there have landed, though not every member was told, or are stale. */
  ghost predicate Cut(w: World) {
    && Calm(w) && MarkersOwn(w)
    && forall p :: Marked(w, p) && w.prs[p].labelled ==> w.prs[p].comment.stack.value.base != w.target
  }

  /** A world between two ticks: tidy, or with landings cut short. */
  ghost predicate Between(w: World) {
    Tidy(w) || Cut(w)
  }

  lemma LiveSeparate(w: World)
    requires Inv(w)
    ensures Separate(w)
  {
    forall p, q, n | Live(w, p) && Live(w, q) && p != q && n in NumbersOf(w, p) ensures n !in NumbersOf(w, q) {
      var a, b := NumbersOf(w, p), NumbersOf(w, q);
      if n in b {
        var i :| 0 <= i < |a| && a[i] == n;
        var j :| 0 <= j < |b| && b[j] == n;
        LiveStacksDisjoint(w, p, q, i, j);
      }
    }
  }

  /** Members of a live stack are queued. */
  lemma MembersQueued(w: World, p: int)
    requires Inv(w) && Live(w, p)
    ensures Stackable(w, NumbersOf(w, p))
  {
    var stack := w.prs[p].comment.stack.value;
    assert StackKept(w, stack);
    forall i | 0 <= i < |stack.members|
      ensures stack.members[i].number in w.prs && !w.prs[stack.members[i].number].AlreadyLanded()
    {
      assert ExactMember(stack, i);
      MemberHasPatches(w, stack, i);
    }
    var ns := NumbersOf(w, p);
    forall i | 0 <= i < |ns| ensures ns[i] in w.prs && w.prs[ns[i]].labelled && !w.prs[ns[i]].AlreadyLanded() {
      assert ns[i] == stack.members[i].number;
    }
  }

  lemma LiveAboveTarget(w: World, p: int)
    requires Inv(w) && Live(w, p)
    ensures IsAncestor(w.target, w.prs[p].comment.stack.value.Top().sha)
  {
    var stack := w.prs[p].comment.stack.value;
    assert StackKept(w, stack);
    MemberAboveBase(stack, |stack.members| - 1);
  }

  lemma KeptIsFrozen(w: World, stack: Stack)
    requires StackKept(w, stack)
    ensures Frozen(w, stack)
  {
    forall i | 0 <= i < |stack.members|
      ensures Git.Below(stack.members[i].sha, w.nextId) && !IsAncestor(stack.members[i].sha, stack.base)
    {
      MemberBounded(w, stack, i);
      MemberAboveBase(stack, i);
    }
    AncestorItself(stack.base);
    AncestorItself(stack.Top().sha);
  }

  /** Every reachable world between two ticks is tidy. */
  lemma InvTidy(w: World)
    requires Inv(w) && Calm(w)
    ensures Tidy(w)
  {
    LiveSeparate(w);
    forall p | Live(w, p) ensures Sturdy(w, p) {
      MembersQueued(w, p);
      LiveAboveTarget(w, p);
    }
    forall p | Stale(w, p) ensures Frozen(w, w.prs[p].comment.stack.value) {
      assert StackKept(w, w.prs[p].comment.stack.value);
      KeptIsFrozen(w, w.prs[p].comment.stack.value);
    }
  }

  lemma TopInStack(w: World, p: int)
    requires Marked(w, p)
    ensures p in NumbersOf(w, p)
  {
    var ns := NumbersOf(w, p);
    assert ns[|ns| - 1] == p;
  }

  // ---- a tick that touched one live stack ----

  /** What does not match GitHub still does not once ns are pushed again. */
  lemma StaysUnfit(w: World, w': World, ns: seq<int>, stack: Stack)
    requires Touches(w, w', ns) && Frozen(w, stack) && !Fit(w, stack)
    ensures !Fit(w', stack)
  {
    if stack.base == w.target {
      var i :| 0 <= i < |stack.members| &&
        var m := stack.members[i];
        !(m.number in w.prs && w.prs[m.number].labelled && w.prs[m.number].head == m.sha);
      var n := stack.members[i].number;
      if n in ns {
        var k :| 0 <= k < |ns| && ns[k] == n;
        assert Repushed(w, w', n);
      }
    }
  }

  lemma StaysFrozen(w: World, w': World, stack: Stack)
    requires Frozen(w, stack) && w'.target == w.target && w.nextId <= w'.nextId
    ensures Frozen(w', stack)
  {
    forall i | 0 <= i < |stack.members| ensures Git.Below(stack.members[i].sha, w'.nextId) {
      BelowMono(stack.members[i].sha, w.nextId, w'.nextId);
    }
  }

  /** Any other marker stays, and matches GitHub exactly if it did. */
  lemma OthersStay(w: World, w': World, p: int, q: int)
    requires Tidy(w) && Live(w, p) && Touches(w, w', NumbersOf(w, p))
    requires q in w.prs && q !in NumbersOf(w, p)
    ensures w'.prs[q] == w.prs[q] && (Live(w', q) <==> Live(w, q)) && (Marked(w', q) <==> Marked(w, q))
  {
    if Live(w, q) {
      TopInStack(w, p);
      var stack := w.prs[q].comment.stack.value;
      forall i | 0 <= i < |stack.members|
        ensures stack.members[i].number in w'.prs && w'.prs[stack.members[i].number] == w.prs[stack.members[i].number]
      {
        assert stack.Numbers()[i] in NumbersOf(w, q);
      }
      LiveCarries(w, w', q);
    } else if Stale(w, q) {
      LiveIsFit(w, q);
      StaysUnfit(w, w', NumbersOf(w, p), w.prs[q].comment.stack.value);
      LiveIsFit(w', q);
    }
  }

  /** Nobody else in a live stack carries a live marker. */
  lemma OnlyTopLive(w: World, p: int, q: int)
    requires Separate(w) && Live(w, p) && q in NumbersOf(w, p) && Live(w, q)
    ensures q == p
  {
    TopInStack(w, q);
  }

  /** The markers a group is left with: live and sturdy, inside the group, and
      no two of them sharing a member. */
  ghost predicate NewStacks(w: World, ns: seq<int>) {
    && (forall i :: 0 <= i < |ns| && ns[i] in w.prs && w.prs[ns[i]].comment.stack.Some? ==>
          Live(w, ns[i]) && Sturdy(w, ns[i]) && Within(w.prs[ns[i]].comment.stack.value, ns))
    && MarkersApart(w, ns)
  }

  /** Who is live after a tick touched only the stack of p. */
  lemma LiveAfter(w: World, w': World, p: int)
    requires Tidy(w) && Live(w, p) && Touches(w, w', NumbersOf(w, p)) && NewStacks(w', NumbersOf(w, p))
    ensures forall q :: q in w.prs && q !in NumbersOf(w, p) ==>
              && w'.prs[q] == w.prs[q]
              && (q in LiveTops(w') <==> q in LiveTops(w)) && (q in RetriedTops(w') <==> q in RetriedTops(w))
    ensures forall q :: q in NumbersOf(w, p) && q != p ==> q !in LiveTops(w)
    ensures StaleKept(w', w)
  {
    var ns := NumbersOf(w, p);
    forall q | q in w.prs && q !in ns
      ensures w'.prs[q] == w.prs[q] && (Live(w', q) <==> Live(w, q)) && (Marked(w', q) <==> Marked(w, q))
    {
      OthersStay(w, w', p, q);
    }
    forall q | q in ns && q != p ensures q !in LiveTops(w) {
      if q in LiveTops(w) { OnlyTopLive(w, p, q); }
    }
    forall q | q in ns && Marked(w', q) ensures Live(w', q) {
      var i :| 0 <= i < |ns| && ns[i] == q;
    }
  }

  lemma TidyAfter(w: World, w': World, p: int)
    requires Tidy(w) && Live(w, p) && Calm(w') && Touches(w, w', NumbersOf(w, p)) && NewStacks(w', NumbersOf(w, p))
    ensures Tidy(w')
  {
    var ns := NumbersOf(w, p);
    LiveAfter(w, w', p);
    forall q | q in w'.prs && w'.prs[q].comment.stack.Some? ensures Marked(w', q) {
      if q in ns { var i :| 0 <= i < |ns| && ns[i] == q; }
    }
    forall q | Live(w', q) ensures Sturdy(w', q) {
      if q in ns {
        var i :| 0 <= i < |ns| && ns[i] == q;
      } else {
        assert q in LiveTops(w') && q in LiveTops(w);
        SturdyAside(w, w', p, q);
      }
    }
    forall q | Stale(w', q) ensures Frozen(w', w'.prs[q].comment.stack.value) {
      StaysFrozen(w, w', w.prs[q].comment.stack.value);
    }
    SeparateAfter(w, w', p);
  }

  lemma SturdyAside(w: World, w': World, p: int, q: int)
    requires Tidy(w) && Live(w, p) && Live(w, q) && q !in NumbersOf(w, p) && Only(w, w', NumbersOf(w, p))
    ensures Marked(w', q) && Sturdy(w', q)
  {
    TopInStack(w, p);
    var ms := NumbersOf(w, q);
    forall i | 0 <= i < |ms| ensures ms[i] in w.prs && w'.prs[ms[i]] == w.prs[ms[i]] {
      assert ms[i] in ms;
    }
  }

  lemma SeparateAfter(w: World, w': World, p: int)
    requires Tidy(w) && Live(w, p) && Touches(w, w', NumbersOf(w, p)) && NewStacks(w', NumbersOf(w, p))
    ensures Separate(w')
  {
    var ns := NumbersOf(w, p);
    LiveAfter(w, w', p);
    forall q, n | Live(w', q) && n in NumbersOf(w', q)
      ensures if q in ns then n in ns else Live(w, q) && NumbersOf(w, q) == NumbersOf(w', q) && n !in ns
    {
      if q in ns {
        var i :| 0 <= i < |ns| && ns[i] == q;
        var stack := w'.prs[q].comment.stack.value;
        var k :| 0 <= k < |stack.members| && stack.Numbers()[k] == n;
        assert stack.members[k].number in ns;
      } else {
        assert q in LiveTops(w') && q in LiveTops(w);
        TopInStack(w, p);
      }
    }
    forall a, b, n | Live(w', a) && Live(w', b) && a != b && n in NumbersOf(w', a) ensures n !in NumbersOf(w', b) {
      if a in ns && b in ns {
        var i :| 0 <= i < |ns| && ns[i] == a;
        var j :| 0 <= j < |ns| && ns[j] == b;
      }
    }
  }

  // ---- retried ----

  /** Pull request q once the first n comments of a retried stack are written. */
  function Recommented(pr: PullRequest, stack: Stack, n: nat, q: int): PullRequest {
    var i := IndexOf(stack.members, q);
    if 0 <= i < n then pr.(comment := StackComment(stack, i, KeepOwns(pr.comment.owns, StackOwn(stack, i)))) else pr
  }

  lemma {:induction false} RetryShape(w: World, stack: Stack, n: nat, q: int)
    requires n <= |stack.members| && Distinct(stack.Numbers()) && q in w.prs
    ensures var r := RetryAll(w, stack, n);
            r == w.(prs := r.prs) && r.prs.Keys == w.prs.Keys && r.prs[q] == Recommented(w.prs[q], stack, n, q)
  {
    if n > 0 {
      RetryShape(w, stack, n - 1, q);
      IndexOfRetried(stack, n - 1);
    }
  }

  lemma IndexOfRetried(stack: Stack, i: nat)
    requires i < |stack.members| && Distinct(stack.Numbers())
    ensures IndexOf(stack.members, stack.members[i].number) == i
  {
    var j := IndexOf(stack.members, stack.members[i].number);
    assert stack.Numbers()[i] == stack.Numbers()[j];
  }

  function RetrySteps(p: int, n: nat, at: int): seq<Step> {
    if n == 0 then [] else RetrySteps(p, n - 1, at) + [Retry(p, n - 1, at)]
  }

  lemma {:induction false} RetryIsSteps(w: World, p: int, stack: Stack, n: nat)
    requires Calm(w) && Live(w, p) && Distinct(stack.Numbers()) && n <= |stack.members|
    requires stack == w.prs[p].comment.stack.value.(retry := 1, at := stack.at)
    ensures RetryAll(w, stack, n) == After(w, RetrySteps(p, n, stack.at))
  {
    hide Live, After, Next, Enabled, RetryAll;
    if n == 0 {
      NoRetrySteps(w, stack);
    } else {
      RetryIsSteps(w, p, stack, n - 1);
      RetryEnabled(w, p, stack, n - 1);
      AfterOneMore(w, RetrySteps(p, n - 1, stack.at), Retry(p, n - 1, stack.at));
    }
  }

  lemma NoRetrySteps(w: World, stack: Stack)
    ensures RetryAll(w, stack, 0) == After(w, [])
  {
  }

  lemma RetryAllKeepsInv(w: World, p: int, stack: Stack)
    requires Inv(w) && Calm(w) && Live(w, p) && Distinct(stack.Numbers())
    requires stack == w.prs[p].comment.stack.value.(retry := 1, at := stack.at)
    ensures Inv(RetryAll(w, stack, |stack.members|))
  {
    RetryIsSteps(w, p, stack, |stack.members|);
    AfterKeepsInv(w, RetrySteps(p, |stack.members|, stack.at));
  }

  lemma {:induction false} RetryEnabled(w: World, p: int, stack: Stack, n: nat)
    requires Calm(w) && Live(w, p) && Distinct(stack.Numbers()) && n < |stack.members|
    requires stack == w.prs[p].comment.stack.value.(retry := 1, at := stack.at)
    ensures var w1 := RetryAll(w, stack, n);
            Enabled(w1, Retry(p, n, stack.at)) && RetryAll(w, stack, n + 1) == Next(w1, Retry(p, n, stack.at))
  {
    var m := stack.members[n].number;
    RetryShape(w, stack, n, p);
    RetryShape(w, stack, n, m);
    IndexOfRetried(stack, |stack.members| - 1);
    IndexOfRetried(stack, n);
  }

  /** A retried stack stays live, and its marker now says so. */
  lemma {:induction false} RetryRaises(w: World, p: int, at: int, back: set<int>)
    requires Tidy(w) && Live(w, p) && w.prs[p].comment.stack.value.retry == 0
    ensures var stack := w.prs[p].comment.stack.value.(retry := 1, at := at);
            var w' := RetryAll(w, stack, |stack.members|);
            && Calm(w') && Touches(w, w', NumbersOf(w, p)) && NewStacks(w', NumbersOf(w, p))
            && Down(w', w, back) && Better(w', w, back)
  {
    hide RetryAll, MarkersOwn, Frozen, Separate, StaleTops, Only, NewStacks;
    var ns := NumbersOf(w, p);
    var stack := w.prs[p].comment.stack.value.(retry := 1, at := at);
    var w' := RetryAll(w, stack, |stack.members|);
    assert stack.Numbers() == ns && Sturdy(w, p);
    RetryShape(w, stack, |stack.members|, p);
    RetriedOnly(w, stack, ns);
    RetriedLive(w, p, stack);
    RetriedMarkers(w, p, stack);
    LiveAfter(w, w', p);
    TopInStack(w, p);
    RetriedScore(w, w', p, ns, back);
  }

  lemma RetriedScore(w: World, w': World, p: int, ns: seq<int>, back: set<int>)
    requires w'.prs.Keys == w.prs.Keys && Live(w, p) && Live(w', p) && p in ns
    requires w.prs[p].comment.stack.value.retry == 0 && w'.prs[p].comment.stack.value.retry == 1
    requires forall q :: q in w.prs && q !in ns ==>
               (q in LiveTops(w') <==> q in LiveTops(w)) && (q in RetriedTops(w') <==> q in RetriedTops(w))
    requires forall q :: q in ns && q != p ==> q !in LiveTops(w) && !Marked(w', q)
    requires forall q :: q in w.prs ==>
               w'.prs[q].labelled == w.prs[q].labelled && w'.prs[q].AlreadyLanded() == w.prs[q].AlreadyLanded()
    ensures InQueue(w', back) == InQueue(w, back) && Score(w') > Score(w)
  {
    forall q | q in w.prs ensures q in LiveTops(w') <==> q in LiveTops(w) {
      if q in ns && q != p { assert !Live(w', q); }
    }
    assert LiveTops(w') == LiveTops(w);
    forall q | q in w.prs ensures q in RetriedTops(w') <==> q in RetriedTops(w) + {p} {
      if q in ns && q != p { assert !Live(w', q) && q !in LiveTops(w); }
    }
    assert RetriedTops(w') == RetriedTops(w) + {p};
    assert InQueue(w', back) == InQueue(w, back);
  }

  lemma {:induction false} RetriedOnly(w: World, stack: Stack, ns: seq<int>)
    requires stack.Numbers() == ns && Stackable(w, ns)
    ensures var w' := RetryAll(w, stack, |stack.members|);
            && Only(w, w', ns)
            && forall q :: q in w.prs ==>
                 && w'.prs[q].labelled == w.prs[q].labelled && w'.prs[q].head == w.prs[q].head
                 && w'.prs[q].AlreadyLanded() == w.prs[q].AlreadyLanded()
  {
    var w' := RetryAll(w, stack, |stack.members|);
    RetryShape(w, stack, |stack.members|, ns[0]);
    forall q | q in w.prs
      ensures w'.prs[q].labelled == w.prs[q].labelled && w'.prs[q].head == w.prs[q].head
      ensures w'.prs[q].AlreadyLanded() == w.prs[q].AlreadyLanded()
      ensures q !in ns ==> w'.prs[q] == w.prs[q]
    {
      RetryShape(w, stack, |stack.members|, q);
      var i := IndexOf(stack.members, q);
      if i >= 0 { assert ns[i] == q; }
    }
  }

  lemma {:induction false} RetriedLive(w: World, p: int, stack: Stack)
    requires Live(w, p) && stack == w.prs[p].comment.stack.value.(retry := 1, at := stack.at)
    requires Stackable(w, stack.Numbers())
    ensures var w' := RetryAll(w, stack, |stack.members|);
            p in w'.prs && w'.prs[p].comment.stack == Some(stack) && Live(w', p)
  {
    var w' := RetryAll(w, stack, |stack.members|);
    RetryShape(w, stack, |stack.members|, p);
    IndexOfRetried(stack, |stack.members| - 1);
    RetriedOnly(w, stack, stack.Numbers());
    StillLive(w, w', p, stack);
  }

  lemma StillLive(w: World, w': World, p: int, stack: Stack)
    requires Live(w, p) && w'.target == w.target && w'.prs.Keys == w.prs.Keys && w'.prs[p].comment.stack == Some(stack)
    requires stack.base == w.prs[p].comment.stack.value.base && stack.members == w.prs[p].comment.stack.value.members
    requires forall q :: q in w.prs ==> w'.prs[q].labelled == w.prs[q].labelled && w'.prs[q].head == w.prs[q].head
    ensures Live(w', p)
  {
  }

  lemma {:induction false} RetriedMarkers(w: World, p: int, stack: Stack)
    requires Live(w, p) && Sturdy(w, p) && stack == w.prs[p].comment.stack.value.(retry := 1, at := stack.at)
    ensures NewStacks(RetryAll(w, stack, |stack.members|), stack.Numbers())
    ensures forall q :: q in stack.Numbers() && Marked(RetryAll(w, stack, |stack.members|), q) ==> q == p
  {
    hide RetryAll, Only, Separate, Frozen, MarkersOwn, Tidy;
    var w' := RetryAll(w, stack, |stack.members|);
    var ns := stack.Numbers();
    assert ns == NumbersOf(w, p);
    RetriedLive(w, p, stack);
    RetriedOnly(w, stack, ns);
    forall i | 0 <= i < |ns| && ns[i] in w'.prs && w'.prs[ns[i]].comment.stack.Some? ensures ns[i] == p {
      RetryShape(w, stack, |stack.members|, ns[i]);
      IndexOfRetried(stack, i);
    }
    forall k | 0 <= k < |stack.members| ensures stack.members[k].number in ns {
      assert ns[k] == stack.members[k].number;
    }
  }

  // ---- rejected or split ----

  lemma ReformedStacks(w': World, w: World, ns: seq<int>)
    requires Reformed(w, w', ns)
    ensures NewStacks(w', ns)
  {
    forall i | 0 <= i < |ns| && ns[i] in w'.prs && w'.prs[ns[i]].comment.stack.Some?
      ensures Live(w', ns[i]) && Sturdy(w', ns[i]) && Within(w'.prs[ns[i]].comment.stack.value, ns)
    {
      assert Live(w', ns[i]) && Upright(w', ns[i]);
      var stack := w'.prs[ns[i]].comment.stack.value;
      forall k | 0 <= k < |stack.members| ensures !w'.prs[stack.members[k].number].AlreadyLanded() {
        var j :| 0 <= j < |ns| && ns[j] == stack.members[k].number;
      }
    }
  }

  lemma ReformedQueue(w: World, w': World, ns: seq<int>, back: set<int>)
    requires Stackable(w, ns) && Reformed(w, w', ns) && Touches(w, w', ns)
    ensures InQueue(w', back) <= InQueue(w, back) && (SomeRejected(w', ns) ==> InQueue(w', back) != InQueue(w, back))
  {
    forall q | q in InQueue(w', back) ensures q in InQueue(w, back) {
      if q in ns {
        var i :| 0 <= i < |ns| && ns[i] == q;
      }
    }
    if SomeRejected(w', ns) {
      var i :| 0 <= i < |ns| && ns[i] in w'.prs && !w'.prs[ns[i]].labelled;
      assert ns[i] in InQueue(w, back) && ns[i] !in InQueue(w', back);
    }
  }

  lemma RejectLowers(w: World, w': World, p: int, back: set<int>)
    requires Tidy(w) && Live(w, p) && Touches(w, w', NumbersOf(w, p))
    requires Reformed(w, w', NumbersOf(w, p)) && SomeRejected(w', NumbersOf(w, p))
    ensures Down(w', w, back) && Better(w', w, back)
  {
    assert Sturdy(w, p);
    ReformedStacks(w', w, NumbersOf(w, p));
    ReformedQueue(w, w', NumbersOf(w, p), back);
    LiveAfter(w, w', p);
  }

  /** Splitting one live stack into two or more raises the score, whatever
      was retried before. */
  lemma SplitLowers(w: World, w': World, p: int, f: int, b: int, back: set<int>)
    requires Tidy(w) && Live(w, p) && Touches(w, w', NumbersOf(w, p)) && Reformed(w, w', NumbersOf(w, p))
    requires f in NumbersOf(w, p) && b in NumbersOf(w, p) && f != b && Live(w', f) && Live(w', b)
    ensures Down(w', w, back) && Better(w', w, back)
  {
    var ns := NumbersOf(w, p);
    assert Sturdy(w, p);
    ReformedStacks(w', w, ns);
    ReformedQueue(w, w', ns, back);
    LiveAfter(w, w', p);
    TopInStack(w, p);
    LiveCount(LiveTops(w), LiveTops(w'), p, f, b);
    RetriedCount(RetriedTops(w), RetriedTops(w'), p);
  }

  lemma LiveCount(s: set<int>, s': set<int>, p: int, f: int, b: int)
    requires p in s && (forall q :: q in s && q != p ==> q in s') && f in s' && b in s' && f != b && (f == p || f !in s)
    requires (b == p || b !in s)
    ensures |s'| >= |s| + 1
  {
    var rest := s - {p};
    forall q | q in rest + {f, b} ensures q in s' {}
    Cardinality(rest + {f, b}, s');
    assert f !in rest && b !in rest;
    assert |rest + {f, b}| == |rest| + 2;
  }

  lemma RetriedCount(s: set<int>, s': set<int>, p: int)
    requires forall q :: q in s && q != p ==> q in s'
    ensures |s'| >= |s| - 1
  {
    forall q | q in s - {p} ensures q in s' {}
    Cardinality(s - {p}, s');
    assert |s - {p}| >= |s| - 1;
  }

  lemma {:induction false} Cardinality(a: set<int>, b: set<int>)
    requires a <= b
    ensures |a| <= |b| && (a != b ==> |a| < |b|)
  {
    var rest := b - a;
    assert a + rest == b && a !! rest;
  }
}
