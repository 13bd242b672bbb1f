/**
 Every step of the queue keeps its invariant, so in every run each stack is
 its base followed by its members' own patches, and every patch reaches the
 target at most once and in order.
 */
module QueueSafety {
  import opened Options
  import opened Git
  import opened Queue
  import opened QueueWorld

  // ---- carrying the parts of the invariant over a step ----

  /** Stack markers survive a step that writes none. */
  lemma MarkersCarry(w: World, w': World)
    requires MarkersKept(w)
    requires forall q :: q in w'.prs && w'.prs[q].comment.stack.Some? ==>
               q in w.prs && w'.prs[q].comment.stack == w.prs[q].comment.stack
    requires forall q :: Marked(w', q) ==> StackKept(w', w'.prs[q].comment.stack.value)
    ensures MarkersKept(w')
  {
    assert forall q :: Marked(w', q) ==> Marked(w, q);
  }

  lemma JobCarries(w: World, w': World, job: Job)
    requires JobKept(w, job) && StackKept(w', job.stack) && w'.seen == w.seen
    requires forall q :: q in w'.prs && w'.prs[q].comment.stack.Some? ==>
               q in w.prs && w'.prs[q].comment.stack == w.prs[q].comment.stack
    requires forall i :: 0 <= i < |job.stack.members| ==> JobMemberKept(w', job, i)
    ensures JobKept(w', job)
  {
    assert forall q :: Marked(w', q) ==> Marked(w, q);
  }

  /** A stack stays kept while branches, counts and the target stay. */
  lemma StackStays(w: World, w': World, stack: Stack)
    requires StackKept(w, stack)
    requires w'.target == w.target && w.nextId <= w'.nextId
    requires forall q :: q in w.prs ==>
               q in w'.prs && w'.prs[q].head == w.prs[q].head && w'.prs[q].written == w.prs[q].written
    ensures StackKept(w', stack)
  {
    BelowMono(stack.base, w.nextId, w'.nextId);
    BelowMono(stack.Top().sha, w.nextId, w'.nextId);
  }

  /** Neither branches, counts, records nor markers changed. */
  predicate SameWork(w: World, w': World) {
    && w'.target == w.target && w'.nextId == w.nextId
    && w'.prs.Keys == w.prs.Keys
    && forall q :: q in w.prs ==>
         w'.prs[q].head == w.prs[q].head && w'.prs[q].written == w.prs[q].written && w'.prs[q].comment == w.prs[q].comment
  }

  lemma SameWorkKeeps(w: World, w': World)
    requires Inv(w) && SameWork(w, w')
    ensures Bounded(w') && TargetExact(w') && MarkersKept(w')
    ensures forall p :: p in w'.prs ==> Described(w', p)
  {
    forall q | Marked(w', q) ensures StackKept(w', w'.prs[q].comment.stack.value) {
      assert Marked(w, q);
      StackStays(w, w', w.prs[q].comment.stack.value);
    }
    MarkersCarry(w, w');
    forall q | q in w'.prs ensures Described(w', q) { assert Described(w, q); }
    assert forall q :: Written(w', q) == Written(w, q);
  }

  // ---- steps that move no commit ----

  lemma FlagsKeepInv(w: World, p: int, on: bool, entry: Entry)
    requires Inv(w) && p in w.prs
    ensures Inv(w.(prs := w.prs[p := w.prs[p].(labelled := on, entry := entry)]))
  {
    var w' := w.(prs := w.prs[p := w.prs[p].(labelled := on, entry := entry)]);
    SameWorkKeeps(w, w');
    if w.job.Some? {
      var job := w.job.value;
      StackStays(w, w', job.stack);
      forall i | 0 <= i < |job.stack.members| ensures JobMemberKept(w', job, i) {
        assert JobMemberKept(w, job, i);
      }
      JobCarries(w, w', job);
    }
  }

  lemma LookKeepsInv(w: World)
    requires Inv(w) && w.job.None?
    ensures Inv(w.(seen := w.target))
  {
    SameWorkKeeps(w, w.(seen := w.target));
  }

  lemma DropKeepsInv(w: World)
    requires Inv(w)
    ensures Inv(w.(job := None))
  {
    SameWorkKeeps(w, w.(job := None));
  }

  // ---- steps of others: authors and the target ----

  /** Every member's commit is in the top's history, above the base. */
  lemma {:induction false} LinkedInTop(stack: Stack, i: nat)
    requires Linked(stack) && i < |stack.members|
    ensures IsAncestor(stack.members[i].sha, stack.Top().sha)
    ensures IsAncestor(stack.Under(i), stack.Top().sha)
    decreases |stack.members| - i
  {
    if i < |stack.members| - 1 {
      LinkedInTop(stack, i + 1);
      assert stack.Under(i + 1) == stack.members[i].sha;
    }
    AncestorTrans(stack.Under(i), stack.members[i].sha, stack.Top().sha);
  }

  lemma ExactLinked(stack: Stack)
    requires Exact(stack)
    ensures Linked(stack)
  {
    forall i | 0 <= i < |stack.members| ensures IsAncestor(stack.Under(i), stack.members[i].sha) {
      assert ExactMember(stack, i);
    }
  }

  lemma MemberInTop(stack: Stack, i: nat)
    requires Exact(stack) && i < |stack.members|
    ensures IsAncestor(stack.members[i].sha, stack.Top().sha)
    ensures IsAncestor(stack.Under(i), stack.Top().sha)
  {
    ExactLinked(stack);
    LinkedInTop(stack, i);
  }

  lemma MemberBounded(w: World, stack: Stack, i: nat)
    requires StackKept(w, stack) && i < |stack.members|
    ensures Git.Below(stack.members[i].sha, w.nextId) && Git.Below(stack.Under(i), w.nextId)
  {
    MemberInTop(stack, i);
    BelowAncestor(stack.members[i].sha, stack.Top().sha, w.nextId);
    BelowAncestor(stack.Under(i), stack.Top().sha, w.nextId);
  }

  lemma BoundedMono(w: World, bound: nat)
    requires Bounded(w) && w.nextId <= bound
    ensures Git.Below(w.target, bound)
    ensures forall p :: p in w.prs ==> Git.Below(w.prs[p].head, bound)
    ensures forall p :: p in w.prs && w.prs[p].comment.landed.Some? ==> Git.Below(w.prs[p].comment.landed.value, bound)
    ensures forall p, own :: p in w.prs && own in w.prs[p].comment.owns ==> Git.Below(own.head, bound)
  {
    BelowMono(w.target, w.nextId, bound);
    forall p | p in w.prs ensures Git.Below(w.prs[p].head, bound) {
      BelowMono(w.prs[p].head, w.nextId, bound);
    }
    forall p | p in w.prs && w.prs[p].comment.landed.Some? ensures Git.Below(w.prs[p].comment.landed.value, bound) {
      BelowMono(w.prs[p].comment.landed.value, w.nextId, bound);
    }
    forall p, own | p in w.prs && own in w.prs[p].comment.owns ensures Git.Below(own.head, bound) {
      BelowMono(own.head, w.nextId, bound);
    }
  }

  lemma JobBoundedMono(w: World, job: Job, i: nat, bound: nat)
    requires i < |job.stack.members| == |job.keeps| == |job.expected|
    requires JobMemberKept(w, job, i) && w.nextId <= bound
    ensures Git.Below(job.expected[i], bound)
    ensures forall own :: own in job.keeps[i] ==> Git.Below(own.head, bound)
  {
    BelowMono(job.expected[i], w.nextId, bound);
    forall own | own in job.keeps[i] ensures Git.Below(own.head, bound) {
      BelowMono(own.head, w.nextId, bound);
    }
  }

  lemma PushTargetKeepsInv(w: World)
    requires Inv(w)
    ensures Inv(Next(w, PushTarget))
  {
    hide Described, JobKept;
    var w' := Next(w, PushTarget);
    BoundedMono(w, w'.nextId);
    forall p | p in w.prs ensures Described(w', p) { PushTargetDescribes(w, p); }
    assert forall p :: Written(w', p) == Written(w, p);
    forall q | Marked(w', q) ensures StackKept(w', w'.prs[q].comment.stack.value) {
      PushTargetKeepsStack(w, w.prs[q].comment.stack.value);
    }
    MarkersCarry(w, w');
    if w.job.Some? { PushTargetKeepsJob(w, w.job.value); }
  }

  lemma PushTargetDescribes(w: World, p: int)
    requires Bounded(w) && p in w.prs && Described(w, p)
    ensures Described(Next(w, PushTarget), p)
  {
    RangeAfterPush(w.target, Next(w, PushTarget).target, w.prs[p].head, w.nextId);
  }

  lemma PushTargetKeepsJob(w: World, job: Job)
    requires Bounded(w) && JobKept(w, job)
    ensures JobKept(Next(w, PushTarget), job)
  {
    hide Described;
    var w' := Next(w, PushTarget);
    PushTargetKeepsStack(w, job.stack);
    forall i | 0 <= i < |job.stack.members| ensures JobMemberKept(w', job, i) {
      assert JobMemberKept(w, job, i);
      JobBoundedMono(w, job, i, w'.nextId);
    }
    JobCarries(w, w', job);
  }

  lemma PushTargetKeepsStack(w: World, stack: Stack)
    requires StackKept(w, stack)
    ensures StackKept(Next(w, PushTarget), stack)
  {
    var w' := Next(w, PushTarget);
    BelowMono(stack.base, w.nextId, w'.nextId);
    BelowMono(stack.Top().sha, w.nextId, w'.nextId);
    FreshNotAncestor(w'.target, stack.Top().sha, w.nextId);
  }

  /** One more patch of the author's lengthens what is taken for its own. */
  lemma AppendOwn(u: Commit, head: Commit, head': Commit, p: int, from: nat, written: nat, bound: nat)
    requires head' == Commit(head, bound, Patch(p, written))
    requires Git.Below(u, bound) && from <= written
    requires Range(u, head) == Seg(p, from, written)
    ensures Range(u, head') == Seg(p, from, written + 1)
  {
    FreshNotAncestor(head', u, bound);
    SegSplit(p, from, written, written + 1);
  }

  lemma AppendKeepsStack(w: World, p: int, stack: Stack)
    requires Bounded(w) && p in w.prs && StackKept(w, stack)
    ensures StackKept(Next(w, Append(p)), stack)
  {
    var w' := Next(w, Append(p));
    BelowMono(stack.base, w.nextId, w'.nextId);
    BelowMono(stack.Top().sha, w.nextId, w'.nextId);
    forall i | 0 <= i < |stack.members| && stack.members[i].number == p
      ensures IsAncestor(stack.members[i].sha, w'.prs[p].head) <==> IsAncestor(stack.members[i].sha, w.prs[p].head)
      ensures IsAncestor(stack.members[i].sha, w.prs[p].head) ==>
                Range(stack.Under(i), w'.prs[p].head) == Seg(p, Git.Landed(p, stack.base), w'.prs[p].written)
    {
      MemberBounded(w, stack, i);
      if IsAncestor(stack.members[i].sha, w.prs[p].head) {
        AppendOwn(stack.Under(i), w.prs[p].head, w'.prs[p].head, p, Git.Landed(p, stack.base), w.prs[p].written,
                  w.nextId);
      }
    }
  }

  lemma AppendDescribed(w: World, p: int)
    requires Bounded(w) && p in w.prs && Described(w, p)
    ensures Described(Next(w, Append(p)), p)
  {
    var w' := Next(w, Append(p));
    var pr, pr' := w.prs[p], w'.prs[p];
    ChosenAfterPush(pr.comment.owns, pr.head, pr'.head, w.nextId);
    if Chosen(pr.comment.owns, pr.head).Some? {
      ChosenUsable(pr.comment.owns, pr.head);
      var own := Chosen(pr.comment.owns, pr.head).value;
      BelowAncestor(own.upstream, own.head, w.nextId);
    }
    AppendOwn(Queue.Upstream(pr.comment.owns, pr.head, w.target), pr.head, pr'.head, p, Git.Landed(p, w.target),
              pr.written, w.nextId);
  }

  lemma AppendKeepsInv(w: World, p: int)
    requires Inv(w) && p in w.prs
    ensures Inv(Next(w, Append(p)))
  {
    hide Bounded, TargetExact, SeenKept, MarkersKept, Described, JobKept;
    AppendBounded(w, p);
    AppendMarkers(w, p);
    AppendAllDescribed(w, p);
    if w.job.Some? { AppendKeepsJob(w, p, w.job.value); }
  }

  lemma AppendBounded(w: World, p: int)
    requires Bounded(w) && TargetExact(w) && SeenKept(w) && p in w.prs
    ensures Bounded(Next(w, Append(p))) && TargetExact(Next(w, Append(p))) && SeenKept(Next(w, Append(p)))
  {
    hide IsAncestor, Git.Landed, Of;
    var w' := Next(w, Append(p));
    BoundedMono(w, w'.nextId);
    assert forall q :: Written(w, q) <= Written(w', q);
  }

  lemma AppendMarkers(w: World, p: int)
    requires Bounded(w) && MarkersKept(w) && p in w.prs
    ensures MarkersKept(Next(w, Append(p)))
  {
    hide StackKept, Apart, Bounded;
    var w' := Next(w, Append(p));
    forall q | Marked(w', q) ensures StackKept(w', w'.prs[q].comment.stack.value) {
      assert Marked(w, q);
      AppendKeepsStack(w, p, w.prs[q].comment.stack.value);
    }
    MarkersCarry(w, w');
  }

  lemma AppendAllDescribed(w: World, p: int)
    requires Bounded(w) && p in w.prs && forall q :: q in w.prs ==> Described(w, q)
    ensures forall q :: q in Next(w, Append(p)).prs ==> Described(Next(w, Append(p)), q)
  {
    hide Bounded;
    forall q | q in Next(w, Append(p)).prs ensures Described(Next(w, Append(p)), q) {
      assert Described(w, q);
      if q == p { AppendDescribed(w, p); }
    }
  }

  lemma AppendKeepsJob(w: World, p: int, job: Job)
    requires Bounded(w) && JobKept(w, job) && p in w.prs
    ensures JobKept(Next(w, Append(p)), job)
  {
    var w' := Next(w, Append(p));
    AppendKeepsStack(w, p, job.stack);
    forall i | 0 <= i < |job.stack.members| ensures JobMemberKept(w', job, i) {
      AppendKeepsJobMember(w, p, job, i);
    }
    JobCarries(w, w', job);
  }

  lemma AppendKeepsJobMember(w: World, p: int, job: Job, i: nat)
    requires Bounded(w) && StackKept(w, job.stack) && p in w.prs
    requires i < |job.stack.members| == |job.keeps| == |job.expected|
    requires JobMemberKept(w, job, i)
    ensures JobMemberKept(Next(w, Append(p)), job, i)
  {
    MemberBounded(w, job.stack, i);
    JobBoundedMono(w, job, i, w.nextId + 1);
    ChosenAfterPush(w.prs[p].comment.owns, w.prs[p].head, Next(w, Append(p)).prs[p].head, w.nextId);
  }

  lemma OpenKeepsInv(w: World, p: int, fork: Commit, entry: Entry)
    requires Inv(w) && Enabled(w, Open(p, fork, entry))
    ensures Inv(Next(w, Open(p, fork, entry)))
  {
    OpenDescribed(w, p, fork, entry);
    OpenKeepsMarkers(w, p, fork, entry);
    if w.job.Some? { OpenKeepsJob(w, p, fork, entry, w.job.value); }
  }

  lemma OpenKeepsMarkers(w: World, p: int, fork: Commit, entry: Entry)
    requires Bounded(w) && MarkersKept(w) && TargetExact(w) && Enabled(w, Open(p, fork, entry))
    ensures var w' := Next(w, Open(p, fork, entry)); Bounded(w') && MarkersKept(w') && TargetExact(w')
  {
    var w' := Next(w, Open(p, fork, entry));
    BoundedMono(w, w'.nextId);
    BelowAncestor(fork, w.target, w.nextId);
    BelowMono(fork, w.nextId, w'.nextId);
    assert Written(w, p) == 0;
    assert forall q :: Written(w, q) <= Written(w', q);
    forall q | Marked(w', q) ensures StackKept(w', w'.prs[q].comment.stack.value) {
      StackStays(w, w', w.prs[q].comment.stack.value);
    }
    MarkersCarry(w, w');
  }

  lemma OpenDescribed(w: World, p: int, fork: Commit, entry: Entry)
    requires Inv(w) && Enabled(w, Open(p, fork, entry))
    ensures forall q :: q in Next(w, Open(p, fork, entry)).prs ==> Described(Next(w, Open(p, fork, entry)), q)
  {
    var w' := Next(w, Open(p, fork, entry));
    var head := w'.prs[p].head;
    FreshNotAncestor(head, w.target, w.nextId);
    assert Written(w, p) == 0;
    assert Range(w.target, fork) == [];
    assert Range(w.target, head) == [Patch(p, 0)];
    assert Seg(p, 0, 1) == [Patch(p, 0)];
    assert Described(w', p);
    forall q | q in w.prs ensures Described(w', q) { assert Described(w, q); }
  }

  lemma OpenKeepsJob(w: World, p: int, fork: Commit, entry: Entry, job: Job)
    requires JobKept(w, job) && Enabled(w, Open(p, fork, entry))
    ensures JobKept(Next(w, Open(p, fork, entry)), job)
  {
    var w' := Next(w, Open(p, fork, entry));
    StackStays(w, w', job.stack);
    forall i | 0 <= i < |job.stack.members| ensures JobMemberKept(w', job, i) {
      OpenKeepsJobMember(w, p, fork, entry, job, i);
    }
    JobCarries(w, w', job);
  }

  lemma OpenKeepsJobMember(w: World, p: int, fork: Commit, entry: Entry, job: Job, i: nat)
    requires StackKept(w, job.stack) && Enabled(w, Open(p, fork, entry))
    requires i < |job.stack.members| == |job.keeps| == |job.expected|
    requires JobMemberKept(w, job, i)
    ensures JobMemberKept(Next(w, Open(p, fork, entry)), job, i)
  {
    MemberBounded(w, job.stack, i);
    NotInFork(w, job, i, fork);
    JobBoundedMono(w, job, i, w.nextId + 1);
  }

  /** A member's commit is above the stack's base. */
  lemma {:induction false} MemberAboveBase(stack: Stack, i: nat)
    requires Exact(stack) && i < |stack.members|
    ensures IsAncestor(stack.base, stack.Under(i))
    ensures !IsAncestor(stack.members[i].sha, stack.base)
    ensures IsAncestor(stack.base, stack.members[i].sha)
  {
    assert ExactMember(stack, i);
    if i > 0 {
      MemberAboveBase(stack, i - 1);
    }
    AncestorTrans(stack.base, stack.Under(i), stack.members[i].sha);
    if IsAncestor(stack.members[i].sha, stack.base) {
      AncestorTrans(stack.members[i].sha, stack.base, stack.Under(i));
    }
  }

  lemma NotInFork(w: World, job: Job, i: nat, fork: Commit)
    requires StackKept(w, job.stack) && i < |job.stack.members| && IsAncestor(fork, w.target)
    ensures !IsAncestor(job.stack.members[i].sha, fork)
  {
    var m := job.stack.members[i];
    if IsAncestor(m.sha, fork) {
      AncestorTrans(m.sha, fork, w.target);
      MemberInTop(job.stack, i);
      MemberAboveBase(job.stack, i);
    }
  }

  // ---- a tick's comments ----

  /** Rewriting one comment outside a job. */
  lemma CommentKeepsInv(w: World, p: int, comment: Comment)
    requires Inv(w) && w.job.None? && p in w.prs
    requires |comment.owns| <= MAX_OWNS && comment.landed.None?
    requires forall own :: own in comment.owns ==> Git.Below(own.head, w.nextId)
    requires Described(WithComment(w, p, comment), p)
    requires comment.stack.Some? ==> OwnMarker(w, p, comment.stack.value)
    ensures Inv(WithComment(w, p, comment))
  {
    var w' := WithComment(w, p, comment);
    CommentMarkers(w, p, comment);
    forall q | q in w'.prs ensures Described(w', q) { assert q != p ==> Described(w, q); }
    assert forall q :: Written(w', q) == Written(w, q);
  }

  /** A stack that may stand in p's comment beside every other marker. */
  ghost predicate OwnMarker(w: World, p: int, stack: Stack) {
    && StackKept(w, stack) && stack.Top().number == p
    && forall q :: q != p && Marked(w, q) ==> Apart(stack, w.prs[q].comment.stack.value)
  }

  lemma KeptHasMembers(w: World, stack: Stack)
    requires StackKept(w, stack)
    ensures stack.members != []
  {
  }

  lemma ApartSwaps(a: Stack, b: Stack)
    requires a.members != [] && b.members != [] && Apart(a, b)
    ensures Apart(b, a)
  {
    hide IsAncestor;
  }

  lemma CommentMarkers(w: World, p: int, comment: Comment)
    requires MarkersKept(w) && p in w.prs
    requires comment.stack.Some? ==> OwnMarker(w, p, comment.stack.value)
    ensures MarkersKept(WithComment(w, p, comment))
  {
    hide StackKept, Meet, Exact;
    var w' := WithComment(w, p, comment);
    if comment.stack.Some? { KeptHasMembers(w, comment.stack.value); }
    forall q | Marked(w', q) ensures StackKept(w', w'.prs[q].comment.stack.value) {
      assert q != p ==> Marked(w, q);
      StackStays(w, w', w'.prs[q].comment.stack.value);
    }
    forall a, b | Marked(w', a) && Marked(w', b) && a != b
      ensures Apart(w'.prs[a].comment.stack.value, w'.prs[b].comment.stack.value)
    {
      assert (a != p ==> Marked(w, a)) && (b != p ==> Marked(w, b));
      if b == p { ApartSwaps(comment.stack.value, w.prs[a].comment.stack.value); }
    }
  }

  lemma PlainKeepsInv(w: World, p: int)
    requires Inv(w) && Enabled(w, Plain(p))
    ensures Inv(Next(w, Plain(p)))
  {
    assert Described(w, p);
    CommentKeepsInv(w, p, PlainComment(w.prs[p].comment.owns));
  }

  /** A member whose branch holds its commit has patches beyond the base. */
  lemma MemberHasPatches(w: World, stack: Stack, i: nat)
    requires Exact(stack) && Carries(w, stack) && i < |stack.members|
    requires IsAncestor(stack.members[i].sha, w.prs[stack.members[i].number].head)
    ensures var m := stack.members[i];
            var from := Git.Landed(m.number, stack.base) + |Range(stack.Under(i), m.sha)|;
            && Git.Landed(m.number, stack.base) < from <= w.prs[m.number].written
            && Range(m.sha, w.prs[m.number].head) == Seg(m.number, from, w.prs[m.number].written)
  {
    var m := stack.members[i];
    assert ExactMember(stack, i);
    var head := w.prs[m.number].head;
    RangeSplit(stack.Under(i), m.sha, head);
    var whole, own, rest := Range(stack.Under(i), head), Range(stack.Under(i), m.sha), Range(m.sha, head);
    assert whole[|own|..] == rest;
  }

  lemma RetryKeepsInv(w: World, top: int, index: nat, at: int)
    requires Inv(w) && Enabled(w, Retry(top, index, at))
    ensures Inv(Next(w, Retry(top, index, at)))
  {
    hide Range, IsAncestor, Described, StackKept, Exact, KeepOwns, OwnMarker;
    var before := w.prs[top].comment.stack.value;
    assert StackKept(w, before);
    var stack := before.(retry := 1, at := at);
    RetryMarker(w, top, stack);
    var n := stack.members[index].number;
    RetryDescribed(w, stack, index);
    CommentKeepsInv(w, n, StackComment(stack, index, KeepOwns(w.prs[n].comment.owns, StackOwn(stack, index))));
  }

  lemma RetryMarker(w: World, top: int, stack: Stack)
    requires MarkersKept(w) && Marked(w, top)
    requires stack == w.prs[top].comment.stack.value.(retry := stack.retry, at := stack.at)
    ensures OwnMarker(w, top, stack)
  {
    SameShape(w, w.prs[top].comment.stack.value, stack);
  }

  lemma RetryDescribed(w: World, stack: Stack, index: nat)
    requires Bounded(w) && SeenKept(w) && StackKept(w, stack) && stack.base == w.seen && index < |stack.members|
    requires IsAncestor(stack.members[index].sha, w.prs[stack.members[index].number].head)
    ensures var n := stack.members[index].number;
            var comment := StackComment(stack, index, KeepOwns(w.prs[n].comment.owns, StackOwn(stack, index)));
            && |comment.owns| <= MAX_OWNS && (forall own :: own in comment.owns ==> Git.Below(own.head, w.nextId))
            && Described(WithComment(w, n, comment), n)
  {
    var m := stack.members[index];
    var own := StackOwn(stack, index);
    var keep := KeepOwns(w.prs[m.number].comment.owns, own);
    KeepOwnsIn(w.prs[m.number].comment.owns, own);
    MemberBounded(w, stack, index);
    MemberHasPatches(w, stack, index);
    assert StackComment(stack, index, keep).owns == [own] + keep;
    assert ExactMember(stack, index);
    assert Usable(own, w.prs[m.number].head);
  }

  /** The retry count and time of a stack play no part in what is kept. */
  lemma SameShape(w: World, stack: Stack, stack': Stack)
    requires StackKept(w, stack) && stack' == stack.(retry := stack'.retry, at := stack'.at)
    ensures StackKept(w, stack')
    ensures forall i :: 0 <= i < |stack.members| ==> stack'.Under(i) == stack.Under(i)
  {
    assert stack'.Numbers() == stack.Numbers();
    forall i | 0 <= i < |stack.members| ensures ExactMember(stack', i) {
      assert ExactMember(stack, i);
    }
  }

  lemma WriteNextKeepsInv(w: World)
    requires Inv(w) && Enabled(w, WriteNext)
    ensures Inv(Next(w, WriteNext))
  {
    hide Range, IsAncestor;
    var job := w.job.value;
    var n := job.stack.members[job.commented].number;
    var comment := StackComment(job.stack, job.commented, job.keeps[job.commented]);
    var bare := w.(job := None);
    DropKeepsInv(w);
    WriteNextDescribed(w, job);
    WriteNextMarker(w, job);
    CommentKeepsInv(bare, n, comment);
    var w' := Next(w, WriteNext);
    WriteNextKeepsJob(w, job);
    JobJoins(WithComment(bare, n, comment), w'.job.value, w');
  }

  lemma WriteNextDescribed(w: World, job: Job)
    requires Bounded(w) && SeenKept(w) && JobKept(w, job) && job.commented < |job.stack.members|
    requires Described(w, job.stack.members[job.commented].number)
    ensures var n := job.stack.members[job.commented].number;
            var comment := StackComment(job.stack, job.commented, job.keeps[job.commented]);
            && n in w.prs
            && |comment.owns| <= MAX_OWNS && (forall own :: own in comment.owns ==> Git.Below(own.head, w.nextId))
            && Described(WithComment(w.(job := None), n, comment), n)
  {
    var k := job.commented;
    var pr := w.prs[job.stack.members[k].number];
    var comment := StackComment(job.stack, k, job.keeps[k]);
    assert JobMemberKept(w, job, k);
    assert comment.owns == [StackOwn(job.stack, k)] + job.keeps[k];
    MemberBounded(w, job.stack, k);
    ChosenSkips(StackOwn(job.stack, k), job.keeps[k], pr.head);
    ChosenOfUsed(pr.comment.owns, pr.head);
  }

  lemma WriteNextMarker(w: World, job: Job)
    requires JobKept(w, job) && MarkersKept(w)
    ensures OwnMarker(w.(job := None), job.stack.Top().number, job.stack)
  {
    var bare := w.(job := None);
    StackStays(w, bare, job.stack);
    assert forall q :: Marked(bare, q) <==> Marked(w, q);
  }

  lemma JobJoins(bare: World, job: Job, w: World)
    requires Inv(bare) && w == bare.(job := Some(job)) && JobKept(w, job)
    ensures Inv(w)
  {
    forall q | Marked(w, q) ensures StackKept(w, w.prs[q].comment.stack.value) {
      assert Marked(bare, q);
      StackStays(bare, w, w.prs[q].comment.stack.value);
    }
    MarkersCarry(bare, w);
    forall q | q in w.prs ensures Described(w, q) { assert Described(bare, q); }
    assert forall q :: Written(w, q) == Written(bare, q);
  }

  lemma WriteNextKeepsJob(w: World, job: Job)
    requires JobKept(w, job) && w.job == Some(job) && Enabled(w, WriteNext)
    ensures JobKept(Next(w, WriteNext), Next(w, WriteNext).job.value)
  {
    var w' := Next(w, WriteNext);
    var job' := w'.job.value;
    StackStays(w, w', job.stack);
    forall i | 0 <= i < |job.stack.members| ensures JobMemberKept(w', job', i) {
      WriteNextKeepsJobMember(w, job, i);
    }
    forall q | Marked(w', q)
      ensures || (q == job.stack.Top().number && w'.prs[q].comment.stack.value == job.stack)
              || Apart(job.stack, w'.prs[q].comment.stack.value)
    {
      if q != job.stack.members[job.commented].number { assert Marked(w, q); }
    }
  }

  lemma WriteNextKeepsJobMember(w: World, job: Job, i: nat)
    requires Exact(job.stack) && w.job == Some(job) && Enabled(w, WriteNext)
    requires i < |job.stack.members| == |job.keeps| == |job.expected|
    requires JobMemberKept(w, job, i) && JobMemberKept(w, job, job.commented)
    ensures JobMemberKept(Next(w, WriteNext), Next(w, WriteNext).job.value, i)
  {
    var ns := job.stack.Numbers();
    assert ns[i] == job.stack.members[i].number && ns[job.commented] == job.stack.members[job.commented].number;
  }
}
