/**
 Building, pushing and landing a stack keep the queue's invariant, and with
 it every run does.
 */
module QueueStacks {
  import opened Options
  import opened Git
  import opened Queue
  import opened QueueWorld
  import opened QueueSafety

  // ---- building ----

  /** The commit below position i of members built above tip. */
  function Under(ms: seq<Member>, tip: Commit, i: nat): Commit
    requires i <= |ms|
  {
    if i == 0 then tip else ms[i - 1].sha
  }

  /** Each member is its own patches, replayed above the member below. */
  lemma {:induction false} BuildMember(prs: map<int, PullRequest>, ns: seq<int>, base: Commit, tip: Commit, id: nat,
                                       i: nat)
    requires (forall k :: 0 <= k < |ns| ==> ns[k] in prs) && i < |ns|
    requires Git.Below(tip, id)
    ensures var ms := Build(prs, ns, base, tip, id);
            && IsAncestor(Under(ms, tip, i), ms[i].sha)
            && Range(Under(ms, tip, i), ms[i].sha) == OwnPatches(prs[ns[i]], base)
    decreases i
  {
    hide Range, IsAncestor, Replay, OwnPatches, Git.Below;
    var own := OwnPatches(prs[ns[0]], base);
    var sha := Replay(tip, own, id);
    ReplayFacts(tip, own, id);
    if i > 0 {
      BuildMember(prs, ns[1..], base, sha, id + |own|, i - 1);
      var rest := Build(prs, ns[1..], base, sha, id + |own|);
      var ms := Build(prs, ns, base, tip, id);
      assert ms[i] == rest[i - 1] && Under(ms, tip, i) == Under(rest, sha, i - 1);
      assert ns[1..][i - 1] == ns[i];
    }
  }

  lemma TopOfRest(prs: map<int, PullRequest>, ns: seq<int>, base: Commit, tip: Commit, id: nat)
    requires ns != [] && forall k :: 0 <= k < |ns| ==> ns[k] in prs
    ensures var own := OwnPatches(prs[ns[0]], base);
            var sha := Replay(tip, own, id);
            var ms, rest := Build(prs, ns, base, tip, id), Build(prs, ns[1..], base, sha, id + |own|);
            Under(ms, tip, |ms|) == Under(rest, sha, |rest|)
  {
    hide Range, IsAncestor, Replay, OwnPatches;
  }

  lemma {:induction false} BuildBounded(prs: map<int, PullRequest>, ns: seq<int>, base: Commit, tip: Commit, id: nat)
    requires forall k :: 0 <= k < |ns| ==> ns[k] in prs
    requires Git.Below(tip, id)
    ensures var ms := Build(prs, ns, base, tip, id);
            Git.Below(Under(ms, tip, |ms|), id + Commits(prs, ns, base))
    decreases |ns|
  {
    hide Range, IsAncestor, Replay, OwnPatches, Git.Below, Build;
    if ns != [] {
      var own := OwnPatches(prs[ns[0]], base);
      var sha := Replay(tip, own, id);
      ReplayFacts(tip, own, id);
      TopOfRest(prs, ns, base, tip, id);
      BuildBounded(prs, ns[1..], base, sha, id + |own|);
    }
  }

  /** The top's history is tip's, then commits numbered from id. */
  lemma {:induction false} BuildFresh(prs: map<int, PullRequest>, ns: seq<int>, base: Commit, tip: Commit, id: nat,
                                      c: Commit)
    requires forall k :: 0 <= k < |ns| ==> ns[k] in prs
    requires var ms := Build(prs, ns, base, tip, id); IsAncestor(c, Under(ms, tip, |ms|))
    ensures IsAncestor(c, tip) || (c.Commit? && id <= c.id)
    decreases |ns|
  {
    hide Range, IsAncestor, Replay, OwnPatches, Build;
    if ns != [] {
      var own := OwnPatches(prs[ns[0]], base);
      var sha := Replay(tip, own, id);
      TopOfRest(prs, ns, base, tip, id);
      BuildFresh(prs, ns[1..], base, sha, id + |own|, c);
      if IsAncestor(c, sha) { ReplayFresh(tip, own, id, c); }
    }
  }

  /** The stack a tick builds is exact: above the target, each member's
      patches that have not landed, once and in order, and nothing else. */
  lemma BuiltExact(w: World, ns: seq<int>, at: int)
    requires Inv(w) && Enabled(w, Begin(ns, at))
    ensures var stack := NewJob(w, ns, at).stack;
            && Exact(stack) && stack.base == w.target && stack.Numbers() == ns
            && (forall i :: 0 <= i < |ns| ==>
                  Range(stack.Under(i), stack.members[i].sha) == Seg(ns[i], Git.Landed(ns[i], w.target),
                        w.prs[ns[i]].written))
  {
    var stack := NewJob(w, ns, at).stack;
    assert stack.Numbers() == ns;
    forall i | 0 <= i < |ns|
      ensures ExactMember(stack, i)
      ensures Range(stack.Under(i), stack.members[i].sha) == Seg(ns[i], Git.Landed(ns[i], w.target), w.prs[ns[i]].written)
    {
      BuiltMember(w, ns, at, i);
    }
  }

  lemma BuiltMember(w: World, ns: seq<int>, at: int, i: nat)
    requires Bounded(w) && Enabled(w, Begin(ns, at)) && i < |ns| && Described(w, ns[i])
    ensures var stack := NewJob(w, ns, at).stack;
            && ExactMember(stack, i)
            && Range(stack.Under(i), stack.members[i].sha) == Seg(ns[i], Git.Landed(ns[i], w.target), w.prs[ns[i]].written)
  {
    var stack := NewJob(w, ns, at).stack;
    BuildMember(w.prs, ns, w.target, w.target, w.nextId, i);
    assert stack.Under(i) == Under(stack.members, w.target, i);
  }

  /** Nothing of the new stack above the target existed before. */
  lemma BuiltFresh(w: World, ns: seq<int>, at: int, c: Commit)
    requires Enabled(w, Begin(ns, at))
    requires var stack := NewJob(w, ns, at).stack; stack.members != [] && IsAncestor(c, stack.Top().sha)
    ensures IsAncestor(c, w.target) || (c.Commit? && w.nextId <= c.id)
  {
    BuildFresh(w.prs, ns, w.target, w.target, w.nextId, c);
  }

  lemma BuiltMemberFresh(w: World, ns: seq<int>, at: int, i: nat)
    requires Enabled(w, Begin(ns, at)) && i < |ns| && Exact(NewJob(w, ns, at).stack)
    ensures var sha := NewJob(w, ns, at).stack.members[i].sha; sha.Commit? && w.nextId <= sha.id
  {
    var stack := NewJob(w, ns, at).stack;
    MemberInTop(stack, i);
    MemberAboveBase(stack, i);
    BuiltFresh(w, ns, at, stack.members[i].sha);
  }

  lemma BeginStackKept(w: World, ns: seq<int>, at: int)
    requires Bounded(w) && Enabled(w, Begin(ns, at)) && Exact(NewJob(w, ns, at).stack)
    requires forall p :: p in w.prs ==> Described(w, p)
    ensures StackKept(Next(w, Begin(ns, at)), NewJob(w, ns, at).stack)
  {
    hide Range, OwnPatches;
    var w' := Next(w, Begin(ns, at));
    var stack := NewJob(w, ns, at).stack;
    BuildBounded(w.prs, ns, w.target, w.target, w.nextId);
    BelowMono(w.target, w.nextId, w'.nextId);
    forall i | 0 <= i < |ns| ensures !IsAncestor(stack.members[i].sha, w.prs[ns[i]].head) {
      BuiltMemberFresh(w, ns, at, i);
      FreshNotAncestor(stack.members[i].sha, w.prs[ns[i]].head, w.nextId);
    }
    forall i | 0 <= i < |ns| ensures Git.Landed(ns[i], stack.base) <= w.prs[ns[i]].written {
      assert Described(w, ns[i]);
    }
  }

  lemma BeginApart(w: World, ns: seq<int>, at: int, other: Stack)
    requires Enabled(w, Begin(ns, at)) && StackKept(w, other)
    ensures NewJob(w, ns, at).stack.members != [] && Apart(NewJob(w, ns, at).stack, other)
  {
    var stack := NewJob(w, ns, at).stack;
    forall c | IsAncestor(c, stack.Top().sha) && IsAncestor(c, other.Top().sha)
      ensures IsAncestor(c, stack.base) && IsAncestor(c, other.base)
    {
      BuiltFresh(w, ns, at, c);
      BelowAncestor(c, other.Top().sha, w.nextId);
    }
  }

  lemma BeginKeepsJobMember(w: World, ns: seq<int>, at: int, i: nat)
    requires Bounded(w) && Enabled(w, Begin(ns, at)) && i < |ns| && Described(w, ns[i])
    requires Exact(NewJob(w, ns, at).stack)
    ensures JobMemberKept(Next(w, Begin(ns, at)), NewJob(w, ns, at), i)
  {
    var w' := Next(w, Begin(ns, at));
    var job := NewJob(w, ns, at);
    var pr := w.prs[ns[i]];
    BuiltMember(w, ns, at, i);
    BuiltMemberFresh(w, ns, at, i);
    BoundedMono(w, w'.nextId);
    forall q | q in w.prs ensures !IsAncestor(job.stack.members[i].sha, w.prs[q].head) {
      FreshNotAncestor(job.stack.members[i].sha, w.prs[q].head, w.nextId);
    }
    if Chosen(pr.comment.owns, pr.head).Some? { ChosenUsable(pr.comment.owns, pr.head); }
  }

  lemma BeginKeepsJob(w: World, ns: seq<int>, at: int)
    requires Inv(w) && Enabled(w, Begin(ns, at))
    ensures JobKept(Next(w, Begin(ns, at)), NewJob(w, ns, at))
  {
    var w' := Next(w, Begin(ns, at));
    var job := NewJob(w, ns, at);
    BuiltExact(w, ns, at);
    BeginStackKept(w, ns, at);
    forall i | 0 <= i < |ns| ensures JobMemberKept(w', job, i) {
      BeginKeepsJobMember(w, ns, at, i);
    }
    forall q | Marked(w', q) ensures Apart(job.stack, w'.prs[q].comment.stack.value) {
      assert Marked(w, q);
      BeginApart(w, ns, at, w.prs[q].comment.stack.value);
    }
  }

  lemma BeginKeepsInv(w: World, ns: seq<int>, at: int)
    requires Inv(w) && Enabled(w, Begin(ns, at))
    ensures Inv(Next(w, Begin(ns, at)))
  {
    var w' := Next(w, Begin(ns, at));
    BoundedMono(w, w'.nextId);
    forall q | Marked(w', q) ensures StackKept(w', w'.prs[q].comment.stack.value) {
      assert Marked(w, q);
      StackStays(w, w', w.prs[q].comment.stack.value);
    }
    MarkersCarry(w, w');
    forall q | q in w'.prs ensures Described(w', q) { assert Described(w, q); }
    assert forall q :: Written(w', q) == Written(w, q);
    BeginKeepsJob(w, ns, at);
  }

  // ---- pushing ----

  lemma NamedIn(stack: Stack, q: int)
    ensures q in stack.Numbers() <==> IndexOf(stack.members, q) >= 0
  {
    var i := IndexOf(stack.members, q);
    if i >= 0 { assert stack.Numbers()[i] == q; }
    if k :| 0 <= k < |stack.members| && stack.Numbers()[k] == q { assert stack.members[k].number == q; }
  }

  lemma IndexOfMember(stack: Stack, i: nat)
    requires Distinct(stack.Numbers()) && i < |stack.members|
    ensures IndexOf(stack.members, stack.members[i].number) == i
  {
    var j := IndexOf(stack.members, stack.members[i].number);
    assert stack.Numbers()[i] == stack.members[i].number;
    assert j >= 0 ==> stack.Numbers()[j] == stack.members[j].number;
  }

  lemma PushDescribed(w: World, job: Job, p: int)
    requires Inv(w) && w.job == Some(job) && Enabled(w, Step.Push) && p in w.prs
    ensures Described(Next(w, Step.Push), p)
  {
    var stack := job.stack;
    var i := IndexOf(stack.members, p);
    assert Described(w, p);
    if i >= 0 {
      assert JobMemberKept(w, job, i);
      assert ExactMember(stack, i);
      var own := StackOwn(stack, i);
      assert w.prs[p].comment.owns == [own] + job.keeps[i];
      assert Usable(own, stack.members[i].sha);
    }
  }

  lemma PushKeepsStack(w: World, job: Job, other: Stack)
    requires JobKept(w, job) && w.job == Some(job) && Enabled(w, Step.Push) && StackKept(w, other)
    requires other == job.stack || Apart(job.stack, other)
    ensures StackKept(Next(w, Step.Push), other)
  {
    var w' := Next(w, Step.Push);
    forall k | 0 <= k < |other.members|
      ensures var m := other.members[k];
              var from := Git.Landed(m.number, other.base);
              IsAncestor(m.sha, w'.prs[m.number].head) ==>
                Range(other.Under(k), w'.prs[m.number].head) == Seg(m.number, from, w'.prs[m.number].written)
    {
      var m := other.members[k];
      var i := IndexOf(job.stack.members, m.number);
      if i >= 0 && IsAncestor(m.sha, job.stack.members[i].sha) {
        assert JobMemberKept(w, job, i);
        if other == job.stack {
          IndexOfMember(other, k);
        } else {
          MemberInTop(job.stack, i);
          AncestorTrans(m.sha, job.stack.members[i].sha, job.stack.Top().sha);
          MemberInTop(other, k);
          MemberAboveBase(other, k);
        }
      }
    }
  }

  lemma PushKeepsInv(w: World)
    requires Inv(w) && Enabled(w, Step.Push)
    ensures Inv(Next(w, Step.Push))
  {
    hide Range, IsAncestor, Exact, Carries, Described, Meet, JobMemberKept;
    var w' := Next(w, Step.Push);
    var job := w.job.value;
    forall q | q in w'.prs ensures Described(w', q) { PushDescribed(w, job, q); }
    forall q | q in w'.prs ensures Git.Below(w'.prs[q].head, w'.nextId) {
      var i := IndexOf(job.stack.members, q);
      if i >= 0 { MemberBounded(w, job.stack, i); }
    }
    forall q | Marked(w', q) ensures StackKept(w', w'.prs[q].comment.stack.value) {
      assert Marked(w, q);
      PushKeepsStack(w, job, w.prs[q].comment.stack.value);
    }
    MarkersCarry(w, w');
    assert forall q :: Written(w', q) == Written(w, q);
  }
}
