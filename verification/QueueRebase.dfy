/**
 Rebasing a group: each branch's own commits above those of the branch before
 it, until one branch moved or does not rebase.
 */
module QueueRebase {
  import opened Options
  import opened Git
  import opened Queue
  import opened QueueWorld
  import opened QueueStacks
  import P = QueuePlan

  // ---- building a stack ----

  lemma BuildNothing(prs: map<int, PullRequest>, base: Commit, tip: Commit, id: nat)
    ensures Build(prs, [], base, tip, id) == [] && Commits(prs, [], base) == 0
  {
  }

  lemma BuildFirst(prs: map<int, PullRequest>, ns: seq<int>, base: Commit, tip: Commit, id: nat)
    requires ns != [] && forall i :: 0 <= i < |ns| ==> ns[i] in prs
    ensures var own := OwnPatches(prs[ns[0]], base);
            var sha := Replay(tip, own, id);
            && Build(prs, ns, base, tip, id) == [Member(ns[0], sha)] + Build(prs, ns[1..], base, sha, id + |own|)
            && Commits(prs, ns, base) == |own| + Commits(prs, ns[1..], base)
  {
    hide Replay, OwnPatches;
  }

  /** Rebasing one more pull request on top of a built prefix. */
  lemma {:induction false} BuildOneMore(prs: map<int, PullRequest>, ns: seq<int>, n: int, base: Commit, tip: Commit,
                                        id: nat)
    requires n in prs && forall i :: 0 <= i < |ns| ==> ns[i] in prs
    ensures var ms := Build(prs, ns, base, tip, id);
            Build(prs, ns + [n], base, tip, id) ==
            ms + [Member(n, Replay(QueueStacks.Under(ms, tip, |ms|), OwnPatches(prs[n], base), id + Commits(prs, ns, base)))]
    ensures Commits(prs, ns + [n], base) == Commits(prs, ns, base) + |OwnPatches(prs[n], base)|
    decreases |ns|
  {
    hide Replay, OwnPatches, Build, Commits;
    BuildNothing(prs, base, tip, id);
    BuildFirst(prs, ns + [n], base, tip, id);
    if ns == [] {
      BuildNothing(prs, base, Replay(tip, OwnPatches(prs[n], base), id), id + |OwnPatches(prs[n], base)|);
      assert ns + [n] == [n] && [n][1..] == [];
    } else {
      var own := OwnPatches(prs[ns[0]], base);
      var sha := Replay(tip, own, id);
      var rest := Build(prs, ns[1..], base, sha, id + |own|);
      BuildOneMore(prs, ns[1..], n, base, sha, id + |own|);
      BuildFirst(prs, ns, base, tip, id);
      TopOfRest(prs, ns, base, tip, id);
      assert (ns + [n])[1..] == ns[1..] + [n];
    }
  }

  datatype Rebased = Built(members: seq<Member>, keeps: seq<seq<Own>>,
                           expected: seq<Commit>) | Moved(number: int) | Conflict(number: int)

  /** The newest record that still describes the branch decides where its own
      commits start. */
  method UpstreamOf(pr: P.Queued, base: Commit) returns (upstream: Commit, used: seq<Own>)
    ensures upstream == Queue.Upstream(pr.owns, pr.head, base) && used == Used(pr.owns, pr.head)
  {
    for i := 0 to |pr.owns|
      invariant Chosen(pr.owns, pr.head) == Chosen(pr.owns[i..], pr.head)
    {
      var own := pr.owns[i];
      assert pr.owns[i..][1..] == pr.owns[i + 1..];
      if IsAncestor(own.head, pr.head) && IsAncestor(own.upstream, own.head) {
        return own.upstream, [own];
      }
    }
    return base, [];
  }

  /** The record, other than current, still worth keeping. */
  method KeepOwnsOf(owns: seq<Own>, current: Own) returns (keep: seq<Own>)
    ensures keep == KeepOwns(owns, current)
  {
    for i := 0 to |owns|
      invariant KeepOwns(owns, current) == KeepOwns(owns[i..], current)
    {
      assert owns[i..][1..] == owns[i + 1..];
      if owns[i] != current { return [owns[i]]; }
    }
    return [];
  }

  /** What the snapshot says of prs is still what their comments say. */
  predicate Known(w: World, queued: map<int, P.Queued>, prs: seq<int>) {
    forall i :: 0 <= i < |prs| ==>
      && prs[i] in queued && prs[i] in w.prs
      && queued[prs[i]].owns == w.prs[prs[i]].comment.owns && !w.prs[prs[i]].AlreadyLanded()
  }

  /** The branches as they are now, the records as the snapshot read them. */
  function Read(w: World, queued: map<int, P.Queued>): World {
    w.(prs := map q | q in w.prs ::
                if q in queued then w.prs[q].(comment := Comment(queued[q].owns, None, None)) else w.prs[q])
  }

  lemma ReadKnown(w: World, queued: map<int, P.Queued>, prs: seq<int>)
    requires forall i :: 0 <= i < |prs| ==> prs[i] in queued && prs[i] in w.prs
    ensures Known(Read(w, queued), queued, prs)
  {
  }

  /** The first i of prs are rebased. */
  ghost predicate BuiltPrefix(w: World, prs: seq<int>, i: nat, r: Rebased, nextId: nat)
    requires i <= |prs| && r.Built?
  {
    && |r.members| == |r.keeps| == |r.expected| == i
    && (forall k :: 0 <= k < i ==> prs[k] in w.prs)
    && r.members == Build(w.prs, prs[..i], w.target, w.target, w.nextId)
    && nextId == w.nextId + Commits(w.prs, prs[..i], w.target)
    && forall k :: 0 <= k < i ==>
         r.keeps[k] == Used(w.prs[prs[k]].comment.owns, w.prs[prs[k]].head) && r.expected[k] == w.prs[prs[k]].head
  }

  lemma PrefixStarts(w: World, queued: map<int, P.Queued>, prs: seq<int>, clash: (Commit, Commit, Commit) -> bool)
    ensures BuiltPrefix(w, prs, 0, Built([], [], []), w.nextId)
    ensures RebasedTo(w, queued, prs, 0, clash)
  {
  }

  lemma PrefixGrows(w: World, prs: seq<int>, i: nat, r: Rebased, nextId: nat)
    requires i < |prs| && r.Built? && BuiltPrefix(w, prs, i, r, nextId) && prs[i] in w.prs
    ensures var pr := w.prs[prs[i]];
            var own := OwnPatches(pr, w.target);
            var m := Member(prs[i], Replay(QueueStacks.Under(r.members, w.target, i), own, nextId));
            BuiltPrefix(w, prs, i + 1,
                        Built(r.members + [m], r.keeps + [Used(pr.comment.owns, pr.head)],
                              r.expected + [pr.head]), nextId + |own|)
  {
    hide Build, Commits, Replay, OwnPatches, Used;
    BuildOneMore(w.prs, prs[..i], prs[i], w.target, w.target, w.nextId);
    assert prs[..i + 1] == prs[..i] + [prs[i]];
  }

  lemma PrefixIsJob(w: World, prs: seq<int>, r: Rebased, nextId: nat, at: int)
    requires r.Built? && BuiltPrefix(w, prs, |prs|, r, nextId)
    ensures Job(Stack(w.target, r.members, 0, at), r.keeps, r.expected, 0) == NewJob(w, prs, at)
  {
    hide Build, Commits, Used;
    assert prs[..|prs|] == prs;
    var job := NewJob(w, prs, at);
    assert r.keeps == job.keeps && r.expected == job.expected;
  }

  /** The branch is where the snapshot saw it. */
  predicate Unmoved(w: World, queued: map<int, P.Queued>, n: int) {
    n in w.prs && n in queued && w.prs[n].head == queued[n].head
  }

  /** Rebasing the i-th pull request above those before it conflicts. */
  predicate ClashAt(w: World, prs: seq<int>, i: nat, clash: (Commit, Commit, Commit) -> bool) {
    && i < |prs| && (forall k :: 0 <= k < |prs| ==> prs[k] in w.prs)
    && var pr := w.prs[prs[i]];
    clash(QueueStacks.Under(Build(w.prs, prs[..i], w.target, w.target, w.nextId), w.target, i),
          Queue.Upstream(pr.comment.owns, pr.head, w.target), pr.head)
  }

  /** Nothing stops the rebase of the first i pull requests. */
  predicate RebasedTo(w: World, queued: map<int, P.Queued>, prs: seq<int>, i: nat,
                      clash: (Commit, Commit, Commit) -> bool) {
    i <= |prs| && forall k :: 0 <= k < i ==> Unmoved(w, queued, prs[k]) && !ClashAt(w, prs, k, clash)
  }

  lemma MovedStands(w: World, queued: map<int, P.Queued>, prs: seq<int>, i: nat)
    requires i < |prs| && prs[i] in w.prs && prs[i] in queued
    ensures Unmoved(w, queued, prs[i]) <==> w.prs[prs[i]].head == queued[prs[i]].head
  {
  }

  /** The rebase about to be tried is the one that may conflict. */
  lemma StepStands(w: World, queued: map<int, P.Queued>, prs: seq<int>, i: nat, built: Rebased, nextId: nat,
                   clash: (Commit, Commit, Commit) -> bool)
    requires Known(w, queued, prs) && i < |prs| && built.Built? && BuiltPrefix(w, prs, i, built, nextId)
    requires Unmoved(w, queued, prs[i])
    ensures |built.members| == i
    ensures OwnPatches(w.prs[prs[i]], w.target) ==
            Range(Queue.Upstream(queued[prs[i]].owns, queued[prs[i]].head, w.target), queued[prs[i]].head)
    ensures Used(queued[prs[i]].owns, queued[prs[i]].head) == Used(w.prs[prs[i]].comment.owns, w.prs[prs[i]].head)
    ensures ClashAt(w, prs, i, clash) <==>
            clash(QueueStacks.Under(built.members, w.target, i),
                  Queue.Upstream(queued[prs[i]].owns, queued[prs[i]].head, w.target), queued[prs[i]].head)
    ensures RebasedTo(w, queued, prs, i, clash) && !ClashAt(w, prs, i, clash) ==>
              RebasedTo(w, queued, prs, i + 1, clash)
  {
    hide Build, Used, Queue.Upstream, Range;
  }

  lemma ClashStops(w: World, queued: map<int, P.Queued>, prs: seq<int>, i: nat, clash: (Commit, Commit, Commit) -> bool)
    requires ClashAt(w, prs, i, clash)
    ensures !RebasedTo(w, queued, prs, |prs|, clash)
  {
  }

  /** Rebases prs one above the other, or says which is the first pull request
      that moved since the snapshot or does not rebase. */
  method RebaseAll(w: World, queued: map<int, P.Queued>, prs: seq<int>, at: int,
                   clash: (Commit, Commit, Commit) -> bool) returns (r: Rebased)
    requires Known(w, queued, prs)
    ensures match r
            case Built(members, keeps, expected) =>
              && RebasedTo(w, queued, prs, |prs|, clash)
              && Job(Stack(w.target, members, 0, at), keeps, expected, 0) == NewJob(w, prs, at)
            case Moved(n) =>
              exists i :: 0 <= i < |prs| && prs[i] == n && RebasedTo(w, queued, prs, i, clash) && !Unmoved(w, queued, n)
            case Conflict(n) =>
              && !RebasedTo(w, queued, prs, |prs|, clash)
              && exists i :: 0 <= i < |prs| && prs[i] == n && RebasedTo(w, queued, prs, i, clash)
                   && Unmoved(w, queued, n) && ClashAt(w, prs, i, clash)
  {
    hide Build, Commits, Replay, BuiltPrefix, RebasedTo, ClashAt, Unmoved, Queue.Upstream, Used, Range;
    var tip := w.target;
    var nextId: nat := w.nextId;
    var built := Built([], [], []);
    PrefixStarts(w, queued, prs, clash);
    for i := 0 to |prs|
      invariant built.Built? && |built.members| == i && BuiltPrefix(w, prs, i, built, nextId)
      invariant tip == QueueStacks.Under(built.members, w.target, i)
      invariant RebasedTo(w, queued, prs, i, clash)
    {
      var n := prs[i];
      var pr := queued[n];
      MovedStands(w, queued, prs, i);
      if w.prs[n].head != pr.head { return Moved(n); }
      var upstream, used := UpstreamOf(pr, w.target);
      StepStands(w, queued, prs, i, built, nextId, clash);
      if clash(tip, upstream, pr.head) {
        ClashStops(w, queued, prs, i, clash);
        return Conflict(n);
      }
      var own := Range(upstream, pr.head);
      var rebased := Replay(tip, own, nextId);
      PrefixGrows(w, prs, i, built, nextId);
      built := Built(built.members + [Member(n, rebased)], built.keeps + [used], built.expected + [pr.head]);
      tip, nextId := rebased, nextId + |own|;
    }
    PrefixIsJob(w, prs, built, nextId, at);
    r := built;
  }

  // ---- conflicts ----

  predicate Conflicts(w: World, prs: seq<int>, clash: (Commit, Commit, Commit) -> bool) {
    exists i :: 0 <= i < |prs| && ClashAt(w, prs, i, clash)
  }

  /** Which groups of prs conflict does not depend on how new commits are
      numbered: clean says so for each. */
  ghost predicate Steady(w: World, prs: seq<int>, clash: (Commit, Commit, Commit) -> bool, clean: seq<int> -> bool) {
    forall ns: seq<int>, id: nat | Inside(ns, prs) :: Conflicts(w.(nextId := id), ns, clash) <==> !clean(ns)
  }

  predicate Inside(ns: seq<int>, prs: seq<int>) {
    ns != [] && forall i :: 0 <= i < |ns| ==> ns[i] in prs
  }

  /** The same branch, described alike. */
  predicate SameBranch(a: PullRequest, b: PullRequest) {
    a.head == b.head && a.comment.owns == b.comment.owns
  }

  predicate SameBranches(prs: map<int, PullRequest>, prs': map<int, PullRequest>, ns: seq<int>) {
    forall i :: 0 <= i < |ns| ==> ns[i] in prs && ns[i] in prs' && SameBranch(prs[ns[i]], prs'[ns[i]])
  }

  /** What a rebase builds depends on the group's own branches only. */
  lemma {:induction false} BuildSame(prs: map<int, PullRequest>, prs': map<int, PullRequest>, ns: seq<int>,
                                     base: Commit, tip: Commit, id: nat)
    requires SameBranches(prs, prs', ns)
    ensures Build(prs, ns, base, tip, id) == Build(prs', ns, base, tip, id)
    ensures Commits(prs, ns, base) == Commits(prs', ns, base)
    decreases |ns|
  {
    hide Build, Commits, Replay, OwnPatches;
    if ns == [] {
      BuildNothing(prs, base, tip, id);
      BuildNothing(prs', base, tip, id);
    } else {
      BuildFirst(prs, ns, base, tip, id);
      BuildFirst(prs', ns, base, tip, id);
      SameOwn(prs[ns[0]], prs'[ns[0]], base);
      var own := OwnPatches(prs[ns[0]], base);
      BuildSame(prs, prs', ns[1..], base, Replay(tip, own, id), id + |own|);
    }
  }

  lemma SameOwn(a: PullRequest, b: PullRequest, base: Commit)
    requires SameBranch(a, b)
    ensures OwnPatches(a, base) == OwnPatches(b, base)
  {
  }

  lemma NewJobSame(w: World, w': World, ns: seq<int>, at: int)
    requires w'.target == w.target && w'.nextId == w.nextId && SameBranches(w.prs, w'.prs, ns)
    ensures NewJob(w, ns, at) == NewJob(w', ns, at)
    ensures Commits(w.prs, ns, w.target) == Commits(w'.prs, ns, w'.target)
  {
    hide Build, Commits, Used;
    BuildSame(w.prs, w'.prs, ns, w.target, w.target, w.nextId);
    var a, b := NewJob(w, ns, at), NewJob(w', ns, at);
    assert a.keeps == b.keeps && a.expected == b.expected;
  }

  lemma ConflictsSame(w: World, w': World, ns: seq<int>, clash: (Commit, Commit, Commit) -> bool)
    requires w'.target == w.target && w'.nextId == w.nextId && SameBranches(w.prs, w'.prs, ns)
    ensures Conflicts(w, ns, clash) <==> Conflicts(w', ns, clash)
    ensures forall i :: 0 <= i < |ns| ==> (ClashAt(w, ns, i, clash) <==> ClashAt(w', ns, i, clash))
  {
    hide Build;
    forall i | 0 <= i < |ns| ensures ClashAt(w, ns, i, clash) <==> ClashAt(w', ns, i, clash) {
      BuildSame(w.prs, w'.prs, ns[..i], w.target, w.target, w.nextId);
    }
  }

  /** Reading the records again changes nothing while they are as they were. */
  lemma ReadSame(w: World, queued: map<int, P.Queued>, prs: seq<int>, at: int, clash: (Commit, Commit, Commit) -> bool)
    requires Known(w, queued, prs)
    ensures Known(Read(w, queued), queued, prs)
    ensures NewJob(Read(w, queued), prs, at) == NewJob(w, prs, at)
    ensures Commits(Read(w, queued).prs, prs, w.target) == Commits(w.prs, prs, w.target)
    ensures RebasedTo(Read(w, queued), queued, prs, |prs|, clash) <==> RebasedTo(w, queued, prs, |prs|, clash)
  {
    hide Build, Commits, ClashAt, Used;
    var v := Read(w, queued);
    NewJobSame(v, w, prs, at);
    ConflictsSame(v, w, prs, clash);
    forall i | 0 <= i < |prs| ensures Unmoved(v, queued, prs[i]) <==> Unmoved(w, queued, prs[i]) {}
  }

  /** Forming other pull requests leaves a group's conflicts as they are. */
  lemma SteadyStays(w: World, w': World, prs: seq<int>, clash: (Commit, Commit, Commit) -> bool,
                    clean: seq<int> -> bool)
    requires Steady(w, prs, clash, clean) && w'.target == w.target
    requires forall i :: 0 <= i < |prs| ==> prs[i] in w.prs && prs[i] in w'.prs && w.prs[prs[i]] == w'.prs[prs[i]]
    ensures Steady(w', prs, clash, clean)
  {
    hide Conflicts;
    forall ns: seq<int>, id: nat | Inside(ns, prs) ensures Conflicts(w'.(nextId := id), ns, clash) <==> !clean(ns) {
      ConflictsSame(w.(nextId := id), w'.(nextId := id), ns, clash);
    }
  }

  lemma SteadyPart(w: World, prs: seq<int>, part: seq<int>, clash: (Commit, Commit, Commit) -> bool,
                   clean: seq<int> -> bool)
    requires Steady(w, prs, clash, clean) && forall i :: 0 <= i < |part| ==> part[i] in prs
    ensures Steady(w, part, clash, clean)
  {
    forall ns: seq<int>, id: nat | Inside(ns, part) ensures Conflicts(w.(nextId := id), ns, clash) <==> !clean(ns) {
      forall i | 0 <= i < |ns| ensures ns[i] in prs {
        var k :| 0 <= k < |part| && part[k] == ns[i];
      }
      assert Inside(ns, prs);
    }
  }

  /** With every branch where the snapshot saw it, a group is rebased exactly
      when it is clean. */
  lemma SteadyDecides(w: World, queued: map<int, P.Queued>, prs: seq<int>, clash: (Commit, Commit, Commit) -> bool,
                      clean: seq<int> -> bool)
    requires Steady(w, prs, clash, clean) && prs != []
    requires forall i :: 0 <= i < |prs| ==> Unmoved(w, queued, prs[i])
    ensures clean(prs) <==> RebasedTo(w, queued, prs, |prs|, clash)
    ensures !clean(prs) <==> Conflicts(w, prs, clash)
  {
    hide ClashAt;
    assert Inside(prs, prs) && w.(nextId := w.nextId) == w;
  }
}
