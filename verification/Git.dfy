/**
 Linear git history as values. A commit is its parent, an identifier that no
 other commit carries, and the patch it applies, so a commit determines its
 whole history the way a SHA does.
 */
module Git {
  /** The index-th commit somebody wrote for pull request pr; pr 0 is a commit
      pushed to the target outside the queue. A rebase copies the patch. */
  datatype Patch = Patch(pr: int, index: nat)

  datatype Commit = Root | Commit(parent: Commit, id: nat, patch: Patch)

  /** `git merge-base --is-ancestor a c` */
  predicate IsAncestor(a: Commit, c: Commit) {
    a == c || (c.Commit? && IsAncestor(a, c.parent))
  }

  /** The patches of `upstream..head`, oldest first. */
  function Range(upstream: Commit, head: Commit): seq<Patch> {
    if head.Root? || IsAncestor(head, upstream) then []
    else Range(upstream, head.parent) + [head.patch]
  }

  /** `git rebase --force-rebase --onto onto`: a copy of every patch, as new
      commits numbered from id. */
  function Replay(onto: Commit, patches: seq<Patch>, id: nat): Commit {
    if patches == [] then onto
    else
      var last := |patches| - 1;
      Commit(Replay(onto, patches[..last], id), id + last, patches[last])
  }

  /** Every identifier of c's history is below bound. */
  predicate Below(c: Commit, bound: nat) {
    c.Commit? ==> c.id < bound && Below(c.parent, bound)
  }

  /** The patches of pull request p in c's history, oldest first. */
  function Of(p: int, c: Commit): seq<Patch> {
    if c.Root? then []
    else if c.patch.pr == p then Of(p, c.parent) + [c.patch]
    else Of(p, c.parent)
  }

  function Landed(p: int, c: Commit): nat {
    |Of(p, c)|
  }

  /** Patches from..to of pull request p, in order. */
  function Seg(p: int, from: nat, to: nat): (s: seq<Patch>)
    requires from <= to
    ensures |s| == to - from
    ensures forall i :: 0 <= i < |s| ==> s[i] == Patch(p, from + i)
  {
    seq(to - from, i requires 0 <= i => Patch(p, from + i))
  }

  lemma SegSplit(p: int, a: nat, b: nat, c: nat)
    requires a <= b <= c
    ensures Seg(p, a, b) + Seg(p, b, c) == Seg(p, a, c)
  {}

  lemma {:induction c} AncestorTrans(a: Commit, b: Commit, c: Commit)
    requires IsAncestor(a, b) && IsAncestor(b, c)
    ensures IsAncestor(a, c)
  {}

  lemma AncestorItself(c: Commit)
    ensures IsAncestor(c, c)
  {}

  lemma {:induction c} RootIsAncestor(c: Commit)
    ensures IsAncestor(Root, c)
  {}

  function Depth(c: Commit): nat {
    if c.Root? then 0 else 1 + Depth(c.parent)
  }

  lemma {:induction c} AncestorDepth(a: Commit, c: Commit)
    requires IsAncestor(a, c)
    ensures Depth(a) <= Depth(c)
    ensures Depth(a) == Depth(c) ==> a == c
  {}

  lemma AncestorAntisym(a: Commit, b: Commit)
    requires IsAncestor(a, b) && IsAncestor(b, a)
    ensures a == b
  {
    AncestorDepth(a, b);
    AncestorDepth(b, a);
  }

  lemma {:induction c} BelowAncestor(a: Commit, c: Commit, bound: nat)
    requires IsAncestor(a, c) && Below(c, bound)
    ensures Below(a, bound)
  {}

  lemma {:induction c} BelowMono(c: Commit, bound: nat, bound': nat)
    requires Below(c, bound) && bound <= bound'
    ensures Below(c, bound')
  {}

  /** A commit numbered bound or more is in no history below bound. */
  lemma FreshNotAncestor(a: Commit, c: Commit, bound: nat)
    requires a.Commit? && bound <= a.id && Below(c, bound)
    ensures !IsAncestor(a, c)
  {
    if IsAncestor(a, c) {
      BelowAncestor(a, c, bound);
    }
  }

  /** u..h is u..m followed by m..h when m lies between them. */
  lemma {:induction false} RangeSplit(u: Commit, m: Commit, h: Commit)
    requires IsAncestor(u, m) && IsAncestor(m, h)
    ensures Range(u, h) == Range(u, m) + Range(m, h)
    decreases h
  {
    if h == m {
      RangeSelf(h);
    } else {
      if IsAncestor(h, u) {
        AncestorTrans(h, u, m);
        AncestorAntisym(h, m);
      }
      if IsAncestor(h, m) {
        AncestorAntisym(h, m);
      }
      RangeSplit(u, m, h.parent);
    }
  }

  lemma RangeSelf(h: Commit)
    ensures Range(h, h) == []
  {}

  /** Nothing lies above u up to h only when h is u. */
  lemma RangeNothing(u: Commit, h: Commit)
    requires IsAncestor(u, h)
    ensures Range(u, h) == [] <==> h == u
  {
    RangeSelf(u);
    if IsAncestor(h, u) { AncestorAntisym(h, u); }
  }

  /** Moving the excluded side does not change a range when the two sides
      exclude the same commits of head's history. */
  lemma {:induction false} RangeStable(u: Commit, u': Commit, head: Commit)
    requires forall c :: IsAncestor(c, head) ==> (IsAncestor(c, u) <==> IsAncestor(c, u'))
    ensures Range(u, head) == Range(u', head)
    decreases head
  {
    if head.Commit? {
      forall c | IsAncestor(c, head.parent)
        ensures IsAncestor(c, u) <==> IsAncestor(c, u')
      {
        assert IsAncestor(c, head);
      }
      RangeStable(u, u', head.parent);
    }
  }

  /** A new commit on the excluded side changes no range of an older head. */
  lemma RangeAfterPush(u: Commit, u': Commit, head: Commit, bound: nat)
    requires u'.Commit? && u'.parent == u && bound <= u'.id
    requires Below(head, bound)
    ensures Range(u', head) == Range(u, head)
  {
    forall c | IsAncestor(c, head)
      ensures IsAncestor(c, u) <==> IsAncestor(c, u')
    {
      BelowAncestor(c, head, bound);
    }
    RangeStable(u, u', head);
  }

  /** A commit of head's history outside u's is one of the range's patches. */
  lemma {:induction false} RangeHas(u: Commit, head: Commit, c: Commit)
    requires IsAncestor(c, head) && !IsAncestor(c, u)
    ensures c.Commit? && c.patch in Range(u, head)
    decreases head
  {
    RootIsAncestor(u);
    if c == head {
    } else {
      if IsAncestor(head, u) {
        AncestorTrans(c, head, u);
      }
      RangeHas(u, head.parent, c);
    }
  }

  lemma {:induction false} RangeOf(p: int, u: Commit, head: Commit)
    requires IsAncestor(u, head)
    ensures Of(p, head) == Of(p, u) + Filter(p, Range(u, head))
    decreases head
  {
    if head == u {
      RangeSelf(u);
    } else {
      if IsAncestor(head, u) {
        AncestorAntisym(head, u);
      }
      RangeOf(p, u, head.parent);
      FilterAppend(p, Range(u, head.parent), head.patch);
    }
  }

  function Filter(p: int, ps: seq<Patch>): seq<Patch> {
    if ps == [] then []
    else
      var last := |ps| - 1;
      Filter(p, ps[..last]) + (if ps[last].pr == p then [ps[last]] else [])
  }

  lemma FilterAppend(p: int, ps: seq<Patch>, x: Patch)
    ensures Filter(p, ps + [x]) == Filter(p, ps) + (if x.pr == p then [x] else [])
  {
    assert (ps + [x])[..|ps|] == ps;
  }

  lemma {:induction false} FilterConcat(p: int, a: seq<Patch>, b: seq<Patch>)
    ensures Filter(p, a + b) == Filter(p, a) + Filter(p, b)
    decreases |b|
  {
    if b == [] {
      assert a + b == a;
    } else {
      var last := |b| - 1;
      assert a + b == (a + b[..last]) + [b[last]];
      FilterAppend(p, a + b[..last], b[last]);
      FilterConcat(p, a, b[..last]);
    }
  }

  lemma {:induction false} FilterNone(p: int, ps: seq<Patch>)
    requires forall x :: x in ps ==> x.pr != p
    ensures Filter(p, ps) == []
  {
    if ps != [] { FilterNone(p, ps[..|ps| - 1]); }
  }

  lemma {:induction false} FilterAll(p: int, ps: seq<Patch>)
    requires forall x :: x in ps ==> x.pr == p
    ensures Filter(p, ps) == ps
  {
    if ps != [] { FilterAll(p, ps[..|ps| - 1]); }
  }

  /** What a rebase onto a commit older than its new commits produces: the
      copied patches above onto, and nothing else. */
  lemma {:induction false} ReplayFacts(onto: Commit, patches: seq<Patch>, id: nat)
    requires Below(onto, id)
    ensures IsAncestor(onto, Replay(onto, patches, id))
    ensures Below(Replay(onto, patches, id), id + |patches|)
    ensures Range(onto, Replay(onto, patches, id)) == patches
    decreases |patches|
  {
    if patches == [] {
      RangeSelf(onto);
    } else {
      var last := |patches| - 1;
      var before := Replay(onto, patches[..last], id);
      ReplayFacts(onto, patches[..last], id);
      BelowMono(before, id + last, id + |patches|);
      FreshNotAncestor(Replay(onto, patches, id), onto, id);
      assert patches == patches[..last] + [patches[last]];
    }
  }

  lemma {:induction false} ReplayFresh(onto: Commit, patches: seq<Patch>, id: nat, c: Commit)
    requires IsAncestor(c, Replay(onto, patches, id))
    ensures IsAncestor(c, onto) || (c.Commit? && id <= c.id)
    decreases |patches|
  {
    if patches != [] && c != Replay(onto, patches, id) {
      ReplayFresh(onto, patches[..|patches| - 1], id, c);
    }
  }
}
