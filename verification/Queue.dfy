/**
 The merge queue's data: pull requests, stacks, own-commit records and the
 markers a status comment carries from one tick to the next.
 */
module Queue {
  import opened Options
  import opened Git

  /** One pull request of a stack, with the commit the queue built for it. */
  datatype Member = Member(number: int, sha: Commit)

  /** Pull requests rebased on top of each other above base. */
  datatype Stack = Stack(base: Commit, members: seq<Member>, retry: nat, at: int) {
    function Top(): Member
      requires members != []
    {
      members[|members| - 1]
    }

    function Numbers(): (ns: seq<int>)
      ensures |ns| == |members|
      ensures forall i :: 0 <= i < |ns| ==> ns[i] == members[i].number
    {
      seq(|members|, i requires 0 <= i < |members| => members[i].number)
    }

    /** The commit below the member at index. */
    function Under(index: nat): Commit
      requires index < |members|
    {
      if index == 0 then base else members[index - 1].sha
    }
  }

  /** The commits upstream..head of a branch are the pull request's own. */
  datatype Own = Own(head: Commit, upstream: Commit)

  /** What a tick reads back from a status comment. */
  datatype Comment = Comment(owns: seq<Own>, stack: Option<Stack>, landed: Option<Commit>)

  const MAX_OWNS: nat := 2

  /** Whether a pull request may enter a new stack, as four facts about it. */
  datatype Entry = Entry(sameRepo: bool, draft: bool, targetsQueue: bool, labelerCanWrite: bool) {
    predicate Eligible() {
      sameRepo && !draft && targetsQueue && labelerCanWrite
    }
  }

  /** A pull request: its branch, how many patches its author wrote, its
      label, and the queue's status comment. */
  datatype PullRequest = PullRequest(head: Commit, written: nat, labelled: bool, entry: Entry, comment: Comment) {
    predicate AlreadyLanded() {
      comment.landed == Some(head)
    }
  }

  function StackOwn(stack: Stack, index: nat): Own
    requires index < |stack.members|
  {
    Own(stack.members[index].sha, stack.Under(index))
  }

  function OwnMarkers(owns: seq<Own>): seq<Own> {
    if |owns| <= MAX_OWNS then owns else owns[..MAX_OWNS]
  }

  function StackComment(stack: Stack, index: nat, keep: seq<Own>): Comment
    requires index < |stack.members|
  {
    Comment(OwnMarkers([StackOwn(stack, index)] + keep),
            if index == |stack.members| - 1 then Some(stack) else None, None)
  }

  function LandedComment(stack: Stack, index: nat): Comment
    requires index < |stack.members|
  {
    Comment([], None, Some(stack.members[index].sha))
  }

  /** The comments that only say where a pull request stands: waiting, not
      eligible, rejected, back in the queue. */
  function PlainComment(owns: seq<Own>): Comment {
    Comment(OwnMarkers(owns), None, None)
  }

  /** A record still describes a branch at head. */
  predicate Usable(own: Own, head: Commit) {
    IsAncestor(own.head, head) && IsAncestor(own.upstream, own.head)
  }

  /** The newest record that describes the branch. */
  function Chosen(owns: seq<Own>, head: Commit): Option<Own> {
    if owns == [] then None
    else if Usable(owns[0], head) then Some(owns[0])
    else Chosen(owns[1..], head)
  }

  function Upstream(owns: seq<Own>, head: Commit, base: Commit): Commit {
    match Chosen(owns, head)
    case Some(own) => own.upstream
    case None => base
  }

  /** The record kept beside a new one. */
  function Used(owns: seq<Own>, head: Commit): seq<Own> {
    match Chosen(owns, head)
    case Some(own) => [own]
    case None => []
  }

  function KeepOwns(owns: seq<Own>, current: Own): seq<Own> {
    if owns == [] then []
    else if owns[0] != current then [owns[0]]
    else KeepOwns(owns[1..], current)
  }

  predicate Distinct(ns: seq<int>) {
    forall i, j :: 0 <= i < j < |ns| ==> ns[i] != ns[j]
  }

  /** The position of pull request p in a stack, or -1. */
  function IndexOf(members: seq<Member>, p: int): (i: int)
    ensures -1 <= i < |members|
    ensures i >= 0 ==> members[i].number == p
    ensures i < 0 ==> forall j :: 0 <= j < |members| ==> members[j].number != p
  {
    if members == [] then -1
    else
      var last := |members| - 1;
      if members[last].number == p then last else IndexOf(members[..last], p)
  }

  // ---- how records survive what happens to a branch ----

  /** No record written before a push names the pushed commit, so an author's
      push leaves the choice of record unchanged. */
  lemma {:induction false} ChosenAfterPush(owns: seq<Own>, head: Commit, head': Commit, bound: nat)
    requires head'.Commit? && head'.parent == head && bound <= head'.id
    requires forall own :: own in owns ==> Below(own.head, bound)
    ensures Chosen(owns, head') == Chosen(owns, head)
  {
    if owns != [] {
      assert owns[0] in owns;
      ChosenAfterPush(owns[1..], head, head', bound);
    }
  }

  /** A record of a branch that was never pushed is skipped. */
  lemma ChosenSkips(own: Own, keep: seq<Own>, head: Commit)
    requires !IsAncestor(own.head, head)
    ensures Chosen([own] + keep, head) == Chosen(keep, head)
  {
    assert ([own] + keep)[1..] == keep;
  }

  lemma {:induction false} ChosenUsable(owns: seq<Own>, head: Commit)
    requires Chosen(owns, head).Some?
    ensures Chosen(owns, head).value in owns && Usable(Chosen(owns, head).value, head)
  {
    if !Usable(owns[0], head) { ChosenUsable(owns[1..], head); }
  }

  /** Keeping only the chosen record keeps the choice. */
  lemma ChosenOfUsed(owns: seq<Own>, head: Commit)
    ensures Chosen(Used(owns, head), head) == Chosen(owns, head)
  {
    if Chosen(owns, head).Some? { ChosenUsable(owns, head); }
  }

  /** The first record that is not the current one is kept, if there is one. */
  lemma {:induction false} KeepOwnsIn(owns: seq<Own>, current: Own)
    ensures |KeepOwns(owns, current)| <= 1
    ensures forall own :: own in KeepOwns(owns, current) ==> own in owns
    ensures if KeepOwns(owns, current) == [] then forall i :: 0 <= i < |owns| ==> owns[i] == current
            else exists i ::
              && 0 <= i < |owns| && KeepOwns(owns, current) == [owns[i]] && owns[i] != current
              && forall k :: 0 <= k < i ==> owns[k] == current
  {
    if owns != [] && owns[0] == current {
      KeepOwnsIn(owns[1..], current);
      if KeepOwns(owns, current) != [] {
        var i :| && 0 <= i < |owns[1..]| && KeepOwns(owns, current) == [owns[1..][i]] && owns[1..][i] != current
                 && forall k :: 0 <= k < i ==> owns[1..][k] == current;
        forall k | 0 <= k < i + 1 ensures owns[k] == current { if k > 0 { assert owns[k] == owns[1..][k - 1]; } }
        assert owns[1..][i] == owns[i + 1];
      } else {
        forall i | 0 <= i < |owns| ensures owns[i] == current { if i > 0 { assert owns[i] == owns[1..][i - 1]; } }
      }
    }
  }

  /** The newest record that describes the branch is the one chosen. */
  lemma {:induction false} ChosenIsNewest(owns: seq<Own>, head: Commit)
    ensures match Chosen(owns, head)
            case None => forall i :: 0 <= i < |owns| ==> !Usable(owns[i], head)
            case Some(own) =>
              exists i ::
                && 0 <= i < |owns| && owns[i] == own && Usable(own, head)
                && forall k :: 0 <= k < i ==> !Usable(owns[k], head)
  {
    hide Usable;
    if owns != [] && !Usable(owns[0], head) {
      ChosenIsNewest(owns[1..], head);
      match Chosen(owns, head) {
        case None =>
          forall i | 0 <= i < |owns| ensures !Usable(owns[i], head) { if i > 0 { assert owns[i] == owns[1..][i - 1]; } }
        case Some(own) =>
          var i :| && 0 <= i < |owns[1..]| && owns[1..][i] == own && Usable(own, head)
                   && forall k :: 0 <= k < i ==> !Usable(owns[1..][k], head);
          forall k | 0 <= k < i + 1 ensures !Usable(owns[k], head) { if k > 0 { assert owns[k] == owns[1..][k - 1]; } }
          assert owns[1..][i] == owns[i + 1];
      }
    }
  }

  /** A comment carries its newest records, as many as fit. */
  lemma OwnMarkersMean(owns: seq<Own>)
    ensures OwnMarkers(owns) <= owns && |OwnMarkers(owns)| <= MAX_OWNS
    ensures |OwnMarkers(owns)| < MAX_OWNS ==> OwnMarkers(owns) == owns
  {
  }
}
