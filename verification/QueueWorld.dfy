/**
 The merge queue as a machine. GitHub and the remote hold the target branch,
 the pull request branches and the status comments; a tick sees the target it
 read at its start and builds at most one stack at a time. Authors, other
 people pushing to the target, and label changes interleave with a tick's
 writes, and a tick may die between any two of them, but for one pair: a landing
 is one step here with the comments that tell its members. QueueRuns takes it
 apart.
 */
module QueueWorld {
  import opened Options
  import opened Git
  import opened Queue

  /** A stack built locally: its status comments are written one by one, then
      every branch is pushed at once, each leased on the head it was read at. */
  datatype Job = Job(stack: Stack, keeps: seq<seq<Own>>, expected: seq<Commit>, commented: nat)

  datatype World = World(target: Commit, seen: Commit, prs: map<int, PullRequest>, nextId: nat, job: Option<Job>)

  datatype Step =
    | Open(p: int, fork: Commit, entry: Entry)  // a pull request with one commit
    | Append(p: int)                            // its author pushes one more
    | PushTarget                                // somebody else moves the target
    | SetLabel(p: int, on: bool)
    | SetEntry(p: int, entry: Entry)
    | Look                                      // a tick starts: it reads the target
    | Begin(ns: seq<int>, at: int)              // rebase ns on top of each other
    | WriteNext                                 // the job's next status comment
    | Push                                      // the atomic push, every lease held
    | Drop                                      // postponed, refused, or the tick died
    | Plain(p: int)                             // a comment that keeps the records
    | Retry(top: int, index: nat, at: int)      // one comment of a retried stack
    | Advance(top: int)                         // fast-forward, then landed comments

  /** Rebases ns in order above tip, numbering new commits from id. */
  function Build(prs: map<int, PullRequest>, ns: seq<int>, base: Commit, tip: Commit, id: nat): (ms: seq<Member>)
    requires forall i :: 0 <= i < |ns| ==> ns[i] in prs
    ensures |ms| == |ns|
    ensures forall i :: 0 <= i < |ms| ==> ms[i].number == ns[i]
  {
    if ns == [] then []
    else
      var pr := prs[ns[0]];
      var own := OwnPatches(pr, base);
      var sha := Replay(tip, own, id);
      [Member(ns[0], sha)] + Build(prs, ns[1..], base, sha, id + |own|)
  }

  /** The commits the queue takes for the pull request's own. */
  function OwnPatches(pr: PullRequest, base: Commit): seq<Patch> {
    Range(Queue.Upstream(pr.comment.owns, pr.head, base), pr.head)
  }

  function Commits(prs: map<int, PullRequest>, ns: seq<int>, base: Commit): nat
    requires forall i :: 0 <= i < |ns| ==> ns[i] in prs
  {
    if ns == [] then 0 else |OwnPatches(prs[ns[0]], base)| + Commits(prs, ns[1..], base)
  }

  function NewJob(w: World, ns: seq<int>, at: int): Job
    requires forall i :: 0 <= i < |ns| ==> ns[i] in w.prs
  {
    Job(Stack(w.target, Build(w.prs, ns, w.target, w.target, w.nextId), 0, at),
        seq(|ns|, i requires 0 <= i < |ns| => Used(w.prs[ns[i]].comment.owns, w.prs[ns[i]].head)),
        seq(|ns|, i requires 0 <= i < |ns| => w.prs[ns[i]].head),
        0)
  }

  /** A stack marker is trusted only on its own top pull request. */
  predicate Marked(w: World, p: int) {
    && p in w.prs && w.prs[p].comment.stack.Some?
    && var stack := w.prs[p].comment.stack.value;
    stack.members != [] && stack.Top().number == p
  }

  predicate Enabled(w: World, step: Step) {
    match step
    case Open(p, fork, _) => p > 0 && p !in w.prs && IsAncestor(fork, w.target)
    case Append(p) => p in w.prs
    case PushTarget => true
    case SetLabel(p, _) => p in w.prs
    case SetEntry(p, _) => p in w.prs
    case Look => w.job.None?
    case Begin(ns, _) =>
      && w.job.None? && w.target == w.seen && ns != [] && Distinct(ns)
      && forall i :: 0 <= i < |ns| ==> ns[i] in w.prs && !w.prs[ns[i]].AlreadyLanded()
    case WriteNext => w.job.Some? && w.job.value.commented < |w.job.value.stack.members|
    case Push =>
      && w.job.Some? && w.job.value.commented == |w.job.value.stack.members|
      && |w.job.value.expected| == |w.job.value.stack.members|
      && forall i :: 0 <= i < |w.job.value.stack.members| ==>
           var m := w.job.value.stack.members[i];
           m.number in w.prs && w.prs[m.number].head == w.job.value.expected[i]
    case Drop => true
    case Plain(p) => w.job.None? && p in w.prs && !w.prs[p].AlreadyLanded()
    case Retry(top, index, _) =>
      && w.job.None? && Marked(w, top)
      && var stack := w.prs[top].comment.stack.value;
      && stack.base == w.seen && index < |stack.members|
      && stack.members[index].number in w.prs
      && IsAncestor(stack.members[index].sha, w.prs[stack.members[index].number].head)
    case Advance(top) =>
      && w.job.None? && Marked(w, top)
      && var stack := w.prs[top].comment.stack.value;
      && stack.base == w.seen
      && (forall i :: 0 <= i < |stack.members| ==>
            var m := stack.members[i];
            m.number in w.prs && IsAncestor(m.sha, w.prs[m.number].head))
      && IsAncestor(w.target, stack.Top().sha)
  }

  function WithComment(w: World, p: int, comment: Comment): World
    requires p in w.prs
  {
    w.(prs := w.prs[p := w.prs[p].(comment := comment)])
  }

  function PushedPrs(prs: map<int, PullRequest>, stack: Stack): map<int, PullRequest> {
    map q | q in prs ::
      var i := IndexOf(stack.members, q);
      prs[q].(head := if i >= 0 then stack.members[i].sha else prs[q].head)
  }

  function LandedPrs(prs: map<int, PullRequest>, stack: Stack): map<int, PullRequest> {
    map q | q in prs ::
      var i := IndexOf(stack.members, q);
      prs[q].(comment := if i >= 0 then LandedComment(stack, i) else prs[q].comment)
  }

  function Next(w: World, step: Step): World
    requires Enabled(w, step)
  {
    match step
    case Open(p, fork, entry) =>
      w.(prs := w.prs[p := PullRequest(Commit(fork, w.nextId, Patch(p, 0)), 1, false, entry, Comment([], None, None))],
         nextId := w.nextId + 1)
    case Append(p) =>
      var pr := w.prs[p];
      w.(prs := w.prs[p := pr.(head := Commit(pr.head, w.nextId, Patch(p, pr.written)), written := pr.written + 1)],
         nextId := w.nextId + 1)
    case PushTarget =>
      w.(target := Commit(w.target, w.nextId, Patch(0, w.nextId)), nextId := w.nextId + 1)
    case SetLabel(p, on) => w.(prs := w.prs[p := w.prs[p].(labelled := on)])
    case SetEntry(p, entry) => w.(prs := w.prs[p := w.prs[p].(entry := entry)])
    case Look => w.(seen := w.target)
    case Begin(ns, at) =>
      w.(job := Some(NewJob(w, ns, at)), nextId := w.nextId + Commits(w.prs, ns, w.target))
    case WriteNext =>
      var job := w.job.value;
      var m := job.stack.members[job.commented];
      var keep := if job.commented < |job.keeps| then job.keeps[job.commented] else [];
      var written := w.(job := Some(job.(commented := job.commented + 1)));
      if m.number in w.prs then WithComment(written, m.number, StackComment(job.stack, job.commented, keep))
      else written
    case Push => w.(prs := PushedPrs(w.prs, w.job.value.stack), job := None)
    case Drop => w.(job := None)
    case Plain(p) => WithComment(w, p, PlainComment(w.prs[p].comment.owns))
    case Retry(top, index, at) =>
      var stack := w.prs[top].comment.stack.value.(retry := 1, at := at);
      var n := stack.members[index].number;
      WithComment(w, n, StackComment(stack, index, KeepOwns(w.prs[n].comment.owns, StackOwn(stack, index))))
    case Advance(top) =>
      var stack := w.prs[top].comment.stack.value;
      w.(target := stack.Top().sha, seen := stack.Top().sha, prs := LandedPrs(w.prs, stack))
  }

  // ---- what every step keeps ----

  function Written(w: World, p: int): nat {
    if p in w.prs then w.prs[p].written else 0
  }

  /** The stack's own patches of each member, in order, and nothing else, lie
      above its base: the patches not landed when it was built. */
  ghost predicate Exact(stack: Stack) {
    && stack.members != [] && Distinct(stack.Numbers())
    && forall i :: 0 <= i < |stack.members| ==> ExactMember(stack, i)
  }

  ghost predicate ExactMember(stack: Stack, i: nat)
    requires i < |stack.members|
  {
    var m := stack.members[i];
    var from := Git.Landed(m.number, stack.base);
    var own := Range(stack.Under(i), m.sha);
    && m.number > 0
    && IsAncestor(stack.Under(i), m.sha)
    && own != [] && own == Seg(m.number, from, from + |own|)
  }

  /** Each member's commit stands on the one below it. */
  ghost predicate Linked(stack: Stack) {
    && stack.members != []
    && forall i {:trigger stack.Under(i)} :: 0 <= i < |stack.members| ==>
         IsAncestor(stack.Under(i), stack.members[i].sha)
  }

  /** And the members are pull requests of w, each once. */
  ghost predicate Chain(w: World, stack: Stack) {
    && Linked(stack) && Distinct(stack.Numbers()) && Git.Below(stack.Top().sha, w.nextId)
    && forall i :: 0 <= i < |stack.members| ==> stack.members[i].number in w.prs
  }

  /** Two histories meet only inside base's. */
  ghost predicate Meet(a: Commit, b: Commit, base: Commit) {
    forall c :: IsAncestor(c, a) && IsAncestor(c, b) ==> IsAncestor(c, base)
  }

  /** While a member's branch holds the commit the stack gave it, the commits
      above the member below are its patches not landed at the stack's base. */
  ghost predicate Carries(w: World, stack: Stack) {
    forall i :: 0 <= i < |stack.members| ==>
      var m := stack.members[i];
      var from := Git.Landed(m.number, stack.base);
      && m.number in w.prs && from <= w.prs[m.number].written
      && (IsAncestor(m.sha, w.prs[m.number].head) ==>
            Range(stack.Under(i), w.prs[m.number].head) == Seg(m.number, from, w.prs[m.number].written))
  }

  /** What the machine knows of every stack it built and did not land. */
  ghost predicate StackKept(w: World, stack: Stack) {
    && Exact(stack) && Carries(w, stack)
    && Git.Below(stack.base, w.nextId) && Git.Below(stack.Top().sha, w.nextId)
    && IsAncestor(stack.base, w.target)
    && Meet(stack.Top().sha, w.target, stack.base)
  }

  ghost predicate Bounded(w: World) {
    && Git.Below(w.target, w.nextId)
    && forall p :: p in w.prs ==>
         && p > 0
         && Git.Below(w.prs[p].head, w.nextId)
         && (w.prs[p].comment.landed.Some? ==> Git.Below(w.prs[p].comment.landed.value, w.nextId))
         && |w.prs[p].comment.owns| <= MAX_OWNS
         && forall own :: own in w.prs[p].comment.owns ==> Git.Below(own.head, w.nextId)
  }

  /** Every patch on the target is there once and in its author's order. */
  ghost predicate TargetExact(w: World) {
    forall p :: p > 0 ==>
      var landed := Git.Landed(p, w.target);
      landed <= Written(w, p) && Of(p, w.target) == Seg(p, 0, landed)
  }

  /** The commits the queue takes for a pull request's own are its patches
      that are not on the target: all of them, once, in order. */
  ghost predicate Described(w: World, p: int)
    requires p in w.prs
  {
    var landed := Git.Landed(p, w.target);
    && landed <= w.prs[p].written
    && OwnPatches(w.prs[p], w.target) == Seg(p, landed, w.prs[p].written)
    && (landed < w.prs[p].written <==> !w.prs[p].AlreadyLanded())
  }

  /** The target moved only by pushes of others since the tick read it. */
  ghost predicate SeenKept(w: World) {
    IsAncestor(w.seen, w.target) && forall p :: p > 0 ==> Git.Landed(p, w.seen) == Git.Landed(p, w.target)
  }

  ghost predicate JobKept(w: World, job: Job) {
    var stack := job.stack;
    && StackKept(w, stack) && stack.base == w.seen
    && |job.keeps| == |stack.members| && |job.expected| == |stack.members|
    && job.commented <= |stack.members|
    && (forall i :: 0 <= i < |stack.members| ==> JobMemberKept(w, job, i))
    && (forall p :: Marked(w, p) ==>
          || (p == stack.Top().number && w.prs[p].comment.stack.value == stack)
          || Apart(stack, w.prs[p].comment.stack.value))
  }

  ghost predicate JobMemberKept(w: World, job: Job, i: nat)
    requires i < |job.stack.members| == |job.keeps| == |job.expected|
  {
    var stack := job.stack;
    var m := stack.members[i];
    var from := Git.Landed(m.number, stack.base);
    && m.number in w.prs
    && var pr := w.prs[m.number];
    && from < pr.written
    && (forall q :: q in w.prs ==> !IsAncestor(m.sha, w.prs[q].head))
    && (pr.head == job.expected[i] ==> Range(stack.Under(i), m.sha) == Seg(m.number, from, pr.written))
    && (if i < job.commented then pr.comment == StackComment(stack, i, job.keeps[i])
        else job.keeps[i] == Used(pr.comment.owns, pr.head))
    && Git.Below(job.expected[i], w.nextId)
    && |job.keeps[i]| <= 1
    && (forall own :: own in job.keeps[i] ==> Git.Below(own.head, w.nextId))
  }

  /** Two stacks share no commit above their bases. */
  ghost predicate Apart(a: Stack, b: Stack)
    requires a.members != [] && b.members != []
  {
    Meet(a.Top().sha, b.Top().sha, a.base) && Meet(a.Top().sha, b.Top().sha, b.base)
  }

  ghost predicate MarkersKept(w: World) {
    && (forall p :: Marked(w, p) ==> StackKept(w, w.prs[p].comment.stack.value))
    && (forall p, q :: Marked(w, p) && Marked(w, q) && p != q ==>
          Apart(w.prs[p].comment.stack.value, w.prs[q].comment.stack.value))
    && (forall p :: p in w.prs && w.prs[p].comment.stack.Some? ==> Marked(w, p))
  }

  ghost predicate Inv(w: World) {
    && Bounded(w) && TargetExact(w) && SeenKept(w) && MarkersKept(w)
    && (forall p :: p in w.prs ==> Described(w, p))
    && (w.job.Some? ==> JobKept(w, w.job.value))
  }
}
