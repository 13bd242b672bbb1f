/**
 One tick: what it reads from the world, and what each planned action does
 when nobody else writes meanwhile.
 */
module QueueTick {
  import opened Options
  import opened Git
  import opened Queue
  import opened Checks
  import opened QueueWorld
  import P = QueuePlan

  datatype WorkflowRun = WorkflowRun(id: int, onPullRequest: bool, active: bool, completed: bool, rerunnable: bool,
                                     suite: int)

  /** What GitHub reports about commits and pull requests. */
  datatype GitHub = GitHub(runs: Commit -> seq<CheckRun>, workflows: Commit -> seq<WorkflowRun>,
                           files: int -> seq<string>)

  datatype Config = Config(required: seq<RequiredCheck>, timeout: int, batch: nat, glob: (string, string) -> bool)

  // ---- reading ----

  function FilesOf(gh: GitHub, ns: seq<int>): seq<string> {
    if ns == [] then [] else FilesOf(gh, ns[..|ns| - 1]) + gh.files(ns[|ns| - 1])
  }

  function InputsOf(gh: GitHub, cfg: Config, stack: Stack, now: int): Inputs {
    Inputs(FilesOf(gh, stack.Numbers()), now - stack.at, cfg.timeout, if stack.retry > 0 then Some(stack.at) else None,
           cfg.glob)
  }

  function Reruns(runs: seq<WorkflowRun>, suites: seq<int>): seq<int> {
    if runs == [] then []
    else
      var last := runs[|runs| - 1];
      Reruns(runs[..|runs| - 1],
             suites) + if last.completed && last.rerunnable && last.suite in suites then [last.id] else []
  }

  function Batchmates(gh: GitHub, members: seq<Member>): seq<int> {
    if members == [] then []
    else Batchmates(gh, members[..|members| - 1]) + ActiveRuns(gh.workflows(members[|members| - 1].sha))
  }

  function ActiveRuns(runs: seq<WorkflowRun>): seq<int> {
    if runs == [] then []
    else
      var last := runs[|runs| - 1];
      ActiveRuns(runs[..|runs| - 1]) + if last.onPullRequest && last.active then [last.id] else []
  }

  function LoadInFlight(gh: GitHub, cfg: Config, stack: Stack, target: Commit, queued: map<int, P.Queued>,
                        now: int): P.InFlight
    requires stack.members != []
  {
    var top := stack.Top().sha;
    if stack.base != target then P.InFlight(stack, IsAncestor(top, target), Pending, [], [])
    else if P.StaleReason(stack, target, queued) != P.Fits then P.InFlight(stack, false, Pending, [], [])
    else
      var status := StatusOf(cfg.required, gh.runs(top), InputsOf(gh, cfg, stack, now));
      var rerun := if status.state.Failure? && stack.retry == 0 then Reruns(gh.workflows(top), status.suites) else [];
      var batchmates := if status.state.Pending? then Batchmates(gh, stack.members[..|stack.members| - 1]) else [];
      P.InFlight(stack, false, status.state, rerun, batchmates)
  }

  // ---- what a tick reads of a stack, from what GitHub reports ----

  /** The check is always required, or a file that some member changes matches
      one of its paths. */
  ghost predicate Covers(gh: GitHub, cfg: Config, stack: Stack, c: RequiredCheck) {
    || c.paths == []
    || exists k, f, p :: 0 <= k < |stack.members| && f in gh.files(stack.members[k].number) && p in c.paths
         && MatchPath(cfg.glob, p, f)
  }

  /** Once a stack is retried, failures of the first attempt do not count. */
  predicate Outlived(stack: Stack, run: CheckRun) {
    stack.retry > 0 && Bad(run) && run.startedAt < stack.at
  }

  ghost predicate FailedOn(gh: GitHub, stack: Stack, c: RequiredCheck, run: CheckRun)
    requires stack.members != []
  {
    var runs := gh.runs(stack.Top().sha);
    exists i :: NewestAt(runs, c.name, i) && runs[i] == run && Bad(run) && !Outlived(stack, run)
  }

  /** Nothing that counts was reported. */
  ghost predicate SilentOn(gh: GitHub, stack: Stack, c: RequiredCheck)
    requires stack.members != []
  {
    var runs := gh.runs(stack.Top().sha);
    forall i :: NewestAt(runs, c.name, i) ==> Outlived(stack, runs[i])
  }

  ghost predicate BrokenOn(gh: GitHub, cfg: Config, stack: Stack, now: int, c: RequiredCheck)
    requires stack.members != []
  {
    && Covers(gh, cfg, stack, c)
    && ((exists run :: FailedOn(gh, stack, c, run)) || (SilentOn(gh, stack, c) && now - stack.at >= cfg.timeout))
  }

  /** A failed run that GitHub can run again, of a suite that broke a check. */
  ghost predicate RunsAgain(gh: GitHub, cfg: Config, stack: Stack, again: WorkflowRun)
    requires stack.members != []
  {
    && again in gh.workflows(stack.Top().sha) && again.completed && again.rerunnable && again.suite != 0
    && exists c, run :: c in cfg.required && Covers(gh, cfg, stack, c) && FailedOn(gh, stack, c, run)
         && run.suite == again.suite
  }

  /** A run still going on a commit below the top. */
  ghost predicate RunsBelow(gh: GitHub, stack: Stack, other: WorkflowRun) {
    exists k :: 0 <= k < |stack.members| - 1 && other in gh.workflows(stack.members[k].sha) && other.onPullRequest
      && other.active
  }

  ghost predicate ReadAs(gh: GitHub, cfg: Config, stack: Stack, now: int, r: P.InFlight)
    requires stack.members != []
  {
    && r.stack == stack && !r.landed
    && (r.state.Success? <==>
          forall c :: c in cfg.required && Covers(gh, cfg, stack, c) ==> RanGood(c, gh.runs(stack.Top().sha)))
    && (r.state.Failure? <==> exists c :: c in cfg.required && BrokenOn(gh, cfg, stack, now, c))
    && (forall id :: id in r.rerun <==>
                       r.state.Failure? && stack.retry == 0 && exists w :: RunsAgain(gh, cfg, stack, w) && w.id == id)
    && (forall id :: id in r.batchmates <==> r.state.Pending? && exists w :: RunsBelow(gh, stack, w) && w.id == id)
  }

  lemma {:induction false} FilesMean(gh: GitHub, ns: seq<int>, f: string)
    ensures f in FilesOf(gh, ns) <==> exists i :: 0 <= i < |ns| && f in gh.files(ns[i])
  {
    if ns != [] {
      var front := ns[..|ns| - 1];
      FilesMean(gh, front, f);
      assert forall i :: 0 <= i < |front| ==> front[i] == ns[i];
      assert f in gh.files(ns[|ns| - 1]) ==> exists i :: 0 <= i < |ns| && f in gh.files(ns[i]);
    }
  }

  lemma {:induction false} RerunsMean(runs: seq<WorkflowRun>, suites: seq<int>, id: int)
    ensures id in Reruns(runs, suites) <==>
            exists w :: w in runs && w.completed && w.rerunnable && w.suite in suites && w.id == id
  {
    if runs != [] {
      RerunsMean(runs[..|runs| - 1], suites, id);
      assert runs == runs[..|runs| - 1] + [runs[|runs| - 1]];
    }
  }

  lemma {:induction false} ActiveMean(runs: seq<WorkflowRun>, id: int)
    ensures id in ActiveRuns(runs) <==> exists w :: w in runs && w.onPullRequest && w.active && w.id == id
  {
    if runs != [] {
      ActiveMean(runs[..|runs| - 1], id);
      assert runs == runs[..|runs| - 1] + [runs[|runs| - 1]];
    }
  }

  lemma {:induction false} BatchmatesMean(gh: GitHub, members: seq<Member>, id: int)
    ensures id in Batchmates(gh, members) <==>
            exists k, w :: 0 <= k < |members| && w in gh.workflows(members[k].sha) && w.onPullRequest && w.active
              && w.id == id
  {
    if members != [] {
      var front, last := members[..|members| - 1], |members| - 1;
      BatchmatesMean(gh, front, id);
      ActiveMean(gh.workflows(members[last].sha), id);
      assert forall k :: 0 <= k < |front| ==> front[k] == members[k];
    }
  }

  /** Which checks concern a stack, and what their runs come to. */
  lemma CoversMean(gh: GitHub, cfg: Config, stack: Stack, now: int, c: RequiredCheck)
    ensures Concerns(c, InputsOf(gh, cfg, stack, now)) <==> Covers(gh, cfg, stack, c)
  {
    var inputs, ns := InputsOf(gh, cfg, stack, now), stack.Numbers();
    if i, j :| 0 <= i < |inputs.changedFiles| && 0 <= j < |c.paths| && MatchPath(cfg.glob, c.paths[j], inputs.changedFiles[i]) {
      FilesMean(gh, ns, inputs.changedFiles[i]);
      var k :| 0 <= k < |ns| && inputs.changedFiles[i] in gh.files(ns[k]);
      assert ns[k] == stack.members[k].number && c.paths[j] in c.paths;
    }
    if k, f, p :| 0 <= k < |stack.members| && f in gh.files(stack.members[k].number) && p in c.paths && MatchPath(cfg.glob, p, f) {
      assert ns[k] == stack.members[k].number;
      FilesMean(gh, ns, f);
      var i :| 0 <= i < |inputs.changedFiles| && inputs.changedFiles[i] == f;
      var j :| 0 <= j < |c.paths| && c.paths[j] == p;
      assert MatchPath(inputs.glob, c.paths[j], inputs.changedFiles[i]);
    }
  }

  lemma CheckMeans(gh: GitHub, cfg: Config, stack: Stack, now: int, c: RequiredCheck)
    requires stack.members != []
    ensures var runs, inputs := gh.runs(stack.Top().sha), InputsOf(gh, cfg, stack, now);
            && (Satisfied(c, runs, inputs) <==> (Covers(gh, cfg, stack, c) ==> RanGood(c, runs)))
            && (Broken(c, runs, inputs) <==> BrokenOn(gh, cfg, stack, now, c))
            && forall run :: Breaks(c, runs, inputs, run) <==> Covers(gh, cfg, stack, c) && FailedOn(gh, stack, c, run)
  {
    hide FilesOf, Covers, Concerns;
    CoversMean(gh, cfg, stack, now, c);
    var runs, inputs := gh.runs(stack.Top().sha), InputsOf(gh, cfg, stack, now);
    forall run ensures Superseded(run, inputs) <==> Outlived(stack, run) {}
    if RanBad(c, runs, inputs) {
      var i :| NewestAt(runs, c.name, i) && Bad(runs[i]) && !Superseded(runs[i], inputs);
      assert FailedOn(gh, stack, c, runs[i]);
    }
  }

  /** A stack on the target that matches GitHub is read by its checks. */
  lemma ReadMeans(gh: GitHub, cfg: Config, stack: Stack, target: Commit, queued: map<int, P.Queued>, now: int)
    requires stack.members != [] && P.StaleReason(stack, target, queued) == P.Fits
    ensures ReadAs(gh, cfg, stack, now, LoadInFlight(gh, cfg, stack, target, queued, now))
  {
    hide StatusOf, Satisfied, Broken, Breaks, BrokenOn, Covers, FailedOn, InputsOf, Reruns, Batchmates, BrokenNames;
    var r := LoadInFlight(gh, cfg, stack, target, queued, now);
    var runs, inputs := gh.runs(stack.Top().sha), InputsOf(gh, cfg, stack, now);
    var status := StatusOf(cfg.required, runs, inputs);
    StatusMeans(cfg.required, runs, inputs);
    forall c ensures Satisfied(c, runs, inputs) <==> (Covers(gh, cfg, stack, c) ==> RanGood(c, runs))
      ensures Broken(c, runs, inputs) <==> BrokenOn(gh, cfg, stack, now, c)
      ensures forall run :: Breaks(c, runs, inputs, run) <==> Covers(gh, cfg, stack, c) && FailedOn(gh, stack, c, run)
    {
      CheckMeans(gh, cfg, stack, now, c);
    }
    forall id
      ensures id in r.rerun <==>
              r.state.Failure? && stack.retry == 0 && exists w :: RunsAgain(gh, cfg, stack, w) && w.id == id
    {
      RerunsMean(gh.workflows(stack.Top().sha), status.suites, id);
    }
    forall id ensures id in r.batchmates <==> r.state.Pending? && exists w :: RunsBelow(gh, stack, w) && w.id == id {
      BelowMean(gh, stack, id);
    }
  }

  lemma BelowMean(gh: GitHub, stack: Stack, id: int)
    requires stack.members != []
    ensures id in Batchmates(gh, stack.members[..|stack.members| - 1]) <==>
            exists w :: RunsBelow(gh, stack, w) && w.id == id
  {
    var lower := stack.members[..|stack.members| - 1];
    BatchmatesMean(gh, lower, id);
    assert forall k :: 0 <= k < |lower| ==> lower[k] == stack.members[k];
    if k, w :| 0 <= k < |lower| && w in gh.workflows(lower[k].sha) && w.onPullRequest && w.active && w.id == id {
      assert RunsBelow(gh, stack, w);
    }
  }

  function QueuedOf(w: World, p: int): P.Queued
    requires p in w.prs
  {
    P.Queued(p, w.prs[p].head, w.prs[p].entry, w.prs[p].comment.owns, w.prs[p].AlreadyLanded())
  }

  /** order lists the labelled pull requests, each once, first in first out. */
  ghost predicate Listing(w: World, order: seq<int>) {
    && Distinct(order)
    && (forall i :: 0 <= i < |order| ==> order[i] in w.prs && w.prs[order[i]].labelled)
    && forall p :: p in w.prs && w.prs[p].labelled ==> p in order
  }

  function QueuedList(w: World, order: seq<int>): (queued: seq<P.Queued>)
    requires forall i :: 0 <= i < |order| ==> order[i] in w.prs
    ensures |queued| == |order| && forall i :: 0 <= i < |order| ==> queued[i] == QueuedOf(w, order[i])
  {
    seq(|order|, i requires 0 <= i < |order| && order[i] in w.prs => QueuedOf(w, order[i]))
  }

  /** The pull requests of order that carry a stack marker. */
  function Tops(w: World, order: seq<int>): (tops: seq<int>)
    ensures forall i :: 0 <= i < |tops| ==> Marked(w, tops[i]) && tops[i] in order
  {
    if order == [] then []
    else
      var last := order[|order| - 1];
      Tops(w, order[..|order| - 1]) + if Marked(w, last) then [last] else []
  }

  function SnapshotOf(w: World, order: seq<int>, gh: GitHub, cfg: Config, now: int): P.Snapshot
    requires forall i :: 0 <= i < |order| ==> order[i] in w.prs
  {
    var queued := QueuedList(w, order);
    var tops := Tops(w, order);
    P.Snapshot(now, w.target, queued,
               seq(|tops|, i requires 0 <= i < |tops| && Marked(w, tops[i]) =>
                     LoadInFlight(gh, cfg, w.prs[tops[i]].comment.stack.value, w.target, P.ByNumber(queued), now)))
  }

  // ---- acting ----

  function Tell(w: World, n: int): World {
    if n in w.prs then WithComment(w, n, PlainComment(w.prs[n].comment.owns)) else w
  }

  function TellAll(w: World, ns: seq<int>): World {
    if ns == [] then w
    else
      var before := TellAll(w, ns[..|ns| - 1]);
      var n := ns[|ns| - 1];
      if n in before.prs && before.prs[n].labelled then Tell(before, n) else before
  }

  function Unlabel(w: World, n: int): World {
    if n in w.prs then w.(prs := w.prs[n := w.prs[n].(labelled := false)]) else w
  }

  function WriteAll(w: World): World
    decreases if w.job.Some? && w.job.value.commented < |w.job.value.stack.members|
              then |w.job.value.stack.members| - w.job.value.commented else 0
  {
    if Enabled(w, WriteNext) then WriteAll(Next(w, WriteNext)) else w
  }

  /** Forms one stack of ns without a conflict: rebase, comments, push. */
  function FormOnce(w: World, ns: seq<int>, at: int): World {
    if !Enabled(w, Begin(ns, at)) then w
    else
      var ready := WriteAll(Next(w, Begin(ns, at)));
      if Enabled(ready, Step.Push) then Next(ready, Step.Push) else Next(ready, Drop)
  }

  /** Forms ns: a conflict rejects a single pull request and splits a group.
      clean tells which groups rebase without a conflict. */
  function FormGroup(w: World, ns: seq<int>, at: int, clean: seq<int> -> bool): World
    decreases |ns|
  {
    if ns == [] || clean(ns) then FormOnce(w, ns, at)
    else if |ns| == 1 then Tell(Unlabel(w, ns[0]), ns[0])
    else FormGroup(FormGroup(w, P.Halves(ns).0, at, clean), P.Halves(ns).1, at, clean)
  }

  function RetryAll(w: World, stack: Stack, n: nat): World
    requires n <= |stack.members|
  {
    if n == 0 then w
    else
      var before := RetryAll(w, stack, n - 1);
      var p := stack.members[n - 1].number;
      if p in before.prs then
        WithComment(before, p, StackComment(stack, n - 1, KeepOwns(before.prs[p].comment.owns, StackOwn(stack, n - 1))))
      else before
  }

  function FastForward(w: World, stack: Stack): World
    requires stack.members != []
  {
    var top := stack.Top();
    if top.number in w.prs && w.prs[top.number].head == top.sha && IsAncestor(w.target, top.sha) then
      w.(target := top.sha, seen := top.sha, prs := LandedPrs(w.prs, stack))
    else w
  }

  function Act(w: World, action: P.Action, at: int, clean: seq<int> -> bool): World {
    match action
    case Form(prs, base) => if w.target == base then FormGroup(w, prs, at, clean) else w
    case Advance(stack) => if stack.members != [] then FastForward(w, stack) else w
    case Record(stack) => w.(prs := LandedPrs(w.prs, stack))
    case Retry(stack, _) => RetryAll(w, stack, |stack.members|)
    case Reject(n) => Tell(Unlabel(w, n), n)
    case Split(_) => w
    case Abandon(_, _, prs) => TellAll(w, prs)
    case Cancel(_, _) => w
    case Tell(n, _) => Tell(w, n)
  }

  function ActAll(w: World, actions: seq<P.Action>, at: int, clean: seq<int> -> bool): World {
    if actions == [] then w
    else Act(ActAll(w, actions[..|actions| - 1], at, clean), actions[|actions| - 1], at, clean)
  }

  /** A whole tick while nobody else changes branches, target or labels. */
  function QuietTick(w: World, order: seq<int>, gh: GitHub, cfg: Config, now: int, clean: seq<int> -> bool): World
    requires forall i :: 0 <= i < |order| ==> order[i] in w.prs
  {
    var looked := w.(seen := w.target);
    ActAll(looked, P.Plan(SnapshotOf(w, order, gh, cfg, now), cfg.batch), now, clean)
  }

  lemma {:induction false} ActConcat(w: World, a: seq<P.Action>, b: seq<P.Action>, at: int, clean: seq<int> -> bool)
    ensures ActAll(w, a + b, at, clean) == ActAll(ActAll(w, a, at, clean), b, at, clean)
    decreases |b|
  {
    if b == [] {
      assert a + b == a;
    } else {
      var last := |b| - 1;
      assert (a + b)[..|a| + last] == a + b[..last];
      ActConcat(w, a, b[..last], at, clean);
    }
  }
}
