/**
 The verdict on a stack's required checks, from the check runs reported on its
 top commit.
 */
module Checks {
  import opened Options

  datatype CheckRun = CheckRun(id: int, name: string, completed: bool, conclusion: string, url: string, suite: int,
                               startedAt: int)

  /** A required check, limited to changed files matching paths unless empty. */
  datatype RequiredCheck = RequiredCheck(name: string, paths: seq<string>)

  datatype State = Pending | Success | Failure

  datatype Status = Status(state: State, failing: seq<string>, urls: seq<string>, suites: seq<int>)

  /** What is asked of the evaluation besides the runs; glob stands for Go's
      filepath.Match, and retriedAt is set once failed jobs were re-run. */
  datatype Inputs = Inputs(changedFiles: seq<string>, age: int, timeout: int, retriedAt: Option<int>,
                           glob: (string, string) -> bool)

  const PASSED: set<string> := {"success", "neutral", "skipped"}

  predicate HasPrefix(s: string, prefix: string) {
    |prefix| <= |s| && s[..|prefix|] == prefix
  }

  predicate MatchPath(glob: (string, string) -> bool, pattern: string, file: string) {
    var cut := |pattern| - 3;
    if cut >= 0 && pattern[cut..] == "/**" then
      file == pattern[..cut] || HasPrefix(file, pattern[..cut] + "/")
    else
      glob(pattern, file)
  }

  predicate Applicable(check: RequiredCheck, inputs: Inputs) {
    |check.paths| == 0 ||
    exists f, p :: f in inputs.changedFiles && p in check.paths && MatchPath(inputs.glob, p, f)
  }

  datatype Verdict = Passes | Waits | Fails

  /** The newest run of a name: the greatest ID, the first reported on a tie. */
  function Newest(runs: seq<CheckRun>, name: string): Option<CheckRun> {
    if runs == [] then None
    else
      var last := runs[|runs| - 1];
      var earlier := Newest(runs[..|runs| - 1], name);
      if last.name == name && (earlier.None? || last.id > earlier.value.id) then Some(last) else earlier
  }

  predicate Failed(run: CheckRun) {
    run.completed && run.conclusion !in PASSED
  }

  /** A failure of the attempt being re-run does not count as a report. */
  predicate Reported(run: Option<CheckRun>, inputs: Inputs) {
    run.Some? && !(Failed(run.value) && inputs.retriedAt.Some? && run.value.startedAt < inputs.retriedAt.value)
  }

  /** An applicable check that ran and failed in the attempt that counts. */
  predicate Rerunnable(check: RequiredCheck, runs: seq<CheckRun>, inputs: Inputs) {
    var run := Newest(runs, check.name);
    Applicable(check, inputs) && Reported(run, inputs) && Failed(run.value)
  }

  function VerdictOf(check: RequiredCheck, runs: seq<CheckRun>, inputs: Inputs): Verdict {
    var run := Newest(runs, check.name);
    if !Applicable(check, inputs) then Passes
    else if !Reported(run, inputs) then if inputs.age >= inputs.timeout then Fails else Waits
    else if !run.value.completed then Waits
    else if run.value.conclusion !in PASSED then Fails
    else Passes
  }

  /** What one check adds to the status so far. */
  function Count(sofar: Status, check: RequiredCheck, runs: seq<CheckRun>, inputs: Inputs): Status {
    match VerdictOf(check, runs, inputs)
    case Passes => sofar
    case Waits => sofar.(state := if sofar.state.Failure? then Failure else Pending)
    case Fails =>
      var failed := sofar.(state := Failure, failing := sofar.failing + [check.name]);
      if !Rerunnable(check, runs, inputs) then failed
      else
        var run := Newest(runs, check.name).value;
        failed.(urls := failed.urls + (if run.url != "" then [run.url] else []),
                suites := failed.suites + (if run.suite != 0 then [run.suite] else []))
  }

  function StatusOf(required: seq<RequiredCheck>, runs: seq<CheckRun>, inputs: Inputs): Status {
    if required == [] then Status(Success, [], [], [])
    else Count(StatusOf(required[..|required| - 1], runs, inputs), required[|required| - 1], runs, inputs)
  }

  /** The newest run of every name that reported. */
  method NewestRuns(runs: seq<CheckRun>) returns (newest: map<string, CheckRun>)
    ensures forall n :: n in newest <==> Newest(runs, n).Some?
    ensures forall n :: n in newest ==> newest[n] == Newest(runs, n).value
  {
    newest := map[];
    for i := 0 to |runs|
      invariant forall n :: n in newest <==> Newest(runs[..i], n).Some?
      invariant forall n :: n in newest ==> newest[n] == Newest(runs[..i], n).value
    {
      assert runs[..i + 1][..i] == runs[..i];
      if runs[i].name !in newest || runs[i].id > newest[runs[i].name].id {
        newest := newest[runs[i].name := runs[i]];
      }
    }
    assert runs[..|runs|] == runs;
  }

  method Evaluate(required: seq<RequiredCheck>, runs: seq<CheckRun>, inputs: Inputs) returns (status: Status)
    ensures status == StatusOf(required, runs, inputs) && Judges(status, required, runs, inputs)
  {
    hide Judges;
    StatusMeans(required, runs, inputs);
    var newest := NewestRuns(runs);
    var pending := false;
    var failing, urls, suites := [], [], [];
    for i := 0 to |required|
      invariant StatusOf(required[..i], runs, inputs) ==
                Status(if failing != [] then Failure else if pending then Pending else Success, failing, urls, suites)
    {
      var check := required[i];
      assert required[..i + 1][..i] == required[..i];
      if Applicable(check, inputs) {
        var reported := check.name in newest;
        if reported && Failed(newest[check.name]) && inputs.retriedAt.Some?
           && newest[check.name].startedAt < inputs.retriedAt.value
        {
          reported := false;
        }
        if !reported {
          if inputs.age >= inputs.timeout {
            failing := failing + [check.name];
          } else {
            pending := true;
          }
        } else if !newest[check.name].completed {
          pending := true;
        } else if newest[check.name].conclusion !in PASSED {
          failing := failing + [check.name];
          urls := urls + if newest[check.name].url != "" then [newest[check.name].url] else [];
          suites := suites + if newest[check.name].suite != 0 then [newest[check.name].suite] else [];
        }
      }
    }
    assert required[..|required|] == required;
    status := Status(if failing != [] then Failure else if pending then Pending else Success, failing, urls, suites);
  }

  // ---- what the verdict means, from the runs alone ----

  /** The i-th run is the newest of the name: none has a greater ID, and of
      equal ones it came first. */
  predicate NewestAt(runs: seq<CheckRun>, name: string, i: int) {
    && 0 <= i < |runs| && runs[i].name == name
    && forall j :: 0 <= j < |runs| && runs[j].name == name ==>
         runs[j].id < runs[i].id || (runs[j].id == runs[i].id && i <= j)
  }

  predicate Good(run: CheckRun) {
    run.completed && (run.conclusion == "success" || run.conclusion == "neutral" || run.conclusion == "skipped")
  }

  predicate Bad(run: CheckRun) {
    run.completed && !Good(run)
  }

  /** The run failed in the attempt that is being re-run. */
  predicate Superseded(run: CheckRun, inputs: Inputs) {
    Bad(run) && inputs.retriedAt.Some? && run.startedAt < inputs.retriedAt.value
  }

  /** No path is asked for, or a changed file matches one. */
  predicate Concerns(check: RequiredCheck, inputs: Inputs) {
    || check.paths == []
    || exists i, j :: 0 <= i < |inputs.changedFiles| && 0 <= j < |check.paths|
         && MatchPath(inputs.glob, check.paths[j], inputs.changedFiles[i])
  }

  ghost predicate RanGood(check: RequiredCheck, runs: seq<CheckRun>) {
    exists i :: NewestAt(runs, check.name, i) && Good(runs[i])
  }

  /** It failed in the attempt that counts. */
  ghost predicate RanBad(check: RequiredCheck, runs: seq<CheckRun>, inputs: Inputs) {
    exists i :: NewestAt(runs, check.name, i) && Bad(runs[i]) && !Superseded(runs[i], inputs)
  }

  /** It never ran, or only in the attempt being re-run. */
  ghost predicate Unreported(check: RequiredCheck, runs: seq<CheckRun>, inputs: Inputs) {
    forall i :: NewestAt(runs, check.name, i) ==> Superseded(runs[i], inputs)
  }

  ghost predicate Satisfied(check: RequiredCheck, runs: seq<CheckRun>, inputs: Inputs) {
    Concerns(check, inputs) ==> RanGood(check, runs)
  }

  ghost predicate Broken(check: RequiredCheck, runs: seq<CheckRun>, inputs: Inputs) {
    && Concerns(check, inputs)
    && (RanBad(check, runs, inputs) || (Unreported(check, runs, inputs) && inputs.age >= inputs.timeout))
  }

  /** Under a directory, or the directory itself, or as the glob library says. */
  lemma MatchPathMeans(glob: (string, string) -> bool, dir: string, pattern: string, file: string)
    ensures MatchPath(glob, dir + "/**", file) <==> file == dir || exists rest :: file == dir + "/" + rest
    ensures (forall d: string :: pattern != d + "/**") ==> (MatchPath(glob, pattern, file) <==> glob(pattern, file))
  {
    var deep := dir + "/**";
    assert deep[|deep| - 3..] == "/**" && deep[..|deep| - 3] == dir;
    if HasPrefix(file, dir + "/") { assert file == dir + "/" + file[|dir| + 1..]; }
    if |pattern| >= 3 && pattern[|pattern| - 3..] == "/**" { assert pattern == pattern[..|pattern| - 3] + "/**"; }
  }

  /** The greatest ID of a name, the first of equal ones, is what Newest finds. */
  lemma {:induction false} NewestIsNewest(runs: seq<CheckRun>, name: string)
    ensures match Newest(runs, name)
            case None => forall i :: 0 <= i < |runs| ==> runs[i].name != name
            case Some(run) => exists i :: NewestAt(runs, name, i) && runs[i] == run
  {
    if runs != [] {
      var front, last := runs[..|runs| - 1], |runs| - 1;
      NewestIsNewest(front, name);
      match Newest(front, name) {
        case None => if runs[last].name == name { FirstOfName(front, runs, name); }
        case Some(run) =>
          var i :| NewestAt(front, name, i) && front[i] == run;
          NewestOneMore(runs, name, i);
      }
    }
  }

  lemma FirstOfName(front: seq<CheckRun>, runs: seq<CheckRun>, name: string)
    requires runs != [] && front == runs[..|runs| - 1] && runs[|runs| - 1].name == name
    requires forall i :: 0 <= i < |front| ==> front[i].name != name
    ensures NewestAt(runs, name, |runs| - 1)
  {
    forall i | 0 <= i < |front| ensures runs[i].name != name { assert front[i].name != name; }
  }

  lemma NewestOneMore(runs: seq<CheckRun>, name: string, i: int)
    requires runs != [] && NewestAt(runs[..|runs| - 1], name, i)
    ensures var last := |runs| - 1;
            && 0 <= i < last && runs[..last][i] == runs[i]
            && NewestAt(runs, name, if runs[last].name == name && runs[last].id > runs[i].id then last else i)
  {
    var front := runs[..|runs| - 1];
    forall j | 0 <= j < |runs| - 1 && runs[j].name == name
      ensures runs[j].id < runs[i].id || (runs[j].id == runs[i].id && i <= j)
    {
      assert front[j].name == name;
    }
  }

  lemma OneNewest(runs: seq<CheckRun>, name: string, i: int, j: int)
    requires NewestAt(runs, name, i) && NewestAt(runs, name, j)
    ensures i == j
  {
  }

  /** A check passes exactly when it does not concern the changed files or its
      newest run passed; it fails exactly when it concerns them and either
      failed in the attempt that counts or did not report in time; and it waits
      exactly when it does neither. */
  lemma VerdictMeans(check: RequiredCheck, runs: seq<CheckRun>, inputs: Inputs)
    ensures VerdictOf(check, runs, inputs).Passes? <==> Satisfied(check, runs, inputs)
    ensures VerdictOf(check, runs, inputs).Fails? <==> Broken(check, runs, inputs)
    ensures VerdictOf(check, runs, inputs).Waits? <==>
            !Satisfied(check, runs, inputs) && !Broken(check, runs, inputs)
    ensures Rerunnable(check, runs, inputs) <==> Concerns(check, inputs) && RanBad(check, runs, inputs)
  {
    ConcernsMeans(check, inputs);
    NewestIsNewest(runs, check.name);
    if Newest(runs, check.name).Some? {
      var i :| NewestAt(runs, check.name, i) && runs[i] == Newest(runs, check.name).value;
      forall j | NewestAt(runs, check.name, j) ensures j == i { OneNewest(runs, check.name, i, j); }
    }
  }

  lemma ConcernsMeans(check: RequiredCheck, inputs: Inputs)
    ensures Applicable(check, inputs) <==> Concerns(check, inputs)
  {
    if |check.paths| > 0 && Applicable(check, inputs) {
      var f, p :| f in inputs.changedFiles && p in check.paths && MatchPath(inputs.glob, p, f);
      var i :| 0 <= i < |inputs.changedFiles| && inputs.changedFiles[i] == f;
      var j :| 0 <= j < |check.paths| && check.paths[j] == p;
      assert MatchPath(inputs.glob, check.paths[j], inputs.changedFiles[i]);
    }
  }

  /** The names of the broken checks, in the order they are required. */
  ghost function BrokenNames(required: seq<RequiredCheck>, runs: seq<CheckRun>, inputs: Inputs): seq<string> {
    if required == [] then []
    else
      var last := required[|required| - 1];
      BrokenNames(required[..|required| - 1], runs, inputs) + if Broken(last, runs, inputs) then [last.name] else []
  }

  /** The run is one that broke the check. */
  ghost predicate Breaks(check: RequiredCheck, runs: seq<CheckRun>, inputs: Inputs, run: CheckRun) {
    && Concerns(check, inputs)
    && exists i :: NewestAt(runs, check.name, i) && Bad(runs[i]) && !Superseded(runs[i], inputs) && runs[i] == run
  }

  /** A broken check breaks the stack, which passes only when every required
      check is satisfied; exactly the broken ones are named, in order, and
      exactly the suites and pages of the runs that broke them are listed. */
  ghost predicate Judges(status: Status, required: seq<RequiredCheck>, runs: seq<CheckRun>, inputs: Inputs) {
    && (status.state.Success? <==> forall c :: c in required ==> Satisfied(c, runs, inputs))
    && (status.state.Failure? <==> exists c :: c in required && Broken(c, runs, inputs))
    && status.failing == BrokenNames(required, runs, inputs)
    && (forall s :: s in status.suites <==> s != 0 && SuiteBroken(required, runs, inputs, s))
    && (forall u :: u in status.urls <==> u != "" && PageBroken(required, runs, inputs, u))
  }

  ghost predicate SuiteBroken(required: seq<RequiredCheck>, runs: seq<CheckRun>, inputs: Inputs, s: int) {
    exists c, run :: c in required && Breaks(c, runs, inputs, run) && run.suite == s
  }

  ghost predicate PageBroken(required: seq<RequiredCheck>, runs: seq<CheckRun>, inputs: Inputs, u: string) {
    exists c, run :: c in required && Breaks(c, runs, inputs, run) && run.url == u
  }

  lemma StatusMeans(required: seq<RequiredCheck>, runs: seq<CheckRun>, inputs: Inputs)
    ensures Judges(StatusOf(required, runs, inputs), required, runs, inputs)
  {
    hide StatusOf, Satisfied, Broken, SuiteBroken, PageBroken;
    StateMeans(required, runs, inputs);
    forall s ensures s in StatusOf(required, runs, inputs).suites <==> s != 0 && SuiteBroken(required, runs, inputs, s) {
      SuitesMean(required, runs, inputs, s);
    }
    forall u ensures u in StatusOf(required, runs, inputs).urls <==> u != "" && PageBroken(required, runs, inputs, u) {
      PagesMean(required, runs, inputs, u);
    }
  }

  lemma {:induction false} StateMeans(required: seq<RequiredCheck>, runs: seq<CheckRun>, inputs: Inputs)
    ensures var status := StatusOf(required, runs, inputs);
            && (status.state.Success? <==> forall c :: c in required ==> Satisfied(c, runs, inputs))
            && (status.state.Failure? <==> exists c :: c in required && Broken(c, runs, inputs))
            && status.failing == BrokenNames(required, runs, inputs)
  {
    hide VerdictOf, Satisfied, Broken, Rerunnable, Newest;
    if required != [] {
      var front, last := required[..|required| - 1], required[|required| - 1];
      StateMeans(front, runs, inputs);
      VerdictMeans(last, runs, inputs);
      NotBoth(last, runs, inputs);
      FirstBroken(front, runs, inputs);
      assert required == front + [last];
    }
  }

  lemma {:induction false} SuitesMean(required: seq<RequiredCheck>, runs: seq<CheckRun>, inputs: Inputs, s: int)
    ensures s in StatusOf(required, runs, inputs).suites <==> s != 0 && SuiteBroken(required, runs, inputs, s)
  {
    hide VerdictOf, Breaks, Rerunnable, Newest;
    if required != [] {
      var front, last := required[..|required| - 1], required[|required| - 1];
      SuitesMean(front, runs, inputs, s);
      BreakingRun(last, runs, inputs);
      assert required == front + [last];
      assert SuiteBroken(required, runs, inputs, s) <==>
             SuiteBroken(front, runs, inputs, s) || exists run :: Breaks(last, runs, inputs, run) && run.suite == s;
    }
  }

  lemma {:induction false} PagesMean(required: seq<RequiredCheck>, runs: seq<CheckRun>, inputs: Inputs, u: string)
    ensures u in StatusOf(required, runs, inputs).urls <==> u != "" && PageBroken(required, runs, inputs, u)
  {
    hide VerdictOf, Breaks, Rerunnable, Newest;
    if required != [] {
      var front, last := required[..|required| - 1], required[|required| - 1];
      PagesMean(front, runs, inputs, u);
      BreakingRun(last, runs, inputs);
      assert required == front + [last];
      assert PageBroken(required, runs, inputs, u) <==>
             PageBroken(front, runs, inputs, u) || exists run :: Breaks(last, runs, inputs, run) && run.url == u;
    }
  }

  lemma NotBoth(check: RequiredCheck, runs: seq<CheckRun>, inputs: Inputs)
    ensures !(Satisfied(check, runs, inputs) && Broken(check, runs, inputs))
  {
    VerdictMeans(check, runs, inputs);
  }

  lemma FirstBroken(required: seq<RequiredCheck>, runs: seq<CheckRun>, inputs: Inputs)
    ensures (exists c :: c in required && Broken(c, runs, inputs)) ==>
              !(forall c :: c in required ==> Satisfied(c, runs, inputs))
  {
    hide Satisfied, Broken;
    forall c | c in required ensures !(Satisfied(c, runs, inputs) && Broken(c, runs, inputs)) { NotBoth(c, runs, inputs); }
  }

  /** Only the newest run breaks a check. */
  lemma BreakingRun(check: RequiredCheck, runs: seq<CheckRun>, inputs: Inputs)
    ensures forall run :: Breaks(check, runs, inputs, run) <==>
                            Rerunnable(check, runs, inputs) && Newest(runs, check.name) == Some(run)
    ensures Rerunnable(check, runs, inputs) ==>
              VerdictOf(check, runs, inputs).Fails? && Newest(runs, check.name).Some?
  {
    ConcernsMeans(check, inputs);
    NewestIsNewest(runs, check.name);
    if Newest(runs, check.name).Some? {
      var i :| NewestAt(runs, check.name, i) && runs[i] == Newest(runs, check.name).value;
      forall j | NewestAt(runs, check.name, j) ensures j == i { OneNewest(runs, check.name, i, j); }
    }
  }
}
