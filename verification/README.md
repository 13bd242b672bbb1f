# RunnerYard, modelled in Dafny

RunnerYard runs GitHub Actions jobs on short-lived runners and lands pull
requests through a merge queue. This project models the four state machines its
safety rests on and proves what they keep over whole runs:

- the **merge queue**: a planner without memory, a check evaluator, and an
  applier that rebases pull requests on top of each other, pushes them and
  fast-forwards the target, all of its state being markers in status comments;
- the **launch and retirement protocol** of the controller: a write-ahead
  journal, a rolling-window usage ledger, a launch gate with backoff, concurrent
  launches, and crashes between any two durable writes;
- the **host pool**: slots, reservations, start requests whose answers may be
  lost or late, hosts created, listed and returned concurrently, and meters;
- the **host agent's** slot verbs.

`dafny verify dfyconfig.toml` checks everything.

## How it is built

Each protocol is a machine over an abstract state: a `Step` datatype, `Enabled`,
`Next`, an invariant, and lemmas that every step and so every run keeps it.
Code that changes things in place is a class beside the machine (`Applier`,
`UsageBudget`, `RetirementQueue`, `Scaler`, `Fleet`, `PoolMeter`, `Slot`,
`Placement`). Its methods act through the machine's steps. The queue's applier
also runs in worlds where the machine's invariant is gone: it is *sound* while
every write was such a step, its contracts say when it stays so, and what it
promises of the target does not depend on it. GitHub, git, the
provider, Docker, the disk and the clock appear as their contracts: what they
answer, what other people do before each call, whether the call fails before or
after it took effect, and when the process dies all come from a script or a
parameter that the contracts quantify over. `Disk.Write` says what a file write
comes to: committed, failed, or replaced and still reported as an error.

| files | part |
|---|---|
| `Git`, `Queue`, `Checks`, `QueueWorld` | linear git histories, stacks and own-commit records, the check verdict, the queue's machine |
| `QueueSafety`, `QueueStacks`, `QueueLanding` | every step keeps the invariant; stacks are exact; patches land once |
| `QueueRuns`, `QueueTorn`, `QueueRough` | the same with each landed comment a step of its own; landings cut short; what is kept even where a landing was forgotten |
| `QueuePlan`, `QueuePlanMeans`, `QueueTick`, `QueueTickSafety` | the planner, what a plan means action by action, one tick, what a plan promises |
| `QueueDrainForm`, `QueueDrainStacks`, `QueueDrainFailure`, `QueueDrainTurns`, `QueueDrain`, `QueueDrained` | the queue drains, and where that ends |
| `QueueQuiet`, `QueueExamples` | when a tick keeps the invariant; runs that show where the queue's promises end |
| `QueueRebase`, `QueueKeeping`, `QueueApply` | the applier as it runs, against the machine and against the quiet tick |
| `QueueTickRun`, `QueueGrounds`, `QueueUndisturbed`, `QueueWholeTick` | a whole tick, read, planned and applied under interference, and without any |
| `Text`, `Marker` | worker IDs and comment markers as text |
| `Ledger`, `UsageBudget`, `Journal` | the usage ledger and the retirement journal |
| `Launch`, `LaunchViews` | launching and retiring as steps, over whole runs; what one lease sees of others |
| `Scaler`, `LaunchCleanup`, `LaunchWorker`, `Replay`, `LaunchExamples` | retiring, cleaning up, launching, restarting and replaying as they run; runs that show where the promises end |
| `Gate`, `Burst` | the launch gate, the fleet limit, one burst of concurrent launches |
| `Basics`, `Options`, `Disk` | what the others share |
| `Meter`, `HostPool`, `HostAgent`, `Slots`, `SlotPool` | the pool |

## What the code does not promise

Where a property a reader would expect is false of the code, the model keeps the
code and states exactly when the property holds.

- A landing cut short after the fast-forward leaves members whose own-commits
  record is older than the target. `QueueRuns.DescriptionInRun` says, in every state
  of every run, for which pull requests the queue then mistakes landed commits for
  their own, `QueueRuns.StackExactIff` which stacks are therefore not exact,
  `QueueExamples.UntoldInstance` is such a run, and `QueueTorn.UnfinishedIsRecorded`
  says that a tick which still finds the landing by its marker tells everyone before
  it rebases anything; `QueueWholeTick.RecordedIff` says when it finds it.
- The comment on an abandoned stack's member is written without looking whether
  that member landed. `QueueQuiet.TickForgets` says exactly which landed records a
  tick erases, `QueueQuiet.TickKeepsInv` when that breaks the queue's invariant;
  `QueueExamples.ForgetsInstance` and `AbandonNames` reach and plan the case.
  `QueueRuns.EmptyMemberIff` says what follows: the pull request is stacked without a
  commit of its own, exactly until its author pushes again
  (`QueueRuns.PushedIsRecallable`), after which it is stacked rightly.
- In both cases the queue's invariant is lost once such a pull request is stacked.
  `QueueWholeTick.Run` says what every tick still promises then: the target is moved
  at most once, from where the tick found it, to a commit whose required checks all
  passed.
- A stale stack marker is not always abandoned: `QueueDrain.StaleSurvives` says when
  one outlives a tick, and `QueueExamples.StaleOutlives` is a world where nothing
  moves while one does.
- Counting only eligible pull requests, the queue's progress measure would not
  fall: `QueueExamples.EligibleDoesNotFall`. The measure counts every queued pull
  request that has not landed.
- `Ledger.SettleReloads`: a settled or forfeited charge can be loaded again exactly
  when the lease did not start after the clock;
  `UsageBudgets.EarlySettlementDoesNotReload` gives an instance.
- `Journals.FileIdChanges`: an ID bound in the journal's file can change, exactly
  when memory does not know it, as the write that bound it reported an error, and
  something else than that binding is written.
- A worker the provider lists without its scale set is retired as one of the
  controller's own scale set. `LaunchCleanup.ListedProof` says when such a proof is not
  of the worker's registration, `Launch.StrayedMeans` of which names a run wrote one,
  `LaunchExamples.StrayInstance` is such a run, and `Replay.RetirableIff` and
  `Replay.Recover` say that nothing else, but for a scale set that is not served any
  more, keeps a replay from finishing.
- `Launch.RestartLoses`: a restart loses a registration exactly when its worker went
  by itself and no proof of it is in the file; `LaunchExamples.LostInstance`.
- A launch whose answer is unclear leaves no worker, `Launches.LaunchBound`, exactly
  unless the provider lists the worker that did start without its scale set and the
  controller's own is another: then the journal refuses its proof and all stays as
  it is, charged and journaled.
- `Meters.BusyBeyond`: a host can be busier than the slot time it is said to have
  offered, exactly when it had more busy slots than it has slots now.
- A worker that a failed launch reported can be left running with its lease closed
  and no proof: `LaunchCleanup.CleanupAmbiguous` says when, and
  `LaunchExamples.LeftBehind` reaches it.
- `Slots.VerifiedHost` and `Slots.LateStartIsPossible`: a host verified empty can be
  returned with a container on it exactly when a start was given up while its request
  was still open; `Slots.LateInstance`.
- `HostPools.GrowthBeforeListing`: the pool may grow before its first listing, and
  `HostPools.GrowToMaximum` says when growing stays within the maximum.

## Model

| member | source | states |
|---|---|---|
| Git.ReplayFacts | mergequeue/mergequeue.go:135-137 | a rebase writes new commits that are exactly the given patches above the new base, whose history it keeps |
| Git.ReplayFresh | mergequeue/mergequeue.go:135-137 | every commit a rebase leaves above the base is new: none existed before |
| Git.RangeSplit | mergequeue/mergequeue.go:135-137 | the commits upstream..head are those up to any commit in between followed by those after it |
| Git.RangeAfterPush | mergequeue/mergequeue.go:132-137 | a commit pushed to the target changes no pull request's own commits |
| Queue.ChosenAfterPush | mergequeue/apply.go:237-250 | an author's push leaves the choice of own-commits record unchanged |
| Queue.ChosenOfUsed | mergequeue/apply.go:237-250 | keeping only the record that was used keeps the choice |
| Queue.KeepOwnsIn | mergequeue/apply.go:365-372 | the first record that is not the stack's own is kept beside it, if there is one, and no other |
| Queue.ChosenIsNewest | mergequeue/apply.go:237-250 | the record used is the newest one that describes the branch, and none if and only if none does |
| Queue.OwnMarkersMean | mergequeue/marker.go:160-169 | a comment carries its newest records, as many as fit |
| Checks.NewestRuns | mergequeue/checks.go:73-78 | the map holds, for exactly the names that reported, the run with the greatest ID |
| Checks.Evaluate | mergequeue/checks.go:72-118 | the loop's result judges the checks: failure if and only if one that concerns the changed files failed in the attempt that counts or did not report in time, success if and only if every one that concerns them has a newest run that passed; the failing names and links are exactly those, in order |
| Checks.StatusMeans | mergequeue/checks.go:72-118 | the verdict function judges in that sense, for all runs and inputs |
| Checks.MatchPathMeans | mergequeue/checks.go:28-34 | a pattern that ends in a slash and two stars matches exactly the directory before it and what lies below, any other one what the glob library says |
| Checks.NewestIsNewest | mergequeue/checks.go:73-78 | the newest run of a name is the first of those with its greatest ID, and there is none if and only if no run has the name |
| Checks.VerdictMeans | mergequeue/checks.go:79-118 | a check passes if and only if it does not concern the changed files or its newest run passed, fails if and only if it concerns them and either failed in the attempt that counts or did not report in time, and otherwise waits |
| QueueStacks.BuildMember | mergequeue/apply.go:191-213 | each member is its own patches replayed above the member below it |
| QueueStacks.BuiltExact | mergequeue/apply.go:174-232 | a stack a tick builds is the target followed by each member's patches that have not landed, all of them, once, in order |
| QueueStacks.BeginApart | mergequeue/apply.go:174-232 | a new stack shares no commit above the target with any stack built before |
| QueueStacks.PushDescribed | mergequeue/apply.go:214-228 | once the branches are pushed, some kept record describes every branch as it is |
| QueueSafety.WriteNextDescribed | mergequeue/apply.go:214-221 | a status comment written before a push that may never happen still describes the branch as it is |
| QueueSafety.AppendDescribed | mergequeue/apply.go:237-250 | an author's commit pushed at any moment is taken for the pull request's own, and nothing else is |
| QueueSafety.RetryDescribed | mergequeue/apply.go:142-147 | the comment of a retried stack describes the branch, author commits above it included |
| QueueSafety.PushTargetKeepsInv | mergequeue/plan.go:263-266 | a commit pushed to the target by others at any moment keeps the invariant |
| QueueSafety.CommentMarkers | mergequeue/snapshot.go:52-56 | rewriting one comment keeps every trusted stack marker's stack intact and apart from the others |
| QueueLanding.FastForwardFromBase | mergequeue/apply.go:278-298 | a fast-forward the remote accepts starts from the stack's own base |
| QueueLanding.LandedPatches | mergequeue/apply.go:278-300 | landing a stack adds to the target exactly its members' own patches |
| QueueLanding.LandedMember | mergequeue/apply.go:302-310 | after landing, what is left of a member is what its author pushed above the landed commit |
| QueueLanding.LandedOther | mergequeue/apply.go:278-300 | landing changes no other pull request's own patches |
| QueueLanding.StepKeepsInv | mergequeue/apply.go:121-310 | every step of the queue, authors, the target and labels keeps the invariant; a landing with its comments is one step here, and QueueRuns takes it apart |
| QueueLanding.RunKeepsInv | mergequeue/apply.go:77-95 | the invariant holds in every state of every run of those steps |
| QueueLanding.EveryStackExact | mergequeue/apply.go:174-250 | in every such run, with refused pushes, splits, abandons and author pushes, every formed stack is the target it saw followed by each member's own commits once, in order, and no commit of a pull request outside it |
| QueueLanding.EveryPatchLandsOnce | mergequeue/apply.go:278-310 | in every such run the target holds a prefix of each pull request's patches, each once and in order, and what would be stacked next is exactly the rest |
| QueueLanding.LiveStacksDisjoint | mergequeue/plan.go:263-277 | in every reachable state two stacks that still match GitHub share no member |
| QueueLanding.AfterKeepsInv | mergequeue/apply.go:77-95 | the invariant holds after any sequence of those steps attempted |
| QueueRuns.StepRefines | mergequeue/apply.go:278-310 | with the fast-forward and each landed comment a step of its own, and erased landings and the pushes that make up for them, every step is a step of the coarse machine, or none, on the world as it will be once everyone is told |
| QueueRuns.FineKept | mergequeue/apply.go:121-310 | every such step keeps the invariant, whoever acts between two comments, a pull request with a landing still to be told of being neither stacked nor told anything else |
| QueueRuns.FineRunKept | mergequeue/apply.go:77-95 | so it holds in every state of every run, wherever a landing is cut short |
| QueueRuns.FineAfterKept | mergequeue/apply.go:77-95 | and after any sequence of such steps attempted |
| QueueRuns.StackExactInRun | mergequeue/apply.go:174-250 | in every run, landings cut short included, every stack formed of pull requests without a landing still to be told of is the target it saw followed by each member's own commits once, in order |
| QueueRuns.PatchLandsOnceInRun | mergequeue/apply.go:278-310 | in every run the target holds a prefix of each pull request's patches, each once and in order |
| QueueRuns.DescriptionInRun | mergequeue/apply.go:237-250 | in every state of every run the queue takes for a pull request's own exactly its patches not on the target if and only if it has no landing still to be told of, or no record describes its branch |
| QueueRuns.StackExactIff | mergequeue/apply.go:174-250 | a stack built of any pull requests is the target followed by what is left of each, if and only if that holds of every member |
| QueueRuns.BuiltLinked | mergequeue/apply.go:191-213 | whatever the records say, each member of a stack is what the queue takes for its own, above the member below |
| QueueRuns.EmptyMemberIff | mergequeue/apply.go:191-213 | a member is stacked without a commit if and only if its whole branch landed and the comment that said so was erased |
| QueueRuns.ForgottenIsEmpty | mergequeue/apply.go:153-165 | so a landed pull request whose record is erased is next stacked without a commit |
| QueueRuns.PushedIsRecallable | mergequeue/apply.go:237-250 | until its author pushes again, from when on it may be stacked like any other |
| QueueRough.RoughKept | mergequeue/apply.go:121-310 | every step of the queue and of others, in any world, leaves every stack a comment or the tick holds a chain of known pull requests, each member's commit above the one below, and every identifier fresh |
| QueueRough.FineRough | mergequeue/apply.go:121-310 | the queue's invariant includes that |
| QueuePlanMeans.ByNumberMeans | mergequeue/plan.go:129-132 | the queue lists a number if and only if some entry has it, and then its last one stands |
| QueuePlanMeans.StaleMeans | mergequeue/plan.go:263-277 | why a stack does not match GitHub: the target moved, or the first member that is not at its commit left the queue or was pushed to |
| QueuePlanMeans.LandsMeans | mergequeue/plan.go:133-142 | the stack that lands is the first green one on the target with every branch where the stack left it |
| QueuePlanMeans.VerdictMeans | mergequeue/plan.go:133-151 | a stack stays if and only if it matches GitHub and no other one lands, and is dropped for exactly one reason otherwise |
| QueuePlanMeans.RemainingMeans | mergequeue/plan.go:279-287 | an abandoned stack tells its members, in order, that no stack that landed or stays has |
| QueuePlanMeans.StackMeans | mergequeue/plan.go:165-199 | which action each stack gets, as an if and only if for every action |
| QueuePlanMeans.LineMeans | mergequeue/plan.go:207-217 | the pull requests that may enter a stack: queued, not landed, in no stack, of this repository, no draft, into the queue's branch, labelled by someone who can write, in the order of the queue and none left out |
| QueuePlanMeans.QueueMeans | mergequeue/plan.go:207-232 | with no stack in flight the first of them that fit in a batch are stacked on the target; all others are told their place, and those that may not enter are told that |
| QueuePlanMeans.PlanMeans | mergequeue/plan.go:128-233 | a plan holds an action if and only if that is to be done, for every snapshot, batch size and action |
| QueuePlanMeans.PlanOrder | mergequeue/plan.go:161-232 | what is done with the stacks comes in their order and before the rest; a new stack comes last |
| QueuePlanMeans.SplitOrder | mergequeue/bisect.go:10-18 | a stack that is split is told so first, then its halves are formed, the front one first and longer by one at most |
| QueuePlanMeans.IdleMeans | mergequeue/plan.go:232-233 | a tick is idle if and only if its plan only comments and cancels batchmates' runs |
| QueuePlan.FirstGreen | mergequeue/plan.go:133-142 | the first stack that is current and green, if there is one, and no earlier one is |
| QueuePlan.StaleReasonOf | mergequeue/plan.go:263-277 | the loop gives the first reason a stack no longer matches GitHub |
| QueuePlan.JudgeStacks | mergequeue/plan.go:133-151 | every stack's verdict, including those abandoned because another one lands |
| QueuePlan.ClaimedNumbers | mergequeue/plan.go:152-159 | exactly the members of landed and current stacks are claimed |
| QueuePlan.UnclaimedMembers | mergequeue/plan.go:279-287 | the members an abandoned stack may tell, in order |
| QueuePlan.ResolveStack | mergequeue/plan.go:165-191 | one stack is recorded, abandoned, left waiting, advanced or handled as failed, and waits only while its checks run |
| QueuePlan.ResolveStacks | mergequeue/plan.go:161-199 | the stacks' actions in order; nothing resolved and nothing pending if and only if there is no stack |
| QueuePlan.BusyNumbers | mergequeue/plan.go:201-206 | the members of stacks in flight |
| QueuePlan.PickCandidates | mergequeue/plan.go:207-217 | the queued pull requests this tick has nothing else to do with, split by eligibility, first in first out |
| QueuePlan.TellPositions | mergequeue/plan.go:227-230 | each waiting pull request is told its place |
| QueuePlan.PlanTick | mergequeue/plan.go:128-233 | the plan as a whole, and idle if and only if nothing resolves and nothing is formed |
| QueueTickSafety.OnlyGreen | mergequeue/plan.go:133-151 | a current green stack is the one that lands; every other stack is abandoned |
| QueueTickSafety.PlanCounts | mergequeue/plan.go:128-233 | a plan moves the target at most once, and only when it rebases nothing; otherwise it rebases the bisected stacks, or with no stack in flight the first candidates |
| QueueTickSafety.FitsMeansLive | mergequeue/plan.go:263-277 | a stack has no stale reason if and only if it is built on the target and every member is queued at the commit the stack gave it |
| QueueTick.ReadMeans | mergequeue/snapshot.go:58-128 | what a tick reads of a stack: its state judges the runs on its top against the files its members change, the runs it may repeat are those of failed checks, and the runs to cancel those still active below the top |
| QueueTick.FilesMean | mergequeue/snapshot.go:97-106 | the files checks are judged by are exactly those some member changes |
| QueueTickSafety.StackRead | mergequeue/snapshot.go:21-139 | what a tick reads of a stack: landed only if not live, and a live stack's checks are those of its top commit |
| QueueTickSafety.LiveRead | mergequeue/snapshot.go:58-128 | a live stack read as green has, for every required check without paths or with one that matches a file some member changes, a newest run on its top commit that passed |
| QueueTickSafety.AdvanceIsTested | mergequeue/plan.go:134-142 | a plan that moves the target moves it to the top of a live stack on which, for every required check without paths or with one that matches a file some member changes, the newest run passed |
| QueueTickSafety.LandingContainsMembers | mergequeue/apply.go:278-300 | a landing the remote accepts sets the target from the stack's base to its top, which contains every member's recorded head |
| QueueTickSafety.SnapshotDisjoint | mergequeue/plan.go:152-159 | two stacks of one snapshot that are not stale share no member |
| QueueTickSafety.FormsDisjoint | mergequeue/plan.go:161-233 | one tick rebases no branch twice and none of a stack still tested |
| QueueTickSafety.MarkedIsTop | mergequeue/snapshot.go:52-56 | every queued pull request that carries its own stack's marker is read as a stack |
| QueueTickSafety.BisectionCounts | mergequeue/bisect.go:10-18 | the two halves of a failed stack are its members, in order |
| QueueTorn.RecordFinishes | mergequeue/apply.go:302-310 | recording a landing cut short anywhere leaves the state an undisturbed landing leaves |
| QueueTorn.MarkerLast | mergequeue/apply.go:302-310 | the comment with the stack marker is the last to be replaced |
| QueueTorn.NothingLive | mergequeue/snapshot.go:80-92 | after a landing cut short no stack is live |
| QueueTorn.ForwardUnfinished | mergequeue/apply.go:278-300 | from the fast-forward on, a landing is unfinished: its marker leads to it and every member is told or still to be |
| QueueTorn.OthersUnfinished | mergequeue/apply.go:302-310 | whatever others do but take the top's label away, it stays so |
| QueueTorn.TellUnfinished | mergequeue/apply.go:302-310 | and while members below the top are told |
| QueueTorn.UnfinishedIsRecorded | mergequeue/plan.go:165-169 | a tick that finds an unfinished landing records it, moves the target no further and rebases nothing |
| QueueTorn.TornDescription | mergequeue/apply.go:237-250 | with the first j members told, a pull request's own commits are right if and only if it is none of the others or no record describes it |
| QueueTorn.AbandonForgetsLanding | mergequeue/apply.go:153-165 | an abandoned stack's comment erases a landed record, and leaves nothing to land if and only if there was one |
| QueueDrainForm.FormOnceShape | mergequeue/apply.go:174-232 | an undisturbed group without a conflict ends with every branch at its commit of the stack, every comment naming its place, and nothing else changed |
| QueueDrainForm.FormGroupReforms | mergequeue/apply.go:252-273 | whatever conflicts, an undisturbed group ends in live stacks and rejections and nothing else changes |
| QueueDrainStacks.LiveSeparate | mergequeue/plan.go:263-277 | no pull request is a member of two live stacks |
| QueueDrainStacks.RetryIsSteps | mergequeue/apply.go:142-148 | retrying a stack is a run of the machine |
| QueueDrainStacks.RetryRaises | mergequeue/plan.go:242-248 | a retried stack stays live and the measure falls |
| QueueDrainStacks.RejectLowers | mergequeue/plan.go:250-252 | a rejection makes the queue shorter |
| QueueDrainStacks.SplitLowers | mergequeue/plan.go:253-257 | splitting a live stack lowers the measure, whatever was retried before |
| QueueDrainFailure.FailureFalls | mergequeue/plan.go:239-258 | whichever of retry, rejection and bisection a failing stack gets, the measure falls and only its members are touched |
| QueueDrainTurns.StacksFall | mergequeue/plan.go:165-199 | with no green stack, the stacks' turns never raise the measure, lower it as soon as one failed, and revive no stale stack |
| QueueDrainTurns.StacksClear | mergequeue/plan.go:143-151 | with a green stack, it lands and every other stack goes back to the queue |
| QueueDrain.TickFalls | mergequeue/plan.go:128-233 | from any tidy world, which each world a sound tick starts from is unless a landing was cut short, stale markers included, an undisturbed tick leaves the queue strictly lower when it resolves or forms something, and otherwise changes no stack, branch, label or the target; it leaves a tidy world |
| QueueDrain.StaleSurvives | mergequeue/plan.go:143-199 | a stale marker outlives such a tick if and only if its top is a member of a stack that still claims it |
| QueueDrain.RunFalls | mergequeue/plan.go:128-233 | along a run of ticks the rank falls by at least one for each that moves something |
| QueueDrain.QueueDrains | mergequeue/plan.go:128-258 | from any tidy world with n pull requests queued at most n(4n + 5) ticks of a run move anything, whatever checks report and whichever groups conflict, and every other tick leaves the queue as it was |
| QueueDrain.IdleMeansDrained | mergequeue/plan.go:207-232 | a tick that moves nothing with no stack in flight has landed every eligible queued pull request |
| QueueDrained.RestIsDrained | mergequeue/plan.go:128-233 | a tick that reads no running checks and moves nothing finds no stack in flight and every queued pull request that may be stacked landed |
| QueueDrained.DrainedStays | mergequeue/plan.go:207-232 | and an undisturbed tick keeps it so |
| QueueDrained.QueueIsDrained | mergequeue/plan.go:128-258 | so once more than n(4n + 5) undisturbed ticks have read no running checks, every queued pull request that may be stacked has landed, and stays so |
| QueueDrained.CutTick | mergequeue/plan.go:165-199 | a tick that finds landings cut short, however many, and no stack on the target leaves no stack in the queue and a tidy world |
| QueueDrained.DrainsFromAnywhere | mergequeue/plan.go:128-258 | the same two bounds, one tick later, from any world that is tidy or holds landings cut short |
| QueueDrained.ReachedBetween | mergequeue/snapshot.go:21-139 | every world of the queue's machine in which no listed pull request is hidden, or one landing cut short is listed by its top, is one of these |
| QueueQuiet.TickForgets | mergequeue/apply.go:153-165 | an undisturbed tick erases a landed record if and only if a stack it gives up names that pull request |
| QueueQuiet.TickKeepsInv | mergequeue/apply.go:77-95 | an undisturbed tick keeps the invariant if and only if no stack it gives up names a landed pull request |
| QueueExamples.UntoldInstance | mergequeue/apply.go:278-310 | a run that ends with a landed commit taken for a pull request's own |
| QueueExamples.StaleBeside | mergequeue/apply.go:214-227 | a forming interrupted after its comments leaves, from any live stack, a stale marker on a member beside it |
| QueueExamples.StaleOutlives | mergequeue/plan.go:143-199 | a reachable world where a stale marker stays tick after tick beside a stack still tested |
| QueueExamples.ForgetsInstance | mergequeue/apply.go:153-165 | a run that ends with a landed pull request listed beside a stale stack that names it |
| QueueExamples.AbandonNames | mergequeue/plan.go:143-199 | the next plan gives that stack up and names the landed pull request, whose record then goes |
| QueueExamples.EligibleDoesNotFall | mergequeue/plan.go:207-232 | in such a world, counting eligible pull requests only, a tick that lands a stack would leave the measure higher |
| QueueExamples.ReachMixed | mergequeue/plan.go:207-232 | and a run reaches that world |
| QueueRebase.UpstreamOf | mergequeue/apply.go:237-250 | the newest record that describes the branch, else the target, and that record to keep |
| QueueRebase.KeepOwnsOf | mergequeue/apply.go:365-372 | the record other than the current one that is kept |
| QueueRebase.BuildOneMore | mergequeue/apply.go:191-213 | rebasing one more pull request extends a built stack by that member alone |
| QueueRebase.RebaseAll | mergequeue/apply.go:191-213 | builds exactly the machine's stack, or names the first pull request that moved or does not rebase, and says which |
| QueueRebase.SteadyStays | mergequeue/apply.go:252-262 | forming one group leaves the conflicts of another as they are |
| QueueKeeping.OthersDisturb | mergequeue/apply.go:174-190 | what others do between two calls: branches only grow, comments stay, what joins the target is new |
| QueueKeeping.CeilLog2Means | mergequeue/bisect.go:10-18 | the depth bound is the base-two logarithm rounded up |
| QueueKeeping.SplitGroup | mergequeue/bisect.go:10-18 | the halves are non-empty, disjoint and together the group in order, the front one the larger |
| QueueKeeping.ForwardedFromBase | mergequeue/apply.go:278-298 | a fast-forward the remote accepts starts from the base of the stack read, which the target never left since |
| QueueApply.Applier.Do | mergequeue/apply.go:117-119 | one step of the machine, which leaves a sound applier sound if and only if it is a careful one |
| QueueApply.Applier.Write | mergequeue/apply.go:117-119 | one comment, which leaves a sound applier sound where the machine has a step that writes it or nothing changes |
| QueueApply.Applier.Hold | mergequeue/apply.go:191-213 | the stack rebased from the branches as they are and the records as the snapshot read them; where those are as they were, the machine's step |
| QueueApply.Applier.MoveTarget | mergequeue/apply.go:278-300 | the fast-forward, the machine's step where the marker leads to the stack and no member has a landing still to be told of |
| QueueApply.Applier.SayLanded | mergequeue/apply.go:302-310 | each landed comment is a step where it was still to be told, and none if it was there |
| QueueApply.Applier.SayPlain | mergequeue/apply.go:153-165 | telling a pull request that it waits keeps the records the snapshot read, and is remembered when it erased a landing |
| QueueApply.Applier.Call | mergequeue/apply.go:174-186 | others act, then the call goes through or fails; a label comes back only by their doing; with nobody there nothing changes |
| QueueApply.Applier.LeasesHold | mergequeue/apply.go:222-227 | the push is accepted if and only if every branch is at the head it was read at |
| QueueApply.Applier.Publish | mergequeue/apply.go:214-227 | comments first, the top one last, then all branches or none, and none only if a branch left the head it was read at; undisturbed, exactly the machine's result |
| QueueApply.Applier.Form | mergequeue/apply.go:174-232 | in any world each pull request of a group ends in exactly one of formed, deferred and rejected, in order; each outcome is what happened, only a pull request whose own commits conflict with the base is rejected, and only a group whose target or branches somebody moved is deferred; at most ceil(log2 n) deep and 2n - 1 calls; a sound applier stays sound where the records are as the snapshot read them and no landing is to be told of; undisturbed, it is the tick's own forming function |
| QueueApply.Applier.FormHere | mergequeue/apply.go:187-232 | the same from the moment the target has been read again |
| QueueApply.Applier.FormBuilt | mergequeue/apply.go:214-232 | formed only if every branch and comment is in place, deferred only if the queue wrote no branch |
| QueueApply.Applier.SettleConflict | mergequeue/apply.go:252-262 | a group that conflicts is split and formed again, a single pull request rejected, under the same bounds |
| QueueApply.Applier.RejectAlone | mergequeue/apply.go:252-258 | a pull request that conflicts with the base by itself is rejected |
| QueueApply.Applier.FormHalves | mergequeue/apply.go:259-262 | the second half is formed only after the first, and leaves its outcomes standing |
| QueueApply.Applier.Land | mergequeue/apply.go:278-310 | in any world, lands from the stack's base, where the target was, to its top with every member contained, or changes nothing, and reports that only if the top branch or the target moved; others act between the landed comments; of a stack in flight whoever was not told is still to be, and a sound applier stays sound; undisturbed, it is the tick's fast-forward |
| QueueApply.Applier.Record | mergequeue/apply.go:302-310 | every member is told, bottom first, all of them if no call fails; those of a landed stack were told or are still to be told at every moment, whatever others do meanwhile |
| QueueApply.Applier.RetryStack | mergequeue/apply.go:133-148 | every member's comment names the retried stack beside one older record; branches only grow |
| QueueApply.Applier.Reject | mergequeue/apply.go:264-273 | the label goes unless others put it back, and the comment keeps the branch's records; undisturbed, exactly that |
| QueueApply.Applier.Abandon | mergequeue/apply.go:153-165 | every member still queued, landed or not, is told with the records the snapshot read, and nobody else is; undisturbed, exactly that |
| QueueApply.Applier.RetryMember | mergequeue/apply.go:142-147 | one member's comment names the retried stack; undisturbed, the machine's step |
| QueueApply.Applier.Say | mergequeue/apply.go:142-165 | one queued pull request is told that it waits |
| QueueTickRun.ApplyAction | mergequeue/apply.go:121-172 | each action, in any world and whatever others do meanwhile, moves the target only by landing its own stack from its base, and leaves everyone it does not name alone; where it has its grounds the invariant is kept; undisturbed, it does what the tick's function says |
| QueueTickRun.RunPlan | mergequeue/apply.go:77-95 | a plan is carried out action by action in any world and moves the target at most once; where its actions have their grounds and name nobody twice each still has them at its turn and the invariant is kept; undisturbed, it does what the tick's function says |
| QueueGrounds.HardPlan | mergequeue/plan.go:128-233 | the pull requests a plan rebases or resolves are those of the stacks it resolves and the group it forms |
| QueueGrounds.PlanCases | mergequeue/plan.go:128-233 | every action of a plan belongs to a stack, tells a pull request in none its place, or forms the group |
| QueueGrounds.PlanOrderly | mergequeue/plan.go:128-233 | no plan names a pull request to two actions that write its branch, nor lands two stacks |
| QueueGrounds.PlanAlone | mergequeue/plan.go:128-233 | a plan that moves the target does so once and neither forms nor retries a stack |
| QueueGrounds.PlanReady | mergequeue/plan.go:128-233 | in any world what a tick plans can be carried out: stacks it reads are chains, those it lands, retries or splits stand on the target, and everyone it forms is listed |
| QueueUndisturbed.PlanUndisturbed | mergequeue/apply.go:77-172 | with nobody else about, every action of a plan finds at its turn what the snapshot said of those it touches |
| QueueWholeTick.ForwardHides | mergequeue/apply.go:278-310 | after a landing cut short the next tick may start |
| QueueWholeTick.OthersHide | mergequeue/apply.go:302-310 | and still after others act, unless the top loses its label or another pull request that landed with no one told gets one |
| QueueWholeTick.RecordedIff | mergequeue/plan.go:165-169 | a tick records a landing cut short if and only if its top still has its label |
| QueueWholeTick.PlanStands | mergequeue/plan.go:128-233 | where the invariant holds and nothing listed is hidden but one landing whose top is listed, every action planned has its grounds and no two get in each other's way |
| QueueWholeTick.RepairableIf | mergequeue/apply.go:237-250 | pull requests whose landed record was erased and whose authors pushed since hide nothing |
| QueueWholeTick.Run | mergequeue/apply.go:55-95 | a whole tick in any world and under any interference: the target is where others moved it, or was moved once, from a stack's base where others had moved it, to that stack's top, every member contained, on which, for every required check without paths or with one that matches a file some member changes, the newest run passed; it keeps the invariant where nothing listed was hidden; undisturbed, it is the tick the drain is proved of |
| Text.DecimalReads | mergequeue/marker.go:76-82 | a printed number reads back as itself |
| Text.WorkerIdReads | pool/compute.go:1758-1774 | a worker ID reads back as its host, slot and lease |
| Text.RouteReads | pool/placement.go:210-220 | destroying a worker of any tier reaches that tier with the worker's own host, slot and lease |
| Markers.MembersRead | mergequeue/marker.go:76-82 | the list of members reads back |
| Markers.StackReads | mergequeue/marker.go:76-82 | a stack marker reads back, to the whole second |
| Markers.OwnReads | mergequeue/marker.go:84-86 | an own marker reads back |
| Markers.SkipText | mergequeue/marker.go:121-127 | text without a marker's opening sign hides no marker |
| Markers.OwnLinesRead | mergequeue/marker.go:121-127 | the own markers of a comment read back in order |
| Markers.NumbersValid | mergequeue/marker.go:93-115 | the loop accepts exactly the lists of distinct positive numbers that fit |
| Markers.TextHasNoMark | mergequeue/marker.go:191-212 | the text around the markers holds none itself |
| Markers.CommentReads | mergequeue/marker.go:93-212 | reading back a stack's comment gives the member's own record and then the kept ones, and the stack itself on its top member and no other |
| Ledger.SecondsMeans | controller/usage_budget.go:470-472 | a duration counts as the fewest whole seconds that cover it |
| Ledger.ClosingCharges | controller/usage_budget.go:160-200 | a lease settled is charged the fewest seconds that cover its time from its start to the reported stop where that is in range and to now otherwise, at least one and at most its reservation; a lease forfeited is charged in full |
| Ledger.ReconcileCharges | controller/usage_budget.go:265-297 | a lease no worker carries is charged the same way up to now if a worker was seen, in full if not |
| Ledger.OpeningCharges | controller/usage_budget.go:141-263 | a lease reserved is charged the fewest seconds that cover the reservation, one adopted no less than that; one already open and seen is left as it is |
| Ledger.RecentMeans | controller/usage_budget.go:299-315 | exactly the leases still running and those whose time was over no longer than the window ago count, each with its own charge |
| Ledger.TotalSplit | controller/usage_budget.go:317-323 | a total does not depend on the order leases are added in |
| Ledger.UsedIsTotal | controller/usage_budget.go:317-323 | the ledger's sum is the total over its leases |
| Ledger.AgreeEach | controller/usage_budget.go:265-297 | a change to active entries only keeps ledger and never-pruned history in agreement |
| Ledger.AgreeKeep | controller/usage_budget.go:309-314 | dropping charges that left the window keeps it |
| Ledger.AgreePrune | controller/usage_budget.go:299-315 | expiring and dropping keep it |
| Ledger.AgreeAt | controller/usage_budget.go:160-200 | changing one lease keeps it |
| Ledger.AgreeAppend | controller/usage_budget.go:141-149 | adding a lease keeps it |
| Ledger.AgreeDelete | controller/usage_budget.go:202-217 | taking a lease back keeps it |
| Ledger.OpenAgrees | controller/usage_budget.go:160-217 | ledger and history agree which leases are open |
| Ledger.AdoptDropped | controller/usage_budget.go:219-263 | a lease the ledger has dropped is adopted as a new one, in the history as well |
| Ledger.PrunedIsRecent | controller/usage_budget.go:122-149 | at any later time the pruned ledger's sum is the full history's active reservations and charges inside the window |
| Ledger.SettleReloads | controller/usage_budget.go:160-200 | a settled or forfeited charge passes validation again if and only if its start is not after the clock |
| Ledger.SettleSound | controller/usage_budget.go:160-200 | for starts not after the clock, settling and forfeiting keep an entry loadable |
| Ledger.AdoptSound | controller/usage_budget.go:219-263 | adopting keeps an entry loadable |
| Ledger.ReconcileSound | controller/usage_budget.go:265-297 | reconciling keeps an entry loadable |
| Ledger.PruneSound | controller/usage_budget.go:299-315 | pruning keeps a ledger loadable |
| Ledger.ReloadsLower | controller/usage_budget.go:381-411 | a ledger that loads still does under a lower maximum lifetime |
| Ledger.UsedBound | controller/usage_budget.go:381-411 | sums of valid charges stay within 64 bits below a hundred trillion entries |
| Ledger.NothingLeaves | controller/usage_budget.go:413-425 | nothing leaves the window before the announced time |
| UsageBudgets.Validate | controller/usage_budget.go:381-411 | accepts exactly the ledgers with unique leases and valid charges whose sum fits |
| UsageBudgets.ExpireEach | controller/usage_budget.go:300-308 | reservations past their deadline become charges, and it says whether any did |
| UsageBudgets.DropGone | controller/usage_budget.go:309-314 | exactly the charges that left the window go |
| UsageBudgets.ReconcileEach | controller/usage_budget.go:270-285 | each active lease without a worker is closed, and it says whether any was |
| UsageBudgets.UsageBudget.Persist | controller/usage_budget.go:427-468 | the file is replaced or not, and an error may be reported after it was |
| UsageBudgets.UsageBudget.Prune | controller/usage_budget.go:299-315 | ledger and history are pruned and expired together |
| UsageBudgets.UsageBudget.UsedSeconds | controller/usage_budget.go:317-323 | the sum of the entries |
| UsageBudgets.UsageBudget.NextAvailable | controller/usage_budget.go:413-425 | the first time a completed charge leaves the window |
| UsageBudgets.UsageBudget.Reserve | controller/usage_budget.go:122-149 | admits if and only if the full history's window has room and the write commits, so no admission takes that total above the limit; pruning stays after a failed write |
| UsageBudgets.UsageBudget.SettleAt | controller/usage_budget.go:160-182 | an active lease is closed and charged the fewest seconds that cover the time it ran, at least one and at most its reservation; a failed write is taken back |
| UsageBudgets.UsageBudget.ForfeitLease | controller/usage_budget.go:184-200 | an active lease is closed at its whole reservation, and a failed write is taken back |
| UsageBudgets.UsageBudget.Release | controller/usage_budget.go:202-217 | an active lease disappears from ledger and history, and a failed write is taken back |
| UsageBudgets.UsageBudget.AdoptLease | controller/usage_budget.go:219-263 | a worker found running is charged in full; only the entry of an unknown lease outlives a failed write |
| UsageBudgets.UsageBudget.AdoptAt | controller/usage_budget.go:229-258 | a known lease is reopened or confirmed, and put back if the write fails |
| UsageBudgets.UsageBudget.AddAdopted | controller/usage_budget.go:259-262 | an unknown lease is added and stays even if the write fails |
| UsageBudgets.UsageBudget.ReconcileAll | controller/usage_budget.go:265-297 | every active lease without a worker is closed and the ledger pruned, in ledger and history alike; nothing is written when nothing changes |
| UsageBudgets.Open | controller/usage_budget.go:42-73 | opens exactly what validates |
| UsageBudgets.RefusalStands | controller/usage_budget.go:122-149 | a refusal stands until the time it names: until then nothing leaves the window |
| UsageBudgets.EarlySettlementDoesNotReload | controller/usage_budget.go:160-182 | a lease started after the clock, once settled, makes the ledger unloadable |
| Journals.Complete | controller/retirement_queue.go:155-178 | accepts exactly a valid proof that contradicts nothing, and completes it by what was known |
| Journals.MergeKeeps | controller/retirement_queue.go:155-189 | a proof written over another stays a proof of the same registration |
| Journals.MergedMeans | controller/retirement_queue.go:155-178 | nothing known is lost: an ID that either has, the stop time reported last, the request made first; writing a proof again changes nothing |
| Journals.RetirementQueue.Persist | controller/retirement_queue.go:257-309 | the file is replaced or not, and an error may be reported after it was |
| Journals.RetirementQueue.Put | controller/retirement_queue.go:155-189 | memory changes only when the write commits, the file unless it fails, and lease, scale set, disposition and bound ID never |
| Journals.RetirementQueue.Remove | controller/retirement_queue.go:191-204 | an entry goes from memory only when the write commits |
| Journals.RetirementQueue.All | controller/retirement_queue.go:206-217 | every entry once, ordered by name |
| Journals.Inserted | controller/retirement_queue.go:212-216 | a proof is put where its name belongs, and nothing else changes |
| Journals.EitherPrecedes | controller/retirement_queue.go:219-228 | of two different names one precedes the other |
| Journals.PrecedesTrans | controller/retirement_queue.go:219-228 | the order of names is transitive |
| Journals.ProofsNeverChange | controller/retirement_queue.go:155-204 | in memory, over any sequence of attempts and write failures, an entry that stays keeps lease, scale set and disposition, and its ID is bound at most once |
| Journals.FileProofs | controller/retirement_queue.go:155-204 | in the file too, and once memory knows the ID the file's never changes |
| Journals.FileIdChanges | controller/retirement_queue.go:155-189 | an ID in the file changes if and only if memory does not know it, the write that bound it having reported an error, and a change is written that is not the binding of this ID |
| Journals.BindingReplaced | controller/retirement_queue.go:155-189 | and that happens |
| Launch.SafeKept | controller/scaler.go:770-1164 | every step keeps each registration durable, in the journal and its file or carried by a worker, unless its worker went by itself; known to the running controller unless the worker went before anything recorded it; and every lease charged once, at most its reservation |
| Launch.JournalRecalls | controller/retirement_queue.go:155-204 | so does every journal change, whatever becomes of its write |
| Launch.JournalProved | controller/retirement_queue.go:155-189 | and every proof names its own lease |
| Launch.RunSafe | controller/scaler.go:770-1164 | in every run of any leases, with workers and registrations going by themselves and restarts anywhere |
| Launch.RemovalProved | controller/scaler.go:1136-1164 | in every run a registration that is gone was dropped by GitHub, or removed by a call that the journal's proof of its name, its ID and its scale set allowed at that moment |
| Launch.WentMeans | controller/scaler.go:508-625 | whose worker went by itself in a run |
| Launch.RestartLoses | controller/scaler.go:976-1012 | at any moment of any run, a restart loses a registration if and only if its worker went by itself and no proof of it is in the file |
| Launch.TracedKept | controller/scaler.go:770-1164 | every step keeps each registration, worker, record and proof that did not stray of the identity the registration was made with |
| Launch.StrayedMeans | controller/scaler.go:1052-1080 | of which names a proof strayed in a run: exactly those of which a step wrote a proof that is not of their registration |
| Launch.BookedKept | controller/usage_budget.go:122-297 | every step keeps each lease at one entry of at most one reservation, in memory and in the file |
| Launch.RunCharges | controller/usage_budget.go:122-297 | in every run with closings, replays, adoptions and restarts the ledger charges n leases at most n reservations |
| Launch.ClosedStays | controller/usage_budget.go:160-217 | a closed lease is charged no further; only an adoption opens it, for the whole reservation again |
| Launch.OthersDoNotDisturb | controller/scaler.go:292-359 | steps of other leases leave a lease's proof and record alone; its reservation can only run out, its worker and registration only go by themselves |
| LaunchViews.CalmTakes | controller/scaler.go:1136-1164 | what a lease's calls removed, the journal's proof of it allowed; all else that is gone, others took |
| LaunchViews.ClosedTrans | controller/usage_budget.go:160-200 | closing a lease charges it once, however time passes around it and however often it is closed |
| LaunchViews.FoundBacked | controller/scaler.go:1136-1164 | a runner GitHub reports for a proof's name is the one registration the journal speaks of |
| LaunchViews.FitsExactly | controller/scaler.go:1136-1164 | what it takes that the registration GitHub reports is as the proof says |
| LaunchViews.BindsExactly | controller/retirement_queue.go:155-189 | a proof may be bound to an ID exactly if the journal knows no other |
| LaunchViews.CalmSpares | controller/scaler.go:292-359 | with nobody else acting, a lease's calls remove no registration of another name |
| Scalers.Find | controller/scaler.go:1140-1146 | the registration a name has, in full |
| Scalers.Scaler.Act | controller/scaler.go:770-1164 | every write is an allowed step of this lease, recorded in the run so far, and disturbs no other lease |
| Scalers.Scaler.Await | controller/scaler.go:292-359 | other leases act before a call, and this one is left alone; the call gets the next event |
| Scalers.Scaler.PutProof | controller/retirement_queue.go:155-189 | done means the proof is in memory and file, and that is so if and only if the journal accepts it and the write commits; otherwise what was journaled stays |
| Scalers.Scaler.GetRunnerByName | controller/scaler.go:1140-1146 | an honest answer, and nothing of the lease changes |
| Scalers.Scaler.RemoveRegistration | controller/scaler.go:1136-1164 | removes the registration the proof names and no other: every registration gone meanwhile was taken by others or by a call this very proof allowed; done means the name has none; undisturbed it is done if and only if the proof fits the registration |
| Scalers.Scaler.BindAndRemove | controller/scaler.go:1147-1163 | the ID GitHub reports is journaled before the removal, and only the registration with that ID is removed |
| Scalers.Scaler.Remove | controller/scaler.go:1156-1163 | the removal call acts on the identified registration or on none; it is put off if and only if GitHub still runs its job, and then changes nothing |
| Scalers.Scaler.DestroyWorker | controller/scaler.go:1182-1198 | done means the worker is gone; an unclear answer is settled by the inventory; put off only if the provider said to come back, and then never failed; no registration is touched |
| Scalers.Scaler.Take | controller/scaler.go:1182-1186 | the worker goes and nothing else |
| Scalers.Scaler.ConfirmGone | controller/scaler.go:1187-1198 | an unclear answer counts as done only if the inventory shows no worker |
| Scalers.Scaler.FinishRetirement | controller/scaler.go:1095-1134 | worker first, then registration, then the charge, and only then the proof; done means all are gone and the lease was charged once as its proof says; put off means it was not and the proof stays, and happens no more often than GitHub or the provider ask for it; at every exit the lease is as it was, overdue or closed; no other registration is removed |
| Scalers.Scaler.RetireRegistration | controller/scaler.go:1108-1134 | the same for what follows the worker |
| Scalers.Scaler.CloseLease | controller/scaler.go:1117-1133 | charges the lease once, forgets the record, then drops the proof |
| Scalers.Scaler.DropProof | controller/scaler.go:910-913 | the proof goes once its registration is gone |
| LaunchCleanup.RetireWorker | controller/scaler.go:1052-1080 | journal first; a retirement put off is in the journal and its file and uncharged; undisturbed it finishes if and only if the journal accepts the proof, the proof fits the registration and its scale set is served; wherever it dies, registrations are durable |
| LaunchCleanup.ListedProof | controller/scaler.go:1052-1063 | the proof a retirement writes is of the worker's registration if and only if the provider lists the worker's scale set or it is the controller's own |
| LaunchCleanup.CleanupRejected | controller/scaler.go:901-916 | done means the registration and the proof are gone and the reservation is refunded, and no other registration was removed; undisturbed an open lease leaves the ledger |
| LaunchCleanup.CleanupGeneration | controller/scaler.go:918-944 | done means no registration and no proof, and the lease refunded, or charged only if GitHub had made the registration; undisturbed, charged if and only if it had |
| LaunchCleanup.WithdrawIntent | controller/scaler.go:923-931 | without a registration the proof and the reservation go |
| LaunchCleanup.RetireGenerated | controller/scaler.go:936-942 | a registration made after all is bound and retired |
| LaunchCleanup.CleanupAmbiguous | controller/scaler.go:946-974 | done means retired and charged once, or a worker whose retirement is in the journal and its file; a worker can be left that the journal does not hold only when the launch reported it and its retirement was put off; at every exit the lease is still charged; undisturbed the worker goes, or nothing changes if the journal refuses its proof |
| LaunchCleanup.RetirePartial | controller/scaler.go:948-952 | the worker a failed launch reported is gone, or its retirement put off |
| LaunchCleanup.CleanupRest | controller/scaler.go:953-973 | any other worker of the lease is retired, and without one the registration alone |
| LaunchCleanup.ReleaseLease | controller/scaler.go:906-909 | the reservation is refunded |
| Launches.Commit | controller/scaler.go:866-895 | a started worker is confirmed in the ledger, recorded, and only then loses its proof; at every exit its lease is charged in full; if the ledger does not take it and all else goes well, no worker is left and the lease is forfeited |
| Launches.Discharge | controller/scaler.go:881-887 | a recorded worker's proof leaves the journal |
| Launches.LaunchBound | controller/scaler.go:835-895 | at every exit a worker that runs is charged its whole reservation, and so is every lease unless the provider refused for capacity; with no later call failing, a capacity refusal leaves nothing and gives the lease back if and only if it was open, and any other failed answer leaves no worker and the lease closed at its whole reservation, unless a worker that did start is listed without its scale set and the own one is another; success means a record, no proof and the lease charged in full |
| Launches.FollowUp | controller/scaler.go:843-895 | the same from the moment the answer is there |
| Launches.ReturnLease | controller/scaler.go:846-852 | after a capacity refusal nothing is left, and the lease is given back if and only if it was open |
| Launches.ResolveLaunch | controller/scaler.go:855-865 | an answer that leaves open whether a worker started |
| Launches.BoundReady | controller/scaler.go:946-974 | the journal refuses the retirement of a listed worker if and only if it is listed without its scale set and the controller's own is another |
| Launches.CreateAndLaunch | controller/scaler.go:810-895 | the registration of a journaled intent is made and its ID bound before the launch; with no later call failing, a creation that failed leaves nothing and gives the lease back, and one whose reply was lost or empty leaves no registration and a forfeited lease |
| Launches.BindAndLaunch | controller/scaler.go:820-834 | a reply without the runner's identity is looked up by name, checked and bound before the launch |
| Launches.RegisterAndLaunch | controller/scaler.go:800-895 | every registration made was in the journal and its file at that moment, and every worker started only once its registration's ID was bound there |
| Launches.AllowedJournals | controller/scaler.go:800-860 | that order holds in every run |
| Launches.ReserveAndLaunch | controller/scaler.go:777-799 | a lease is reserved and GitHub asked for its name before anything is journaled; a name that is taken, or not known to be free, leaves nothing |
| Launches.ForfeitIntent | controller/scaler.go:804-808 | an intent that could not be journaled creates nothing and its lease is charged its whole reservation, unless that write fails too |
| Launches.StartWorker | controller/scaler.go:770-896 | one launch: at every exit, death included, registrations are durable, leases charged at most once, none but the lease's own registration removed, and no worker runs without its lease charged its whole reservation; for each of its calls, what is left if that one alone fails; success means a record, no proof and the lease charged in full; undisturbed it succeeds |
| Replay.RestartBacks | controller/scaler.go:976-1012 | after a restart every proof may be acted on |
| Replay.FinishPending | controller/scaler.go:1014-1050 | replaying the journal: entries not put off end with worker, registration, record and proof gone and the lease charged once as the proof says, and no more are put off than GitHub or the provider ask for; only registrations the journal proves are removed; undisturbed, all are gone if and only if every proof's scale set is served and worker and registration are as it says |
| Replay.TakeTurn | controller/scaler.go:1022-1048 | one entry's turn, under the same promises: undisturbed it is done if and only if its own proof stands |
| Replay.ProofStands | controller/scaler.go:1014-1050 | in every run a proof that did not stray is of its registration and of its worker |
| Replay.RetirableIff | controller/scaler.go:1014-1050 | so without a stray proof a journal can be replayed to the end if and only if every scale set it names is served |
| Replay.Recover | controller/scaler.go:976-1050 | from any run, wherever the controller dies, the journal read back can be replayed, and what the file held and is not put off is gone; undisturbed and without a stray proof that is all of it if and only if every scale set the file names is served |
| LaunchExamples.LostInstance | controller/scaler.go:866-895 | a run in which a worker goes by itself after its launch and a restart loses its registration |
| LaunchExamples.LeftBehind | controller/scaler.go:946-974 | a run in which a reported worker is left behind with its lease closed; found again, it is charged once as before |
| LaunchExamples.UnbackedInstance | controller/retirement_queue.go:191-204 | a removal that reported an error after it replaced the file leaves a proof in memory alone, until a restart |
| LaunchExamples.StrayInstance | controller/scaler.go:1052-1080 | a run in which a worker listed without its scale set is retired as another scale set's, and no replay finishes it |
| Gates.Allowance | controller/scaler.go:381-395 | the most of the launches asked for that the gate permits: all when it is open, those within the ceiling when it is closed, a single one above it once the wait is over, and it probes if and only if it does that |
| Gates.RefusedMeans | controller/scaler.go:403-448 | a refusal closes the gate at the workers there are; a hint sets the time, within the bounds, and leaves the backoff as it was; without one the time is the backoff's, which grows |
| Gates.RefusalLowersCeiling | controller/scaler.go:381-448 | with the gate closed, a round refused without probing leaves a strictly lower ceiling |
| Gates.RefusalsBounded | controller/scaler.go:381-448 | so at most as many rounds are refused without a probe as the ceiling was high |
| Gates.ProbeOpens | controller/scaler.go:197-209 | a probe is one launch, and its success opens the gate; nothing else but a refusal changes it |
| Gates.BackoffDoubles | controller/scaler.go:403-448 | in every sequence of rounds, those refused without a hint since the gate last opened wait min(2^k minutes, 15 minutes), whatever comes between |
| Gates.ClosedWaits | controller/scaler.go:403-448 | in every sequence of rounds from an open gate, a closed gate's time is five seconds to fifteen minutes after the last refused round |
| Gates.ProbeWaits | controller/scaler.go:381-448 | so a round that probes comes at least five seconds after the last refused one, through failed probes and gates opened and closed again |
| Gates.Fleet.RecordRefusal | controller/scaler.go:403-448 | a refusal closes the gate at the fleet's size with the next wait |
| Gates.Starts | controller/scaler.go:292-359 | all of a burst's launches started if and only if every answer is a worker |
| Gates.FirstOfMeans | controller/scaler.go:325-345 | the refusal of a kind a burst remembers is the first one that came back |
| Gates.ClosingCloses | controller/scaler.go:349-358 | the gate is closed by the first capacity refusal, by the first rejection if no capacity was refused, and by no capacity refusal of spare room |
| Gates.SpareCount | controller/scaler.go:244-262 | the most runners there are free slots, waiting jobs without an idle runner in a slot, idle runners elsewhere and room in the fleet for |
| Gates.LaunchBurst | controller/scaler.go:292-348 | at most what is needed is begun; nothing after an answer that is no worker but what was in flight with it; short of what is needed only after such an answer |
| Gates.Fleet.Launch | controller/scaler.go:292-359 | the workers started go to one scale set; the gate closes for the first capacity refusal, or without one the first rejection, and not for a capacity refusal of spare room |
| Gates.Fleet.Scale | controller/scaler.go:197-211 | one round that asks for what the scale set lacks as far as the fleet has room, allowed by the gate before it, and starts all the gate permits if every launch succeeds |
| Gates.Fleet.Speculate | controller/scaler.go:244-262 | one round in spare room, likewise |
| Gates.Fleet.HandleDesired | controller/scaler.go:183-262 | one turn of either scale set makes one round for what it lacks, and a second in spare room only if it is the main one, there is a pool and the gate is open, and always then unless a launch was fatal; each is allowed by the gate before it, starts all that permits if every launch succeeds, never takes the fleet above its maximum, and leaves the gate as a round says |
| Bursts.StepKeepsInv | controller/scaler.go:292-359 | every step of a burst keeps its counts and brings its end nearer |
| Bursts.RunKeepsInv | controller/scaler.go:292-359 | in every interleaving |
| Bursts.BurstBounded | controller/scaler.go:292-359 | at most the concurrency limit run at once, and at most that many fail however many were asked for |
| Bursts.BurstEnds | controller/scaler.go:292-359 | a burst that is over started everything, or failed at least once |
| Bursts.BurstTerminates | controller/scaler.go:292-359 | a burst for n launches ends within 4n steps |
| Bursts.FleetBounded | controller/scale_sets.go:46-56 | at any point of any interleaving the fleet with launches in progress stays within its maximum |
| Bursts.SpareBounded | controller/scaler.go:244-262 | so does a burst for jobs that wait elsewhere, which also stays within the spare room, the idle runners and the jobs waiting |
| Meters.MeterIsIntegral | pool/usage.go:96-122 | if each change is followed by an accrual, a host's meter is the integral of its running, ready and busy state, however the pool's slot estimate moves |
| Meters.ExtraAccrual | pool/usage.go:96-122 | an accrual in between changes nothing |
| Meters.ReadyWithinRunning | pool/usage.go:96-122 | ready time never exceeds running time, nor ready busy time busy time |
| Meters.Busy | pool/usage.go:113-119 | the slots counted busy: those held, never more than the host has, none while it is not billed |
| Meters.OfferedSoFar | pool/usage.go:124-141 | the slot time offered is that of the slots a host has now, or the most any host reported if it was never probed, over all the time it ran or was ready |
| Meters.BusyWithinSlots | pool/usage.go:96-131 | busy time never exceeds the slots of the running time, as long as their number is known |
| Meters.BusyWithinOffered | pool/usage.go:96-141 | no more slot time is busy than offered if the host never had more busy slots than it has slots now |
| Meters.BusyBeyond | pool/usage.go:96-141 | and, for a host in one state, only then |
| Meters.TotalSplit | pool/usage.go:134-151 | the pool's total is any one host's use plus the rest's |
| Meters.PoolMeter.Accrue | pool/usage.go:96-122 | every host's meter is brought to now |
| Meters.PoolMeter.Forget | pool/usage.go:143-151 | a forgotten host leaves the pool's total as an accrual at that instant makes it |
| HostPools.AddListed | pool/compute.go:738-769 | every listed host is known, new ones first seen now |
| HostPools.DropMissing | pool/compute.go:770-779 | a host goes if and only if the listing misses it and it was not first seen after the listing began |
| HostPools.TakeListing | pool/compute.go:717-784 | the hosts afterwards are exactly those listed and those first seen after the listing began; each keeps the time it was first seen, and a new one gets now |
| HostPools.SizeBounds | pool/compute.go:1403-1453 | machines and creations under way are within what the pool counts |
| HostPools.ListingsStay | pool/compute.go:717-784 | a listing in flight can never drop a machine the pool learned of since |
| HostPools.StepKeepsInv | pool/compute.go:1403-1559 | every growth, creation, listing and return keeps every machine tracked and the total within the maximum |
| HostPools.NeverAboveMaximum | pool/compute.go:1403-1453 | in every interleaving after a first listing, machines plus creations in flight never exceed max_hosts |
| HostPools.GrowToMaximum | pool/compute.go:1403-1453 | growing as far as allowed stays within the maximum if and only if the pool counts at least what there is and is on its way |
| HostPools.GrowthBeforeListing | pool/compute.go:533-546 | growing before the first listing can exceed the maximum |
| HostAgents.Slot.Start | hostagent/agent.go:271-320 | succeeds if and only if the slot was empty and every check and call went well; it refuses as malformed, busy or for Docker exactly when that is so, in that order; only a Docker failure can leave a container, and then this lease's |
| HostAgents.Slot.Remove | hostagent/agent.go:554-578 | removes the lease's own container and never another's, and says so exactly then |
| Slots.WhereKept | pool/compute.go:379-442 | every step keeps a lease's container only where its launch says, and never beside a request that may still start it |
| Slots.HostStays | pool/compute.go:949-1133 | every step keeps a known host's reservations exactly the starts not heard of |
| Slots.StepKeepsInv | pool/compute.go:379-442 | every step keeps both |
| Slots.RunKeepsInv | pool/compute.go:379-442 | in every run |
| Slots.LeaseHasOnePlace | pool/compute.go:379-442 | in every run with lost answers, late starts and stale listings, a lease has a container in at most one slot of any host or tier, at the reported place when a worker is reported, and in none after a capacity error |
| Slots.PickedHostIsFree | pool/compute.go:1185-1303 | a host picked as empty has no reservation, and the pool waits for no start on it, until it is returned or restored; and it never waits for two starts on one slot of a known host |
| Slots.VerifiedHost | pool/compute.go:1185-1339 | from the listing that verified a picked host until it serves again, through deletion, stopping and a stopped host's discarding, only starts that the pool had given up waiting for, and whose request was still open at that listing, can put a container on it |
| Slots.LateStartIsPossible | pool/compute.go:1185-1220 | and each of those can, up to and beyond the host's return |
| Slots.LateInstance | pool/compute.go:416-436 | a run that returns a host with such a container on it |
| SlotPools.FreeSlot | pool/compute.go:165-176 | the lowest free slot, or none if and only if there is none |
| SlotPools.FreeCount | pool/compute.go:178-188 | the number of free slots |
| SlotPools.FreeBelowMeans | pool/compute.go:178-188 | which is the size of the set of free slots |
| SlotPools.PickPlace | pool/compute.go:949-978 | the lowest free slot of an eligible host, not resting after a refusal, than which no eligible host of its freshness has fewer free slots and no fresher one is eligible; none if and only if none is eligible |
| SlotPools.Placement.Do | pool/compute.go:949-1133 | every change is a step of the slot machine |
| SlotPools.Placement.Await | pool/compute.go:379-442 | others act, hosts end their rest, and this launch stands where it stood |
| SlotPools.Placement.Ask | pool/compute.go:401-435 | only an answer the agent gives with the slot untouched, or a host not reached, frees the slot, and then the host rests or the slot counts as taken; anything else is read back and keeps the slot; which of these it is depends on the answer alone |
| SlotPools.Placement.Deliver | pool/compute.go:398-420 | there is a container if and only if the agent's own start made one; every refusal but a Docker failure means there is none |
| SlotPools.Placement.FreeUp | pool/compute.go:408-419 | the reservation goes, and a busy slot is taken for another's |
| SlotPools.Placement.ReadBack | pool/compute.go:420-436 | a listing that shows the lease is its start; otherwise the slot stays taken and the host rests |
| SlotPools.Placement.Destroy | pool/compute.go:480-513 | of all containers only the lease's that the worker ID names, in the slot it names, can go, so an ID from an earlier use of the slot harms nobody; it is gone, and not counted, if and only if the host is known and runs, the agent answers, and the removal goes well or finds another lease; to be tried again only otherwise |
| SlotPools.WorkerIsNamed | pool/placement.go:210-220 | a worker's own ID, through tier and host, names its slot and its lease |
| SlotPools.Placement.LaunchIn | pool/compute.go:379-442 | tries at most three slots of one pool; no room only after three refusals or when no host is eligible; where a host is eligible and its agent starts the runner, it is started; the reported place is the launch's |
| SlotPools.Placement.Launch | pool/placement.go:98-126 | pools in order: every pool before the one it ends in had no room, all of them if it reports none, and never another one after a worker or an unclear start |
| SlotPools.AfterKeepsInv | pool/compute.go:379-442 | whatever the script, the slot invariant holds afterwards |
| SlotPools.ReportedPlace | pool/placement.go:98-161 | after any run a container of the lease is at the place its launch reported, and there is none after no room |

## Left out

The rest of the repository, and what the model does not capture:

- HTTP, SSH, Docker, git and file writing themselves: their stated contracts stand in.
- Provider adapters, price and cost arithmetic, rate limiting, status, alerts, logs, the command line, setup and the website: they decide nothing in the protocols.
- Session supervision and wake-ups: handlers may run at any time.
- Image tag following and host replacement: only the phases they set.
- The controller's reconciliation and recovery loops: only their adopt, retire and replay steps.
- Cancelling runs and re-running failed jobs on GitHub: they change no branch, label or comment.
- Forming reads the target and the branches at one moment. A branch that moves between two fetches is seen to have moved by the check or by the push, so the outcomes are the same.
- Whether a rebase conflicts is an oracle of the three commits; merge commits and the contents of patches are not modelled.
- Authors only append commits; a branch rewritten by its author is not a step.
- The target is moved by others only by appending commits of no pull request.
- A tick reads the pull requests, their comments and the target at one moment; what changes after that is interference.
- QueueRuns.FineKept: no pull request with a landing still to be told of is stacked, retried or told anything else; `QueueWholeTick.PlanStands` derives that where nothing listed is hidden but one landing whose top is listed, and `QueueRuns.StackExactIff` and `EmptyMemberIff` say what is built elsewhere. So do the other results over runs of that machine, among them `QueueRuns.StackExactInRun` and `PatchLandsOnceInRun`: they end where such a pull request is stacked, and `QueueWholeTick.Run` says what is left.
- QueueDrain.QueueDrains: says nothing of worlds where a pull request was stacked while its landing was hidden; two stacks may then share a member without a commit.
- QueuePlanMeans.LineMeans: the queue's order, by the time of the label and then the number, is given.
- Checks.Evaluate: file patterns are matched by an oracle in place of the glob library.
- Markers.CommentReads: the landed marker and the comments without a stack are not modelled as text.
- Ledger.PrunedIsRecent: lease IDs are fresh and the clock does not go back; durations are exact integers.
- UsageBudgets.UsageBudget.Reserve: 64-bit sums appear only as the bound in `Ledger.UsedBound` and `UsageBudgets.Validate`.
- Launch.SafeKept: the reservation is the same before and after a restart, and the ledger is its never-pruned history, to which `UsageBudgets.UsageBudget` ties the pruned one.
- LaunchCleanup.CleanupAmbiguous: a lease has at most one worker, named after it, so the inventory shows at most one.
- Replay.FinishPending: asks that a proof in memory whose registration is there is in the file too; `Replay.RestartBacks` gives that after every restart, and `LaunchExamples.UnbackedInstance` shows the one write error, which ends the controller, after which it does not hold. No other lease is launched or retired during a replay, as the controller's handlers take turns.
- Launches.StartWorker: lease IDs are fresh, and a name once registered is not registered again.
- Scalers.Scaler.RemoveRegistration: the scale set is compared only when GitHub reports one, as in the source.
- Gates.LaunchBurst: as many launches are in flight as the limit lets; `Bursts` has every interleaving.
- Gates.Fleet.HandleDesired: the count of spare runners is modelled, the choice of pools for them is not.
- HostPools.NeverAboveMaximum: host IDs are never reused, the source lists linearizably, and a failed creation creates nothing.
- Meters.MeterIsIntegral: slot time is in whole slot-nanoseconds.
- HostAgents.Slot.Start: one slot under its lock; work directories and caches are not modelled.
- Slots.VerifiedHost: which stopped hosts are one too many is not modelled, only that a stopped host may be discarded.
- Slots.LeaseHasOnePlace: a host that left the pool does not come back under the same ID.
- SlotPools.Placement.Launch: tiers being drained are left out of the list of pools beforehand.
