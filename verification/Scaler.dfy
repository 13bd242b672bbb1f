/**
 Retiring one worker as the controller does it. Before each of its calls and
 writes other leases act, the call may fail before or after it took effect, and
 the controller may die; a script says when.
 */
module Scalers {
  import opened Options
  import Disk
  import J = Journals
  import L = Ledger
  import opened Launch
  import opened LaunchViews

  datatype Reply = Done | Deferred | Transient | Failed | Dead

  /** The registration a name has, if any, as GitHub would report it in full. */
  method Find(s: Sys, name: string) returns (answer: Option<Runner>)
    ensures Honest(s, name, answer) && Exact(s, name, answer)
  {
    if Registered(s, name) {
      var id :| id in s.regs && s.regs[id].name == name;
      return Some(Runner(id, name, s.regs[id].scaleSet));
    }
    return None;
  }

  class Scaler {
    const served: set<int>
    var sys: Sys
    var script: seq<Event>
    ghost const start: Sys
    ghost var trace: seq<Step>

    /** The state is what the steps taken so far lead to, and each was allowed:
        at every moment, and so wherever the controller dies, no registration
        is forgotten and no lease charged beyond its reservation. */
    ghost predicate Valid()
      reads this
    {
      Safe(sys) && sys == After(start, trace) && Allowed(start, trace)
    }

    ghost function Now(): View
      reads this
    {
      View(sys, script, trace)
    }

    constructor (sys: Sys, served: set<int>, script: seq<Event>)
      requires Safe(sys)
      ensures Valid() && this.sys == sys == start && trace == [] && this.served == served && this.script == script
    {
      this.sys, this.served, this.script := sys, served, script;
      start, trace := sys, [];
    }

    /** A step of this lease. */
    method Act(step: Step, lease: string)
      requires Valid() && Enabled(sys, step) && Mine(step, lease)
      modifies `sys, `trace
      ensures Valid() && sys == Next(old(sys), step) && trace == old(trace) + [step]
      ensures Calm(old(Now()), Now(), lease, if step.Unregister? then Only(step.proof) else Nobody)
    {
      hide Safe, Calm, Next, Enabled, After, Allowed;
      SafeKept(sys, step);
      CalmStep(sys, script, trace, step, lease);
      OneMore(start, trace, step);
      sys, trace := Next(sys, step), trace + [step];
    }

    /** Others act before a call of this lease. */
    method Await(lease: string) returns (event: Event)
      requires Valid()
      modifies `sys, `script, `trace
      ensures Valid() && Undisturbed(old(sys), sys, lease) && Calm(old(Now()), Now(), lease, Nobody)
      ensures event == Coming(old(script)) && script == Rest(old(script)) && (event.others == [] ==> sys == old(sys))
      ensures Alone(old(script)) ==> OnlyOutside(old(sys), sys)
      ensures DelaysIn(script) + (if Delays(event) then 1 else 0) == DelaysIn(old(script))
    {
      hide Safe, Next, Enabled, Undisturbed, After, Allowed, OfOthers, Followed, ByItself;
      StillUndisturbed(sys, lease);
      StillCalm(Now(), lease, Nobody);
      if script == [] { return QUIET; }
      event := script[0];
      script := script[1..];
      for i := 0 to |event.others|
        invariant Valid() && Undisturbed(old(sys), sys, lease) && script == old(script)[1..]
        invariant Trailed(old(Now()), Now(), lease, Nobody) && (i == 0 ==> sys == old(sys))
        invariant Alone(old(script)) ==> OthersKept(old(sys), sys, lease) && OnlyOutside(old(sys), sys)
      {
        var step := event.others[i];
        if OfOthers(step, lease) && Enabled(sys, step) {
          OthersStep(old(sys), sys, step, lease);
          OneMore(start, trace, step);
          if Alone(old(script)) { AloneStep(old(sys), sys, step, lease); }
          TheirStep(step, old(script), lease);
          sys, trace := Next(sys, step), trace + [step];
        }
      }
      if Alone(old(script)) { AloneTail(old(script)); }
    }

    /** Writes a proof to the journal. */
    method PutProof(p: J.Proof) returns (r: Reply)
      requires Valid() && p.name == NameOf(p.lease)
      modifies `sys, `script, `trace
      ensures DelaysIn(script) + (if r.Deferred? || r.Transient? then 1 else 0) <= DelaysIn(old(script))
      ensures Valid() && Calm(old(Now()), Now(), p.lease, Nobody)
      ensures Elsewhere(old(sys), sys, p.lease) && ProofKept(old(sys), sys, p.name)
      ensures r.Done? ==>
                && J.Accepts(old(sys).journal, p) && Journaled(sys, p.name)
                && sys.journal[p.name] == sys.file[p.name] == J.Merged(old(sys).journal, p)
      ensures Agrees(old(sys), p) ==> Straight(old(sys), sys, p.name)
      ensures r.Done? || r.Failed? || r.Dead?
      ensures script == Rest(old(script)) && (r.Failed? ==> (p.name in sys.journal <==> p.name in old(sys).journal))
      ensures r.Dead? <==> Coming(old(script)).fate.Dies?
      ensures Coming(old(script)).others == [] && !Coming(old(script)).fate.Dies? ==>
                && (r.Done? <==> J.Accepts(old(sys).journal, p) && Coming(old(script)).write.Committed?)
                && sys.ledger == old(sys).ledger
      ensures Plain(Coming(old(script))) ==>
                if J.Accepts(old(sys).journal, p) then r.Done? && OnlyJournal(old(sys), sys)
                else r.Failed? && sys == old(sys)
    {
      hide DelaysIn, Safe, J.Managed, Trailed, OthersKept, Alone, After, Allowed, Elsewhere, ProofKept, Undisturbed,
           Next, Enabled;
      var event := Await(p.lease);
      UndisturbedIsKept(old(sys), sys, p.lease);
      SameForOne(old(sys), sys, p);
      if event.fate.Dies? { return Dead; }
      r := if J.Accepts(sys.journal, p) && event.write.Committed? then Done else Failed;
      if J.Accepts(sys.journal, p) {
        SafeNamed(sys);
        ghost var v1 := Now();
        PutStep(sys, p, event.write);
        Act(Journal(J.Put(p, event.write)), p.lease);
        CalmTrans(old(Now()), v1, Now(), p.lease, Nobody, Nobody, Nobody);
        ElsewhereTrans(old(sys), v1.sys, sys, p.lease);
        ProofKeptTrans(old(sys), v1.sys, sys, p.name);
      }
    }

    method GetRunnerByName(p: J.Proof) returns (r: Reply, answer: Option<Runner>)
      requires Valid() && p.name == NameOf(p.lease)
      modifies `sys, `script, `trace
      ensures DelaysIn(script) + (if r.Deferred? || r.Transient? then 1 else 0) <= DelaysIn(old(script))
      ensures Valid() && Calm(old(Now()), Now(), p.lease, Nobody)
      ensures Undisturbed(old(sys), sys, p.lease)
      ensures r.Done? || r.Failed? || r.Dead?
      ensures r.Done? ==> Honest(sys, p.name, answer)
      ensures script == Rest(old(script)) && (r.Dead? <==> Coming(old(script)).fate.Dies?)
      ensures old(script) == [] ==> sys == old(sys) && r.Done? && Exact(sys, p.name, answer)
      ensures Coming(old(script)).others == [] && !Coming(old(script)).fate.Dies? ==>
                && sys == old(sys) && (r.Done? <==> Coming(old(script)).fate.Works?)
                && (r.Done? && Honest(sys, p.name, Coming(old(script)).answer) ==>
                      answer == Coming(old(script)).answer || Coming(old(script)) == QUIET)
      ensures Plain(Coming(old(script))) && !Registered(old(sys), p.name) ==> sys == old(sys) && r.Done? && answer.None?
    {
      hide DelaysIn, Safe, Undisturbed, Trailed, OthersKept, Alone, After, Allowed;
      answer := None;
      var event := Await(p.lease);
      if event.fate.Dies? { return Dead, None; }
      if !event.fate.Works? { return Failed, None; }
      if event != QUIET && Honest(sys, p.name, event.answer) {
        answer := event.answer;
      } else {
        answer := Find(sys, p.name);
      }
      r := Done;
    }

    /** Removes the registration a proof is about, and no other: it refuses a
        runner of another name, another scale set or another ID. */
    method RemoveRegistration(p: J.Proof) returns (r: Reply)
      requires Valid() && Backed(sys, p)
      modifies `sys, `script, `trace
      ensures DelaysIn(script) + (if r.Deferred? || r.Transient? then 1 else 0) <= DelaysIn(old(script))
      ensures Valid() && Calm(old(Now()), Now(), p.lease, Only(p))
      ensures OnlyIts(start, old(Now()), Now(), p.lease, Only(p))
      ensures Elsewhere(old(sys), sys, p.lease) && ProofKept(old(sys), sys, p.name)
      ensures Straight(old(sys), sys, p.name)
      ensures r.Done? ==> !Registered(sys, p.name)
      ensures old(script) == [] ==>
                && (r.Done? <==> p.scaleSet in served && Fits(old(sys), p)) && (r.Done? || r.Failed?)
                && sys.ledger == old(sys).ledger
    {
      hide DelaysIn, Safe, J.Managed, J.Merged, J.Accepts, Undisturbed, Trailed, OthersKept, Alone, Elsewhere, ProofKept,
           Identified, Honest, Exact, Fits, Registered, After, Allowed, OnlyIts;
      StillUndisturbed(sys, p.lease);
      UndisturbedIsKept(sys, sys, p.lease);
      StillCalm(Now(), p.lease, Only(p));
      CalmTakes(start, Now(), Now(), p.lease, Only(p));
      if p.scaleSet !in served { return Failed; }
      var answer;
      r, answer := GetRunnerByName(p);
      UndisturbedIsKept(old(sys), sys, p.lease);
      CalmTrans(old(Now()), old(Now()), Now(), p.lease, Only(p), Nobody, Only(p));
      CalmTakes(start, old(Now()), Now(), p.lease, Only(p));
      if !r.Done? { return; }
      if answer.None? {
        NoneIsUnregistered(sys, p.name);
        GoneFits(sys, p);
        return;
      }
      var runner := answer.value;
      ghost var alone := old(script) == [];
      if alone {
        AnswerBacked(sys, p, runner);
        FitsExactly(sys, p, runner);
      }
      if runner.name != p.name || (runner.scaleSet != 0 && runner.scaleSet != p.scaleSet) { return Failed; }
      FoundBacked(old(sys), sys, p, runner);
      ghost var v1 := Now();
      if p.id == 0 {
        if alone { BindsExactly(sys, p, runner.id); }
        r := BindAndRemove(p, runner);
      } else if runner.id != p.id {
        return Failed;
      } else {
        r := Remove(p, runner.scaleSet);
      }
      CalmTrans(old(Now()), v1, Now(), p.lease, Only(p), Only(p), Only(p));
      CalmTakes(start, old(Now()), Now(), p.lease, Only(p));
      ElsewhereTrans(old(sys), v1.sys, sys, p.lease);
      ProofKeptTrans(old(sys), v1.sys, sys, p.name);
    }

    /** Writes the ID GitHub reported into the journal, then removes. */
    method BindAndRemove(p: J.Proof, runner: Runner) returns (r: Reply)
      requires Valid() && p.name == NameOf(p.lease) && p.scaleSet in served
      requires p.id == 0 && p.name in sys.journal && J.SameProof(p, sys.journal[p.name])
      requires J.ValidProof(sys.journal[p.name])
      requires Honest(sys, p.name, Some(runner)) && runner.name == p.name
      requires (runner.scaleSet == 0 || runner.scaleSet == p.scaleSet)
      requires 0 < runner.id <= sys.lastId && runner.id in sys.regs && sys.regs[runner.id].name == p.name
      requires forall id :: id in sys.regs && sys.regs[id].name == p.name ==> id == runner.id
      modifies `sys, `script, `trace
      ensures DelaysIn(script) + (if r.Deferred? || r.Transient? then 1 else 0) <= DelaysIn(old(script))
      ensures Valid() && Calm(old(Now()), Now(), p.lease, Only(p.(id := runner.id)))
      ensures Calm(old(Now()), Now(), p.lease, Only(p))
      ensures OnlyIts(start, old(Now()), Now(), p.lease, Only(p.(id := runner.id)))
      ensures Elsewhere(old(sys), sys, p.lease) && ProofKept(old(sys), sys, p.name)
      ensures Straight(old(sys), sys, p.name)
      ensures r.Done? ==> !Registered(sys, p.name)
      ensures old(script) == [] ==>
                && (r.Done? <==> J.Accepts(old(sys).journal, p.(id := runner.id))) && (r.Done? || r.Failed?)
                && sys.ledger == old(sys).ledger
    {
      hide DelaysIn, Safe, J.Managed, J.Merged, J.Accepts, Undisturbed, Trailed, OthersKept, Alone, Elsewhere, ProofKept,
           Identified, Honest, Fits, Registered, After, Allowed, OnlyIts;
      var bound := p.(id := runner.id);
      ghost var whom := Only(bound);
      BoundAgrees(sys, p, runner.id);
      StillCalm(Now(), p.lease, whom);
      r := PutProof(bound);
      CalmTrans(old(Now()), old(Now()), Now(), p.lease, whom, Nobody, whom);
      StillCalm(Now(), p.lease, whom);
      CalmTrans(old(Now()), Now(), Now(), p.lease, whom, whom, Only(p));
      CalmTakes(start, old(Now()), Now(), p.lease, whom);
      if !r.Done? { return; }
      BoundNow(old(sys), sys, p, runner);
      ghost var v1 := Now();
      r := Remove(bound, runner.scaleSet);
      CalmTrans(old(Now()), v1, Now(), p.lease, whom, whom, whom);
      CalmTrans(old(Now()), v1, Now(), p.lease, whom, whom, Only(p));
      CalmTakes(start, old(Now()), Now(), p.lease, whom);
      ElsewhereTrans(old(sys), v1.sys, sys, p.lease);
      ProofKeptTrans(old(sys), v1.sys, sys, p.name);
    }

    /** The removal call itself. */
    method Remove(p: J.Proof, reported: int) returns (r: Reply)
      requires Valid() && p.name == NameOf(p.lease) && Identified(sys, p, reported)
      modifies `sys, `script, `trace
      ensures DelaysIn(script) + (if r.Deferred? || r.Transient? then 1 else 0) <= DelaysIn(old(script))
      ensures Valid() && Calm(old(Now()), Now(), p.lease, Only(p))
      ensures OnlyIts(start, old(Now()), Now(), p.lease, Only(p))
      ensures Elsewhere(old(sys), sys, p.lease) && ProofKept(old(sys), sys, p.name)
      ensures Straight(old(sys), sys, p.name)
      ensures r.Done? ==> !Registered(sys, p.name)
      ensures old(script) == [] ==> r.Done? && sys.ledger == old(sys).ledger
      ensures !Coming(old(script)).fate.Dies? ==> (r.Deferred? <==> Coming(old(script)).jobRunning) && !r.Transient?
      ensures r.Deferred? && Coming(old(script)).others == [] ==> sys == old(sys)
    {
      hide DelaysIn, Safe, J.Managed, Trailed, OthersKept, Alone, Elsewhere, ProofKept, Identified, Undisturbed,
           Registered, Next, Enabled, After, Allowed, OnlyIts;
      StillCalm(Now(), p.lease, Only(p));
      var event := Await(p.lease);
      UndisturbedIsKept(old(sys), sys, p.lease);
      CalmTrans(old(Now()), old(Now()), Now(), p.lease, Only(p), Nobody, Only(p));
      CalmTakes(start, old(Now()), Now(), p.lease, Only(p));
      if event.fate.Dies? { return Dead; }
      if event.jobRunning { return Deferred; }
      RemoveStep(old(sys), sys, p, reported);
      if !event.fate.Fails? && p.id in sys.regs {
        ghost var v1 := Now();
        Act(Unregister(p.id, p, reported), p.lease);
        CalmTrans(old(Now()), v1, Now(), p.lease, Only(p), Only(p), Only(p));
        CalmTakes(start, old(Now()), Now(), p.lease, Only(p));
        ElsewhereTrans(old(sys), v1.sys, sys, p.lease);
        ProofKeptTrans(old(sys), v1.sys, sys, p.name);
      }
      r := if event.fate.Works? then Done else Failed;
    }

    /** Destroys the worker; an unclear answer is settled by the inventory. */
    method DestroyWorker(p: J.Proof) returns (r: Reply)
      requires Valid() && Backed(sys, p)
      modifies `sys, `script, `trace
      ensures DelaysIn(script) + (if r.Deferred? || r.Transient? then 1 else 0) <= DelaysIn(old(script))
      ensures Valid() && Calm(old(Now()), Now(), p.lease, Nobody)
      ensures Elsewhere(old(sys), sys, p.lease) && ProofKept(old(sys), sys, p.name)
      ensures Straight(old(sys), sys, p.name)
      ensures r.Done? ==> p.name !in sys.workers
      ensures (r.Failed? ==> !Coming(old(script)).transient) && (r.Transient? ==> Coming(old(script)).transient)
      ensures !r.Deferred?
      ensures old(script) == [] ==> r.Done? && OnlyWorkers(old(sys), sys)
    {
      hide DelaysIn, Safe, J.Managed, Trailed, OthersKept, Alone, Undisturbed, Elsewhere, ProofKept, Next, Enabled,
           Backed, After, Allowed;
      BackedName(sys, p);
      var event := Await(p.lease);
      UndisturbedIsKept(old(sys), sys, p.lease);
      BackedKept(old(sys), sys, p);
      if event.fate.Dies? { return Dead; }
      ghost var v1 := Now();
      if !event.fate.Fails? {
        Take(p);
        CalmTrans(old(Now()), v1, Now(), p.lease, Nobody, Nobody, Nobody);
        ElsewhereTrans(old(sys), v1.sys, sys, p.lease);
        ProofKeptTrans(old(sys), v1.sys, sys, p.name);
      }
      if event.fate.Works? { return Done; }
      ghost var v2 := Now();
      r := ConfirmGone(p);
      ElsewhereTrans(old(sys), v2.sys, sys, p.lease);
      ProofKeptTrans(old(sys), v2.sys, sys, p.name);
      CalmTrans(old(Now()), v2, Now(), p.lease, Nobody, Nobody, Nobody);
      if r.Failed? && event.transient { r := Transient; }
    }

    /** The provider takes the worker away. */
    method Take(p: J.Proof)
      requires Valid() && Backed(sys, p)
      modifies `sys, `trace
      ensures Valid() && Calm(old(Now()), Now(), p.lease, Nobody)
      ensures Elsewhere(old(sys), sys, p.lease) && ProofKept(old(sys), sys, p.name)
      ensures OnlyWorkers(old(sys), sys) && p.name !in sys.workers
    {
      hide Safe, Trailed, OthersKept, Alone, Elsewhere, ProofKept, Next, Enabled, Backed, After, Allowed;
      DestroyStep(sys, p);
      Act(Destroy(p.name), p.lease);
    }

    /** Asks the inventory whether the worker is gone after all. */
    method ConfirmGone(p: J.Proof) returns (r: Reply)
      requires Valid() && p.name == NameOf(p.lease)
      modifies `sys, `script, `trace
      ensures Valid() && Calm(old(Now()), Now(), p.lease, Nobody)
      ensures Elsewhere(old(sys), sys, p.lease) && ProofKept(old(sys), sys, p.name)
      ensures Straight(old(sys), sys, p.name) && (r.Done? || r.Failed? || r.Dead?)
      ensures r.Done? ==> p.name !in sys.workers
      ensures DelaysIn(script) <= DelaysIn(old(script))
    {
      hide DelaysIn, Safe, Trailed, OthersKept, Alone, Undisturbed, Elsewhere, ProofKept, After, Allowed;
      var inventory := Await(p.lease);
      UndisturbedIsKept(old(sys), sys, p.lease);
      if inventory.fate.Dies? { return Dead; }
      r := if inventory.fate.Works? && p.name !in sys.workers then Done else Failed;
    }

    /** Finishes a retirement: the worker goes first, then its registration,
        then the lease is charged, and only then the proof goes. */
    method FinishRetirement(w: Worker, present: bool, p: J.Proof) returns (r: Reply)
      requires Valid() && Backed(sys, p)
      modifies `sys, `script, `trace
      ensures DelaysIn(script) + (if r.Deferred? || r.Transient? then 1 else 0) <= DelaysIn(old(script))
      ensures Valid() && Calm(old(Now()), Now(), p.lease, Only(p))
      ensures OnlyIts(start, old(Now()), Now(), p.lease, Only(p))
      ensures Backed(sys, p) && OnlyGoes(old(sys), sys, p.lease) && Remembered(old(sys), sys, p.lease)
      ensures r.Done? ==> Retired(sys, p) && (present ==> p.name !in sys.workers)
      ensures r.Done? ==> ClosedAs(Ledgered(old(sys).ledger, p.lease), Ledgered(sys.ledger, p.lease), p)
      ensures Spent(Ledgered(old(sys).ledger, p.lease), Ledgered(sys.ledger, p.lease), p)
      ensures r.Deferred? || r.Transient? ==>
                && Aged(Ledgered(old(sys).ledger, p.lease), Ledgered(sys.ledger, p.lease))
                && ProofKept(old(sys), sys, p.name)
      ensures Straight(old(sys), sys, p.name)
      ensures old(script) == [] ==>
                && (r.Done? <==> Matches(w, p) && p.scaleSet in served && Fits(old(sys), p)) && (r.Done? || r.Failed?)
    {
      hide DelaysIn, Safe, J.Managed, Trailed, OthersKept, Alone, Elsewhere, ProofKept, OnlyGoes, Fits, Remembered,
           After, Allowed, OnlyIts, Aged, ClosedAs, Backed, Registered;
      BackedName(sys, p);
      StillCalm(Now(), p.lease, Only(p));
      CalmTakes(start, Now(), Now(), p.lease, Only(p));
      StillThere(sys, p.lease);
      RemembersItself(sys, p.lease);
      StillElsewhere(sys, p);
      if !Matches(w, p) { return Failed; }
      if present {
        r := DestroyWorker(p);
        CalmTrans(old(Now()), old(Now()), Now(), p.lease, Only(p), Nobody, Only(p));
        CalmTakes(start, old(Now()), Now(), p.lease, Only(p));
        BackedKept(old(sys), sys, p);
        ElsewhereGoes(old(sys), sys, p.lease);
        ElsewhereRemembers(old(sys), sys, p.lease);
        if !r.Done? { return; }
        if old(script) == [] { FitsStays(old(sys), sys, p); }
      }
      ghost var v1 := Now();
      r := RetireRegistration(p);
      GoesTrans(old(sys), v1.sys, sys, p.lease);
      RemembersTrans(old(sys), v1.sys, sys, p.lease);
      CalmTrans(old(Now()), v1, Now(), p.lease, Only(p), Only(p), Only(p));
      CalmTakes(start, old(Now()), Now(), p.lease, Only(p));
      TwoSteps(old(sys), v1.sys, sys, p);
    }

    /** What follows once there is no worker. */
    method RetireRegistration(p: J.Proof) returns (r: Reply)
      requires Valid() && Backed(sys, p)
      modifies `sys, `script, `trace
      ensures DelaysIn(script) + (if r.Deferred? || r.Transient? then 1 else 0) <= DelaysIn(old(script))
      ensures Valid() && Calm(old(Now()), Now(), p.lease, Only(p))
      ensures Backed(sys, p) && OnlyGoes(old(sys), sys, p.lease) && Remembered(old(sys), sys, p.lease)
      ensures r.Done? ==> Retired(sys, p)
      ensures r.Done? ==> ClosedAs(Ledgered(old(sys).ledger, p.lease), Ledgered(sys.ledger, p.lease), p)
      ensures Spent(Ledgered(old(sys).ledger, p.lease), Ledgered(sys.ledger, p.lease), p)
      ensures r.Deferred? || r.Transient? ==>
                && Aged(Ledgered(old(sys).ledger, p.lease), Ledgered(sys.ledger, p.lease))
                && ProofKept(old(sys), sys, p.name)
      ensures Straight(old(sys), sys, p.name)
      ensures old(script) == [] ==> (r.Done? <==> p.scaleSet in served && Fits(old(sys), p)) && (r.Done? || r.Failed?)
    {
      hide DelaysIn, Safe, J.Managed, Trailed, OthersKept, Alone, Elsewhere, ProofKept, OnlyGoes, Fits, Remembered,
           After, Allowed, OnlyIts, Aged, ClosedAs, Backed, Registered;
      BackedName(sys, p);
      r := RemoveRegistration(p);
      BackedKept(old(sys), sys, p);
      ElsewhereGoes(old(sys), sys, p.lease);
      ElsewhereRemembers(old(sys), sys, p.lease);
      if !r.Done? { return; }
      ghost var v1 := Now();
      r := CloseLease(p);
      NothingToRemember(old(sys), sys, p);
      GoesTrans(old(sys), v1.sys, sys, p.lease);
      CalmTrans(old(Now()), v1, Now(), p.lease, Only(p), Nobody, Only(p));
      TwoSteps(old(sys), v1.sys, sys, p);
    }

    /** Charges the lease of a worker and registration that are gone, then
        forgets them. */
    method CloseLease(p: J.Proof) returns (r: Reply)
      requires Valid() && p.name == NameOf(p.lease) && !Registered(sys, p.name)
      modifies `sys, `script, `trace
      ensures DelaysIn(script) + (if r.Deferred? || r.Transient? then 1 else 0) <= DelaysIn(old(script))
      ensures Valid() && Calm(old(Now()), Now(), p.lease, Nobody) && Backed(sys, p) && OnlyGoes(old(sys), sys, p.lease)
      ensures Straight(old(sys), sys, p.name)
      ensures !Registered(sys, p.name) && (r.Done? ==> Retired(sys, p))
      ensures Spent(Ledgered(old(sys).ledger, p.lease), Ledgered(sys.ledger, p.lease), p)
      ensures r.Done? ==> ClosedAs(Ledgered(old(sys).ledger, p.lease), Ledgered(sys.ledger, p.lease), p)
      ensures r.Done? || r.Failed? || r.Dead?
      ensures old(script) == [] ==> r.Done?
    {
      hide DelaysIn, Safe, J.Managed, Trailed, OthersKept, Alone, Undisturbed, OnlyGoes, Next, Enabled, Registered,
           After, Allowed, ClosedAs, Aged;
      ghost var entry := Ledgered(sys.ledger, p.lease);
      var event := Await(p.lease);
      Watched(old(sys), sys, p);
      if event.fate.Dies? { return Dead; }
      ghost var v1 := Now();
      CloseSteps(sys, p, event.now, event.write);
      FailedFinish(sys, p, event.now, event.write);
      Act(FinishOf(p, event.now, event.write), p.lease);
      CalmTrans(old(Now()), v1, Now(), p.lease, Nobody, Nobody, Nobody);
      GoesTrans(old(sys), v1.sys, sys, p.lease);
      if !event.write.Committed? { return Failed; }
      ClosedTrans(entry, Ledgered(v1.sys.ledger, p.lease), Ledgered(sys.ledger, p.lease), p, p);
      ghost var v2 := Now();
      CloseSteps(sys, p, event.now, event.write);
      Act(Forget(p.name), p.lease);
      CalmTrans(old(Now()), v2, Now(), p.lease, Nobody, Nobody, Nobody);
      GoesTrans(old(sys), v2.sys, sys, p.lease);
      ghost var v3 := Now();
      r := DropProof(p);
      CalmTrans(old(Now()), v3, Now(), p.lease, Nobody, Nobody, Nobody);
      GoesTrans(old(sys), v3.sys, sys, p.lease);
      ClosedTrans(entry, Ledgered(v3.sys.ledger, p.lease), Ledgered(sys.ledger, p.lease), p, p);
      ClosedInactive(entry, Ledgered(sys.ledger, p.lease), p);
    }

    /** Takes a proof out of the journal once its registration is gone. */
    method DropProof(p: J.Proof) returns (r: Reply)
      requires Valid() && p.name == NameOf(p.lease) && !Registered(sys, p.name)
      modifies `sys, `script, `trace
      ensures DelaysIn(script) + (if r.Deferred? || r.Transient? then 1 else 0) <= DelaysIn(old(script))
      ensures Valid() && Calm(old(Now()), Now(), p.lease, Nobody) && OnlyGoes(old(sys), sys, p.lease)
      ensures !Registered(sys, p.name) && Aged(Ledgered(old(sys).ledger, p.lease), Ledgered(sys.ledger, p.lease))
      ensures Straight(old(sys), sys, p.name)
      ensures (p.name in sys.records <==> p.name in old(sys).records) && (r.Done? ==> p.name !in sys.journal)
      ensures r.Done? || r.Failed? || r.Dead?
      ensures old(script) == [] ==> r.Done? && sys.ledger == old(sys).ledger
    {
      hide DelaysIn, Safe, J.Managed, Trailed, OthersKept, Alone, Undisturbed, OnlyGoes, Registered, Next, Enabled,
           After, Allowed, Aged;
      var event := Await(p.lease);
      Watched(old(sys), sys, p);
      if event.fate.Dies? { return Dead; }
      if p.name !in sys.journal { return Done; }
      ghost var v1 := Now();
      CloseSteps(sys, p, event.now, event.write);
      Act(Journal(J.Remove(p.name, event.write)), p.lease);
      CalmTrans(old(Now()), v1, Now(), p.lease, Nobody, Nobody, Nobody);
      GoesTrans(old(sys), v1.sys, sys, p.lease);
      r := if event.write.Committed? then Done else Failed;
    }
  }

  lemma BackedName(s: Sys, p: J.Proof)
    requires Backed(s, p)
    ensures p.name == NameOf(p.lease)
  {
  }

  lemma AnswerBacked(s: Sys, p: J.Proof, runner: Runner)
    requires Backed(s, p) && Exact(s, p.name, Some(runner))
    ensures p.name in s.journal && J.SameProof(p, s.journal[p.name])
  {
  }

  /** What two calls in a row make of a proof's lease and of the proof. */
  lemma TwoSteps(a: Sys, b: Sys, c: Sys, p: J.Proof)
    requires Aged(Ledgered(a.ledger, p.lease), Ledgered(b.ledger, p.lease)) && ProofKept(a, b, p.name)
    ensures ClosedAs(Ledgered(b.ledger, p.lease), Ledgered(c.ledger, p.lease), p) ==>
              ClosedAs(Ledgered(a.ledger, p.lease), Ledgered(c.ledger, p.lease), p)
    ensures Aged(Ledgered(b.ledger, p.lease), Ledgered(c.ledger, p.lease)) ==>
              Aged(Ledgered(a.ledger, p.lease), Ledgered(c.ledger, p.lease))
    ensures Spent(Ledgered(b.ledger, p.lease), Ledgered(c.ledger, p.lease), p) ==>
              Spent(Ledgered(a.ledger, p.lease), Ledgered(c.ledger, p.lease), p)
    ensures ProofKept(b, c, p.name) ==> ProofKept(a, c, p.name)
  {
    hide ProofKept;
    ClosedTrans(Ledgered(a.ledger, p.lease), Ledgered(b.ledger, p.lease), Ledgered(c.ledger, p.lease), p, p);
    if ProofKept(b, c, p.name) { ProofKeptTrans(a, b, c, p.name); }
  }

  lemma ClosedInactive(e: Option<L.Entry>, e': Option<L.Entry>, p: J.Proof)
    requires ClosedAs(e, e', p)
    ensures e'.Some? ==> !e'.value.active
  {
    hide L.Seconds;
  }

  lemma StillElsewhere(s: Sys, p: J.Proof)
    ensures Elsewhere(s, s, p.lease) && ProofKept(s, s, p.name)
    ensures Aged(Ledgered(s.ledger, p.lease), Ledgered(s.ledger, p.lease))
  {
  }

  lemma TheirStep(step: Step, script: seq<Event>, lease: string)
    requires script != [] && OfOthers(step, lease) && (Alone(script) ==> ByItself(step))
    ensures Followed(step, script, lease, Nobody)
  {
  }

  /** What others leave alone about a proof's own entry. */
  lemma SameForOne(s: Sys, s': Sys, p: J.Proof)
    requires p.name == NameOf(p.lease) && Undisturbed(s, s', p.lease)
    ensures Agrees(s', p) <==> Agrees(s, p)
    ensures (p.name in s.journal <==> p.name in s'.journal)
    ensures (p.name in s.journal ==> s'.journal[p.name] == s.journal[p.name])
  {
  }

  lemma PutStep(s: Sys, p: J.Proof, write: Disk.Write)
    requires p.name == NameOf(p.lease) && J.Named(s.journal) && J.Accepts(s.journal, p)
    ensures Enabled(s, Journal(J.Put(p, write))) && Mine(Journal(J.Put(p, write)), p.lease)
    ensures var s' := Next(s, Journal(J.Put(p, write)));
            && OnlyJournal(s, s') && Elsewhere(s, s', p.lease) && ProofKept(s, s', p.name)
            && (write.Committed? ==> Journaled(s', p.name) && s'.journal[p.name] == s'.file[p.name] == J.Merged(s.journal, p))
            && (!write.Committed? ==> s'.journal == s.journal)
            && (Agrees(s, p) ==> Straight(s, s', p.name))
  {
    hide J.Managed;
  }

  /** The registration is still the proof's when others have acted. */
  lemma RemoveStep(s0: Sys, s: Sys, p: J.Proof, reported: int)
    requires p.name == NameOf(p.lease) && Identified(s0, p, reported) && Undisturbed(s0, s, p.lease)
    ensures p.id !in s.regs ==> !Registered(s, p.name)
    ensures p.id in s.regs ==>
              && Enabled(s, Unregister(p.id, p, reported)) && Mine(Unregister(p.id, p, reported), p.lease)
              && var s' := Next(s, Unregister(p.id, p, reported));
              && !Registered(s', p.name) && Elsewhere(s, s', p.lease) && ProofKept(s, s', p.name) && Straight(s, s', p.name)
              && s'.ledger == s.ledger
  {
    hide J.Managed;
  }
}
