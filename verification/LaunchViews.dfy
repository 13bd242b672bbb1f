/**
 What one lease's calls can see and touch: whose step is whose, what stays of
 a lease while others act, and what a proof says of its registration.
 */
module LaunchViews {
  import opened Options
  import Disk
  import J = Journals
  import L = Ledger
  import opened Launch

  /** How a call ends: LostReply took effect but reports an error. */
  datatype Fate = Works | Fails | LostReply | Dies

  datatype Runner = Runner(id: int, name: string, scaleSet: int)

  datatype LaunchReply = Started | NoCapacity | PartlyStarted | Unclear(started: bool)

  /** What GitHub sends back for a new runner: all of it, nothing, or no
      identity. */
  datatype Config = Whole | Empty | Nameless

  /** What happens around one call: the fields it does not need are ignored.
      hides: the provider lists the worker it starts without ID and scale set. */
  datatype Event = Event(others: seq<Step>, fate: Fate, write: Disk.Write, answer: Option<Runner>, config: Config,
                         launch: LaunchReply, hides: bool, transient: bool, jobRunning: bool, now: int)

  const QUIET: Event := Event([], Works, Disk.Committed, None, Whole, Started, false, false, false, 0)

  /** What happens around the next call, and around those after it. */
  function Coming(script: seq<Event>): Event {
    if script == [] then QUIET else script[0]
  }

  function Rest(script: seq<Event>): seq<Event> {
    if script == [] then [] else script[1..]
  }

  function Later(script: seq<Event>, calls: nat): seq<Event> {
    if calls == 0 then script else Later(Rest(script), calls - 1)
  }

  /** GitHub still runs a job, or the provider says to come back. */
  predicate Delays(e: Event) {
    e.jobRunning || e.transient
  }

  /** How often that still happens. */
  function DelaysIn(script: seq<Event>): nat {
    if script == [] then 0 else (if Delays(script[0]) then 1 else 0) + DelaysIn(script[1..])
  }

  /** A call goes well and nobody else acts. */
  predicate Plain(e: Event) {
    e.others == [] && e.fate.Works? && e.write.Committed? && e.answer.None? && e.config.Whole?
  }

  predicate PlainFor(script: seq<Event>, calls: nat) {
    calls == 0 || (Plain(Coming(script)) && PlainFor(Rest(script), calls - 1))
  }

  /** The outside world, what is still to happen to the calls, and every step
      taken so far. */
  datatype View = View(sys: Sys, script: seq<Event>, trace: seq<Step>)

  // ---- whose step is whose ----

  /** A step of this lease. */
  predicate Mine(step: Step, lease: string) {
    match step
    case Journal(Put(p, _)) => p.name == NameOf(lease)
    case Journal(Remove(n, _)) => n == NameOf(lease)
    case Register(_, n, _) => n == NameOf(lease)
    case Unregister(_, p, _) => p.name == NameOf(lease)
    case Lapse(_) => false
    case Start(w) => w.name == NameOf(lease)
    case Destroy(n) => n == NameOf(lease)
    case Vanish(_) => false
    case Record(w) => w.name == NameOf(lease)
    case Forget(n) => n == NameOf(lease)
    case Reserve(l, _, _) => l == lease
    case Finish(l, _, _, _, _) => l == lease
    case Release(l, _) => l == lease
    case Adopt(l, _, _) => l == lease
    case Balance(_, _, _) => false
    case Restart => false
  }

  /** A worker goes or a registration lapses, and nobody did it. */
  predicate ByItself(step: Step) {
    step.Vanish? || step.Lapse?
  }

  lemma MineIsNotTheirs(step: Step, lease: string, l: string)
    requires Mine(step, lease) && l != lease
    ensures OfOthers(step, l)
  {
    if NameOf(l) == NameOf(lease) { NameInjective(l, lease); }
  }

  /** No other lease is launched or retired meanwhile; workers may still go
      and registrations lapse. */
  predicate Alone(script: seq<Event>) {
    forall i, k :: 0 <= i < |script| && 0 <= k < |script[i].others| ==> ByItself(script[i].others[k])
  }

  lemma AloneTail(c: seq<Event>)
    requires c != [] && Alone(c)
    ensures Alone(c[1..])
  {
    forall i, k | 0 <= i < |c[1..]| && 0 <= k < |c[1..][i].others| ensures ByItself(c[1..][i].others[k]) {
      assert c[1..][i] == c[i + 1];
    }
  }

  /** Which registrations a lease's calls may remove: none, the one a proof
      names, or whatever the journal proves to be the lease's. */
  datatype Whom = Nobody | Only(proof: J.Proof) | Anyone

  predicate Strikes(step: Step, whom: Whom) {
    step.Unregister? ==> !whom.Nobody? && (whom.Only? ==> J.SameProof(whom.proof, step.proof))
  }

  predicate Within(a: Whom, b: Whom) {
    a.Nobody? || b.Anyone? || (a.Only? && b.Only? && J.SameProof(b.proof, a.proof))
  }

  ghost predicate OthersKept(s: Sys, s': Sys, lease: string) {
    forall l :: l != lease ==> Undisturbed(s, s', l)
  }

  /** Every step taken since is the lease's own or one that others took
      because the script says so. */
  predicate Followed(step: Step, script: seq<Event>, lease: string, whom: Whom) {
    || (Mine(step, lease) && Strikes(step, whom))
    || (script != [] && OfOthers(step, lease) && (Alone(script) ==> ByItself(step)))
  }

  ghost predicate Trailed(v: View, v': View, lease: string, whom: Whom) {
    && |v.trace| <= |v'.trace| && v'.trace[..|v.trace|] == v.trace
    && forall k :: |v.trace| <= k < |v'.trace| ==> Followed(v'.trace[k], v.script, lease, whom)
  }

  /** A lease's calls disturb no other lease unless others act too, and remove
      no registration but those they may. */
  ghost predicate Calm(v: View, v': View, lease: string, whom: Whom) {
    && (v.script == [] ==> v'.script == [])
    && (Alone(v.script) ==> Alone(v'.script) && OthersKept(v.sys, v'.sys, lease))
    && Trailed(v, v', lease, whom)
  }

  lemma CalmTrans(v0: View, v1: View, v2: View, lease: string, a: Whom, b: Whom, whom: Whom)
    requires Calm(v0, v1, lease, a) && Calm(v1, v2, lease, b) && Within(a, whom) && Within(b, whom)
    ensures Calm(v0, v2, lease, whom)
  {
    hide Undisturbed, Followed, Alone, Within;
    if Alone(v0.script) {
      forall l | l != lease ensures Undisturbed(v0.sys, v2.sys, l) {
        UndisturbedTrans(v0.sys, v1.sys, v2.sys, l);
      }
    }
    forall k | |v0.trace| <= k < |v2.trace| ensures Followed(v2.trace[k], v0.script, lease, whom) {
      if k < |v1.trace| {
        assert v2.trace[k] == v1.trace[k];
        FollowedWithin(v1.trace[k], v0.script, v0.script, lease, a, whom);
      } else {
        FollowedWithin(v2.trace[k], v1.script, v0.script, lease, b, whom);
      }
    }
  }

  lemma FollowedWithin(step: Step, c: seq<Event>, c0: seq<Event>, lease: string, a: Whom, b: Whom)
    requires Followed(step, c, lease, a) && Within(a, b) && (c0 == [] ==> c == []) && (Alone(c0) ==> Alone(c))
    ensures Followed(step, c0, lease, b)
  {
    hide Alone, OfOthers, ByItself;
  }

  lemma CalmStep(s: Sys, c: seq<Event>, trace: seq<Step>, step: Step, lease: string)
    requires Enabled(s, step) && Mine(step, lease)
    ensures Calm(View(s, c, trace), View(Next(s, step), c, trace + [step]), lease, if step.Unregister? then Only(step.proof) else Nobody)
  {
    hide Undisturbed, Enabled, Next;
    forall l | l != lease ensures Undisturbed(s, Next(s, step), l) {
      MineIsNotTheirs(step, lease, l);
      OthersDoNotDisturb(s, step, l);
    }
  }

  lemma StillUndisturbed(s: Sys, lease: string)
    ensures Undisturbed(s, s, lease)
  {
  }

  lemma StillCalm(v: View, lease: string, whom: Whom)
    ensures Calm(v, v, lease, whom)
  {
    hide Undisturbed;
    forall l ensures Undisturbed(v.sys, v.sys, l) { StillUndisturbed(v.sys, l); }
  }

  lemma OthersStep(s0: Sys, s: Sys, step: Step, lease: string)
    requires Safe(s) && Undisturbed(s0, s, lease) && OfOthers(step, lease) && Enabled(s, step)
    ensures Safe(Next(s, step)) && Undisturbed(s0, Next(s, step), lease)
  {
    hide Safe, Undisturbed;
    SafeKept(s, step);
    OthersDoNotDisturb(s, step, lease);
    UndisturbedTrans(s0, s, Next(s, step), lease);
  }

  lemma AloneStep(s0: Sys, s: Sys, step: Step, lease: string)
    requires OthersKept(s0, s, lease) && ByItself(step)
    ensures OthersKept(s0, Next(s, step), lease) && OnlyOutside(s, Next(s, step))
  {
    hide Undisturbed, Next, Enabled, OfOthers;
    GoesByItself(s, step);
    forall l | l != lease ensures Undisturbed(s0, Next(s, step), l) {
      OthersDoNotDisturb(s, step, l);
      UndisturbedTrans(s0, s, Next(s, step), l);
    }
  }

  lemma GoesByItself(s: Sys, step: Step)
    requires ByItself(step)
    ensures Enabled(s, step) && OnlyOutside(s, Next(s, step)) && forall l :: OfOthers(step, l)
  {
  }

  /** Nothing changed but what may go by itself. */
  predicate OnlyOutside(s: Sys, s': Sys) {
    s' == s.(workers := s'.workers, regs := s'.regs, went := s'.went, lost := s'.lost)
  }

  // ---- no registration but the proof's is removed ----

  /** Whatever registration is gone was taken by a step of others, or by a
      call that the journal's proof of that very registration allowed; when
      the call was made for a proof, it is that proof. */
  ghost predicate OnlyIts(start: Sys, v: View, v': View, lease: string, whom: Whom) {
    forall id :: id in v.sys.regs && id !in v'.sys.regs ==>
      exists k ::
        && |v.trace| <= k < |v'.trace| && TakenAt(start, v'.trace, k, id)
        && (OfOthers(v'.trace[k], lease) || Strikes(v'.trace[k], whom))
  }

  lemma CalmTakes(start: Sys, v: View, v': View, lease: string, whom: Whom)
    requires Calm(v, v', lease, whom) && v.sys == After(start, v.trace) && v'.sys == After(start, v'.trace)
    requires Allowed(start, v'.trace)
    ensures OnlyIts(start, v, v', lease, whom)
  {
    hide TakenAt, After, Allowed, OfOthers, Strikes, OthersKept, Alone, Mine;
    forall id | id in v.sys.regs && id !in v'.sys.regs
      ensures exists k ::
                && |v.trace| <= k < |v'.trace| && TakenAt(start, v'.trace, k, id)
                && (OfOthers(v'.trace[k], lease) || Strikes(v'.trace[k], whom))
    {
      RemovalProved(start, v'.trace, |v.trace|, id);
      var k :| |v.trace| <= k < |v'.trace| && TakenAt(start, v'.trace, k, id);
      assert Followed(v'.trace[k], v.script, lease, whom);
    }
  }

  /** With nobody else acting, no registration of another name goes. */
  lemma CalmSpares(start: Sys, v: View, v': View, lease: string, whom: Whom, id: int)
    requires Calm(v, v', lease, whom) && v.script == [] && id in v.sys.regs && v.sys.regs[id].name != NameOf(lease)
    requires Safe(v.sys)
    requires v.sys == After(start, v.trace) && v'.sys == After(start, v'.trace) && Allowed(start, v'.trace)
    ensures id in v'.sys.regs
  {
    hide After, Allowed, OthersKept, Safe;
    if id !in v'.sys.regs {
      RemovalProved(start, v'.trace, |v.trace|, id);
      var k :| |v.trace| <= k < |v'.trace| && TakenAt(start, v'.trace, k, id);
      assert Followed(v'.trace[k], v.script, lease, whom);
      SafeIds(v.sys, id);
      NameConstant(start, v'.trace, |v.trace|, k, id);
    }
  }

  lemma SafeIds(s: Sys, id: int)
    requires Safe(s) && id in s.regs
    ensures id <= s.lastId
  {
  }

  lemma RegsAge(s: Sys, step: Step)
    requires Enabled(s, step)
    ensures s.lastId <= Next(s, step).lastId
    ensures forall id :: id in Next(s, step).regs && id <= s.lastId ==> id in s.regs && Next(s, step).regs[id] == s.regs[id]
  {
    hide Posted, JournalAfter, Journaled, Registered, NameOf, Proves, Next, Enabled;
    if Books(step) {
      OnlyLedger(s, step);
    } else if step.Register? {
      NewRegistration(s, step);
    } else {
      NoRegistration(s, step);
    }
  }

  lemma NewRegistration(s: Sys, step: Step)
    requires step.Register? && Enabled(s, step)
    ensures Next(s, step).lastId == step.id > s.lastId
    ensures Next(s, step).regs == s.regs[step.id := Registration(step.name, step.scaleSet)]
  {
    hide Journaled, Registered;
  }

  lemma NoRegistration(s: Sys, step: Step)
    requires !step.Register? && !Books(step)
    ensures Next(s, step).lastId == s.lastId
    ensures forall id :: id in Next(s, step).regs ==> id in s.regs && Next(s, step).regs[id] == s.regs[id]
  {
    hide JournalAfter, Journaled, Strays, Saved, Next;
    if step.Unregister? || step.Lapse? {
      LessRegistration(s, step);
    } else {
      SameRegistrations(s, step);
    }
  }

  lemma LessRegistration(s: Sys, step: Step)
    requires step.Unregister? || step.Lapse?
    ensures Next(s, step) == s.(regs := s.regs - {step.id})
  {
  }

  lemma SameRegistrations(s: Sys, step: Step)
    requires !step.Register? && !Books(step) && !step.Unregister? && !step.Lapse?
    ensures Next(s, step).lastId == s.lastId && Next(s, step).regs == s.regs
  {
    hide JournalAfter, Journaled, Strays, Saved;
  }

  /** An ID is never given to another name. */
  lemma {:induction false} NameConstant(start: Sys, trace: seq<Step>, i: nat, k: nat, id: int)
    requires i <= k <= |trace| && Allowed(start, trace) && id <= After(start, trace[..i]).lastId
    ensures After(start, trace[..i]).lastId <= After(start, trace[..k]).lastId
    ensures id in After(start, trace[..k]).regs ==>
              && id in After(start, trace[..i]).regs
              && After(start, trace[..k]).regs[id] == After(start, trace[..i]).regs[id]
    decreases k - i
  {
    hide Next, Enabled;
    if i < k {
      NameConstant(start, trace, i, k - 1, id);
      assert trace[..k][..k - 1] == trace[..k - 1];
      RegsAge(After(start, trace[..k - 1]), trace[k - 1]);
    }
  }

  // ---- what a lease's own calls leave of it ----

  /** GitHub's answer about a name is honest: a runner it has, or none. */
  predicate Honest(s: Sys, name: string, answer: Option<Runner>) {
    match answer
    case None => !Registered(s, name)
    case Some(r) =>
      r.id in s.regs && s.regs[r.id].name == r.name && (r.scaleSet == 0 || r.scaleSet == s.regs[r.id].scaleSet)
  }

  /** Whether a worker is the one a proof is about. */
  predicate Matches(w: Worker, p: J.Proof) {
    && w.name == p.name && w.lease == p.lease
    && (w.id == 0 || p.id == 0 || w.id == p.id) && (w.scaleSet == 0 || w.scaleSet == p.scaleSet)
  }

  /** As long as its registration is there a proof is in the journal, in memory
      and in the file. */
  predicate Backed(s: Sys, p: J.Proof) {
    && p.name == NameOf(p.lease)
    && (Registered(s, p.name) ==> Journaled(s, p.name) && J.SameProof(p, s.journal[p.name]))
  }

  /** Nothing of a lease changed but its proof; its reservation can only run
      out, its worker and registration can only go. */
  ghost predicate Elsewhere(s: Sys, s': Sys, lease: string) {
    var n := NameOf(lease);
    && (n in s.records <==> n in s'.records) && (n in s.records ==> s'.records[n] == s.records[n])
    && Aged(Ledgered(s.ledger, lease), Ledgered(s'.ledger, lease)) && s'.reservation == s.reservation
    && Fades(s, s', n) && RegistrationGoes(s, s', n) && BornStays(s, s', n)
  }

  predicate BornStays(s: Sys, s': Sys, n: string) {
    (n in s'.born <==> n in s.born) && (n in s.born ==> s'.born[n] == s.born[n])
  }

  /** No proof of the name strayed. */
  predicate Straight(s: Sys, s': Sys, n: string) {
    n in s'.strayed ==> n in s.strayed
  }

  /** A proof stays, and at most gains its ID. */
  ghost predicate ProofKept(s: Sys, s': Sys, name: string) {
    && (name in s.journal ==> name in s'.journal && J.SameProof(s.journal[name], s'.journal[name]))
    && (name in s.journal && name in s.file ==> name in s'.file)
  }

  lemma ElsewhereTrans(a: Sys, b: Sys, c: Sys, lease: string)
    requires Elsewhere(a, b, lease) && Elsewhere(b, c, lease)
    ensures Elsewhere(a, c, lease)
  {
  }

  lemma ProofKeptTrans(a: Sys, b: Sys, c: Sys, name: string)
    requires ProofKept(a, b, name) && ProofKept(b, c, name)
    ensures ProofKept(a, c, name)
  {
  }

  lemma UndisturbedIsKept(s: Sys, s': Sys, lease: string)
    requires Undisturbed(s, s', lease)
    ensures Elsewhere(s, s', lease) && ProofKept(s, s', NameOf(lease)) && Straight(s, s', NameOf(lease))
    ensures Registered(s', NameOf(lease)) ==> Registered(s, NameOf(lease))
  {
    if Registered(s', NameOf(lease)) { StillRegistered(s, s', lease); }
  }

  lemma StillRegistered(s: Sys, s': Sys, lease: string)
    requires RegistrationGoes(s, s', NameOf(lease)) && Registered(s', NameOf(lease))
    ensures Registered(s, NameOf(lease))
  {
    var id :| id in s'.regs && s'.regs[id].name == NameOf(lease);
    assert id in s.regs && s.regs[id].name == NameOf(lease);
  }

  /** A backed proof stays backed while nothing but its journal entry moves. */
  lemma BackedKept(s: Sys, s': Sys, p: J.Proof)
    requires Backed(s, p) && Elsewhere(s, s', p.lease) && ProofKept(s, s', p.name)
    ensures Backed(s', p)
  {
    if Registered(s', p.name) { StillRegistered(s, s', p.lease); }
  }

  lemma SafeNamed(s: Sys)
    requires Safe(s)
    ensures J.Named(s.journal) && J.Named(s.file) && forall id :: id in s.regs ==> id > 0
  {
  }

  /** Closing a lease charges it once, however time passes around it and
      however often it is closed. */
  lemma ClosedTrans(a: Option<L.Entry>, b: Option<L.Entry>, c: Option<L.Entry>, p: J.Proof, q: J.Proof)
    ensures Aged(a, b) && ClosedAs(b, c, p) ==> ClosedAs(a, c, p)
    ensures ClosedAs(a, b, p) && (Aged(b, c) || ClosedAs(b, c, q)) ==> ClosedAs(a, c, p)
  {
  }

  /** A lease's entry is left alone, runs out, or is closed. */
  predicate Spent(e: Option<L.Entry>, e': Option<L.Entry>, p: J.Proof) {
    Aged(e, e') || ClosedAs(e, e', p)
  }

  lemma SpentTrans(a: Option<L.Entry>, b: Option<L.Entry>, c: Option<L.Entry>, p: J.Proof)
    requires Spent(a, b, p) && Spent(b, c, p)
    ensures Spent(a, c, p)
  {
    ClosedTrans(a, b, c, p, p);
  }

  lemma RefundedTrans(a: Option<L.Entry>, b: Option<L.Entry>, c: Option<L.Entry>)
    ensures Aged(a, b) && Refunded(b, c) ==> Refunded(a, c)
    ensures Refunded(a, b) && Aged(b, c) ==> Refunded(a, c)
  {
  }

  // ---- identifying a registration ----

  /** GitHub's answer in full. */
  predicate Exact(s: Sys, name: string, answer: Option<Runner>) {
    && (answer.Some? <==> Registered(s, name))
    && (answer.Some? ==>
          && answer.value.id in s.regs && answer.value.name == name == s.regs[answer.value.id].name
          && answer.value.scaleSet == s.regs[answer.value.id].scaleSet)
  }

  /** The registration of a proof is as the proof says. */
  predicate Fits(s: Sys, p: J.Proof) {
    forall id :: id in s.regs && s.regs[id].name == p.name ==>
      && s.regs[id].scaleSet == p.scaleSet && (p.id == 0 || p.id == id)
      && (p.name in s.journal ==> s.journal[p.name].id == 0 || s.journal[p.name].id == id)
  }

  /** The one registration of a proof's name has the proof's ID, and the
      journal says so. */
  ghost predicate Identified(s: Sys, p: J.Proof, reported: int) {
    && p.id <= s.lastId && p.name in s.journal && J.SameProof(p, s.journal[p.name])
    && (forall id :: id in s.regs && (id == p.id || s.regs[id].name == p.name) ==>
          id == p.id && s.regs[id].name == p.name)
    && (p.id in s.regs ==> reported == 0 || (reported == s.regs[p.id].scaleSet == p.scaleSet))
  }

  /** What GitHub's answer tells about a backed proof. */
  lemma FoundBacked(s: Sys, s': Sys, p: J.Proof, runner: Runner)
    requires Safe(s') && Backed(s, p) && Undisturbed(s, s', p.lease) && Honest(s', p.name, Some(runner))
    requires runner.name == p.name
    requires runner.scaleSet == 0 || runner.scaleSet == p.scaleSet
    ensures p.name in s'.journal && J.SameProof(p, s'.journal[p.name]) && s'.journal[p.name] == s.journal[p.name]
    ensures p.id == runner.id ==> Identified(s', p, runner.scaleSet)
    ensures J.ValidProof(s'.journal[p.name]) && runner.id > 0
    ensures runner.id in s'.regs && s'.regs[runner.id].name == p.name && runner.id <= s'.lastId
    ensures forall id :: id in s'.regs && s'.regs[id].name == p.name ==> id == runner.id
  {
    hide J.Managed;
    assert s'.regs[runner.id].name == p.name;
    assert Registered(s', p.name);
    StillRegistered(s, s', p.lease);
  }

  /** The ID GitHub gives a registration is the one it was born with, so
      binding it makes no proof stray. */
  lemma BoundAgrees(s: Sys, p: J.Proof, id: int)
    requires Safe(s) && p.name in s.journal && J.SameProof(p, s.journal[p.name]) && id in s.regs && s.regs[id].name == p.name
    ensures Agrees(s, p.(id := id)) || p.name in s.strayed
  {
  }

  /** Binding the ID leaves the registration identified. */
  lemma BoundNow(s1: Sys, s2: Sys, p: J.Proof, runner: Runner)
    requires p.id == 0 && p.name == NameOf(p.lease) && p.name in s1.journal && J.SameProof(p, s1.journal[p.name])
    requires Honest(s1, p.name, Some(runner)) && runner.name == p.name
    requires runner.id <= s1.lastId && (runner.scaleSet == 0 || runner.scaleSet == p.scaleSet)
    requires forall id :: id in s1.regs && s1.regs[id].name == p.name ==> id == runner.id
    requires runner.id > 0 && Elsewhere(s1, s2, p.lease) && p.name in s2.journal
    requires s2.journal[p.name] == J.Merged(s1.journal, p.(id := runner.id))
    ensures Identified(s2, p.(id := runner.id), runner.scaleSet)
  {
  }

  lemma NoneIsUnregistered(s: Sys, name: string)
    requires Honest(s, name, None)
    ensures !Registered(s, name)
  {
  }

  /** What it takes that the one registration GitHub reports in full is as the
      proof says. */
  lemma FitsExactly(s: Sys, p: J.Proof, runner: Runner)
    requires Safe(s) && Exact(s, p.name, Some(runner)) && p.name in s.journal && J.SameProof(p, s.journal[p.name])
    ensures runner.name == p.name && runner.scaleSet > 0
    ensures Fits(s, p) <==>
            && runner.scaleSet == p.scaleSet && (p.id == 0 || p.id == runner.id)
            && (s.journal[p.name].id == 0 || s.journal[p.name].id == runner.id)
  {
    hide J.Managed;
    forall id | id in s.regs && s.regs[id].name == p.name ensures id == runner.id {}
  }

  lemma GoneFits(s: Sys, p: J.Proof)
    requires !Registered(s, p.name)
    ensures Fits(s, p)
  {
  }

  /** A proof may be bound to its registration's ID exactly if the journal knows
      no other. */
  lemma BindsExactly(s: Sys, p: J.Proof, id: int)
    requires p.id == 0 && p.name in s.journal && J.SameProof(p, s.journal[p.name]) && J.ValidProof(s.journal[p.name]) && id > 0
    ensures J.Accepts(s.journal, p.(id := id)) <==> s.journal[p.name].id == 0 || s.journal[p.name].id == id
  {
    hide J.Managed;
  }

  // ---- the parts of a retirement ----

  lemma DestroyStep(s: Sys, p: J.Proof)
    requires Backed(s, p)
    ensures Enabled(s, Destroy(p.name)) && Mine(Destroy(p.name), p.lease)
    ensures var s' := Next(s, Destroy(p.name));
            OnlyWorkers(s, s') && p.name !in s'.workers && Elsewhere(s, s', p.lease) && ProofKept(s, s', p.name)
  {
  }

  /** What one's own lease sees of others' steps. */
  lemma Watched(s: Sys, s': Sys, p: J.Proof)
    requires p.name == NameOf(p.lease) && Undisturbed(s, s', p.lease)
    ensures OnlyGoes(s, s', p.lease) && (Registered(s', p.name) ==> Registered(s, p.name))
    ensures Aged(Ledgered(s.ledger, p.lease), Ledgered(s'.ledger, p.lease))
    ensures (p.name in s'.journal <==> p.name in s.journal) && (p.name in s'.records <==> p.name in s.records)
    ensures p.name !in s.workers ==> p.name !in s'.workers
    ensures Straight(s, s', p.name)
  {
    if Registered(s', p.name) { StillRegistered(s, s', p.lease); }
  }

  function FinishOf(p: J.Proof, now: int, write: Disk.Write): Step {
    Finish(p.lease, p.disposition, p.stoppedAt, now, write)
  }

  /** The steps that close a lease whose registration is gone. */
  lemma CloseSteps(s: Sys, p: J.Proof, now: int, write: Disk.Write)
    requires p.name == NameOf(p.lease) && !Registered(s, p.name)
    ensures Enabled(s, FinishOf(p, now, write)) && Enabled(s, Forget(p.name))
    ensures Enabled(s, Journal(J.Remove(p.name, write)))
    ensures Mine(FinishOf(p, now, write), p.lease) && Mine(Forget(p.name), p.lease)
    ensures Mine(Journal(J.Remove(p.name, write)), p.lease)
    ensures var s' := Next(s, FinishOf(p, now, write));
            && s' == s.(ledger := s'.ledger, ledgerFile := s'.ledgerFile) && OnlyGoes(s, s', p.lease)
            && !Registered(s', p.name)
            && (write.Committed? ==> ClosedAs(Ledgered(s.ledger, p.lease), Ledgered(s'.ledger, p.lease), p))
    ensures var s' := Next(s, Forget(p.name));
            s' == s.(records := s'.records) && p.name !in s'.records && OnlyGoes(s, s', p.lease) && !Registered(s', p.name)
    ensures var s' := Next(s, Journal(J.Remove(p.name, write)));
            && OnlyJournal(s, s') && OnlyGoes(s, s', p.lease) && !Registered(s', p.name) && s'.strayed == s.strayed
            && (write.Committed? ==> p.name !in s'.journal)
  {
    hide ClosedAs, Next, Enabled, OnlyGoes;
    FinishCloses(s, p, now, write);
    ForgetCloses(s, p);
    RemoveCloses(s, p, write);
  }

  lemma ForgetCloses(s: Sys, p: J.Proof)
    requires p.name == NameOf(p.lease) && !Registered(s, p.name)
    ensures Enabled(s, Forget(p.name))
    ensures var s' := Next(s, Forget(p.name));
            s' == s.(records := s'.records) && p.name !in s'.records && OnlyGoes(s, s', p.lease) && !Registered(s', p.name)
  {
  }

  lemma RemoveCloses(s: Sys, p: J.Proof, write: Disk.Write)
    requires p.name == NameOf(p.lease) && !Registered(s, p.name)
    ensures Enabled(s, Journal(J.Remove(p.name, write)))
    ensures var s' := Next(s, Journal(J.Remove(p.name, write)));
            && OnlyJournal(s, s') && OnlyGoes(s, s', p.lease) && !Registered(s', p.name) && s'.strayed == s.strayed
            && (write.Committed? ==> p.name !in s'.journal)
  {
  }

  lemma FinishCloses(s: Sys, p: J.Proof, now: int, write: Disk.Write)
    requires p.name == NameOf(p.lease) && !Registered(s, p.name)
    ensures Enabled(s, FinishOf(p, now, write))
    ensures var s' := Next(s, FinishOf(p, now, write));
            && s' == s.(ledger := s'.ledger, ledgerFile := s'.ledgerFile) && OnlyGoes(s, s', p.lease)
            && !Registered(s', p.name)
            && (write.Committed? ==> ClosedAs(Ledgered(s.ledger, p.lease), Ledgered(s'.ledger, p.lease), p))
  {
    hide L.Seconds;
  }

  lemma FailedFinish(s: Sys, p: J.Proof, now: int, write: Disk.Write)
    ensures !write.Committed? ==> Next(s, FinishOf(p, now, write)).ledger == s.ledger
  {
  }

  predicate OnlyWorkers(s: Sys, s': Sys) {
    s' == s.(workers := s'.workers)
  }

  predicate OnlyJournal(s: Sys, s': Sys) {
    s' == s.(journal := s'.journal, file := s'.file, strayed := s'.strayed)
  }

  /** The worker and the registration of a lease can only have gone. */
  ghost predicate OnlyGoes(s: Sys, s': Sys, lease: string) {
    && Fades(s, s', NameOf(lease)) && RegistrationGoes(s, s', NameOf(lease)) && BornStays(s, s', NameOf(lease))
    && s'.reservation == s.reservation
  }

  /** As long as a registration is there, so are its proof and its record. */
  ghost predicate Remembered(s: Sys, s': Sys, lease: string) {
    var n := NameOf(lease);
    Registered(s', n) ==> Registered(s, n) && ProofKept(s, s', n) && (n in s.records ==> n in s'.records)
  }

  lemma RemembersItself(s: Sys, lease: string)
    ensures Remembered(s, s, lease)
  {
  }

  lemma ElsewhereRemembers(s: Sys, s': Sys, lease: string)
    requires Elsewhere(s, s', lease) && ProofKept(s, s', NameOf(lease))
    ensures Remembered(s, s', lease)
  {
    if Registered(s', NameOf(lease)) { StillRegistered(s, s', lease); }
  }

  lemma RemembersTrans(a: Sys, b: Sys, c: Sys, lease: string)
    requires Remembered(a, b, lease) && Remembered(b, c, lease)
    ensures Remembered(a, c, lease)
  {
  }

  lemma NothingToRemember(s: Sys, s': Sys, p: J.Proof)
    requires p.name == NameOf(p.lease) && !Registered(s', p.name)
    ensures Remembered(s, s', p.lease)
  {
  }

  lemma RememberedBacks(s: Sys, s': Sys, p: J.Proof)
    requires Backed(s, p) && Remembered(s, s', p.lease)
    ensures Backed(s', p)
  {
  }

  lemma StillThere(s: Sys, lease: string)
    ensures OnlyGoes(s, s, lease)
  {
  }

  lemma ElsewhereGoes(s: Sys, s': Sys, lease: string)
    requires Elsewhere(s, s', lease)
    ensures OnlyGoes(s, s', lease) && (NameOf(lease) !in s.workers ==> NameOf(lease) !in s'.workers)
    ensures Aged(Ledgered(s.ledger, lease), Ledgered(s'.ledger, lease))
  {
  }

  lemma GoesTrans(a: Sys, b: Sys, c: Sys, lease: string)
    requires OnlyGoes(a, b, lease) && OnlyGoes(b, c, lease)
    ensures OnlyGoes(a, c, lease) && (NameOf(lease) !in b.workers ==> NameOf(lease) !in c.workers)
  {
  }

  lemma FitsStays(s: Sys, s': Sys, p: J.Proof)
    requires OnlyWorkers(s, s')
    ensures Fits(s', p) <==> Fits(s, p)
  {
  }

  /** Writing a proof changes nothing of whether it fits. */
  lemma FitsPut(s: Sys, s': Sys, p: J.Proof)
    requires J.Accepts(s.journal, p) && OnlyJournal(s, s')
    requires p.name in s'.journal && s'.journal[p.name] == J.Merged(s.journal, p)
    ensures Fits(s', p) <==> Fits(s, p)
  {
  }

  /** Nothing of a retired lease is left, and it is charged no further. */
  predicate Retired(s: Sys, p: J.Proof) {
    && !Registered(s, p.name) && p.name !in s.journal && p.name !in s.records
    && (p.lease in s.ledger ==> !s.ledger[p.lease].active)
  }
}
