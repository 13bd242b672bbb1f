/**
 Launching and retiring a worker as steps over what GitHub, the provider, the
 two files and the controller's memory hold. Steps of different leases
 interleave freely, workers and registrations may go by themselves at any
 time, and a restart keeps the files and loses memory.
 */
module Launch {
  import opened Options
  import Disk
  import J = Journals
  import L = Ledger

  datatype Registration = Registration(name: string, scaleSet: int)

  /** A worker as the provider lists it; an ID or scale set of zero is unknown. */
  datatype Worker = Worker(name: string, lease: string, id: int, scaleSet: int)

  /** What GitHub gave a name when it was registered. */
  datatype Birth = Birth(id: int, scaleSet: int)

  /** born: every registration ever made. strayed: names of which a proof was
      written that is not of their registration. went: names whose worker went
      by itself. lost: those of them that no proof and no record knew any more.
      The ledger is the usage budget's history, in memory and as last written. */
  datatype Sys = Sys(regs: map<int, Registration>, born: map<string, Birth>, strayed: set<string>,
                     workers: map<string, Worker>, went: set<string>, lost: set<string>,
                     journal: J.Journal, file: J.Journal, records: map<string, Worker>,
                     ledger: L.History, ledgerFile: L.History, reservation: int, lastId: int)

  function NameOf(lease: string): string {
    "runner-" + lease
  }

  lemma NameInjective(a: string, b: string)
    requires NameOf(a) == NameOf(b)
    ensures a == b
  {
    assert NameOf(a)[7..] == a && NameOf(b)[7..] == b;
  }

  datatype Step =
    | Journal(change: J.Change)
    | Register(id: int, name: string, scaleSet: int)
    | Unregister(id: int, proof: J.Proof, reported: int)
    | Lapse(id: int)                           // GitHub drops it by itself
    | Start(worker: Worker)
    | Destroy(name: string)
    | Vanish(name: string)                     // a worker goes by itself
    | Record(worker: Worker)
    | Forget(name: string)
    | Reserve(lease: string, now: int, write: Disk.Write)
    | Finish(lease: string, disposition: J.Disposition, stoppedAt: int, now: int, write: Disk.Write)
    | Release(lease: string, write: Disk.Write)
    | Adopt(lease: string, startedAt: int, write: Disk.Write)
    | Balance(alive: set<string>, now: int, write: Disk.Write)
    | Restart

  // ---- what each step does ----

  /** Memory and file after a change that is rolled back when its write fails. */
  function Saved<T>(memory: T, file: T, after: T, write: Disk.Write): (T, T) {
    (if write.Committed? then after else memory, if write.Failed? then file else after)
  }

  function Finished(h: L.History, lease: string, disposition: J.Disposition, stoppedAt: int, now: int): L.History {
    if disposition.ForfeitReservation? then L.AfterForfeit(h, lease, now) else L.AfterSettle(h, lease, stoppedAt, now)
  }

  function JournalAfter(s: Sys, change: J.Change): J.Journal {
    match change
    case Put(p, _) => if J.Accepts(s.journal, p) then s.journal[p.name := J.Merged(s.journal, p)] else s.journal
    case Remove(n, _) => s.journal - {n}
  }

  /** Steps of the ledger. */
  predicate Books(step: Step) {
    step.Reserve? || step.Finish? || step.Release? || step.Adopt? || step.Balance?
  }

  /** What a step of the ledger writes. */
  function Entered(s: Sys, step: Step): L.History
    requires Books(step)
  {
    match step
    case Reserve(lease, now, _) => L.AfterReserve(s.ledger, lease, now, s.reservation)
    case Finish(lease, disposition, stoppedAt, now, _) => Finished(s.ledger, lease, disposition, stoppedAt, now)
    case Release(lease, _) => L.AfterRelease(s.ledger, lease)
    case Adopt(lease, startedAt, _) => L.AfterAdopt(s.ledger, lease, startedAt, s.reservation)
    case Balance(alive, now, _) => L.AfterReconcile(s.ledger, alive, now)
  }

  /** What memory holds if the write fails: what lapsed stays so, and so does
      the adoption of a lease the ledger did not know. */
  function Standing(s: Sys, step: Step): L.History
    requires Books(step)
  {
    if step.Reserve? then L.Lapsed(s.ledger, step.now)
    else if step.Adopt? && step.lease !in s.ledger then Entered(s, step)
    else s.ledger
  }

  function Posted(s: Sys, step: Step): Sys
    requires Books(step)
  {
    var saved := Saved(Standing(s, step), s.ledgerFile, Entered(s, step), step.write);
    s.(ledger := saved.0, ledgerFile := saved.1)
  }

  function Next(s: Sys, step: Step): Sys {
    match step
    case Journal(change) =>
      var saved := Saved(s.journal, s.file, JournalAfter(s, change), change.write);
      s.(journal := saved.0, file := saved.1, strayed := if Strays(s, change) then s.strayed + {change.proof.name} else s.strayed)
    case Register(id, name, scaleSet) =>
      s.(regs := s.regs[id := Registration(name, scaleSet)], born := s.born[name := Birth(id, scaleSet)], lastId := id)
    case Unregister(id, _, _) => s.(regs := s.regs - {id})
    case Lapse(id) => s.(regs := s.regs - {id})
    case Start(worker) => s.(workers := s.workers[worker.name := worker])
    case Destroy(name) => s.(workers := s.workers - {name})
    case Vanish(name) => if name in s.workers then Vanished(s, name) else s
    case Record(worker) => s.(records := s.records[worker.name := worker])
    case Forget(name) => s.(records := s.records - {name})
    case Reserve(_, _, _) => Posted(s, step)
    case Finish(_, _, _, _, _) => Posted(s, step)
    case Release(_, _) => Posted(s, step)
    case Adopt(_, _, _) => Posted(s, step)
    case Balance(_, _, _) => Posted(s, step)
    case Restart =>
      s.(journal := s.file, ledger := s.ledgerFile, records := map[], lost := s.lost + set n | n in s.went && n !in s.file)
  }

  /** The worker goes by itself, and nothing may be left that knows it. */
  function Vanished(s: Sys, name: string): Sys {
    s.(workers := s.workers - {name}, went := s.went + {name},
       lost := if Journaled(s, name) || name in s.records then s.lost else s.lost + {name})
  }

  // ---- whose registration a proof is of ----

  /** The proof is of the registration its name got, if it got one. */
  predicate Agrees(s: Sys, p: J.Proof) {
    p.name in s.born ==> p.scaleSet == s.born[p.name].scaleSet && (p.id == 0 || p.id == s.born[p.name].id)
  }

  /** A proof is written that is not. */
  predicate Strays(s: Sys, change: J.Change) {
    change.Put? && !change.write.Failed? && J.Accepts(s.journal, change.proof) && !Agrees(s, change.proof)
  }

  /** What the provider says of a worker is so, or is left out. */
  predicate Truthful(s: Sys, w: Worker) {
    && w.name == NameOf(w.lease) && w.name in s.born
    && (w.id == 0 || w.id == s.born[w.name].id) && (w.scaleSet == 0 || w.scaleSet == s.born[w.name].scaleSet)
  }

  predicate Agreed(s: Sys, j: J.Journal) {
    forall n :: n in j && n !in s.strayed ==> Agrees(s, j[n])
  }

  /** Registrations are as they were born, workers and records as they are
      told, and proofs of what they name unless one strayed. */
  ghost predicate Traced(s: Sys) {
    && (forall id :: id in s.regs ==> s.regs[id].name in s.born && s.born[s.regs[id].name] == Birth(id, s.regs[id].scaleSet))
    && (forall n :: n in s.born ==> s.born[n].scaleSet > 0)
    && (forall n :: n in s.workers ==> s.workers[n].name == n && Truthful(s, s.workers[n]))
    && (forall n :: n in s.records ==> s.records[n].name == n && Truthful(s, s.records[n]))
    && Agreed(s, s.journal) && Agreed(s, s.file)
  }

  // ---- who remembers a registration ----

  predicate Registered(s: Sys, name: string) {
    exists id :: id in s.regs && s.regs[id].name == name
  }

  predicate Journaled(s: Sys, name: string) {
    name in s.journal && name in s.file
  }

  /** The running controller can find it. */
  predicate Known(s: Sys, name: string) {
    Journaled(s, name) || name in s.records || name in s.workers
  }

  /** A controller started now would find it, or its worker went by itself. */
  predicate Held(s: Sys, name: string) {
    Journaled(s, name) || name in s.workers || name in s.went
  }

  predicate Recalled(s: Sys, name: string) {
    Held(s, name) && (Known(s, name) || name in s.lost)
  }

  /** Every proof names its own lease. */
  predicate Leased(j: J.Journal) {
    forall n :: n in j ==> j[n].name == n == NameOf(j[n].lease)
  }

  /** Every lease is charged once, at most its reservation. */
  predicate Charged(h: L.History, reservation: int) {
    forall l :: l in h ==> h[l].lease == l && 0 < h[l].seconds <= L.Seconds(reservation)
  }

  /** Names are where they belong, and GitHub never reuses an ID. */
  ghost predicate Shaped(s: Sys) {
    && (forall a, b :: a in s.regs && b in s.regs && s.regs[a].name == s.regs[b].name ==> a == b)
    && (forall n :: n in s.workers ==> n !in s.went)
    && (forall id :: id in s.regs ==> 0 < id <= s.lastId)
  }

  ghost predicate Proved(s: Sys) {
    J.Named(s.journal) && J.Named(s.file) && Leased(s.journal) && Leased(s.file)
  }

  ghost predicate Booked(s: Sys) {
    s.reservation > 0 && Charged(s.ledger, s.reservation) && Charged(s.ledgerFile, s.reservation)
  }

  ghost predicate Safe(s: Sys) {
    Shaped(s) && Traced(s) && Proved(s) && Booked(s) && forall id :: id in s.regs ==> Recalled(s, s.regs[id].name)
  }

  /** When a step may be taken. What goes by itself asks nobody; the controller
      takes nothing away that a registration still needs. */
  predicate Enabled(s: Sys, step: Step) {
    match step
    case Journal(Put(p, _)) => p.name == NameOf(p.lease)
    case Journal(Remove(n, _)) => Registered(s, n) ==> n in s.records && (n in s.workers || n in s.went)
    case Register(id, name, scaleSet) =>
      && id > 0 && id > s.lastId && !Registered(s, name) && name !in s.born
      && Journaled(s, name) && Intends(s.journal[name], scaleSet) && Intends(s.file[name], scaleSet)
    case Unregister(id, proof, reported) => id in s.regs && Proves(s, id, proof, reported)
    case Start(worker) =>
      && Truthful(s, worker) && worker.name !in s.went
      && Journaled(s, worker.name) && s.journal[worker.name].id == s.born[worker.name].id
    case Destroy(name) => Registered(s, name) ==> Journaled(s, name)
    case Record(worker) => Truthful(s, worker)
    case Forget(name) => Registered(s, name) ==> Journaled(s, name) || name in s.workers
    case Reserve(lease, _, _) => lease !in s.ledger
    case _ => true
  }

  /** The proof of a registration still to be made. */
  predicate Intends(p: J.Proof, scaleSet: int) {
    p.scaleSet == scaleSet && p.id == 0
  }

  /** The journal's proof names this registration: its name, its bound ID, and
      its scale set as far as GitHub reported one. */
  predicate Proves(s: Sys, id: int, proof: J.Proof, reported: int)
    requires id in s.regs
  {
    && s.regs[id].name == proof.name && proof.id == id
    && (reported == 0 || (reported == s.regs[id].scaleSet == proof.scaleSet))
    && proof.name in s.journal && J.SameProof(proof, s.journal[proof.name])
  }

  // ---- every step keeps it ----

  lemma OnlyLedger(s: Sys, step: Step)
    requires Books(step)
    ensures Next(s, step) == Posted(s, step)
    ensures Next(s, step) == s.(ledger := Next(s, step).ledger, ledgerFile := Next(s, step).ledgerFile)
  {
    hide Standing, Entered;
  }

  lemma SafeKept(s: Sys, step: Step)
    requires Safe(s) && Enabled(s, step)
    ensures Safe(Next(s, step))
  {
    hide Recalled, Shaped, Traced, Proved, Booked, Enabled;
    var s' := Next(s, step);
    ShapeKept(s, step);
    TracedKept(s, step);
    ProvedKept(s, step);
    BookedKept(s, step);
    forall id | id in s'.regs ensures Recalled(s', s'.regs[id].name) {
      if step.Journal? { JournalRecalls(s, step.change, id); } else { StepRecalls(s, step, id); }
    }
  }

  lemma ShapeKept(s: Sys, step: Step)
    requires Shaped(s) && Enabled(s, step)
    ensures Shaped(Next(s, step))
  {
    hide JournalAfter, Posted, Proves, Journaled;
    if Books(step) { OnlyLedger(s, step); }
    if step.Register? { assert forall id :: id in s.regs ==> s.regs[id].name != step.name; }
  }

  lemma TracedKept(s: Sys, step: Step)
    requires Traced(s) && Proved(s) && Enabled(s, step)
    ensures Traced(Next(s, step))
  {
    hide Traced, Proved, Next, Enabled;
    match step {
      case Journal(change) => JournalTraced(s, change);
      case Register(id, name, scaleSet) => RegisterTraced(s, id, name, scaleSet);
      case Start(w) => ToldTraced(s, step, w);
      case Record(w) => ToldTraced(s, step, w);
      case _ =>
        Lessens(s, step);
        TracedLess(s, Next(s, step));
    }
  }

  /** Nothing was added but what is known already. */
  predicate Less(s: Sys, s': Sys) {
    && s'.born == s.born && s'.strayed == s.strayed
    && (s'.journal == s.journal || s'.journal == s.file) && s'.file == s.file
    && (forall id :: id in s'.regs ==> id in s.regs && s'.regs[id] == s.regs[id])
    && (forall n :: n in s'.workers ==> n in s.workers && s'.workers[n] == s.workers[n])
    && (forall n :: n in s'.records ==> n in s.records && s'.records[n] == s.records[n])
  }

  lemma Lessens(s: Sys, step: Step)
    requires !step.Journal? && !step.Register? && !step.Start? && !step.Record?
    ensures Less(s, Next(s, step))
  {
    hide Posted, Journaled, JournalAfter, Strays, Saved;
    if Books(step) {
      OnlyLedger(s, step);
    } else {
      match step {
        case Unregister(id, _, _) => assert Next(s, step) == s.(regs := s.regs - {id});
        case Lapse(id) => assert Next(s, step) == s.(regs := s.regs - {id});
        case Destroy(name) => assert Next(s, step) == s.(workers := s.workers - {name});
        case Forget(name) => assert Next(s, step) == s.(records := s.records - {name});
        case Vanish(name) =>
        case Restart =>
      }
    }
  }

  lemma TracedLess(s: Sys, s': Sys)
    requires Traced(s) && Less(s, s')
    ensures Traced(s')
  {
    hide NameOf;
  }

  lemma ToldTraced(s: Sys, step: Step, w: Worker)
    requires Traced(s) && Enabled(s, step) && (step == Start(w) || step == Record(w))
    ensures Traced(Next(s, step))
  {
    hide NameOf, Journaled;
  }

  lemma RegisterTraced(s: Sys, id: int, name: string, scaleSet: int)
    requires Traced(s) && Proved(s) && Enabled(s, Register(id, name, scaleSet))
    ensures Traced(Next(s, Register(id, name, scaleSet)))
  {
    hide J.Managed, NameOf;
    forall i | i in s.regs ensures s.regs[i].name != name { assert Registered(s, s.regs[i].name); }
    assert J.ValidProof(s.journal[name]);
  }

  lemma JournalTraced(s: Sys, change: J.Change)
    requires Traced(s) && Proved(s) && Enabled(s, Journal(change))
    ensures Traced(Next(s, Journal(change)))
  {
    hide J.Managed, NameOf, J.Accepts, J.ValidProof, JournalAfter;
    var s' := Next(s, Journal(change));
    AfterAgreed(s, change);
    assert s' == s.(journal := s'.journal, file := s'.file, strayed := s'.strayed) && s.strayed <= s'.strayed;
  }

  /** Unless the change strays, what it writes is of its registration. */
  lemma AfterAgreed(s: Sys, change: J.Change)
    requires Agreed(s, s.journal) && J.Named(s.journal)
    ensures !change.write.Failed? ==> Agreed(Next(s, Journal(change)), JournalAfter(s, change))
  {
    hide J.Managed;
    var s', j := Next(s, Journal(change)), JournalAfter(s, change);
    if !change.write.Failed? {
      forall n | n in j && n !in s'.strayed ensures Agrees(s', j[n]) {
        if n in s.journal { assert n !in s.strayed ==> Agrees(s, s.journal[n]); }
      }
    }
  }

  lemma StepRecalls(s: Sys, step: Step, id: int)
    requires Enabled(s, step) && !step.Journal? && id in Next(s, step).regs
    requires (id in s.regs ==> Recalled(s, s.regs[id].name))
    ensures Recalled(Next(s, step), Next(s, step).regs[id].name)
  {
    hide Proves, NameOf, L.Lapsed, L.AfterReserve, L.AfterRelease, L.AfterAdopt, L.AfterReconcile, Finished;
    if id in s.regs { assert Registered(s, s.regs[id].name); }
  }

  lemma JournalRecalls(s: Sys, change: J.Change, id: int)
    requires Enabled(s, Journal(change)) && id in s.regs && Recalled(s, s.regs[id].name)
    ensures Recalled(Next(s, Journal(change)), s.regs[id].name)
  {
    hide J.Accepts, J.Merged, NameOf;
    assert Registered(s, s.regs[id].name);
  }

  lemma ProvedKept(s: Sys, step: Step)
    requires Proved(s) && Enabled(s, step)
    ensures Proved(Next(s, step))
  {
    hide J.Managed, J.Named, Leased, Posted;
    if Books(step) { OnlyLedger(s, step); }
    if step.Journal? { JournalProved(s, step.change); }
  }

  lemma JournalProved(s: Sys, change: J.Change)
    requires J.Named(s.journal) && Leased(s.journal) && Enabled(s, Journal(change))
    ensures J.Named(JournalAfter(s, change)) && Leased(JournalAfter(s, change))
  {
    hide J.Managed;
    if change.Put? && J.Accepts(s.journal, change.proof) { J.MergeKeeps(s.journal, change.proof); }
  }

  lemma BookedKept(s: Sys, step: Step)
    requires Booked(s)
    ensures Booked(Next(s, step))
  {
    hide Charged, Next;
    if Books(step) { BooksCharged(s, step); } else { NotBooked(s, step); }
  }

  lemma NotBooked(s: Sys, step: Step)
    requires !Books(step)
    ensures Next(s, step).ledger == (if step.Restart? then s.ledgerFile else s.ledger)
    ensures Next(s, step).ledgerFile == s.ledgerFile
    ensures Next(s, step).reservation == s.reservation
  {
    hide JournalAfter, Strays, Saved, Posted, Vanished;
    match step {
      case Journal(change) => JournalLeaves(s, change);
      case Register(id, name, scaleSet) =>
        assert Next(s, step) ==
               s.(regs := s.regs[id := Registration(name, scaleSet)], born := s.born[name := Birth(id, scaleSet)], lastId := id);
      case Unregister(id, _, _) => assert Next(s, step) == s.(regs := s.regs - {id});
      case Lapse(id) => assert Next(s, step) == s.(regs := s.regs - {id});
      case Start(worker) => assert Next(s, step) == s.(workers := s.workers[worker.name := worker]);
      case Destroy(name) => assert Next(s, step) == s.(workers := s.workers - {name});
      case Record(worker) => assert Next(s, step) == s.(records := s.records[worker.name := worker]);
      case Forget(name) => assert Next(s, step) == s.(records := s.records - {name});
      case Vanish(name) => VanishLeaves(s, name);
      case Restart =>
    }
  }

  lemma JournalLeaves(s: Sys, change: J.Change)
    ensures var s' := Next(s, Journal(change));
            s'.ledger == s.ledger && s'.ledgerFile == s.ledgerFile && s'.reservation == s.reservation
  {
    hide JournalAfter, Strays, Saved;
  }

  lemma VanishLeaves(s: Sys, name: string)
    ensures var s' := Vanished(s, name);
            s'.ledger == s.ledger && s'.ledgerFile == s.ledgerFile && s'.reservation == s.reservation
  {
    hide Journaled;
  }

  lemma BooksCharged(s: Sys, step: Step)
    requires Booked(s) && Books(step)
    ensures Booked(Next(s, step))
  {
    hide Charged, Entered, Standing, Next;
    OnlyLedger(s, step);
    EnteredCharged(s, step);
    StandingCharged(s, step);
  }

  lemma EnteredCharged(s: Sys, step: Step)
    requires Charged(s.ledger, s.reservation) && s.reservation > 0 && Books(step)
    ensures Charged(Entered(s, step), s.reservation)
  {
    hide Charged, L.Lapsed, L.AfterReserve, L.AfterRelease, L.AfterAdopt, L.AfterReconcile, Finished;
    match step {
      case Reserve(l, now, _) => ReserveCharged(s.ledger, l, now, s.reservation);
      case Finish(l, how, stoppedAt, now, _) => FinishCharged(s.ledger, l, how, stoppedAt, now, s.reservation);
      case Release(l, _) => ReleaseCharged(s.ledger, l, s.reservation);
      case Adopt(l, start, _) => AdoptCharged(s.ledger, l, start, s.reservation);
      case Balance(alive, now, _) => BalanceCharged(s.ledger, alive, now, s.reservation);
    }
  }

  lemma StandingCharged(s: Sys, step: Step)
    requires Charged(s.ledger, s.reservation) && s.reservation > 0 && Books(step)
    ensures Charged(Standing(s, step), s.reservation)
  {
    hide Charged, Entered, L.Lapsed;
    EnteredCharged(s, step);
    if step.Reserve? { LapseCharged(s.ledger, step.now, s.reservation); }
  }

  lemma LapseCharged(h: L.History, now: int, reservation: int)
    requires Charged(h, reservation)
    ensures Charged(L.Lapsed(h, now), reservation)
  {
  }

  lemma EntryCharged(h: L.History, lease: string, e: L.Entry, reservation: int)
    requires Charged(h, reservation) && e.lease == lease && 0 < e.seconds <= L.Seconds(reservation)
    ensures Charged(h[lease := e], reservation)
  {
  }

  lemma ReserveCharged(h: L.History, lease: string, now: int, reservation: int)
    requires Charged(h, reservation) && reservation > 0
    ensures Charged(L.AfterReserve(h, lease, now, reservation), reservation)
  {
    LapseCharged(h, now, reservation);
    EntryCharged(L.Lapsed(h, now), lease, L.NewEntry(lease, now, reservation, false), reservation);
  }

  lemma FinishCharged(h: L.History, lease: string, how: J.Disposition, stoppedAt: int, now: int, reservation: int)
    requires Charged(h, reservation)
    ensures Charged(Finished(h, lease, how, stoppedAt, now), reservation)
  {
    if L.Running(h, lease) && how.SettleActualUsage? {
      var settled := h[lease := L.Settle(h[lease], stoppedAt, now)];
      EntryCharged(h, lease, L.Settle(h[lease], stoppedAt, now), reservation);
      LapseCharged(settled, now, reservation);
    }
  }

  lemma ReleaseCharged(h: L.History, lease: string, reservation: int)
    requires Charged(h, reservation)
    ensures Charged(L.AfterRelease(h, lease), reservation)
  {
  }

  lemma AdoptCharged(h: L.History, lease: string, start: int, reservation: int)
    requires Charged(h, reservation) && reservation > 0
    ensures Charged(L.AfterAdopt(h, lease, start, reservation), reservation)
  {
  }

  lemma BalanceCharged(h: L.History, alive: set<string>, now: int, reservation: int)
    requires Charged(h, reservation)
    ensures Charged(L.AfterReconcile(h, alive, now), reservation)
  {
    var balanced := L.MapHistory(h, e => L.Reconcile(e, alive, now));
    assert Charged(balanced, reservation);
    LapseCharged(balanced, now, reservation);
  }

  // ---- over whole runs ----

  function After(s: Sys, steps: seq<Step>): Sys {
    if steps == [] then s else Next(After(s, steps[..|steps| - 1]), steps[|steps| - 1])
  }

  predicate Allowed(s: Sys, steps: seq<Step>) {
    forall k :: 0 <= k < |steps| ==> Enabled(After(s, steps[..k]), steps[k])
  }

  lemma AllowedFront(s: Sys, steps: seq<Step>)
    requires steps != [] && Allowed(s, steps)
    ensures Allowed(s, steps[..|steps| - 1])
  {
    var front := steps[..|steps| - 1];
    forall k | 0 <= k < |front| ensures Enabled(After(s, front[..k]), front[k]) {
      assert front[..k] == steps[..k];
    }
  }

  lemma OneMore(s: Sys, steps: seq<Step>, step: Step)
    ensures After(s, steps + [step]) == Next(After(s, steps), step)
    ensures Allowed(s, steps) && Enabled(After(s, steps), step) ==> Allowed(s, steps + [step])
  {
    var longer := steps + [step];
    assert longer[..|longer| - 1] == steps;
    if Allowed(s, steps) && Enabled(After(s, steps), step) {
      forall k | 0 <= k < |longer| ensures Enabled(After(s, longer[..k]), longer[k]) {
        assert longer[..k] == if k < |steps| then steps[..k] else steps;
      }
    }
  }

  lemma {:induction false} RunSafe(s: Sys, steps: seq<Step>)
    requires Safe(s) && Allowed(s, steps)
    ensures Safe(After(s, steps))
    decreases |steps|
  {
    hide Safe;
    if steps != [] {
      AllowedFront(s, steps);
      RunSafe(s, steps[..|steps| - 1]);
      SafeKept(After(s, steps[..|steps| - 1]), steps[|steps| - 1]);
    }
  }

  /** A step that takes a registration away. */
  predicate Removes(step: Step, id: int) {
    step == Lapse(id) || (step.Unregister? && step.id == id)
  }

  lemma StepRemoves(s: Sys, step: Step, id: int)
    requires Enabled(s, step) && id in s.regs && id !in Next(s, step).regs
    ensures Removes(step, id) && (step.Unregister? ==> Proves(s, id, step.proof, step.reported))
  {
    hide JournalAfter, Proves, Posted, Journaled;
    if Books(step) { OnlyLedger(s, step); }
  }

  /** A registration that is gone was dropped by GitHub, or removed by a call
      that the journal's proof of this very registration allowed. */
  lemma {:induction false} RemovalProved(s: Sys, steps: seq<Step>, from: nat, id: int)
    requires Allowed(s, steps) && from <= |steps| && id in After(s, steps[..from]).regs && id !in After(s, steps).regs
    ensures exists k :: from <= k < |steps| && TakenAt(s, steps, k, id)
    decreases |steps|
  {
    hide Next, Enabled, TakenAt;
    assert steps[..|steps|] == steps;
    var front, last := steps[..|steps| - 1], |steps| - 1;
    if id in After(s, front).regs {
      TakenLast(s, steps, id);
    } else {
      AllowedFront(s, steps);
      assert front[..from] == steps[..from];
      RemovalProved(s, front, from, id);
      var k :| from <= k < |front| && TakenAt(s, front, k, id);
      TakenLonger(s, steps, k, id);
    }
  }

  /** The k-th step took the registration, and was entitled to. */
  predicate TakenAt(s: Sys, steps: seq<Step>, k: int, id: int) {
    && 0 <= k < |steps| && Removes(steps[k], id) && id in After(s, steps[..k]).regs
    && (steps[k].Unregister? ==> Proves(After(s, steps[..k]), id, steps[k].proof, steps[k].reported))
  }

  lemma TakenLast(s: Sys, steps: seq<Step>, id: int)
    requires Allowed(s, steps) && steps != [] && id in After(s, steps[..|steps| - 1]).regs
    requires id !in After(s, steps).regs
    ensures TakenAt(s, steps, |steps| - 1, id)
  {
    hide Next, Enabled, Removes, Proves;
    StepRemoves(After(s, steps[..|steps| - 1]), steps[|steps| - 1], id);
  }

  lemma TakenLonger(s: Sys, steps: seq<Step>, k: int, id: int)
    requires steps != [] && TakenAt(s, steps[..|steps| - 1], k, id)
    ensures TakenAt(s, steps, k, id)
  {
    hide Removes, Proves, After;
    assert steps[..|steps| - 1][..k] == steps[..k];
  }

  lemma StepWent(s: Sys, step: Step, name: string)
    ensures name in Next(s, step).went <==> name in s.went || (step == Vanish(name) && name in s.workers)
  {
    hide JournalAfter, Posted, Journaled;
    if Books(step) { OnlyLedger(s, step); }
  }

  /** Whose worker went by itself in a run. */
  lemma {:induction false} WentMeans(s: Sys, steps: seq<Step>, name: string)
    ensures name in After(s, steps).went <==>
            name in s.went || exists k :: 0 <= k < |steps| && steps[k] == Vanish(name) && name in After(s, steps[..k]).workers
    decreases |steps|
  {
    hide Next;
    if steps != [] {
      var front, last := steps[..|steps| - 1], |steps| - 1;
      WentMeans(s, front, name);
      StepWent(After(s, front), steps[last], name);
      assert forall k :: 0 <= k < |front| ==> front[..k] == steps[..k];
      if name in After(s, front).went && name !in s.went {
        var k :| 0 <= k < |front| && front[k] == Vanish(name) && name in After(s, front[..k]).workers;
        assert steps[k] == Vanish(name) && name in After(s, steps[..k]).workers;
      }
      if k :| 0 <= k < |front| && steps[k] == Vanish(name) && name in After(s, steps[..k]).workers {
        assert front[k] == Vanish(name) && name in After(s, front[..k]).workers;
      }
    }
  }

  lemma StepStrays(s: Sys, step: Step, name: string)
    ensures name in Next(s, step).strayed <==> name in s.strayed || StraysFor(s, step, name)
  {
    hide JournalAfter, Posted, Journaled, Agrees, J.Accepts;
    if Books(step) { OnlyLedger(s, step); }
  }

  /** The step writes a proof of name that is not of its registration. */
  predicate StraysFor(s: Sys, step: Step, name: string) {
    step.Journal? && Strays(s, step.change) && step.change.proof.name == name
  }

  /** Of which names a proof strayed in a run. */
  lemma {:induction false} StrayedMeans(s: Sys, steps: seq<Step>, name: string)
    ensures name in After(s, steps).strayed <==>
            name in s.strayed || exists k :: 0 <= k < |steps| && StraysFor(After(s, steps[..k]), steps[k], name)
    decreases |steps|
  {
    hide StraysFor, After;
    NothingYet(s);
    if steps != [] {
      var front, last := steps[..|steps| - 1], |steps| - 1;
      StrayedMeans(s, front, name);
      LastStrays(s, steps, name);
      forall k | 0 <= k < |front|
        ensures StraysFor(After(s, front[..k]), front[k], name) == StraysFor(After(s, steps[..k]), steps[k], name)
      {
        assert front[..k] == steps[..k];
      }
    }
  }

  lemma NothingYet(s: Sys)
    ensures After(s, []) == s
  {
  }

  lemma LastStrays(s: Sys, steps: seq<Step>, name: string)
    requires steps != []
    ensures var front := steps[..|steps| - 1];
            name in After(s, steps).strayed <==>
            name in After(s, front).strayed || StraysFor(After(s, front), steps[|front|], name)
  {
    hide Next, StraysFor;
    StepStrays(After(s, steps[..|steps| - 1]), steps[|steps| - 1], name);
  }

  /** When a restart loses a registration: exactly when its worker went by
      itself and no proof of it is in the journal's file. */
  lemma RestartLoses(s: Sys, steps: seq<Step>, id: int)
    requires Safe(s) && Allowed(s, steps) && id in After(s, steps).regs
    ensures var now := After(s, steps); var name := now.regs[id].name;
            && Safe(Next(now, Restart))
            && (!Known(Next(now, Restart), name) <==> name in now.went && name !in now.file)
  {
    hide Safe, Next, Known, After, Allowed;
    RunSafe(s, steps);
    SafeKept(After(s, steps), Restart);
    LosesNow(After(s, steps), id);
  }

  lemma LosesNow(s: Sys, id: int)
    requires Safe(s) && id in s.regs
    ensures !Known(Next(s, Restart), s.regs[id].name) <==> s.regs[id].name in s.went && s.regs[id].name !in s.file
  {
    assert Recalled(s, s.regs[id].name);
  }

  /** However often leases are closed, adopted again and replayed, and wherever
      the controller restarts, the ledger charges no lease more than one
      reservation. */
  lemma RunCharges(s: Sys, steps: seq<Step>)
    requires Safe(s) && Allowed(s, steps)
    ensures var h := After(s, steps).ledger;
            && L.Total(h) <= |h| * L.Seconds(After(s, steps).reservation)
            && forall l :: l in h ==> h[l].lease == l && 0 < h[l].seconds <= L.Seconds(After(s, steps).reservation)
  {
    RunSafe(s, steps);
    TotalBounded(After(s, steps).ledger, After(s, steps).reservation);
  }

  lemma {:induction false} TotalBounded(h: L.History, reservation: int)
    requires Charged(h, reservation)
    ensures L.Total(h) <= |h| * L.Seconds(reservation)
    decreases |h|
  {
    hide L.Total, L.Seconds;
    if h == map[] {
      EmptyTotal(h);
    } else {
      var l :| l in h;
      L.TotalSplit(h, l);
      TotalBounded(h - {l}, reservation);
      assert |h - {l}| == |h| - 1 by { assert (h - {l}).Keys == h.Keys - {l}; }
      OneLess(|h|, L.Seconds(reservation));
    }
  }

  lemma OneLess(n: int, seconds: int)
    ensures n * seconds == (n - 1) * seconds + seconds
  {
  }

  lemma EmptyTotal(h: L.History)
    requires h == map[]
    ensures L.Total(h) == 0
  {
  }

  /** A lease that was closed is charged no further; only its worker being
      found again opens it, and then for the whole reservation. */
  lemma ClosedStays(s: Sys, step: Step, lease: string)
    requires Booked(s) && Enabled(s, step) && !step.Restart? && lease in s.ledger && !s.ledger[lease].active
    ensures lease in Next(s, step).ledger
    ensures var e := Next(s, step).ledger[lease];
            || e == s.ledger[lease]
            || (step.Adopt? && step.lease == lease && e == L.NewEntry(lease, step.startedAt, s.reservation, true))
  {
    hide Next;
    if Books(step) { ClosedBooks(s, step, lease); } else { NotBooked(s, step); }
  }

  lemma ClosedBooks(s: Sys, step: Step, lease: string)
    requires Charged(s.ledger, s.reservation) && Books(step) && lease in s.ledger && !s.ledger[lease].active
    requires (step.Reserve? ==> step.lease != lease)
    ensures lease in Next(s, step).ledger
    ensures var e := Next(s, step).ledger[lease];
            || e == s.ledger[lease]
            || (step.Adopt? && step.lease == lease && e == L.NewEntry(lease, step.startedAt, s.reservation, true))
  {
    hide Charged, Entered, Standing, Next;
    OnlyLedger(s, step);
    EnteredKeeps(s, step, lease);
    StandingKeeps(s, step, lease);
  }

  lemma StandingKeeps(s: Sys, step: Step, lease: string)
    requires Charged(s.ledger, s.reservation) && Books(step) && lease in s.ledger && !s.ledger[lease].active
    requires step.Reserve? ==> step.lease != lease
    ensures lease in Standing(s, step) && Standing(s, step)[lease] == s.ledger[lease]
  {
    hide Entered, L.Lapsed, Charged;
    EnteredKeeps(s, step, lease);
    if step.Reserve? { LapseKeeps(s.ledger, step.now, lease); }
  }

  lemma EnteredKeeps(s: Sys, step: Step, lease: string)
    requires Charged(s.ledger, s.reservation) && Books(step) && lease in s.ledger && !s.ledger[lease].active
    requires step.Reserve? ==> step.lease != lease
    ensures lease in Entered(s, step)
    ensures var e := Entered(s, step)[lease];
            || e == s.ledger[lease]
            || (step.Adopt? && step.lease == lease && e == L.NewEntry(lease, step.startedAt, s.reservation, true))
  {
    hide Finished, L.AfterReserve, L.AfterRelease, L.AfterAdopt, L.AfterReconcile, L.Lapsed, Charged;
    match step {
      case Reserve(l, now, _) => ReserveKeeps(s.ledger, l, now, s.reservation, lease);
      case Finish(l, how, stoppedAt, now, _) => FinishKeeps(s.ledger, l, how, stoppedAt, now, lease);
      case Release(l, _) => ReleaseKeeps(s.ledger, l, lease);
      case Adopt(l, start, _) => AdoptReopens(s.ledger, l, start, s.reservation, lease);
      case Balance(alive, now, _) => BalanceKeeps(s.ledger, alive, now, lease);
    }
  }

  lemma LapseKeeps(h: L.History, now: int, lease: string)
    requires lease in h && !h[lease].active
    ensures lease in L.Lapsed(h, now) && L.Lapsed(h, now)[lease] == h[lease]
  {
  }

  lemma ReserveKeeps(h: L.History, l: string, now: int, reservation: int, lease: string)
    requires lease in h && !h[lease].active && l != lease
    ensures lease in L.AfterReserve(h, l, now, reservation) && L.AfterReserve(h, l, now, reservation)[lease] == h[lease]
  {
  }

  lemma ReleaseKeeps(h: L.History, l: string, lease: string)
    requires lease in h && !h[lease].active
    ensures lease in L.AfterRelease(h, l) && L.AfterRelease(h, l)[lease] == h[lease]
  {
  }

  lemma AdoptReopens(h: L.History, l: string, start: int, reservation: int, lease: string)
    requires Charged(h, reservation) && lease in h && !h[lease].active
    ensures var h' := L.AfterAdopt(h, l, start, reservation);
            lease in h' && h'[lease] == if l == lease then L.NewEntry(lease, start, reservation, true) else h[lease]
  {
  }

  lemma FinishKeeps(h: L.History, l: string, how: J.Disposition, stoppedAt: int, now: int, lease: string)
    requires lease in h && !h[lease].active
    ensures lease in Finished(h, l, how, stoppedAt, now) && Finished(h, l, how, stoppedAt, now)[lease] == h[lease]
  {
    hide L.Seconds, L.Settle, L.Forfeit;
  }

  lemma BalanceKeeps(h: L.History, alive: set<string>, now: int, lease: string)
    requires lease in h && !h[lease].active
    ensures lease in L.AfterReconcile(h, alive, now) && L.AfterReconcile(h, alive, now)[lease] == h[lease]
  {
    hide L.Seconds;
  }

  // ---- what other leases may do meanwhile ----

  /** A step of another lease, a worker that goes by itself, or a registration
      that GitHub drops. */
  predicate OfOthers(step: Step, lease: string) {
    match step
    case Journal(Put(p, _)) => p.name != NameOf(lease)
    case Journal(Remove(n, _)) => n != NameOf(lease)
    case Register(_, n, _) => n != NameOf(lease)
    case Unregister(_, p, _) => p.name != NameOf(lease)
    case Lapse(_) => true
    case Start(w) => w.name != NameOf(lease)
    case Destroy(n) => n != NameOf(lease)
    case Vanish(_) => true
    case Record(w) => w.name != NameOf(lease)
    case Forget(n) => n != NameOf(lease)
    case Reserve(l, _, _) => l != lease
    case Finish(l, _, _, _, _) => l != lease
    case Release(l, _) => l != lease
    case Adopt(l, _, _) => l != lease
    case Balance(_, _, _) => false
    case Restart => false
  }

  function Ledgered(h: L.History, lease: string): Option<L.Entry> {
    if lease in h then Some(h[lease]) else None
  }

  /** A reservation that ran past its deadline. */
  function Overdue(e: L.Entry): L.Entry {
    e.(active := false, chargedAt := L.Deadline(e))
  }

  /** While others act a lease's entry stays, or its deadline passes. */
  predicate Aged(e: Option<L.Entry>, e': Option<L.Entry>) {
    e' == e || (e.Some? && e.value.active && e' == Some(Overdue(e.value)))
  }

  /** What becomes of a lease's entry when it is closed: charged once, as its
      proof says, unless it was over before. */
  predicate ClosedAs(e: Option<L.Entry>, e': Option<L.Entry>, p: J.Proof) {
    if e.None? || !e.value.active then e' == e
    else
      && e'.Some?
      && (|| e'.value == Overdue(e.value)
          || e'.value == if p.disposition.ForfeitReservation? then L.Forfeit(e.value, e'.value.chargedAt)
                         else L.Settle(e.value, p.stoppedAt, e'.value.chargedAt))
  }

  /** And when its reservation is taken back. */
  predicate Refunded(e: Option<L.Entry>, e': Option<L.Entry>) {
    if e.None? || !e.value.active then e' == e else e'.None? || e' == Some(Overdue(e.value))
  }

  /** The worker of a name stays as it is or goes. */
  predicate Fades(s: Sys, s': Sys, n: string) {
    && (n in s'.workers ==> n in s.workers && s'.workers[n] == s.workers[n])
    && (n in s.went ==> n in s'.went) && (n in s'.went ==> n in s.went || n in s.workers)
  }

  /** What stays of a lease while others act: its proof and its record stay;
      its reservation can only run out, its worker and its registration can
      only go by themselves. */
  ghost predicate Undisturbed(s: Sys, s': Sys, lease: string) {
    var n := NameOf(lease);
    && (n in s.journal <==> n in s'.journal) && (n in s.journal ==> s'.journal[n] == s.journal[n])
    && (Journaled(s, n) ==> Journaled(s', n))
    && (n in s.records <==> n in s'.records) && (n in s.records ==> s'.records[n] == s.records[n])
    && Aged(Ledgered(s.ledger, lease), Ledgered(s'.ledger, lease)) && s'.reservation == s.reservation
    && Fades(s, s', n) && (n in s.workers ==> n in s'.workers || n in s'.went)
    && RegistrationGoes(s, s', n) && IdentityStays(s, s', n)
  }

  /** Whose registration a name has stays, and its proof in the file is the one
      there was or the one in memory. */
  predicate IdentityStays(s: Sys, s': Sys, n: string) {
    && (n in s'.born <==> n in s.born) && (n in s.born ==> s'.born[n] == s.born[n]) && (n in s'.strayed <==> n in s.strayed)
    && (n in s'.file ==>
          (n in s.file && s'.file[n] == s.file[n]) || (n in s.journal && s'.file[n] == s.journal[n]))
  }

  /** The registration of a name stays as it is or goes, and no ID is reused. */
  ghost predicate RegistrationGoes(s: Sys, s': Sys, n: string) {
    && s.lastId <= s'.lastId
    && (forall id :: id in s'.regs && (id <= s.lastId || s'.regs[id].name == n) ==>
          id in s.regs && s'.regs[id] == s.regs[id])
  }

  lemma OthersDoNotDisturb(s: Sys, step: Step, lease: string)
    requires Enabled(s, step) && OfOthers(step, lease)
    ensures Undisturbed(s, Next(s, step), lease)
  {
    hide Next, Enabled, NameOf, Aged, RegistrationGoes, Fades, IdentityStays;
    OthersIdentity(s, step, lease);
    if step.Journal? { OthersJournal(s, step.change, lease); } else { NotJournal(s, step, lease); }
    OthersAge(s, step, lease);
    OthersRegistrations(s, step, lease);
    OthersWorkers(s, step, lease);
    OthersRecords(s, step, lease);
  }

  lemma OthersIdentity(s: Sys, step: Step, lease: string)
    requires OfOthers(step, lease)
    ensures IdentityStays(s, Next(s, step), NameOf(lease))
  {
    hide NameOf, Posted, Journaled, JournalAfter, Strays;
    if Books(step) { OnlyLedger(s, step); }
    if step.Journal? { JournalIdentity(s, step.change, lease); }
  }

  lemma JournalIdentity(s: Sys, change: J.Change, lease: string)
    requires OfOthers(Journal(change), lease)
    ensures IdentityStays(s, Next(s, Journal(change)), NameOf(lease))
  {
    hide NameOf, J.Accepts, J.Merged, Agrees;
  }

  lemma OthersWorkers(s: Sys, step: Step, lease: string)
    requires Enabled(s, step) && OfOthers(step, lease)
    ensures var s' := Next(s, step);
            Fades(s, s', NameOf(lease)) && (NameOf(lease) in s.workers ==> NameOf(lease) in s'.workers || NameOf(lease) in s'.went)
  {
    hide Next, Enabled, NameOf;
    WorkersNext(s, step);
  }

  /** Only a start, a destruction and a worker's own going touch the workers. */
  lemma WorkersNext(s: Sys, step: Step)
    ensures var s' := Next(s, step);
            match step
            case Start(w) => s'.workers == s.workers[w.name := w] && s'.went == s.went
            case Destroy(n) => s'.workers == s.workers - {n} && s'.went == s.went
            case Vanish(n) => s'.workers == s.workers - {n} && s'.went == if n in s.workers then s.went + {n} else s.went
            case _ => s'.workers == s.workers && s'.went == s.went
  {
    hide JournalAfter, Posted, Journaled;
    if Books(step) { OnlyLedger(s, step); }
  }

  lemma OthersRecords(s: Sys, step: Step, lease: string)
    requires OfOthers(step, lease)
    ensures var s' := Next(s, step); var n := NameOf(lease);
            (n in s.records <==> n in s'.records) && (n in s.records ==> s'.records[n] == s.records[n])
  {
    hide JournalAfter, NameOf, Posted, Journaled;
    if Books(step) { OnlyLedger(s, step); }
  }

  lemma NotJournal(s: Sys, step: Step, lease: string)
    requires OfOthers(step, lease) && !step.Journal?
    ensures Next(s, step).journal == s.journal && Next(s, step).file == s.file
  {
    hide NameOf, Posted, Journaled;
    if Books(step) { OnlyLedger(s, step); }
  }

  lemma OthersJournal(s: Sys, change: J.Change, lease: string)
    requires OfOthers(Journal(change), lease)
    ensures var s' := Next(s, Journal(change)); var n := NameOf(lease);
            && (n in s.journal <==> n in s'.journal) && (n in s.journal ==> s'.journal[n] == s.journal[n])
            && (Journaled(s, n) ==> Journaled(s', n))
  {
    hide NameOf, J.Accepts, J.Merged;
  }

  lemma OthersRegistrations(s: Sys, step: Step, lease: string)
    requires Enabled(s, step) && OfOthers(step, lease)
    ensures RegistrationGoes(s, Next(s, step), NameOf(lease))
  {
    hide JournalAfter, NameOf, Proves, Posted, Journaled;
    if Books(step) { OnlyLedger(s, step); }
  }

  lemma OthersAge(s: Sys, step: Step, lease: string)
    requires OfOthers(step, lease)
    ensures Aged(Ledgered(s.ledger, lease), Ledgered(Next(s, step).ledger, lease))
    ensures Next(s, step).reservation == s.reservation
  {
    hide Next, Aged, NameOf;
    if Books(step) { BooksAge(s, step, lease); } else { NotBooked(s, step); AgedItself(Ledgered(s.ledger, lease)); }
  }

  lemma AgedItself(e: Option<L.Entry>)
    ensures Aged(e, e)
  {
  }

  lemma BooksAge(s: Sys, step: Step, lease: string)
    requires OfOthers(step, lease) && Books(step)
    ensures Aged(Ledgered(s.ledger, lease), Ledgered(Next(s, step).ledger, lease))
    ensures Next(s, step).reservation == s.reservation
  {
    hide Next, Entered, Standing, Aged, NameOf;
    OnlyLedger(s, step);
    EnteredAges(s, step, lease);
    StandingAges(s, step, lease);
  }

  lemma EnteredAges(s: Sys, step: Step, lease: string)
    requires OfOthers(step, lease) && Books(step)
    ensures Aged(Ledgered(s.ledger, lease), Ledgered(Entered(s, step), lease))
  {
    hide L.Seconds, L.Settle, L.Forfeit, L.Reconcile, NameOf;
  }

  lemma StandingAges(s: Sys, step: Step, lease: string)
    requires OfOthers(step, lease) && Books(step)
    ensures Aged(Ledgered(s.ledger, lease), Ledgered(Standing(s, step), lease))
  {
    hide Entered, NameOf;
    EnteredAges(s, step, lease);
  }

  lemma UndisturbedTrans(a: Sys, b: Sys, c: Sys, lease: string)
    requires Undisturbed(a, b, lease) && Undisturbed(b, c, lease)
    ensures Undisturbed(a, c, lease)
  {
  }
}
