/**
 One launch from reservation to running worker.
 */
module Launches {
  import opened Options
  import Disk
  import J = Journals
  import L = Ledger
  import opened Launch
  import opened LaunchViews
  import opened Scalers
  import opened LaunchCleanup

  /** A lease has its reservation, which no worker confirmed yet. */
  predicate Reserved(s: Sys, lease: string) {
    lease in s.ledger && !s.ledger[lease].confirmed && s.ledger[lease].seconds == L.Seconds(s.reservation)
  }

  /** A lease is charged its whole reservation for a worker that was seen, and
      still runs unless its time is up. */
  predicate InFull(s: Sys, lease: string) {
    && lease in s.ledger && s.ledger[lease].confirmed && s.ledger[lease].seconds == L.Seconds(s.reservation)
    && (s.ledger[lease].active || s.ledger[lease].chargedAt == L.Deadline(s.ledger[lease]))
  }

  /** A lease is charged its whole reservation, open or closed. */
  predicate Paid(s: Sys, lease: string) {
    lease in s.ledger && s.ledger[lease].seconds == L.Seconds(s.reservation)
  }

  /** No worker of the lease runs uncharged. */
  predicate Accounted(s: Sys, lease: string) {
    NameOf(lease) in s.workers ==> Paid(s, lease)
  }

  lemma ReservedKept(s: Sys, s': Sys, lease: string)
    requires Elsewhere(s, s', lease)
    ensures Reserved(s, lease) ==> Reserved(s', lease)
    ensures InFull(s, lease) ==> InFull(s', lease)
  {
    hide L.Seconds;
  }

  lemma PaidMeans(s: Sys, lease: string)
    ensures Reserved(s, lease) || InFull(s, lease) ==> Paid(s, lease) && lease in s.ledger
  {
  }

  /** Forfeiting a lease leaves it charged in full. */
  lemma SpentPaid(s: Sys, s': Sys, p: J.Proof)
    requires Paid(s, p.lease) && s'.reservation == s.reservation && p.disposition.ForfeitReservation?
    requires Spent(Ledgered(s.ledger, p.lease), Ledgered(s'.ledger, p.lease), p)
    ensures Paid(s', p.lease)
  {
    hide L.Seconds;
  }

  // ---- what is left when one call fails ----

  /** Neither worker nor registration nor proof. */
  predicate Swept(s: Sys, lease: string) {
    NameOf(lease) !in s.workers && !Registered(s, NameOf(lease)) && NameOf(lease) !in s.journal
  }

  /** And the lease is given back, if it was still open. */
  predicate Returned(s: Sys, lease: string, open: bool) {
    Swept(s, lease) && (lease in s.ledger <==> !open)
  }

  /** Or it is closed at its whole reservation. */
  predicate Forfeited(s: Sys, lease: string) {
    Swept(s, lease) && Paid(s, lease) && !L.Running(s.ledger, lease)
  }

  /** Nobody else acts and every call goes well but one, which comes after so
      many, and which the controller survives. */
  predicate AllBut(script: seq<Event>, calls: nat) {
    && PlainFor(script, calls) && Rest(Later(script, calls)) == []
    && TheCall(script, calls).others == [] && !TheCall(script, calls).fate.Dies?
  }

  function TheCall(script: seq<Event>, calls: nat): Event {
    Coming(Later(script, calls))
  }

  lemma ReleasedReturns(s: Sys, s': Sys, p: J.Proof)
    requires p.name == NameOf(p.lease) && p.name !in s.workers && Reserved(s, p.lease) && OnlyGoes(s, s', p.lease)
    requires !Registered(s', p.name) && p.name !in s'.journal && s'.ledger == L.AfterRelease(s.ledger, p.lease)
    ensures Returned(s', p.lease, L.Running(s.ledger, p.lease))
  {
    hide Registered;
  }

  lemma ClosedForfeits(s: Sys, s': Sys, p: J.Proof)
    requires p.name == NameOf(p.lease) && p.name !in s.workers && Reserved(s, p.lease) && OnlyGoes(s, s', p.lease)
    requires p.disposition.ForfeitReservation? && !Registered(s', p.name) && p.name !in s'.journal
    requires ClosedAs(Ledgered(s.ledger, p.lease), Ledgered(s'.ledger, p.lease), p)
    ensures Forfeited(s', p.lease)
  {
    hide Registered, L.Seconds;
  }

  /** What the answer to the creation of the registration leaves if it is not
      the registration: nothing if there is none, a forfeited lease if there
      is. */
  predicate NotCreated(s: Sys, lease: string, event: Event, open: bool) {
    && (event.fate.Fails? ==> Returned(s, lease, open))
    && (event.fate.LostReply? || event.config.Empty? ==> event.fate.Fails? || Forfeited(s, lease))
  }

  /** The name is not free, or it is not known to be. */
  predicate Taken(s: Sys, name: string, event: Event) {
    !event.fate.Works? || (event.answer.Some? && Honest(s, name, event.answer))
  }

  /** The launch succeeds, the write that confirms it in the ledger fails, and
      all else goes well. */
  predicate Unconfirmed(script: seq<Event>, calls: nat) {
    calls > 0 && AllBut(script, calls) && TheCall(script, calls - 1).launch.Started? && !TheCall(script, calls).write.Committed?
  }

  /** A worker that was started and is listed without its scale set, while the
      controller's own is another. */
  predicate Unlisted(event: Event, scaleSet: int, own: int) {
    event.launch.Unclear? && event.launch.started && event.hides && own != scaleSet
  }

  /** What the answer to the launch call leaves: nothing when there was no
      capacity; no worker and a forfeited lease when it is unclear whether one
      started, unless the worker's proof would be of another scale set. */
  predicate Answered(s: Sys, lease: string, scaleSet: int, own: int, event: Event, open: bool) {
    var name := NameOf(lease);
    match event.launch
    case Started => Launched(s, lease) && name in s.workers
    case NoCapacity => Returned(s, lease, open)
    case _ =>
      if Unlisted(event, scaleSet, own) then
        name in s.workers && Journaled(s, name) && Paid(s, lease) && (L.Running(s.ledger, lease) <==> open)
      else Forfeited(s, lease)
  }

  /** A name and lease nobody has used. */
  predicate Unused(s: Sys, lease: string) {
    var n := NameOf(lease);
    && lease !in s.ledger && n !in s.workers && n !in s.went && n !in s.journal && n !in s.records && !Registered(s, n)
    && n !in s.born
  }

  /** Where a worker of the name may be started. */
  predicate Unseen(s: Sys, name: string) {
    name !in s.workers && name !in s.went
  }

  lemma UnseenAccounted(s: Sys, lease: string)
    requires Unseen(s, NameOf(lease))
    ensures Accounted(s, lease) && NameOf(lease) !in s.workers
  {
  }

  /** And where it may be registered. */
  predicate Unborn(s: Sys, name: string) {
    Unseen(s, name) && name !in s.born && !Registered(s, name)
  }

  /** The registration was made as the proof says. */
  predicate BornAs(s: Sys, p: J.Proof) {
    p.name in s.born && s.born[p.name] == Birth(p.id, p.scaleSet)
  }

  lemma UnseenKept(s: Sys, s': Sys, lease: string)
    requires Elsewhere(s, s', lease) && Unseen(s, NameOf(lease))
    ensures Unseen(s', NameOf(lease))
  {
  }

  function Intent(lease: string, scaleSet: int, now: int): J.Proof {
    J.Proof(NameOf(lease), 0, scaleSet, lease, J.ForfeitReservation, 0, now)
  }

  /** What a launch that succeeded leaves: a record, no proof, and the lease
      charged in full. */
  predicate Launched(s: Sys, lease: string) {
    NameOf(lease) in s.records && NameOf(lease) !in s.journal && InFull(s, lease)
  }

  /** The last part of a launch: the ledger confirms the worker, memory records
      it, and its proof leaves the journal. */
  method Commit(c: Scaler, p: J.Proof, w: Worker, own: int, now: int) returns (r: Reply, started: bool)
    requires c.Valid() && Backed(c.sys, p) && Truthful(c.sys, w) && w.name == p.name && w.lease == p.lease
    requires Reserved(c.sys, p.lease)
    requires p.name in c.sys.workers
    modifies c`sys, c`script, c`trace
    ensures c.Valid() && Calm(old(c.Now()), c.Now(), p.lease, Anyone)
    ensures (started <==> r.Done?) && (started ==> Launched(c.sys, p.lease)) && Paid(c.sys, p.lease)
    ensures old(c.script) == [] ==> started && c.sys.workers == old(c.sys).workers
    ensures AllBut(old(c.script), 0) && !TheCall(old(c.script), 0).write.Committed? && p.disposition.ForfeitReservation?
            && Bound(old(c.sys), p) && p.scaleSet in c.served && w == WorkerOf(p) ==>
              Forfeited(c.sys, p.lease)
  {
    hide Bound, J.Accepts, Fits, Forfeited, Retired;
    hide Safe, J.Managed, Trailed, OthersKept, Alone, Registered, Backed, Undisturbed, After, Allowed, OnlyIts,
         Remembered, Next, Enabled, Elsewhere, ProofKept, Reserved, InFull, Paid, Aged, ClosedAs, Spent, Fades,
         RegistrationGoes, BornStays;
    started := false;
    BackedName(c.sys, p);
    var event := c.Await(p.lease);
    StillAround(old(c.sys), c.sys, p, w);
    StillCalm(c.Now(), p.lease, Anyone);
    CalmTrans(old(c.Now()), c.Now(), c.Now(), p.lease, Nobody, Anyone, Anyone);
    PaidMeans(c.sys, p.lease);
    if event.fate.Dies? { return Dead, false; }
    ghost var v1 := c.Now();
    AdoptStep(c.sys, p, now, event.write);
    c.Act(Adopt(p.lease, now, event.write), p.lease);
    CalmTrans(old(c.Now()), v1, c.Now(), p.lease, Anyone, Nobody, Anyone);
    ghost var v2 := c.Now();
    BoundStays(v1.sys, c.sys, p);
    if !event.write.Committed? {
      var finished;
      if old(c.script) != [] && c.script == [] && Bound(c.sys, p) && p.disposition.ForfeitReservation? && w == WorkerOf(p) {
        BoundRetires(c.sys, p, own, now, c.served);
      }
      r, finished := RetireWorker(c, w, true, own, J.ForfeitReservation, 0, now);
      if finished { FinishedForfeits(v2.sys, c.sys, ProofOf(w, own, J.ForfeitReservation, 0, now)); }
      CalmTrans(old(c.Now()), v2, c.Now(), p.lease, Anyone, Only(ProofOf(w, own, J.ForfeitReservation, 0, now)),
                Anyone);
      SpentPaid(v2.sys, c.sys, ProofOf(w, own, J.ForfeitReservation, 0, now));
      if !r.Dead? { r := Failed; }
      return;
    }
    RecordStep(c.sys, p, w);
    c.Act(Record(w), p.lease);
    CalmTrans(old(c.Now()), v2, c.Now(), p.lease, Anyone, Nobody, Anyone);
    ghost var v3 := c.Now();
    r := Discharge(c, p);
    CalmTrans(old(c.Now()), v3, c.Now(), p.lease, Anyone, Nobody, Anyone);
    started := r.Done?;
  }

  /** The journal knows the registration as it was made. */
  predicate Bound(s: Sys, p: J.Proof) {
    BornAs(s, p) && p.name in s.journal && s.journal[p.name].id == p.id && J.SameProof(p, s.journal[p.name])
  }

  lemma BoundStays(s: Sys, s': Sys, p: J.Proof)
    requires s' == s.(ledger := s'.ledger, ledgerFile := s'.ledgerFile)
    ensures Bound(s', p) <==> Bound(s, p)
  {
  }

  lemma BoundRetires(s: Sys, p: J.Proof, own: int, now: int, served: set<int>)
    requires Safe(s) && Bound(s, p) && p.name == NameOf(p.lease) && p.disposition.ForfeitReservation?
    ensures p.scaleSet in served ==> Ready(s, ProofOf(WorkerOf(p), own, J.ForfeitReservation, 0, now), served)
  {
    hide J.Managed;
  }

  lemma FinishedForfeits(s: Sys, s': Sys, p: J.Proof)
    requires Paid(s, p.lease) && s'.reservation == s.reservation && p.disposition.ForfeitReservation?
    requires p.name == NameOf(p.lease) && p.name !in s'.workers && Retired(s', p)
    requires ClosedAs(Ledgered(s.ledger, p.lease), Ledgered(s'.ledger, p.lease), p)
    ensures Forfeited(s', p.lease)
  {
    hide L.Seconds, Registered;
  }

  /** The proof of a recorded worker leaves the journal. */
  method Discharge(c: Scaler, p: J.Proof) returns (r: Reply)
    requires c.Valid() && p.name == NameOf(p.lease) && p.name in c.sys.records
    requires (p.name in c.sys.workers || p.name in c.sys.went) && InFull(c.sys, p.lease)
    modifies c`sys, c`script, c`trace
    ensures c.Valid() && Calm(old(c.Now()), c.Now(), p.lease, Nobody)
    ensures (r.Done? ==> Launched(c.sys, p.lease)) && (r.Done? || r.Failed? || r.Dead?) && Paid(c.sys, p.lease)
    ensures old(c.script) == [] ==> r.Done? && c.sys.workers == old(c.sys).workers
  {
    hide Safe, J.Managed, Trailed, OthersKept, Alone, Registered, Undisturbed, After, Allowed, Next, Enabled, InFull,
         Paid;
    var event := c.Await(p.lease);
    StillRecorded(old(c.sys), c.sys, p);
    PaidMeans(c.sys, p.lease);
    if event.fate.Dies? { return Dead; }
    if p.name !in c.sys.journal { return Done; }
    ghost var v1 := c.Now();
    DischargeStep(c.sys, p, event.write);
    c.Act(Journal(J.Remove(p.name, event.write)), p.lease);
    PaidMeans(c.sys, p.lease);
    CalmTrans(old(c.Now()), v1, c.Now(), p.lease, Nobody, Nobody, Nobody);
    r := if event.write.Committed? then Done else Failed;
  }

  lemma StillAround(s: Sys, s': Sys, p: J.Proof, w: Worker)
    requires p.name == NameOf(p.lease) && Undisturbed(s, s', p.lease) && Reserved(s, p.lease) && p.name in s.workers
    requires Truthful(s, w) && w.name == p.name
    ensures Reserved(s', p.lease) && (p.name in s'.workers || p.name in s'.went) && Truthful(s', w)
  {
    UndisturbedIsKept(s, s', p.lease);
    ReservedKept(s, s', p.lease);
  }

  lemma StillRecorded(s: Sys, s': Sys, p: J.Proof)
    requires p.name == NameOf(p.lease) && Undisturbed(s, s', p.lease) && InFull(s, p.lease)
    requires p.name in s.records && (p.name in s.workers || p.name in s.went)
    ensures InFull(s', p.lease) && p.name in s'.records && (p.name in s'.workers || p.name in s'.went)
  {
    UndisturbedIsKept(s, s', p.lease);
    ReservedKept(s, s', p.lease);
  }

  lemma AdoptStep(s: Sys, p: J.Proof, now: int, write: Disk.Write)
    requires Reserved(s, p.lease)
    ensures Enabled(s, Adopt(p.lease, now, write)) && Mine(Adopt(p.lease, now, write), p.lease)
    ensures var s' := Next(s, Adopt(p.lease, now, write));
            && s' == s.(ledger := s'.ledger, ledgerFile := s'.ledgerFile) && Paid(s', p.lease)
            && (write.Committed? ==> InFull(s', p.lease))
  {
    hide L.Seconds;
  }

  lemma RecordStep(s: Sys, p: J.Proof, w: Worker)
    requires w.name == p.name == NameOf(p.lease) && Truthful(s, w)
    ensures Enabled(s, Record(w)) && Mine(Record(w), p.lease)
    ensures var s' := Next(s, Record(w));
            s' == s.(records := s'.records) && p.name in s'.records && (InFull(s, p.lease) ==> InFull(s', p.lease))
  {
    hide L.Seconds;
  }

  lemma DischargeStep(s: Sys, p: J.Proof, write: Disk.Write)
    requires p.name == NameOf(p.lease) && p.name in s.records && (p.name in s.workers || p.name in s.went)
    requires InFull(s, p.lease)
    ensures Enabled(s, Journal(J.Remove(p.name, write))) && Mine(Journal(J.Remove(p.name, write)), p.lease)
    ensures var s' := Next(s, Journal(J.Remove(p.name, write)));
            OnlyJournal(s, s') && InFull(s', p.lease) && (write.Committed? ==> p.name !in s'.journal)
  {
    hide L.Seconds;
  }

  /** The launch call of a bound registration and what follows its answer. */
  method LaunchBound(c: Scaler, p: J.Proof, own: int, now: int) returns (r: Reply, started: bool)
    requires c.Valid() && Backed(c.sys, p) && p.disposition.ForfeitReservation? && Reserved(c.sys, p.lease)
    requires Unseen(c.sys, p.name) && BornAs(c.sys, p)
    requires Journaled(c.sys, p.name) && c.sys.journal[p.name].id == p.id
    modifies c`sys, c`script, c`trace
    ensures c.Valid() && Calm(old(c.Now()), c.Now(), p.lease, Anyone)
    ensures (started <==> r.Done?) && (started ==> Launched(c.sys, p.lease)) && Accounted(c.sys, p.lease)
    ensures !TheCall(old(c.script), 0).launch.NoCapacity? ==> Paid(c.sys, p.lease)
    ensures old(c.script) == [] ==> started && p.name in c.sys.workers
    ensures AllBut(old(c.script), 0) && p.scaleSet in c.served && J.SameProof(p, old(c.sys).journal[p.name]) ==>
              Answered(c.sys, p.lease, p.scaleSet, own, TheCall(old(c.script), 0), L.Running(old(c.sys).ledger, p.lease))
    ensures Unconfirmed(old(c.script), 1) && p.scaleSet in c.served && J.SameProof(p, old(c.sys).journal[p.name]) ==>
              Forfeited(c.sys, p.lease)
  {
    hide Safe, J.Managed, J.Accepts, Trailed, OthersKept, Alone, Remembered, Registered, Backed, Undisturbed, Elsewhere,
         ProofKept, Next, Enabled, After, Allowed, OnlyIts, Reserved, InFull, Unseen, Launched, Aged, ClosedAs, Spent,
         RegistrationGoes, BornStays, Paid, Refunded, Retired, Fits, J.SameProof, L.AfterRelease, L.Running, Returned,
         Forfeited;
    started := false;
    BackedName(c.sys, p);
    var event := c.Await(p.lease);
    StillBound(old(c.sys), c.sys, p);
    StillCalm(c.Now(), p.lease, Anyone);
    CalmTrans(old(c.Now()), c.Now(), c.Now(), p.lease, Nobody, Anyone, Anyone);
    PaidMeans(c.sys, p.lease);
    UnseenAccounted(c.sys, p.lease);
    if event.fate.Dies? { return Dead, false; }
    var w, listed := WorkerOf(p), Listed(p, event.hides);
    ghost var v1 := c.Now();
    BornTruthful(c.sys, p, w);
    if MayRun(event.launch) {
      StartStep(c.sys, p, listed, w);
      c.Act(Start(listed), p.lease);
      CalmTrans(old(c.Now()), v1, c.Now(), p.lease, Anyone, Nobody, Anyone);
    }
    ghost var v2 := c.Now();
    r, started := FollowUp(c, p, event, own, now);
    CalmTrans(old(c.Now()), v2, c.Now(), p.lease, Anyone, Anyone, Anyone);
  }

  /** What follows the answer to the launch call. */
  method FollowUp(c: Scaler, p: J.Proof, event: Event, own: int, now: int) returns (r: Reply, started: bool)
    requires c.Valid() && Backed(c.sys, p) && p.disposition.ForfeitReservation? && Reserved(c.sys, p.lease)
    requires BornAs(c.sys, p) && Journaled(c.sys, p.name) && c.sys.journal[p.name].id == p.id
    requires p.name in c.sys.workers <==> MayRun(event.launch)
    requires p.name in c.sys.workers ==> c.sys.workers[p.name] == Listed(p, event.hides)
    modifies c`sys, c`script, c`trace
    ensures c.Valid() && Calm(old(c.Now()), c.Now(), p.lease, Anyone)
    ensures (started <==> r.Done?) && (started ==> Launched(c.sys, p.lease)) && Accounted(c.sys, p.lease)
    ensures !event.launch.NoCapacity? ==> Paid(c.sys, p.lease)
    ensures old(c.script) == [] && event.launch.Started? ==> started && p.name in c.sys.workers
    ensures old(c.script) == [] && p.scaleSet in c.served && J.SameProof(p, old(c.sys).journal[p.name]) ==>
              Answered(c.sys, p.lease, p.scaleSet, own, event, L.Running(old(c.sys).ledger, p.lease))
    ensures event.launch.Started? && AllBut(old(c.script), 0) && !TheCall(old(c.script), 0).write.Committed?
            && p.scaleSet in c.served && J.SameProof(p, old(c.sys).journal[p.name]) ==>
              Forfeited(c.sys, p.lease)
  {
    hide Safe, J.Managed, J.Accepts, Trailed, OthersKept, Alone, Registered, Backed, Next, Enabled, After, Allowed,
         Reserved, InFull, Launched, Paid, Fits, J.SameProof, L.AfterRelease, L.Running, Returned, Forfeited;
    started := false;
    BackedName(c.sys, p);
    StillCalm(c.Now(), p.lease, Anyone);
    if event.launch.Started? {
      BornTruthful(c.sys, p, WorkerOf(p));
      r, started := Commit(c, p, WorkerOf(p), own, now);
    } else if event.launch.NoCapacity? {
      r := ReturnLease(c, p);
      CalmTrans(old(c.Now()), old(c.Now()), c.Now(), p.lease, Anyone, Only(p), Anyone);
    } else {
      r := ResolveLaunch(c, p, event, own, now);
    }
  }

  /** The worker a launch starts, and as the provider lists it. */
  function WorkerOf(p: J.Proof): Worker {
    Worker(p.name, p.lease, p.id, p.scaleSet)
  }

  function Listed(p: J.Proof, hides: bool): Worker {
    if hides then WorkerOf(p).(id := 0, scaleSet := 0) else WorkerOf(p)
  }

  /** A worker runs when this is the answer. */
  predicate MayRun(launch: LaunchReply) {
    launch.Started? || launch.PartlyStarted? || (launch.Unclear? && launch.started)
  }

  /** There was no capacity, so no worker was started. */
  method ReturnLease(c: Scaler, p: J.Proof) returns (r: Reply)
    requires c.Valid() && Backed(c.sys, p) && Reserved(c.sys, p.lease) && p.name !in c.sys.workers
    requires BornAs(c.sys, p) && Journaled(c.sys, p.name) && c.sys.journal[p.name].id == p.id
    modifies c`sys, c`script, c`trace
    ensures c.Valid() && Calm(old(c.Now()), c.Now(), p.lease, Only(p)) && (r.Failed? || r.Dead?)
    ensures p.name !in c.sys.workers
    ensures old(c.script) == [] && p.scaleSet in c.served ==>
              Returned(c.sys, p.lease, L.Running(old(c.sys).ledger, p.lease))
  {
    hide Safe, J.Managed, Trailed, OthersKept, Alone, Registered, Backed, Next, Enabled, After, Allowed, OnlyIts,
         Reserved, RegistrationGoes, BornStays, Refunded, Fits, L.AfterRelease, L.Running, Returned;
    BackedName(c.sys, p);
    BoundFits(c.sys, p);
    r := CleanupRejected(c, p);
    if r.Done? && c.sys.ledger == L.AfterRelease(old(c.sys).ledger, p.lease) { ReleasedReturns(old(c.sys), c.sys, p); }
    if !r.Dead? { r := Failed; }
  }

  /** The answer leaves open whether a worker was started. */
  method ResolveLaunch(c: Scaler, p: J.Proof, event: Event, own: int, now: int) returns (r: Reply)
    requires c.Valid() && Backed(c.sys, p) && p.disposition.ForfeitReservation? && Reserved(c.sys, p.lease)
    requires BornAs(c.sys, p) && Journaled(c.sys, p.name) && c.sys.journal[p.name].id == p.id
    requires event.launch.PartlyStarted? || event.launch.Unclear?
    requires p.name in c.sys.workers <==> MayRun(event.launch)
    requires p.name in c.sys.workers ==> c.sys.workers[p.name] == Listed(p, event.hides)
    modifies c`sys, c`script, c`trace
    ensures c.Valid() && Calm(old(c.Now()), c.Now(), p.lease, Anyone) && (r.Failed? || r.Dead?) && Paid(c.sys, p.lease)
    ensures old(c.script) == [] && p.scaleSet in c.served && J.SameProof(p, old(c.sys).journal[p.name]) ==>
              Answered(c.sys, p.lease, p.scaleSet, own, event, L.Running(old(c.sys).ledger, p.lease))
  {
    hide Safe, J.Managed, J.Accepts, Trailed, OthersKept, Alone, Remembered, Registered, Backed, Undisturbed, Elsewhere,
         ProofKept, Next, Enabled, After, Allowed, OnlyIts, Reserved, InFull, Unseen, Launched, Aged, ClosedAs, Spent,
         RegistrationGoes, BornStays, Paid, Refunded, Retired, Fits, J.SameProof, L.Running, Refused, WorkerReady;
    var putOff;
    var partial := if event.launch.PartlyStarted? then Some(WorkerOf(p)) else None;
    BackedName(c.sys, p);
    PaidMeans(c.sys, p.lease);
    BoundFits(c.sys, p);
    if J.SameProof(p, c.sys.journal[p.name]) { BoundReady(c.sys, p, partial, event.hides, own, now, c.served); }
    r, putOff := CleanupAmbiguous(c, p, partial, own, now);
    SpentPaid(old(c.sys), c.sys, p);
    RetiredMeans(c.sys, p);
    if !r.Dead? { r := Failed; }
  }

  /** A proof bound to the ID its registration was born with fits it. */
  lemma BoundFits(s: Sys, p: J.Proof)
    requires Safe(s) && BornAs(s, p) && p.name in s.journal && s.journal[p.name].id == p.id
    ensures Fits(s, p)
  {
  }

  lemma RetiredMeans(s: Sys, p: J.Proof)
    ensures Retired(s, p) ==> !Registered(s, p.name) && p.name !in s.journal && !L.Running(s.ledger, p.lease)
  {
  }

  /** The worker a launch reports can be retired, and so can one that is listed,
      unless it is listed without its scale set and the own one is another. */
  lemma BoundReady(s: Sys, p: J.Proof, partial: Option<Worker>, hides: bool, own: int, now: int, served: set<int>)
    requires Safe(s) && BornAs(s, p) && p.name in s.journal && s.journal[p.name].id == p.id
    requires J.SameProof(p, s.journal[p.name]) && p.name == NameOf(p.lease) && p.disposition.ForfeitReservation?
    requires partial.Some? ==> partial.value == WorkerOf(p)
    requires p.name in s.workers ==> s.workers[p.name] == Listed(p, hides)
    ensures p.scaleSet in served && (partial.Some? || p.name !in s.workers || !hides || own == p.scaleSet) ==>
              WorkerReady(s, p.name, partial, own, now, served)
    ensures Refused(s, p.name, own, now) <==> p.name in s.workers && hides && own != p.scaleSet
  {
    hide J.Managed;
  }

  lemma StillBound(s: Sys, s': Sys, p: J.Proof)
    requires Backed(s, p) && Undisturbed(s, s', p.lease) && Reserved(s, p.lease) && Unseen(s, p.name) && BornAs(s, p)
    requires Journaled(s, p.name) && s.journal[p.name].id == p.id
    ensures Backed(s', p) && Reserved(s', p.lease) && Unseen(s', p.name) && Journaled(s', p.name) && BornAs(s', p)
    ensures s'.journal[p.name].id == p.id
  {
    UndisturbedIsKept(s, s', p.lease);
    BackedKept(s, s', p);
    ReservedKept(s, s', p.lease);
    UnseenKept(s, s', p.lease);
  }

  lemma BornTruthful(s: Sys, p: J.Proof, w: Worker)
    requires BornAs(s, p) && p.name == NameOf(p.lease) && w == WorkerOf(p)
    ensures Truthful(s, w) && Truthful(s, w.(id := 0, scaleSet := 0))
  {
  }

  lemma StartStep(s: Sys, p: J.Proof, listed: Worker, w: Worker)
    requires Backed(s, p) && Reserved(s, p.lease) && Unseen(s, p.name) && BornAs(s, p)
    requires Truthful(s, listed) && listed.name == p.name && listed.lease == p.lease && Truthful(s, w)
    requires Journaled(s, p.name) && s.journal[p.name].id == p.id
    ensures Enabled(s, Start(listed)) && Mine(Start(listed), p.lease)
    ensures var s' := Next(s, Start(listed));
            && Backed(s', p) && Reserved(s', p.lease) && p.name in s'.workers && s'.workers[p.name] == listed
            && Truthful(s', w) && s' == s.(workers := s'.workers)
  {
  }

  /** Every registration was in the journal, memory and file, when it was made;
      every worker was started only once its registration's ID was bound there. */
  ghost predicate JournaledFirst(start: Sys, trace: seq<Step>) {
    forall k :: 0 <= k < |trace| ==>
      && (trace[k].Register? ==> Journaled(After(start, trace[..k]), trace[k].name))
      && (trace[k].Start? ==>
            && Journaled(After(start, trace[..k]), trace[k].worker.name)
            && trace[k].worker.name in After(start, trace[..k]).born
            && After(start, trace[..k]).journal[trace[k].worker.name].id == After(start, trace[..k]).born[trace[k].worker.name].id)
  }

  lemma AllowedJournals(start: Sys, trace: seq<Step>)
    requires Allowed(start, trace)
    ensures JournaledFirst(start, trace)
  {
    hide After;
    forall k | 0 <= k < |trace|
      ensures trace[k].Register? ==> Journaled(After(start, trace[..k]), trace[k].name)
      ensures trace[k].Start? ==>
                && Journaled(After(start, trace[..k]), trace[k].worker.name)
                && trace[k].worker.name in After(start, trace[..k]).born
                && After(start, trace[..k]).journal[trace[k].worker.name].id == After(start, trace[..k]).born[trace[k].worker.name].id
    {
      assert Enabled(After(start, trace[..k]), trace[k]);
    }
  }

  /** One launch. Whatever fails and wherever the controller dies, every
      registration is remembered and every lease charged at most once (Valid);
      no registration was made and no worker started that the journal's file
      did not know, and none was removed but the lease's own. */
  method StartWorker(c: Scaler, lease: string, scaleSet: int, own: int, now: int) returns (r: Reply, started: bool)
    requires c.Valid() && Unused(c.sys, lease)
    modifies c`sys, c`script, c`trace
    ensures c.Valid() && Calm(old(c.Now()), c.Now(), lease, Anyone)
    ensures OnlyIts(c.start, old(c.Now()), c.Now(), lease, Anyone)
    ensures JournaledFirst(c.start, c.trace)
    ensures started ==> r.Done? && Launched(c.sys, lease)
    ensures r.Done? && !started ==> Undisturbed(old(c.sys), c.sys, lease)
    ensures Accounted(c.sys, lease)
    ensures old(c.script) == [] && J.ValidProof(Intent(lease, scaleSet, now)) ==>
              started && NameOf(lease) in c.sys.workers
    ensures AllBut(old(c.script), 0) && !TheCall(old(c.script), 0).write.Committed? ==> Returned(c.sys, lease, true)
    ensures AllBut(old(c.script), 1) && Taken(old(c.sys), NameOf(lease), TheCall(old(c.script), 1)) ==>
              Returned(c.sys, lease, true)
    ensures AllBut(old(c.script), 2) && !TheCall(old(c.script), 2).write.Committed? ==> Forfeited(c.sys, lease)
    ensures AllBut(old(c.script), 3) && J.ValidProof(Intent(lease, scaleSet, now)) && scaleSet in c.served ==>
              NotCreated(c.sys, lease, TheCall(old(c.script), 3), true)
    ensures AllBut(old(c.script), 5) && J.ValidProof(Intent(lease, scaleSet, now)) && scaleSet in c.served ==>
              Answered(c.sys, lease, scaleSet, own, TheCall(old(c.script), 5), true)
    ensures Unconfirmed(old(c.script), 6) && J.ValidProof(Intent(lease, scaleSet, now)) && scaleSet in c.served ==>
              Forfeited(c.sys, lease)
  {
    hide Safe, J.Managed, Trailed, OthersKept, Alone, OnlyGoes, Registered, Undisturbed, Exact, Honest, J.ValidProof,
         After, Allowed, OnlyIts, JournaledFirst, Launched, Next, Enabled, Reserved, Unseen, Unused, Accounted, Answered;
    started := false;
    var p := Intent(lease, scaleSet, now);
    var event := c.Await(lease);
    UnusedStays(old(c.sys), c.sys, lease);
    StillCalm(c.Now(), lease, Anyone);
    CalmTrans(old(c.Now()), c.Now(), c.Now(), lease, Nobody, Anyone, Anyone);
    CalmTakes(c.start, old(c.Now()), c.Now(), lease, Anyone);
    AllowedJournals(c.start, c.trace);
    UnusedAccounted(c.sys, lease);
    if event.fate.Dies? { return Dead, false; }
    if event.fate.Fails? { return Done, false; } // the budget is exhausted
    ghost var v1 := c.Now();
    r, started := ReserveAndLaunch(c, p, own, now, event);
    CalmTrans(old(c.Now()), v1, c.Now(), lease, Anyone, Anyone, Anyone);
    CalmTakes(c.start, old(c.Now()), c.Now(), lease, Anyone);
    AllowedJournals(c.start, c.trace);
  }

  lemma UnusedAccounted(s: Sys, lease: string)
    requires Unused(s, lease)
    ensures Accounted(s, lease)
  {
  }

  /** Reserves the lease, makes sure GitHub has no such runner, and launches. */
  method ReserveAndLaunch(c: Scaler, p: J.Proof, own: int, now: int, event: Event) returns (r: Reply, started: bool)
    requires c.Valid() && p == Intent(p.lease, p.scaleSet, p.requestedAt) && Unused(c.sys, p.lease)
    modifies c`sys, c`script, c`trace
    ensures c.Valid() && Calm(old(c.Now()), c.Now(), p.lease, Anyone)
    ensures (started <==> r.Done?) && (started ==> Launched(c.sys, p.lease))
    ensures Accounted(c.sys, p.lease)
    ensures old(c.script) == [] && event.write.Committed? && J.ValidProof(p) ==> started && p.name in c.sys.workers
    ensures !event.write.Committed? ==> Returned(c.sys, p.lease, true)
    ensures AllBut(old(c.script), 0) && event.write.Committed? && Taken(old(c.sys), p.name, TheCall(old(c.script), 0)) ==>
              Returned(c.sys, p.lease, true)
    ensures AllBut(old(c.script), 1) && event.write.Committed? && !TheCall(old(c.script), 1).write.Committed? ==>
              Forfeited(c.sys, p.lease)
    ensures AllBut(old(c.script), 2) && event.write.Committed? && J.ValidProof(p) && p.scaleSet in c.served ==>
              NotCreated(c.sys, p.lease, TheCall(old(c.script), 2), true)
    ensures AllBut(old(c.script), 4) && event.write.Committed? && J.ValidProof(p) && p.scaleSet in c.served ==>
              Answered(c.sys, p.lease, p.scaleSet, own, TheCall(old(c.script), 4), true)
    ensures Unconfirmed(old(c.script), 5) && event.write.Committed? && J.ValidProof(p) && p.scaleSet in c.served ==>
              Forfeited(c.sys, p.lease)
  {
    hide Safe, J.Managed, Trailed, OthersKept, Alone, OnlyGoes, Registered, Undisturbed, Exact, Honest, J.ValidProof,
         After, Allowed, Launched, Next, Enabled, Reserved, Unborn, Unused, Accounted, Answered, L.Running, Returned,
         Forfeited, NotCreated, L.AfterRelease;
    started := false;
    ReserveStep(c.sys, p, event.now, event.write);
    c.Act(Reserve(p.lease, event.now, event.write), p.lease);
    StillCalm(c.Now(), p.lease, Anyone);
    CalmTrans(old(c.Now()), c.Now(), c.Now(), p.lease, Nobody, Anyone, Anyone);
    UnbornAccounted(c.sys, p.lease);
    if !event.write.Committed? { return Failed, false; }
    ghost var v1 := c.Now();
    UnbornUnregistered(c.sys, p.name);
    SameHonesty(old(c.sys), c.sys, p.name, Coming(c.script).answer);
    var answer;
    r, answer := c.GetRunnerByName(p);
    CalmTrans(old(c.Now()), v1, c.Now(), p.lease, Anyone, Nobody, Anyone);
    PreflightKept(v1.sys, c.sys, p);
    UnbornAccounted(c.sys, p.lease);
    if r.Dead? { return; }
    if old(c.script) == [] {
      UnbornUnregistered(c.sys, p.name);
      ExactNone(c.sys, p.name, answer);
    }
    ghost var v2 := c.Now();
    if r.Failed? || answer.Some? {
      r := ReleaseLease(c, p);
      CalmTrans(old(c.Now()), v2, c.Now(), p.lease, Anyone, Nobody, Anyone);
      GoneAccounted(v2.sys, c.sys, p.lease);
      if v2.script == [] {
        UnbornUnregistered(v2.sys, p.name);
        ReleasedReturns(v2.sys, c.sys, p);
      }
      if !r.Dead? { r := Failed; }
      return;
    }
    NoneIsUnregistered(c.sys, p.name);
    r, started := RegisterAndLaunch(c, p, own, now);
    CalmTrans(old(c.Now()), v2, c.Now(), p.lease, Anyone, Anyone, Anyone);
  }

  lemma ReserveStep(s: Sys, p: J.Proof, now: int, write: Disk.Write)
    requires p.name == NameOf(p.lease) && Unused(s, p.lease)
    ensures Enabled(s, Reserve(p.lease, now, write)) && Mine(Reserve(p.lease, now, write), p.lease)
    ensures var s' := Next(s, Reserve(p.lease, now, write));
            && Unborn(s', p.name) && p.name !in s'.journal
            && (if write.Committed? then Reserved(s', p.lease) && L.Running(s'.ledger, p.lease)
                else Returned(s', p.lease, true))
            && s'.regs == s.regs
  {
    hide L.Seconds;
  }

  lemma UnbornAccounted(s: Sys, lease: string)
    requires Unborn(s, NameOf(lease))
    ensures Accounted(s, lease) && NameOf(lease) !in s.workers
  {
  }

  lemma GoneAccounted(s: Sys, s': Sys, lease: string)
    requires NameOf(lease) !in s.workers && OnlyGoes(s, s', lease)
    ensures Accounted(s', lease)
  {
  }

  lemma UnbornUnregistered(s: Sys, name: string)
    requires Unborn(s, name)
    ensures !Registered(s, name)
  {
  }

  lemma SameHonesty(s: Sys, s': Sys, name: string, answer: Option<Runner>)
    requires s'.regs == s.regs
    ensures Honest(s', name, answer) <==> Honest(s, name, answer)
  {
  }

  lemma ExactNone(s: Sys, name: string, answer: Option<Runner>)
    requires Exact(s, name, answer) && !Registered(s, name)
    ensures answer.None?
  {
  }

  lemma UnusedStays(s: Sys, s': Sys, lease: string)
    requires Unused(s, lease) && Undisturbed(s, s', lease)
    ensures Unused(s', lease)
  {
    if Registered(s', NameOf(lease)) { StillRegistered(s, s', lease); }
  }

  lemma PreflightKept(s: Sys, s': Sys, p: J.Proof)
    requires p.name == NameOf(p.lease) && Undisturbed(s, s', p.lease) && Reserved(s, p.lease) && Unborn(s, p.name)
    requires p.name !in s.journal
    ensures Reserved(s', p.lease) && Unborn(s', p.name) && p.name !in s'.journal
  {
    UndisturbedIsKept(s, s', p.lease);
    ReservedKept(s, s', p.lease);
    UnseenKept(s, s', p.lease);
  }

  /** Journals the intent, creates the registration, binds its ID, launches. */
  method RegisterAndLaunch(c: Scaler, p: J.Proof, own: int, now: int) returns (r: Reply, started: bool)
    requires c.Valid() && p == Intent(p.lease, p.scaleSet, p.requestedAt) && Reserved(c.sys, p.lease)
    requires Unborn(c.sys, p.name) && p.name !in c.sys.journal
    modifies c`sys, c`script, c`trace
    ensures c.Valid() && Calm(old(c.Now()), c.Now(), p.lease, Anyone) && JournaledFirst(c.start, c.trace)
    ensures (started <==> r.Done?) && (started ==> Launched(c.sys, p.lease))
    ensures Accounted(c.sys, p.lease)
    ensures old(c.script) == [] && J.ValidProof(p) ==> started && p.name in c.sys.workers
    ensures AllBut(old(c.script), 0) && !(TheCall(old(c.script), 0).write.Committed? && J.ValidProof(p)) ==>
              Forfeited(c.sys, p.lease)
    ensures AllBut(old(c.script), 1) && J.ValidProof(p) && p.scaleSet in c.served ==>
              NotCreated(c.sys, p.lease, TheCall(old(c.script), 1), L.Running(old(c.sys).ledger, p.lease))
    ensures AllBut(old(c.script), 3) && J.ValidProof(p) && p.scaleSet in c.served ==>
              Answered(c.sys, p.lease, p.scaleSet, own, TheCall(old(c.script), 3), L.Running(old(c.sys).ledger, p.lease))
    ensures Unconfirmed(old(c.script), 4) && J.ValidProof(p) && p.scaleSet in c.served ==> Forfeited(c.sys, p.lease)
  {
    hide Safe, J.Managed, J.Accepts, J.Merged, Trailed, OthersKept, Alone, Registered, Undisturbed, Backed, Next,
         Enabled, Elsewhere, ProofKept, J.ValidProof, After, Allowed, JournaledFirst, Launched, Reserved, Unborn,
         Accounted, Answered, L.Running, OnlyGoes, Forfeited, NotCreated, ClosedAs, Aged;
    started := false;
    SafeNamed(c.sys);
    NewAccepted(c.sys, p);
    r := c.PutProof(p);
    IntentKept(old(c.sys), c.sys, p);
    StillCalm(c.Now(), p.lease, Anyone);
    CalmTrans(old(c.Now()), c.Now(), c.Now(), p.lease, Nobody, Anyone, Anyone);
    AllowedJournals(c.start, c.trace);
    UnbornAccounted(c.sys, p.lease);
    if r.Dead? { return; }
    ghost var v1 := c.Now();
    if r.Failed? {
      var forfeited;
      r, forfeited := ForfeitIntent(c, p);
      GoneAccounted(v1.sys, c.sys, p.lease);
      if forfeited { ClosedForfeits(v1.sys, c.sys, p); }
      CalmTrans(old(c.Now()), v1, c.Now(), p.lease, Anyone, Nobody, Anyone);
    } else {
      ProofBacks(old(c.sys), p, c.sys);
      r, started := CreateAndLaunch(c, p, own, now);
      CalmTrans(old(c.Now()), v1, c.Now(), p.lease, Anyone, Anyone, Anyone);
    }
    AllowedJournals(c.start, c.trace);
  }

  lemma IntentKept(s: Sys, s': Sys, p: J.Proof)
    requires p.name == NameOf(p.lease) && Elsewhere(s, s', p.lease) && Reserved(s, p.lease) && Unborn(s, p.name)
    ensures Reserved(s', p.lease) && Unborn(s', p.name) && !Registered(s', p.name)
  {
    ReservedKept(s, s', p.lease);
    UnseenKept(s, s', p.lease);
    if Registered(s', p.name) { StillRegistered(s, s', p.lease); }
  }

  /** Creates the registration of a journaled intent, binds its ID, launches. */
  method CreateAndLaunch(c: Scaler, p: J.Proof, own: int, now: int) returns (r: Reply, started: bool)
    requires c.Valid() && p == Intent(p.lease, p.scaleSet, p.requestedAt) && Reserved(c.sys, p.lease)
    requires Backed(c.sys, p) && Unborn(c.sys, p.name)
    requires Journaled(c.sys, p.name) && c.sys.journal[p.name] == c.sys.file[p.name] == p
    modifies c`sys, c`script, c`trace
    ensures c.Valid() && Calm(old(c.Now()), c.Now(), p.lease, Anyone)
    ensures (started <==> r.Done?) && (started ==> Launched(c.sys, p.lease))
    ensures Accounted(c.sys, p.lease)
    ensures old(c.script) == [] && J.ValidProof(p) ==> started && p.name in c.sys.workers
    ensures AllBut(old(c.script), 0) && J.ValidProof(p) && p.scaleSet in c.served ==>
              NotCreated(c.sys, p.lease, TheCall(old(c.script), 0), L.Running(old(c.sys).ledger, p.lease))
    ensures AllBut(old(c.script), 2) && J.ValidProof(p) && p.scaleSet in c.served ==>
              Answered(c.sys, p.lease, p.scaleSet, own, TheCall(old(c.script), 2), L.Running(old(c.sys).ledger, p.lease))
    ensures Unconfirmed(old(c.script), 3) && J.ValidProof(p) && p.scaleSet in c.served ==> Forfeited(c.sys, p.lease)
  {
    hide Safe, J.Managed, J.Accepts, J.Merged, Trailed, OthersKept, Alone, Registered, Undisturbed, Backed, Next,
         Enabled, Elsewhere, ProofKept, J.ValidProof, After, Allowed, OnlyGoes, Launched, Reserved, Unseen, Refunded,
         ClosedAs, OnlyIts, Unborn, BornAs, Accounted, Answered, L.Running, Returned, Forfeited, Fits, L.AfterRelease;
    started := false;
    var event := c.Await(p.lease);
    AwaitIntent(old(c.sys), c.sys, p);
    StillCalm(c.Now(), p.lease, Anyone);
    CalmTrans(old(c.Now()), c.Now(), c.Now(), p.lease, Nobody, Anyone, Anyone);
    UnbornAccounted(c.sys, p.lease);
    UnbornUnregistered(c.sys, p.name);
    GoneFits(c.sys, p);
    if event.fate.Dies? { return Dead, false; }
    var id := if c.sys.lastId < 0 then 1 else c.sys.lastId + 1;
    ghost var v1 := c.Now();
    if !event.fate.Fails? {
      RegisterStep(c.sys, p, id);
      c.Act(Register(id, p.name, p.scaleSet), p.lease);
      CalmTrans(old(c.Now()), v1, c.Now(), p.lease, Anyone, Nobody, Anyone);
    }
    ghost var v2 := c.Now();
    if !event.fate.Works? || event.config.Empty? {
      r := CleanupGeneration(c, p);
      CalmTrans(old(c.Now()), v2, c.Now(), p.lease, Anyone, Only(p), Anyone);
      GoneAccounted(v2.sys, c.sys, p.lease);
      if v2.script == [] && J.ValidProof(p) && p.scaleSet in c.served {
        if event.fate.Fails? { ReleasedReturns(v2.sys, c.sys, p); } else { ClosedForfeits(v2.sys, c.sys, p); }
      }
      if !r.Dead? { r := Failed; }
      return;
    }
    r, started := BindAndLaunch(c, p, id, if event.config.Nameless? then None else Some(id), own, now);
    CalmTrans(old(c.Now()), v2, c.Now(), p.lease, Anyone, Anyone, Anyone);
  }

  /** Learns the registration's ID, from GitHub's reply or by asking again,
      binds it, launches. */
  method BindAndLaunch(c: Scaler, p: J.Proof, ghost id: int, reported: Option<int>, own: int, now: int)
    returns (r: Reply, started: bool)
    requires c.Valid() && p == Intent(p.lease, p.scaleSet, p.requestedAt) && Reserved(c.sys, p.lease) && id > 0
    requires Backed(c.sys, p) && Unseen(c.sys, p.name) && BornAs(c.sys, p.(id := id))
    requires Journaled(c.sys, p.name) && c.sys.journal[p.name] == p && (reported.Some? ==> reported.value == id)
    modifies c`sys, c`script, c`trace
    ensures c.Valid() && Calm(old(c.Now()), c.Now(), p.lease, Anyone)
    ensures (started <==> r.Done?) && (started ==> Launched(c.sys, p.lease))
    ensures Accounted(c.sys, p.lease)
    ensures old(c.script) == [] && J.ValidProof(p) && reported.Some? ==> started && p.name in c.sys.workers
    ensures AllBut(old(c.script), 1) && J.ValidProof(p) && reported.Some? && p.scaleSet in c.served ==>
              Answered(c.sys, p.lease, p.scaleSet, own, TheCall(old(c.script), 1), L.Running(old(c.sys).ledger, p.lease))
    ensures Unconfirmed(old(c.script), 2) && J.ValidProof(p) && reported.Some? && p.scaleSet in c.served ==>
              Forfeited(c.sys, p.lease)
  {
    hide Safe, J.Managed, J.Accepts, J.Merged, Trailed, OthersKept, Alone, Registered, Undisturbed, Backed, Next,
         Enabled, Elsewhere, ProofKept, J.ValidProof, After, Allowed, Launched, Reserved, Unseen, BornAs, Honest, Exact,
         Accounted, Answered, L.Running;
    started := false;
    var known := 0;
    StillCalm(c.Now(), p.lease, Anyone);
    if reported.Some? {
      known := reported.value;
    } else {
      var answer;
      r, answer := c.GetRunnerByName(p);
      AwaitBorn(old(c.sys), c.sys, p, id);
      UnseenAccounted(c.sys, p.lease);
      CalmTrans(old(c.Now()), old(c.Now()), c.Now(), p.lease, Anyone, Nobody, Anyone);
      if !r.Done? { return; }
      if answer.None? || answer.value.name != p.name { return Failed, false; }
      if answer.value.scaleSet != 0 && answer.value.scaleSet != p.scaleSet { return Failed, false; }
      known := answer.value.id;
      AnsweredId(c.sys, p, id, answer.value);
    }
    ghost var v1 := c.Now();
    var bound := p.(id := known);
    SafeNamed(c.sys);
    if J.ValidProof(p) { BoundAccepted(c.sys, p, id); }
    r := c.PutProof(bound);
    CalmTrans(old(c.Now()), v1, c.Now(), p.lease, Anyone, Nobody, Anyone);
    ReservedKept(v1.sys, c.sys, p.lease);
    UnseenKept(v1.sys, c.sys, p.lease);
    BornKept(v1.sys, c.sys, bound);
    UnseenAccounted(c.sys, p.lease);
    if !r.Done? { return; }
    ProofBacks(v1.sys, bound, c.sys);
    ghost var v2 := c.Now();
    r, started := LaunchBound(c, bound, own, now);
    CalmTrans(old(c.Now()), v2, c.Now(), p.lease, Anyone, Anyone, Anyone);
  }

  lemma BornKept(s: Sys, s': Sys, p: J.Proof)
    requires p.name == NameOf(p.lease) && Elsewhere(s, s', p.lease) && BornAs(s, p)
    ensures BornAs(s', p)
  {
  }

  /** Asking GitHub for the name again can only give the ID it was born with. */
  lemma AnsweredId(s: Sys, p: J.Proof, id: int, runner: Runner)
    requires Safe(s) && BornAs(s, p.(id := id)) && Honest(s, p.name, Some(runner)) && runner.name == p.name
    ensures runner.id == id
  {
  }

  lemma AwaitBorn(s: Sys, s': Sys, p: J.Proof, id: int)
    requires p.name == NameOf(p.lease) && Undisturbed(s, s', p.lease) && Reserved(s, p.lease) && Backed(s, p)
    requires Unseen(s, p.name) && BornAs(s, p.(id := id)) && Journaled(s, p.name) && s.journal[p.name] == p
    ensures Reserved(s', p.lease) && Backed(s', p) && Unseen(s', p.name) && BornAs(s', p.(id := id))
    ensures Journaled(s', p.name) && s'.journal[p.name] == p
  {
    UndisturbedIsKept(s, s', p.lease);
    ReservedKept(s, s', p.lease);
    UnseenKept(s, s', p.lease);
    BackedKept(s, s', p);
  }

  lemma NewAccepted(s: Sys, p: J.Proof)
    requires p.name !in s.journal
    ensures (J.Accepts(s.journal, p) <==> J.ValidProof(p)) && J.Merged(s.journal, p) == p
  {
  }

  lemma BoundAccepted(s: Sys, p: J.Proof, id: int)
    requires J.ValidProof(p) && p.id == 0 && id > 0 && p.name in s.journal && s.journal[p.name] == p
    ensures J.Accepts(s.journal, p.(id := id))
  {
  }

  lemma AwaitIntent(s: Sys, s': Sys, p: J.Proof)
    requires p.name == NameOf(p.lease) && Undisturbed(s, s', p.lease) && Reserved(s, p.lease) && Backed(s, p)
    requires Unborn(s, p.name) && Journaled(s, p.name) && s.journal[p.name] == s.file[p.name] == p
    ensures Reserved(s', p.lease) && Backed(s', p) && Unborn(s', p.name)
    ensures Journaled(s', p.name) && s'.journal[p.name] == s'.file[p.name] == p
  {
    UndisturbedIsKept(s, s', p.lease);
    IntentKept(s, s', p);
    BackedKept(s, s', p);
  }

  lemma RegisterStep(s: Sys, p: J.Proof, id: int)
    requires p.name == NameOf(p.lease) && p.id == 0 && id > 0 && id > s.lastId && Unborn(s, p.name)
    requires Reserved(s, p.lease) && Journaled(s, p.name) && s.journal[p.name] == s.file[p.name] == p
    ensures Enabled(s, Register(id, p.name, p.scaleSet)) && Mine(Register(id, p.name, p.scaleSet), p.lease)
    ensures var s' := Next(s, Register(id, p.name, p.scaleSet));
            && Backed(s', p) && Reserved(s', p.lease) && Unseen(s', p.name) && BornAs(s', p.(id := id))
            && Journaled(s', p.name) && s'.journal[p.name] == p && s'.ledger == s.ledger && p.name !in s'.workers
            && Registered(s', p.name) && Fits(s', p)
  {
    assert Next(s, Register(id, p.name, p.scaleSet)).regs[id].name == p.name;
  }

  /** The intent could not be journaled: nothing was created, and the lease is
      charged its whole reservation, unless that cannot be written either. */
  method ForfeitIntent(c: Scaler, p: J.Proof) returns (r: Reply, forfeited: bool)
    requires c.Valid() && p.name == NameOf(p.lease) && p.disposition.ForfeitReservation? && !Registered(c.sys, p.name)
    modifies c`sys, c`script, c`trace
    ensures c.Valid() && Calm(old(c.Now()), c.Now(), p.lease, Nobody)
    ensures (r.Failed? || r.Dead?) && !Registered(c.sys, p.name) && OnlyGoes(old(c.sys), c.sys, p.lease)
    ensures if forfeited then ClosedAs(Ledgered(old(c.sys).ledger, p.lease), Ledgered(c.sys.ledger, p.lease), p)
            else Aged(Ledgered(old(c.sys).ledger, p.lease), Ledgered(c.sys.ledger, p.lease))
    ensures (p.name in c.sys.journal <==> p.name in old(c.sys).journal)
    ensures old(c.script) == [] ==> r.Failed? && forfeited
  {
    hide Safe, J.Managed, Trailed, OthersKept, Alone, Undisturbed, After, Allowed, Registered, OnlyGoes, ClosedAs,
         Aged, Next, Enabled;
    forfeited := false;
    var event := c.Await(p.lease);
    Watched(old(c.sys), c.sys, p);
    if event.fate.Dies? { return Dead, false; }
    ghost var v1 := c.Now();
    CloseSteps(c.sys, p, event.now, event.write);
    FailedFinish(c.sys, p, event.now, event.write);
    c.Act(FinishOf(p, event.now, event.write), p.lease);
    CalmTrans(old(c.Now()), v1, c.Now(), p.lease, Nobody, Nobody, Nobody);
    GoesTrans(old(c.sys), v1.sys, c.sys, p.lease);
    EntriesTrans(old(c.sys), v1.sys, c.sys, p);
    forfeited := event.write.Committed?;
    r := Failed;
  }
}
