/**
 The retirement of a worker, and the three ways a failed launch is cleaned up.
 */
module LaunchCleanup {
  import opened Options
  import Disk
  import J = Journals
  import L = Ledger
  import opened Launch
  import opened LaunchViews
  import opened Scalers

  /** The proof a retirement writes about a worker; a worker without a scale
      set counts for the controller's own. */
  function ProofOf(w: Worker, scaleSet: int, disposition: J.Disposition, stoppedAt: int, requestedAt: int): J.Proof {
    J.Proof(w.name, w.id, if w.scaleSet == 0 then scaleSet else w.scaleSet, w.lease, disposition, stoppedAt,
            requestedAt)
  }

  /** The journal takes the proof, and nothing GitHub says contradicts it. */
  predicate Ready(s: Sys, p: J.Proof, served: set<int>) {
    J.Accepts(s.journal, p) && Fits(s, p) && p.scaleSet in served
  }

  /** The proof a retirement writes is of the worker's registration exactly if
      the provider lists its scale set, or it is the controller's own. */
  lemma ListedProof(s: Sys, w: Worker, own: int, disposition: J.Disposition, stoppedAt: int, now: int)
    requires Truthful(s, w)
    ensures Agrees(s, ProofOf(w, own, disposition, stoppedAt, now)) <==> w.scaleSet != 0 || own == s.born[w.name].scaleSet
  {
  }

  lemma ProofBacks(s: Sys, p: J.Proof, s': Sys)
    requires p.name == NameOf(p.lease) && J.Accepts(s.journal, p) && J.Named(s.journal)
    requires Journaled(s', p.name) && s'.journal[p.name] == J.Merged(s.journal, p)
    ensures Backed(s', p) && J.SameProof(p, s'.journal[p.name]) && (p.id != 0 ==> s'.journal[p.name].id == p.id)
  {
  }

  /** Retires a worker: journal first, then finish. A retirement that GitHub or
      the provider puts off stays in the journal and counts as done. */
  method RetireWorker(c: Scaler, w: Worker, present: bool, own: int, disposition: J.Disposition, stoppedAt: int,
                      now: int)
    returns (r: Reply, finished: bool)
    requires c.Valid() && w.name == NameOf(w.lease)
    modifies c`sys, c`script, c`trace
    ensures c.Valid() && Calm(old(c.Now()), c.Now(), w.lease, Only(ProofOf(w, own, disposition, stoppedAt, now)))
    ensures OnlyIts(c.start, old(c.Now()), c.Now(), w.lease, Only(ProofOf(w, own, disposition, stoppedAt, now)))
    ensures OnlyGoes(old(c.sys), c.sys, w.lease) && Remembered(old(c.sys), c.sys, w.lease)
    ensures Spent(Ledgered(old(c.sys).ledger, w.lease), Ledgered(c.sys.ledger, w.lease),
                  ProofOf(w, own, disposition, stoppedAt, now))
    ensures r.Done? ==> Backed(c.sys, ProofOf(w, own, disposition, stoppedAt, now))
    ensures r.Done? && !finished ==>
              Journaled(c.sys, w.name) && Aged(Ledgered(old(c.sys).ledger, w.lease), Ledgered(c.sys.ledger, w.lease))
    ensures finished ==>
              && r.Done? && Retired(c.sys, ProofOf(w, own, disposition, stoppedAt, now))
              && (present ==> w.name !in c.sys.workers)
              && ClosedAs(Ledgered(old(c.sys).ledger, w.lease), Ledgered(c.sys.ledger, w.lease),
                          ProofOf(w, own, disposition, stoppedAt, now))
    ensures r.Done? || r.Failed? || r.Dead?
    ensures Agrees(old(c.sys), ProofOf(w, own, disposition, stoppedAt, now)) ==> Straight(old(c.sys), c.sys, w.name)
    ensures old(c.script) == [] ==> (finished <==> Ready(old(c.sys), ProofOf(w, own, disposition, stoppedAt, now), c.served))
    ensures old(c.script) == [] && !J.Accepts(old(c.sys).journal, ProofOf(w, own, disposition, stoppedAt, now)) ==>
              r.Failed? && c.sys == old(c.sys)
  {
    hide Safe, J.Managed, J.Accepts, J.Merged, Trailed, OthersKept, Alone, Elsewhere, ProofKept, OnlyGoes, Backed,
         Remembered, Registered, After, Allowed, OnlyIts, Aged, ClosedAs;
    finished := false;
    var p := ProofOf(w, own, disposition, stoppedAt, now);
    SafeNamed(c.sys);
    StillCalm(c.Now(), p.lease, Only(p));
    r := c.PutProof(p);
    CalmTrans(old(c.Now()), old(c.Now()), c.Now(), p.lease, Only(p), Nobody, Only(p));
    CalmTakes(c.start, old(c.Now()), c.Now(), p.lease, Only(p));
    ElsewhereGoes(old(c.sys), c.sys, p.lease);
    ElsewhereRemembers(old(c.sys), c.sys, p.lease);
    if !r.Done? { return; }
    ProofBacks(old(c.sys), p, c.sys);
    if old(c.script) == [] { FitsPut(old(c.sys), c.sys, p); }
    ghost var v1 := c.Now();
    r := c.FinishRetirement(w, present, p);
    CalmTrans(old(c.Now()), v1, c.Now(), p.lease, Only(p), Only(p), Only(p));
    CalmTakes(c.start, old(c.Now()), c.Now(), p.lease, Only(p));
    GoesTrans(old(c.sys), v1.sys, c.sys, p.lease);
    RemembersTrans(old(c.sys), v1.sys, c.sys, p.lease);
    EntriesTrans(old(c.sys), v1.sys, c.sys, p);
    finished := r.Done?;
    if r.Deferred? || r.Transient? {
      JournaledKept(v1.sys, c.sys, p.name);
      r := Done;
    }
  }

  lemma JournaledKept(s: Sys, s': Sys, name: string)
    requires Journaled(s, name) && ProofKept(s, s', name)
    ensures Journaled(s', name)
  {
  }

  /** What two calls in a row make of a lease's entry. */
  lemma EntriesTrans(a: Sys, b: Sys, c: Sys, p: J.Proof)
    requires Aged(Ledgered(a.ledger, p.lease), Ledgered(b.ledger, p.lease))
    ensures Aged(Ledgered(b.ledger, p.lease), Ledgered(c.ledger, p.lease)) ==>
              Aged(Ledgered(a.ledger, p.lease), Ledgered(c.ledger, p.lease))
    ensures ClosedAs(Ledgered(b.ledger, p.lease), Ledgered(c.ledger, p.lease), p) ==>
              ClosedAs(Ledgered(a.ledger, p.lease), Ledgered(c.ledger, p.lease), p)
    ensures Spent(Ledgered(b.ledger, p.lease), Ledgered(c.ledger, p.lease), p) ==>
              Spent(Ledgered(a.ledger, p.lease), Ledgered(c.ledger, p.lease), p)
    ensures Refunded(Ledgered(b.ledger, p.lease), Ledgered(c.ledger, p.lease)) ==>
              Refunded(Ledgered(a.ledger, p.lease), Ledgered(c.ledger, p.lease))
  {
    ClosedTrans(Ledgered(a.ledger, p.lease), Ledgered(b.ledger, p.lease), Ledgered(c.ledger, p.lease), p, p);
    RefundedTrans(Ledgered(a.ledger, p.lease), Ledgered(b.ledger, p.lease), Ledgered(c.ledger, p.lease));
  }

  // ---- cleaning up ----

  /** The provider proved that no worker was started: the registration goes
      and the reservation is taken back. */
  method CleanupRejected(c: Scaler, p: J.Proof) returns (r: Reply)
    requires c.Valid() && Backed(c.sys, p)
    modifies c`sys, c`script, c`trace
    ensures c.Valid() && Calm(old(c.Now()), c.Now(), p.lease, Only(p))
    ensures OnlyIts(c.start, old(c.Now()), c.Now(), p.lease, Only(p))
    ensures OnlyGoes(old(c.sys), c.sys, p.lease)
    ensures r.Done? ==> !Registered(c.sys, p.name) && p.name !in c.sys.journal
    ensures r.Done? ==> Refunded(Ledgered(old(c.sys).ledger, p.lease), Ledgered(c.sys.ledger, p.lease))
    ensures old(c.script) == [] && p.scaleSet in c.served && Fits(old(c.sys), p) ==>
              r.Done? && c.sys.ledger == L.AfterRelease(old(c.sys).ledger, p.lease)
  {
    hide Safe, J.Managed, Trailed, OthersKept, Alone, Undisturbed, Elsewhere, ProofKept, OnlyGoes, Next, Enabled,
         Registered, Fits, After, Allowed, OnlyIts, Aged, Refunded, Backed;
    BackedName(c.sys, p);
    r := c.RemoveRegistration(p);
    ElsewhereGoes(old(c.sys), c.sys, p.lease);
    if !r.Done? { return; }
    ghost var v1 := c.Now();
    r := ReleaseLease(c, p);
    GoesTrans(old(c.sys), v1.sys, c.sys, p.lease);
    CalmTrans(old(c.Now()), v1, c.Now(), p.lease, Only(p), Nobody, Only(p));
    CalmTakes(c.start, old(c.Now()), c.Now(), p.lease, Only(p));
    EntriesTrans(old(c.sys), v1.sys, c.sys, p);
    if !r.Done? { return; }
    ghost var v2 := c.Now();
    r := c.DropProof(p);
    GoesTrans(old(c.sys), v2.sys, c.sys, p.lease);
    CalmTrans(old(c.Now()), v2, c.Now(), p.lease, Only(p), Nobody, Only(p));
    CalmTakes(c.start, old(c.Now()), c.Now(), p.lease, Only(p));
    RefundedTrans(Ledgered(old(c.sys).ledger, p.lease), Ledgered(v2.sys.ledger, p.lease),
                  Ledgered(c.sys.ledger, p.lease));
  }

  method ReleaseLease(c: Scaler, p: J.Proof) returns (r: Reply)
    requires c.Valid() && p.name == NameOf(p.lease)
    modifies c`sys, c`script, c`trace
    ensures c.Valid() && Calm(old(c.Now()), c.Now(), p.lease, Nobody) && OnlyGoes(old(c.sys), c.sys, p.lease)
    ensures (Registered(c.sys, p.name) ==> Registered(old(c.sys), p.name))
    ensures (p.name in c.sys.journal <==> p.name in old(c.sys).journal)
    ensures r.Done? ==> Refunded(Ledgered(old(c.sys).ledger, p.lease), Ledgered(c.sys.ledger, p.lease))
    ensures r.Done? || r.Failed? || r.Dead?
    ensures old(c.script) == [] ==> r.Done? && c.sys.ledger == L.AfterRelease(old(c.sys).ledger, p.lease)
  {
    hide Safe, J.Managed, Trailed, OthersKept, Alone, Undisturbed, OnlyGoes, Registered, After, Allowed, Aged,
         Refunded, Next, Enabled;
    var event := c.Await(p.lease);
    Watched(old(c.sys), c.sys, p);
    if event.fate.Dies? { return Dead; }
    ghost var v1 := c.Now();
    ReleaseStep(c.sys, p, event.write);
    c.Act(Release(p.lease, event.write), p.lease);
    LedgerOnly(v1.sys, c.sys, p);
    GoesTrans(old(c.sys), v1.sys, c.sys, p.lease);
    CalmTrans(old(c.Now()), v1, c.Now(), p.lease, Nobody, Nobody, Nobody);
    EntriesTrans(old(c.sys), v1.sys, c.sys, p);
    r := if event.write.Committed? then Done else Failed;
  }

  lemma ReleaseStep(s: Sys, p: J.Proof, write: Disk.Write)
    ensures Enabled(s, Release(p.lease, write)) && Mine(Release(p.lease, write), p.lease)
    ensures var s' := Next(s, Release(p.lease, write));
            && s' == s.(ledger := s'.ledger, ledgerFile := s'.ledgerFile)
            && (write.Committed? ==>
                  && Refunded(Ledgered(s.ledger, p.lease), Ledgered(s'.ledger, p.lease))
                  && s'.ledger == L.AfterRelease(s.ledger, p.lease))
  {
  }

  lemma LedgerOnly(s: Sys, s': Sys, p: J.Proof)
    requires s' == s.(ledger := s'.ledger, ledgerFile := s'.ledgerFile)
    ensures OnlyGoes(s, s', p.lease) && (Registered(s', p.name) <==> Registered(s, p.name))
  {
  }

  /** Creating the registration failed, perhaps after GitHub made it: either
      there is none and the intent is withdrawn, or it is retired. */
  method CleanupGeneration(c: Scaler, p: J.Proof) returns (r: Reply)
    requires c.Valid() && Backed(c.sys, p) && p.id == 0
    modifies c`sys, c`script, c`trace
    ensures c.Valid() && Calm(old(c.Now()), c.Now(), p.lease, Only(p))
    ensures OnlyIts(c.start, old(c.Now()), c.Now(), p.lease, Only(p))
    ensures OnlyGoes(old(c.sys), c.sys, p.lease)
    ensures r.Done? ==> !Registered(c.sys, p.name) && p.name !in c.sys.journal
    ensures r.Done? ==>
              || Refunded(Ledgered(old(c.sys).ledger, p.lease), Ledgered(c.sys.ledger, p.lease))
              || (&& Registered(old(c.sys), p.name)
                  && ClosedAs(Ledgered(old(c.sys).ledger, p.lease), Ledgered(c.sys.ledger, p.lease), p))
    ensures old(c.script) == [] && p.scaleSet in c.served && Fits(old(c.sys), p) && J.ValidProof(p) ==>
              && r.Done?
              && if Registered(old(c.sys), p.name) then
                ClosedAs(Ledgered(old(c.sys).ledger, p.lease), Ledgered(c.sys.ledger, p.lease), p)
              else c.sys.ledger == L.AfterRelease(old(c.sys).ledger, p.lease)
  {
    hide Safe, J.Managed, J.Merged, J.Accepts, Trailed, OthersKept, Alone, Undisturbed, Elsewhere, ProofKept, OnlyGoes,
         Next, Enabled, Registered, Backed, Fits, Exact, Honest, After, Allowed, OnlyIts, Aged, Refunded, ClosedAs;
    BackedName(c.sys, p);
    var answer;
    StillCalm(c.Now(), p.lease, Only(p));
    r, answer := c.GetRunnerByName(p);
    CalmTrans(old(c.Now()), old(c.Now()), c.Now(), p.lease, Only(p), Nobody, Only(p));
    CalmTakes(c.start, old(c.Now()), c.Now(), p.lease, Only(p));
    UndisturbedIsKept(old(c.sys), c.sys, p.lease);
    BackedKept(old(c.sys), c.sys, p);
    ElsewhereGoes(old(c.sys), c.sys, p.lease);
    if !r.Done? { return; }
    ghost var v1 := c.Now();
    match answer
    case None =>
      NoneIsUnregistered(c.sys, p.name);
      r := WithdrawIntent(c, p);
      GoesTrans(old(c.sys), v1.sys, c.sys, p.lease);
      CalmTrans(old(c.Now()), v1, c.Now(), p.lease, Only(p), Nobody, Only(p));
      CalmTakes(c.start, old(c.Now()), c.Now(), p.lease, Only(p));
      EntriesTrans(old(c.sys), v1.sys, c.sys, p);
    case Some(runner) =>
      ghost var quiet := old(c.script) == [] && Fits(old(c.sys), p);
      if quiet {
        AnswerBacked(c.sys, p, runner);
        FitsExactly(c.sys, p, runner);
      }
      if runner.name != p.name || (runner.scaleSet != 0 && runner.scaleSet != p.scaleSet) { return Failed; }
      FoundBacked(old(c.sys), c.sys, p, runner);
      HonestRegistered(c.sys, runner);
      if quiet { BindsExactly(c.sys, p, runner.id); }
      r := RetireGenerated(c, p, runner.id);
      GoesTrans(old(c.sys), v1.sys, c.sys, p.lease);
      CalmTrans(old(c.Now()), v1, c.Now(), p.lease, Only(p), Only(p), Only(p));
      CalmTakes(c.start, old(c.Now()), c.Now(), p.lease, Only(p));
      EntriesTrans(old(c.sys), v1.sys, c.sys, p);
  }

  /** There is no registration: the proof and the reservation go. */
  method WithdrawIntent(c: Scaler, p: J.Proof) returns (r: Reply)
    requires c.Valid() && p.name == NameOf(p.lease) && !Registered(c.sys, p.name)
    modifies c`sys, c`script, c`trace
    ensures c.Valid() && Calm(old(c.Now()), c.Now(), p.lease, Nobody) && OnlyGoes(old(c.sys), c.sys, p.lease)
    ensures r.Done? ==> !Registered(c.sys, p.name) && p.name !in c.sys.journal
    ensures r.Done? ==> Refunded(Ledgered(old(c.sys).ledger, p.lease), Ledgered(c.sys.ledger, p.lease))
    ensures old(c.script) == [] ==> r.Done? && c.sys.ledger == L.AfterRelease(old(c.sys).ledger, p.lease)
  {
    hide Safe, J.Managed, Trailed, OthersKept, Alone, OnlyGoes, Registered, After, Allowed, Aged, Refunded;
    r := c.DropProof(p);
    if !r.Done? { return; }
    ghost var v1 := c.Now();
    r := ReleaseLease(c, p);
    GoesTrans(old(c.sys), v1.sys, c.sys, p.lease);
    CalmTrans(old(c.Now()), v1, c.Now(), p.lease, Nobody, Nobody, Nobody);
    EntriesTrans(old(c.sys), v1.sys, c.sys, p);
  }

  /** The registration was made after all: its ID is bound and it is retired. */
  method RetireGenerated(c: Scaler, p: J.Proof, id: int) returns (r: Reply)
    requires c.Valid() && Backed(c.sys, p) && p.id == 0 && id > 0
    requires forall i :: i in c.sys.regs && c.sys.regs[i].name == p.name ==> i == id
    modifies c`sys, c`script, c`trace
    ensures c.Valid() && Calm(old(c.Now()), c.Now(), p.lease, Only(p)) && OnlyGoes(old(c.sys), c.sys, p.lease)
    ensures r.Done? ==> !Registered(c.sys, p.name) && p.name !in c.sys.journal
    ensures r.Done? ==> ClosedAs(Ledgered(old(c.sys).ledger, p.lease), Ledgered(c.sys.ledger, p.lease), p)
    ensures old(c.script) == [] && p.scaleSet in c.served && Fits(old(c.sys), p) && J.Accepts(old(c.sys).journal, p.(id := id)) ==>
              r.Done?
  {
    hide Safe, J.Managed, J.Merged, J.Accepts, Trailed, OthersKept, Alone, Elsewhere, ProofKept, OnlyGoes, Registered,
         Backed, Fits, After, Allowed, OnlyIts, Aged, ClosedAs;
    BackedName(c.sys, p);
    SafeNamed(c.sys);
    var bound := p.(id := id);
    r := c.PutProof(bound);
    ElsewhereGoes(old(c.sys), c.sys, p.lease);
    StillCalm(c.Now(), p.lease, Nobody);
    CalmTrans(old(c.Now()), c.Now(), c.Now(), p.lease, Nobody, Nobody, Only(p));
    if !r.Done? { return; }
    ProofBacks(old(c.sys), bound, c.sys);
    if old(c.script) == [] && Fits(old(c.sys), p) { FitsBound(old(c.sys), c.sys, p, id); }
    ghost var v1 := c.Now();
    r := c.FinishRetirement(Worker(p.name, p.lease, 0, 0), false, bound);
    GoesTrans(old(c.sys), v1.sys, c.sys, p.lease);
    CalmTrans(old(c.Now()), v1, c.Now(), p.lease, Only(p), Only(bound), Only(p));
    EntriesTrans(old(c.sys), v1.sys, c.sys, bound);
    SameClosing(Ledgered(old(c.sys).ledger, p.lease), Ledgered(c.sys.ledger, p.lease), bound, p);
  }

  /** How a lease is closed depends only on its disposition and stop time. */
  lemma SameClosing(e: Option<L.Entry>, e': Option<L.Entry>, p: J.Proof, q: J.Proof)
    requires p.disposition == q.disposition && (p.disposition.ForfeitReservation? || p.stoppedAt == q.stoppedAt)
    ensures ClosedAs(e, e', p) <==> ClosedAs(e, e', q)
  {
    hide L.Seconds;
  }

  lemma HonestRegistered(s: Sys, runner: Runner)
    requires runner.id in s.regs && s.regs[runner.id].name == runner.name
    ensures Registered(s, runner.name)
  {
  }

  /** Binding the one registration's ID leaves the proof fitting. */
  lemma FitsBound(s: Sys, s': Sys, p: J.Proof, id: int)
    requires Fits(s, p) && p.id == 0 && id != 0 && OnlyJournal(s, s')
    requires forall i :: i in s.regs && s.regs[i].name == p.name ==> i == id
    requires p.name in s'.journal && s'.journal[p.name] == J.Merged(s.journal, p.(id := id))
    ensures Fits(s', p.(id := id))
  {
  }

  /** The launch call failed and may have started a worker; partial is the
      worker it reported, if any. Done leaves nothing behind that the journal
      does not hold, but for one case: the provider reported a worker, its
      retirement was put off, and it is still there. Then its registration and
      its proof are gone and its lease is closed all the same. */
  method CleanupAmbiguous(c: Scaler, p: J.Proof, partial: Option<Worker>, own: int, now: int)
    returns (r: Reply, putOff: bool)
    requires c.Valid() && Backed(c.sys, p) && p.disposition.ForfeitReservation?
    requires partial.Some? ==> partial.value.name == p.name && partial.value.lease == p.lease
    modifies c`sys, c`script, c`trace
    ensures c.Valid() && Calm(old(c.Now()), c.Now(), p.lease, Anyone)
    ensures OnlyIts(c.start, old(c.Now()), c.Now(), p.lease, Anyone)
    ensures OnlyGoes(old(c.sys), c.sys, p.lease)
    ensures Spent(Ledgered(old(c.sys).ledger, p.lease), Ledgered(c.sys.ledger, p.lease), p)
    ensures r.Done? ==> Backed(c.sys, p) && (putOff ==> partial.Some?)
    ensures r.Done? && p.name in c.sys.workers ==> putOff || Journaled(c.sys, p.name)
    ensures r.Done? ==>
              || (Retired(c.sys, p) && ClosedAs(Ledgered(old(c.sys).ledger, p.lease), Ledgered(c.sys.ledger, p.lease), p))
              || (&& partial.None? && p.name in old(c.sys).workers && Journaled(c.sys, p.name)
                  && Aged(Ledgered(old(c.sys).ledger, p.lease), Ledgered(c.sys.ledger, p.lease)))
    ensures old(c.script) == [] && p.scaleSet in c.served && Fits(old(c.sys), p)
            && WorkerReady(old(c.sys), p.name, partial, own, now, c.served) ==>
              r.Done? && Retired(c.sys, p) && p.name !in c.sys.workers
    ensures old(c.script) == [] && partial.None? && Refused(old(c.sys), p.name, own, now) ==> c.sys == old(c.sys)
  {
    hide Safe, J.Managed, J.Merged, J.Accepts, Trailed, OthersKept, Alone, Undisturbed, OnlyGoes, Next, Enabled,
         Registered, Backed, Remembered, Fits, After, Allowed, OnlyIts, Aged, ClosedAs, Shaped;
    putOff := false;
    BackedName(c.sys, p);
    StillThere(c.sys, p.lease);
    StillCalm(c.Now(), p.lease, Anyone);
    if partial.Some? {
      r, putOff := RetirePartial(c, p, partial.value, own, now);
      if !r.Done? {
        CalmTakes(c.start, old(c.Now()), c.Now(), p.lease, Anyone);
        return;
      }
    }
    ghost var v1 := c.Now();
    r := CleanupRest(c, p, partial.Some?, own, now);
    GoesTrans(old(c.sys), v1.sys, c.sys, p.lease);
    CalmTrans(old(c.Now()), v1, c.Now(), p.lease, Anyone, Anyone, Anyone);
    CalmTakes(c.start, old(c.Now()), c.Now(), p.lease, Anyone);
    if partial.Some? { ClosedAgain(old(c.sys), v1.sys, c.sys, p); }
    StillElsewhere(old(c.sys), p);
    SpentTrans(Ledgered(old(c.sys).ledger, p.lease), Ledgered(v1.sys.ledger, p.lease), Ledgered(c.sys.ledger, p.lease),
               p);
  }

  lemma ClosedAgain(a: Sys, b: Sys, c: Sys, p: J.Proof)
    requires || ClosedAs(Ledgered(a.ledger, p.lease), Ledgered(b.ledger, p.lease), p)
             || Aged(Ledgered(a.ledger, p.lease), Ledgered(b.ledger, p.lease))
    ensures ClosedAs(Ledgered(b.ledger, p.lease), Ledgered(c.ledger, p.lease), p) ==>
              ClosedAs(Ledgered(a.ledger, p.lease), Ledgered(c.ledger, p.lease), p)
  {
    ClosedTrans(Ledgered(a.ledger, p.lease), Ledgered(b.ledger, p.lease), Ledgered(c.ledger, p.lease), p, p);
  }

  /** Retires the worker the failed launch reported. */
  method RetirePartial(c: Scaler, p: J.Proof, w: Worker, own: int, now: int) returns (r: Reply, putOff: bool)
    requires c.Valid() && Backed(c.sys, p) && p.disposition.ForfeitReservation? && w.name == p.name
    requires w.lease == p.lease
    modifies c`sys, c`script, c`trace
    ensures c.Valid() && Calm(old(c.Now()), c.Now(), p.lease, Anyone) && OnlyGoes(old(c.sys), c.sys, p.lease)
    ensures Backed(c.sys, p) && Spent(Ledgered(old(c.sys).ledger, p.lease), Ledgered(c.sys.ledger, p.lease), p)
    ensures r.Done? && !putOff ==> p.name !in c.sys.workers
    ensures old(c.script) == [] && Ready(old(c.sys), ProofOf(w, own, J.ForfeitReservation, 0, now), c.served) ==>
              r.Done? && !putOff && Fits(c.sys, p)
  {
    hide Safe, J.Managed, J.Accepts, Trailed, OthersKept, Alone, OnlyGoes, Registered, Backed, Remembered, Fits, After,
         Allowed, OnlyIts, Aged, ClosedAs;
    BackedName(c.sys, p);
    ghost var q := ProofOf(w, own, J.ForfeitReservation, 0, now);
    var finished;
    r, finished := RetireWorker(c, w, true, own, J.ForfeitReservation, 0, now);
    RememberedBacks(old(c.sys), c.sys, p);
    StillCalm(c.Now(), p.lease, Anyone);
    CalmTrans(old(c.Now()), c.Now(), c.Now(), p.lease, Only(q), Anyone, Anyone);
    SameClosing(Ledgered(old(c.sys).ledger, p.lease), Ledgered(c.sys.ledger, p.lease), q, p);
    if finished { GoneFits(c.sys, p); }
    putOff := !finished;
  }

  /** Asks the inventory: a worker of the lease is retired unless it is the one
      dealt with before; if there is none the registration alone is. */
  method CleanupRest(c: Scaler, p: J.Proof, partial: bool, own: int, now: int) returns (r: Reply)
    requires c.Valid() && Backed(c.sys, p) && p.disposition.ForfeitReservation?
    modifies c`sys, c`script, c`trace
    ensures c.Valid() && Calm(old(c.Now()), c.Now(), p.lease, Anyone) && OnlyGoes(old(c.sys), c.sys, p.lease)
    ensures Spent(Ledgered(old(c.sys).ledger, p.lease), Ledgered(c.sys.ledger, p.lease), p)
    ensures r.Done? ==> Backed(c.sys, p)
    ensures r.Done? && p.name in c.sys.workers ==> partial || Journaled(c.sys, p.name)
    ensures r.Done? ==>
              || (Retired(c.sys, p) && ClosedAs(Ledgered(old(c.sys).ledger, p.lease), Ledgered(c.sys.ledger, p.lease), p))
              || (&& !partial && p.name in old(c.sys).workers && Journaled(c.sys, p.name)
                  && Aged(Ledgered(old(c.sys).ledger, p.lease), Ledgered(c.sys.ledger, p.lease)))
    ensures old(c.script) == [] && p.scaleSet in c.served && Fits(old(c.sys), p)
            && (!partial ==> WorkerReady(old(c.sys), p.name, None, own, now, c.served)) ==>
              r.Done? && Retired(c.sys, p) && (p.name in old(c.sys).workers ==> partial || p.name !in c.sys.workers)
    ensures old(c.script) == [] && !partial && Refused(old(c.sys), p.name, own, now) ==> c.sys == old(c.sys)
  {
    hide Safe, J.Managed, J.Merged, J.Accepts, Trailed, OthersKept, Alone, Undisturbed, OnlyGoes, Next, Enabled,
         Registered, Backed, Remembered, Fits, After, Allowed, OnlyIts, Aged, ClosedAs, Shaped;
    BackedName(c.sys, p);
    var event := c.Await(p.lease);
    Watched(old(c.sys), c.sys, p);
    AwaitBacked(old(c.sys), c.sys, p);
    StillCalm(c.Now(), p.lease, Anyone);
    CalmTrans(old(c.Now()), c.Now(), c.Now(), p.lease, Nobody, Anyone, Anyone);
    if event.fate.Dies? { return Dead; }
    if !event.fate.Works? { return Failed; }
    ghost var v1 := c.Now();
    if p.name in c.sys.workers && !partial {
      WorkerStays(old(c.sys), c.sys, p);
      WorkerNamed(c.sys, p);
      var w, finished := c.sys.workers[p.name], false;
      ghost var q := ProofOf(w, own, J.ForfeitReservation, 0, now);
      r, finished := RetireWorker(c, w, true, own, J.ForfeitReservation, 0, now);
      GoesTrans(old(c.sys), v1.sys, c.sys, p.lease);
      RememberedBacks(v1.sys, c.sys, p);
      CalmTrans(old(c.Now()), v1, c.Now(), p.lease, Anyone, Only(q), Anyone);
      EntriesTrans(old(c.sys), v1.sys, c.sys, q);
      SameClosing(Ledgered(old(c.sys).ledger, p.lease), Ledgered(c.sys.ledger, p.lease), q, p);
      return;
    }
    r := c.FinishRetirement(Worker(p.name, p.lease, 0, 0), false, p);
    GoesTrans(old(c.sys), v1.sys, c.sys, p.lease);
    CalmTrans(old(c.Now()), v1, c.Now(), p.lease, Anyone, Only(p), Anyone);
    EntriesTrans(old(c.sys), v1.sys, c.sys, p);
  }

  /** The worker reported, or the one the provider lists, can be retired. */
  predicate WorkerReady(s: Sys, name: string, partial: Option<Worker>, own: int, now: int, served: set<int>) {
    match partial
    case Some(w) => Ready(s, ProofOf(w, own, J.ForfeitReservation, 0, now), served)
    case None => name in s.workers ==> Ready(s, ProofOf(s.workers[name], own, J.ForfeitReservation, 0, now), served)
  }

  /** The provider lists the worker, and the journal does not take the proof
      its retirement would write. */
  predicate Refused(s: Sys, name: string, own: int, now: int) {
    name in s.workers && !J.Accepts(s.journal, ProofOf(s.workers[name], own, J.ForfeitReservation, 0, now))
  }

  lemma AwaitBacked(s: Sys, s': Sys, p: J.Proof)
    requires Backed(s, p) && Undisturbed(s, s', p.lease)
    ensures Backed(s', p)
  {
    UndisturbedIsKept(s, s', p.lease);
    BackedKept(s, s', p);
  }

  lemma WorkerStays(s: Sys, s': Sys, p: J.Proof)
    requires p.name == NameOf(p.lease) && OnlyGoes(s, s', p.lease) && p.name in s'.workers
    ensures p.name in s.workers && s'.workers[p.name] == s.workers[p.name]
  {
  }

  lemma WorkerNamed(s: Sys, p: J.Proof)
    requires Safe(s) && p.name == NameOf(p.lease) && p.name in s.workers
    ensures s.workers[p.name].name == p.name && s.workers[p.name].lease == p.lease
  {
    NameInjective(s.workers[p.name].lease, p.lease);
  }
}
