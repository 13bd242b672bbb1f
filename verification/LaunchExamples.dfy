/**
 Runs of one launch that show where the launch protocol's promises end.
 */
module LaunchExamples {
  import Disk
  import J = Journals
  import L = Ledger
  import opened Basics
  import opened Launch
  import opened LaunchViews
  import opened LaunchCleanup
  import opened Replay

  const LEASE := "00000000"
  const NAME := NameOf(LEASE)
  const INTENT := J.Proof(NAME, 0, 1, LEASE, J.ForfeitReservation, 0, 0)
  const BOUND := INTENT.(id := 1)
  const WORKER := Worker(NAME, LEASE, 1, 1)
  /** The worker as a provider lists it that keeps no more than its name. */
  const BLIND := Worker(NAME, LEASE, 0, 0)
  const EMPTY := Sys(map[], map[], {}, map[], {}, {}, map[], map[], map[], map[], map[], SECOND, 0)
  const ENTRY := L.NewEntry(LEASE, 0, SECOND, false)

  /** Reserved, journaled, registered, bound and started. */
  const BEGINNING := [Reserve(LEASE, 0, Disk.Committed), Journal(J.Put(INTENT, Disk.Committed)), Register(1, NAME, 1),
                      Journal(J.Put(BOUND, Disk.Committed)), Start(WORKER)]

  const READY := EMPTY.(regs := map[1 := Registration(NAME, 1)], born := map[NAME := Birth(1, 1)],
                        journal := map[NAME := BOUND], file := map[NAME := BOUND],
                        ledger := map[LEASE := ENTRY], ledgerFile := map[LEASE := ENTRY], lastId := 1)

  const RUNNING := READY.(workers := map[NAME := WORKER])

  lemma NameIsManaged()
    ensures J.ValidProof(INTENT) && J.ValidProof(BOUND)
  {
    assert NAME[..7] == "runner-" && NAME[7..] == LEASE;
  }

  lemma EmptyIsSafe()
    ensures Safe(EMPTY)
  {
  }

  /** One more allowed step. */
  lemma Onward(steps: seq<Step>, s: Sys, step: Step, s': Sys)
    requires Allowed(EMPTY, steps) && After(EMPTY, steps) == s && Enabled(s, step) && Next(s, step) == s'
    ensures Allowed(EMPTY, steps + [step]) && After(EMPTY, steps + [step]) == s'
  {
    hide Next, Enabled, After, Allowed;
    OneMore(EMPTY, steps, step);
  }

  lemma BeginReady()
    ensures Allowed(EMPTY, BEGINNING[..4]) && After(EMPTY, BEGINNING[..4]) == READY
  {
    hide After, Allowed, Next, Enabled, J.ValidProof, NameOf;
    Nothing();
    var s1 := EMPTY.(ledger := map[LEASE := ENTRY], ledgerFile := map[LEASE := ENTRY]);
    ReserveFirst(s1);
    Onward([], EMPTY, BEGINNING[0], s1);
    var s2 := s1.(journal := map[NAME := INTENT], file := map[NAME := INTENT]);
    PutIntent(s1, s2);
    assert BEGINNING[..1] == [BEGINNING[0]] == [] + [BEGINNING[0]];
    Onward(BEGINNING[..1], s1, BEGINNING[1], s2);
    var s3 := s2.(regs := map[1 := Registration(NAME, 1)], born := map[NAME := Birth(1, 1)], lastId := 1);
    RegisterIt(s2, s3);
    assert BEGINNING[..2] == BEGINNING[..1] + [BEGINNING[1]];
    Onward(BEGINNING[..2], s2, BEGINNING[2], s3);
    PutBound(s3, READY);
    assert BEGINNING[..3] == BEGINNING[..2] + [BEGINNING[2]];
    Onward(BEGINNING[..3], s3, BEGINNING[3], READY);
    assert BEGINNING[..4] == BEGINNING[..3] + [BEGINNING[3]];
  }

  lemma Begin()
    ensures Allowed(EMPTY, BEGINNING) && After(EMPTY, BEGINNING) == RUNNING
  {
    hide After, Allowed, Next, Enabled, NameOf;
    BeginReady();
    StartIt(READY, WORKER, RUNNING);
    Onward(BEGINNING[..4], READY, BEGINNING[4], RUNNING);
    assert BEGINNING == BEGINNING[..4] + [BEGINNING[4]];
  }

  lemma Nothing()
    ensures Allowed(EMPTY, []) && After(EMPTY, []) == EMPTY
  {
  }

  lemma ReserveFirst(s': Sys)
    requires s' == EMPTY.(ledger := map[LEASE := ENTRY], ledgerFile := map[LEASE := ENTRY])
    ensures Enabled(EMPTY, BEGINNING[0]) && Next(EMPTY, BEGINNING[0]) == s'
  {
    assert L.Lapsed(map[], 0) == map[];
  }

  lemma PutIntent(s: Sys, s': Sys)
    requires s.journal == map[] && s.born == map[] && s' == s.(journal := map[NAME := INTENT], file := map[NAME := INTENT])
    ensures Enabled(s, BEGINNING[1]) && Next(s, BEGINNING[1]) == s'
  {
    hide J.ValidProof, NameOf;
    NameIsManaged();
    assert J.Accepts(s.journal, INTENT);
  }

  lemma RegisterIt(s: Sys, s': Sys)
    requires s.regs == map[] && s.born == map[] && s.lastId == 0 && s.journal == s.file == map[NAME := INTENT]
    requires s' == s.(regs := map[1 := Registration(NAME, 1)], born := map[NAME := Birth(1, 1)], lastId := 1)
    ensures Enabled(s, BEGINNING[2]) && Next(s, BEGINNING[2]) == s'
  {
    hide NameOf;
  }

  lemma PutBound(s: Sys, s': Sys)
    requires (s.journal == map[NAME := INTENT] || s.journal == map[NAME := BOUND]) && s.born == map[NAME := Birth(1, 1)]
    requires s' == s.(journal := map[NAME := BOUND], file := map[NAME := BOUND])
    ensures Enabled(s, Journal(J.Put(BOUND, Disk.Committed))) && Next(s, Journal(J.Put(BOUND, Disk.Committed))) == s'
  {
    hide J.ValidProof, NameOf;
    NameIsManaged();
    assert J.Accepts(s.journal, BOUND) && J.Merged(s.journal, BOUND) == BOUND;
  }

  lemma StartIt(s: Sys, w: Worker, s': Sys)
    requires s.workers == map[] && s.went == {} && s.journal == map[NAME := BOUND] && NAME in s.file
    requires s.born == map[NAME := Birth(1, 1)] && (w == WORKER || w == BLIND)
    requires s' == s.(workers := map[NAME := w])
    ensures Enabled(s, Start(w)) && Next(s, Start(w)) == s'
  {
  }

  // ---- a registration is lost ----

  const CONFIRMED := L.Adopt(ENTRY, 0, SECOND)

  const LOSING := BEGINNING + [Adopt(LEASE, 0, Disk.Committed)] + [Record(WORKER)]
                  + [Journal(J.Remove(NAME, Disk.Committed))] + [Vanish(NAME)]

  const LOST := RUNNING.(workers := map[], went := {NAME}, journal := map[], file := map[],
                         records := map[NAME := WORKER],
                         ledger := map[LEASE := CONFIRMED], ledgerFile := map[LEASE := CONFIRMED])

  /** A worker was launched and recorded, and its proof left the journal; then
      it went by itself, and the controller restarted before it retired it.
      Its registration is still there and nobody knows. */
  lemma LostInstance()
    ensures Safe(EMPTY) && Allowed(EMPTY, LOSING) && After(EMPTY, LOSING) == LOST
    ensures 1 in LOST.regs && Known(LOST, LOST.regs[1].name) && !Known(Next(LOST, Restart), LOST.regs[1].name)
  {
    hide After, Allowed, NameOf, Safe, Enabled, Next;
    EmptyIsSafe();
    Begin();
    VanishIt();
    var s1 := RUNNING.(ledger := map[LEASE := CONFIRMED], ledgerFile := map[LEASE := CONFIRMED]);
    var s2 := s1.(records := map[NAME := WORKER]);
    var s3 := s2.(journal := map[], file := map[]);
    AdoptIt(RUNNING, s1);
    RecordIt(s1, s2);
    Onward(BEGINNING, RUNNING, Adopt(LEASE, 0, Disk.Committed), s1);
    Onward(BEGINNING + [Adopt(LEASE, 0, Disk.Committed)], s1, Record(WORKER), s2);
    TakeOut(s2, s3);
    Onward(BEGINNING + [Adopt(LEASE, 0, Disk.Committed)] + [Record(WORKER)], s2,
           Journal(J.Remove(NAME, Disk.Committed)), s3);
    Onward(BEGINNING + [Adopt(LEASE, 0, Disk.Committed)] + [Record(WORKER)] + [Journal(J.Remove(NAME, Disk.Committed))],
           s3, Vanish(NAME), LOST);
  }

  lemma RecordIt(s: Sys, s': Sys)
    requires s.records == map[] && s.born == map[NAME := Birth(1, 1)] && s' == s.(records := map[NAME := WORKER])
    ensures Enabled(s, Record(WORKER)) && Next(s, Record(WORKER)) == s'
  {
  }

  lemma VanishIt()
    ensures var s := LOST.(workers := map[NAME := WORKER], went := {});
            Enabled(s, Vanish(NAME)) && Next(s, Vanish(NAME)) == LOST
    ensures Known(LOST, LOST.regs[1].name) && !Known(Next(LOST, Restart), LOST.regs[1].name)
  {
    hide NameOf;
  }

  lemma AdoptIt(s: Sys, s': Sys)
    requires s.ledger == map[LEASE := ENTRY] && s.reservation == SECOND
    requires s' == s.(ledger := map[LEASE := CONFIRMED], ledgerFile := map[LEASE := CONFIRMED])
    ensures Enabled(s, Adopt(LEASE, 0, Disk.Committed)) && Next(s, Adopt(LEASE, 0, Disk.Committed)) == s'
  {
    hide NameOf;
  }

  lemma TakeOut(s: Sys, s': Sys)
    requires s.journal == map[NAME := BOUND] && (Registered(s, NAME) ==> NAME in s.records && NAME in s.workers)
    requires s' == s.(journal := map[], file := map[])
    ensures Enabled(s, Journal(J.Remove(NAME, Disk.Committed)))
    ensures Next(s, Journal(J.Remove(NAME, Disk.Committed))) == s'
  {
    hide NameOf;
    assert s.journal - {NAME} == map[];
  }

  // ---- a worker is left behind ----

  const FORFEITED := L.Forfeit(ENTRY, 0)

  const LEAVING := BEGINNING + [Journal(J.Put(BOUND, Disk.Committed))] + [Unregister(1, BOUND, 0)]
                   + [Finish(LEASE, J.ForfeitReservation, 0, 0, Disk.Committed)] + [Forget(NAME)]
                   + [Journal(J.Remove(NAME, Disk.Committed))]

  const LEFT := RUNNING.(regs := map[], journal := map[], file := map[], ledger := map[LEASE := FORFEITED],
                         ledgerFile := map[LEASE := FORFEITED])

  /** The launch failed but reported its worker; the worker's retirement was
      journaled and put off, as the provider did not answer, and then the
      registration was cleaned up without it. The worker runs on, its lease is
      closed and the journal knows nothing of it; when the inventory shows it
      again its lease is opened anew, and charged once as before. */
  lemma LeftBehind()
    ensures Safe(EMPTY) && Allowed(EMPTY, LEAVING) && After(EMPTY, LEAVING) == LEFT
    ensures NAME in LEFT.workers && NAME !in LEFT.journal && !LEFT.ledger[LEASE].active
    ensures Next(LEFT, Adopt(LEASE, 1, Disk.Committed)).ledger == map[LEASE := L.NewEntry(LEASE, 1, SECOND, true)]
  {
    hide After, Allowed, NameOf, Safe;
    EmptyIsSafe();
    Begin();
    PutBound(RUNNING, RUNNING);
    Onward(BEGINNING, RUNNING, Journal(J.Put(BOUND, Disk.Committed)), RUNNING);
    var s1 := RUNNING.(regs := map[]);
    StrikeIt(s1);
    Onward(BEGINNING + [Journal(J.Put(BOUND, Disk.Committed))], RUNNING, Unregister(1, BOUND, 0), s1);
    var s2 := s1.(ledger := map[LEASE := FORFEITED], ledgerFile := map[LEASE := FORFEITED]);
    ForfeitIt(s1, s2);
    Onward(BEGINNING + [Journal(J.Put(BOUND, Disk.Committed))] + [Unregister(1, BOUND, 0)], s1,
           Finish(LEASE, J.ForfeitReservation, 0, 0, Disk.Committed), s2);
    Onward(BEGINNING + [Journal(J.Put(BOUND, Disk.Committed))] + [Unregister(1, BOUND, 0)]
           + [Finish(LEASE, J.ForfeitReservation, 0, 0, Disk.Committed)], s2, Forget(NAME), s2);
    TakeOut(s2, LEFT);
    Onward(BEGINNING + [Journal(J.Put(BOUND, Disk.Committed))] + [Unregister(1, BOUND, 0)]
           + [Finish(LEASE, J.ForfeitReservation, 0, 0, Disk.Committed)] + [Forget(NAME)],
           s2, Journal(J.Remove(NAME, Disk.Committed)), LEFT);
  }

  lemma StrikeIt(s': Sys)
    requires s' == RUNNING.(regs := map[])
    ensures Enabled(RUNNING, Unregister(1, BOUND, 0)) && Next(RUNNING, Unregister(1, BOUND, 0)) == s'
  {
    hide NameOf;
    assert RUNNING.regs - {1} == map[];
  }

  lemma ForfeitIt(s: Sys, s': Sys)
    requires s.ledger == map[LEASE := ENTRY]
    requires s' == s.(ledger := map[LEASE := FORFEITED], ledgerFile := map[LEASE := FORFEITED])
    ensures Enabled(s, Finish(LEASE, J.ForfeitReservation, 0, 0, Disk.Committed))
    ensures Next(s, Finish(LEASE, J.ForfeitReservation, 0, 0, Disk.Committed)) == s'
  {
    hide NameOf;
  }

  // ---- a proof that only memory has ----

  /** A launched worker's proof was taken out of the file, but the write
      reported an error: memory keeps the proof. A replay that went on from
      here without a restart would destroy the worker while no file names its
      registration. */
  lemma UnbackedInstance()
    ensures var steps := BEGINNING + [Adopt(LEASE, 0, Disk.Committed)] + [Record(WORKER)]
                         + [Journal(J.Remove(NAME, Disk.Unsynced))];
            Allowed(EMPTY, steps) && !AllBacked(After(EMPTY, steps)) && AllBacked(Next(After(EMPTY, steps), Restart))
  {
    hide After, Allowed, NameOf, Safe;
    Begin();
    var s1 := RUNNING.(ledger := map[LEASE := CONFIRMED], ledgerFile := map[LEASE := CONFIRMED]);
    var s2 := s1.(records := map[NAME := WORKER]);
    var s3 := s2.(file := map[]);
    AdoptIt(RUNNING, s1);
    RecordIt(s1, s2);
    Onward(BEGINNING, RUNNING, Adopt(LEASE, 0, Disk.Committed), s1);
    Onward(BEGINNING + [Adopt(LEASE, 0, Disk.Committed)], s1, Record(WORKER), s2);
    assert s2.journal - {NAME} == map[];
    Onward(BEGINNING + [Adopt(LEASE, 0, Disk.Committed)] + [Record(WORKER)], s2, Journal(J.Remove(NAME, Disk.Unsynced)),
           s3);
    assert s3.regs[1].name == NAME && Registered(s3, NAME);
    assert !Backed(s3, s3.journal[NAME]);
  }

  // ---- a proof that strays ----

  /** A controller that serves scale sets 1 and 2 and whose own is 2 retires the
      worker, which the provider lists without its scale set. */
  const STRAY := ProofOf(BLIND, 2, J.SettleActualUsage, 0, 0)

  const STRAYING := BEGINNING[..4] + [Start(BLIND)] + [Adopt(LEASE, 0, Disk.Committed)] + [Record(WORKER)]
                    + [Journal(J.Remove(NAME, Disk.Committed))] + [Journal(J.Put(STRAY, Disk.Committed))]

  const ASTRAY := READY.(workers := map[NAME := BLIND], records := map[NAME := WORKER], strayed := {NAME},
                         journal := map[NAME := STRAY], file := map[NAME := STRAY],
                         ledger := map[LEASE := CONFIRMED], ledgerFile := map[LEASE := CONFIRMED])

  /** The proof then names scale set 2, GitHub has the runner in 1, and no
      replay can retire it, though the controller serves both. */
  lemma StrayInstance()
    ensures Safe(EMPTY) && Allowed(EMPTY, STRAYING) && After(EMPTY, STRAYING) == ASTRAY
    ensures NAME in ASTRAY.file && NAME in ASTRAY.strayed && !Retirable(Next(ASTRAY, Restart), {1, 2})
  {
    hide After, Allowed, NameOf, Safe, Enabled, Next;
    EmptyIsSafe();
    BeginReady();
    var s0 := READY.(workers := map[NAME := BLIND]);
    var s1 := s0.(ledger := map[LEASE := CONFIRMED], ledgerFile := map[LEASE := CONFIRMED]);
    var s2 := s1.(records := map[NAME := WORKER]);
    var s3 := s2.(journal := map[], file := map[]);
    StartIt(READY, BLIND, s0);
    var steps := BEGINNING[..4];
    Onward(steps, READY, Start(BLIND), s0);
    steps := steps + [Start(BLIND)];
    AdoptIt(s0, s1);
    Onward(steps, s0, Adopt(LEASE, 0, Disk.Committed), s1);
    steps := steps + [Adopt(LEASE, 0, Disk.Committed)];
    RecordIt(s1, s2);
    Onward(steps, s1, Record(WORKER), s2);
    steps := steps + [Record(WORKER)];
    TakeOut(s2, s3);
    Onward(steps, s2, Journal(J.Remove(NAME, Disk.Committed)), s3);
    steps := steps + [Journal(J.Remove(NAME, Disk.Committed))];
    PutStray(s3);
    Onward(steps, s3, Journal(J.Put(STRAY, Disk.Committed)), ASTRAY);
    NotRetired();
  }

  lemma PutStray(s: Sys)
    requires s == ASTRAY.(strayed := {}, journal := map[], file := map[])
    ensures Enabled(s, Journal(J.Put(STRAY, Disk.Committed))) && Next(s, Journal(J.Put(STRAY, Disk.Committed))) == ASTRAY
  {
    hide NameOf;
    NameIsManaged();
    assert J.Accepts(s.journal, STRAY) && !Agrees(s, STRAY);
  }

  lemma NotRetired()
    ensures !Retirable(Next(ASTRAY, Restart), {1, 2})
  {
    hide NameOf;
    var s := Next(ASTRAY, Restart);
    assert s.regs[1].name == NAME && s.regs[1].scaleSet == 1 && STRAY.name == NAME && STRAY.scaleSet == 2;
    assert !Fits(s, STRAY);
    assert s.journal[NAME] == STRAY;
  }
}
