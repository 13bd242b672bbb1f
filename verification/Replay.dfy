/**
 Replaying the journal after a restart, from wherever the controller died.
 */
module Replay {
  import J = Journals
  import opened Launch
  import opened LaunchViews
  import opened Scalers
  import opened LaunchCleanup

  /** Everything the journal is about can be retired: its scale sets are
      served, and workers and registrations are as the proofs say. */
  predicate Retirable(s: Sys, served: set<int>) {
    forall n :: n in s.journal ==> CanRetire(s, s.journal[n], served)
  }

  predicate CanRetire(s: Sys, p: J.Proof, served: set<int>) {
    p.scaleSet in served && Fits(s, p) && Matches(WorkerFor(s, p), p)
  }

  /** In every run only two things can stand in the way: a scale set that is
      not served any more, or a proof that strayed. */
  lemma RetirableIff(s: Sys, served: set<int>)
    requires Safe(s) && forall n :: n in s.journal ==> n !in s.strayed
    ensures Retirable(s, served) <==> forall n :: n in s.journal ==> s.journal[n].scaleSet in served
  {
    hide Safe, Fits, Matches;
    forall n | n in s.journal ensures Fits(s, s.journal[n]) && Matches(WorkerFor(s, s.journal[n]), s.journal[n]) {
      ProofStands(s, n);
    }
  }

  /** A proof that did not stray is of its registration and of its worker. */
  lemma ProofStands(s: Sys, n: string)
    requires Safe(s) && n in s.journal && n !in s.strayed
    ensures Fits(s, s.journal[n]) && Matches(WorkerFor(s, s.journal[n]), s.journal[n])
  {
    hide J.Managed, Recalled;
    var p := s.journal[n];
    assert p.name == n && Agrees(s, p);
    if n in s.workers { NameInjective(s.workers[n].lease, p.lease); }
    if n in s.records { NameInjective(s.records[n].lease, p.lease); }
  }

  /** The worker a proof is about: as the provider lists it, else as memory
      recorded it, else as the proof describes it. */
  function WorkerFor(s: Sys, p: J.Proof): Worker {
    if p.name in s.workers then s.workers[p.name]
    else if p.name in s.records then s.records[p.name]
    else Worker(p.name, p.lease, p.id, p.scaleSet)
  }

  /** Worker, registration, record and proof are gone, and the lease was
      charged once as the proof says, unless it was over before. */
  predicate DoneFor(s0: Sys, s: Sys, p: J.Proof) {
    Retired(s, p) && p.name !in s.workers && ClosedAs(Ledgered(s0.ledger, p.lease), Ledgered(s.ledger, p.lease), p)
  }

  lemma DoneStays(s0: Sys, s: Sys, s': Sys, p: J.Proof)
    requires p.name == NameOf(p.lease) && Undisturbed(s, s', p.lease) && DoneFor(s0, s, p)
    ensures DoneFor(s0, s', p)
  {
    if Registered(s', p.name) { StillRegistered(s, s', p.lease); }
    ClosedTrans(Ledgered(s0.ledger, p.lease), Ledgered(s.ledger, p.lease), Ledgered(s'.ledger, p.lease), p, p);
  }

  lemma FitsUndisturbed(s: Sys, s': Sys, p: J.Proof)
    requires p.name == NameOf(p.lease) && Undisturbed(s, s', p.lease)
    ensures Fits(s, p) ==> Fits(s', p)
    ensures (forall id :: id in s.regs && s.regs[id].name == p.name ==> id in s'.regs && s'.regs[id] == s.regs[id]) ==>
              (Fits(s', p) <==> Fits(s, p))
  {
  }

  /** Every proof in memory whose registration is there is in the file too. */
  ghost predicate AllBacked(s: Sys) {
    forall n :: n in s.journal ==> Backed(s, s.journal[n])
  }

  /** After a restart it always is. */
  lemma RestartBacks(s: Sys)
    requires Safe(s)
    ensures Safe(Next(s, Restart)) && AllBacked(Next(s, Restart))
  {
    SafeKept(s, Restart);
  }

  lemma BackedOutside(s: Sys, s': Sys)
    requires AllBacked(s) && OnlyOutside(s, s')
    requires forall id :: id in s'.regs ==> id in s.regs && s'.regs[id] == s.regs[id]
    ensures AllBacked(s')
  {
    forall n | n in s'.journal ensures Backed(s', s'.journal[n]) {
      assert Backed(s, s.journal[n]);
      if Registered(s', n) {
        var id :| id in s'.regs && s'.regs[id].name == n;
        assert id in s.regs && s.regs[id].name == n;
      }
    }
  }

  /** How far the replay got: names still to do are as the inventory found
      them, names done are gone unless put off. */
  ghost predicate Progress(s0: Sys, s: Sys, left: set<string>, later: set<string>) {
    && (forall n :: n in left && n in s0.journal ==> Undisturbed(s0, s, s0.journal[n].lease))
    && forall n :: n in s0.journal && n !in left && n !in later ==> DoneFor(s0, s, s0.journal[n])
  }

  lemma ProgressKept(s0: Sys, s: Sys, s': Sys, left: set<string>, later: set<string>, n: string)
    requires Leased(s0.journal) && Progress(s0, s, left, later) && n in s0.journal && n in left
    requires OthersKept(s, s', s0.journal[n].lease)
    ensures forall m :: m in left - {n} && m in s0.journal ==> Undisturbed(s0, s', s0.journal[m].lease)
    ensures forall m :: m in s0.journal && m !in left && m !in later ==> DoneFor(s0, s', s0.journal[m])
  {
    hide Undisturbed, DoneFor;
    forall m | m in left - {n} && m in s0.journal ensures Undisturbed(s0, s', s0.journal[m].lease) {
      assert s0.journal[m].lease != s0.journal[n].lease;
      UndisturbedTrans(s0, s, s', s0.journal[m].lease);
    }
    forall m | m in s0.journal && m !in left && m !in later ensures DoneFor(s0, s', s0.journal[m]) {
      assert s0.journal[m].lease != s0.journal[n].lease;
      DoneStays(s0, s, s', s0.journal[m]);
    }
  }

  /** What holds when a name's turn comes. */
  lemma Turn(s0: Sys, s: Sys, left: set<string>, later: set<string>, n: string)
    requires AllBacked(s0) && Leased(s0.journal) && Progress(s0, s, left, later) && n in left && n in s0.journal
    ensures var p := s0.journal[n];
            && p.name == n == NameOf(p.lease) && Backed(s, p) && (n in s.workers ==> n in s0.workers)
            && Aged(Ledgered(s0.ledger, p.lease), Ledgered(s.ledger, p.lease))
            && (Spared(s0, s, left) ==> (Fits(s, p) <==> Fits(s0, p)))
  {
    hide Fits, Matches, Backed, Aged;
    var p := s0.journal[n];
    assert Undisturbed(s0, s, p.lease);
    assert Backed(s0, p);
    AwaitBacked(s0, s, p);
    FitsUndisturbed(s0, s, p);
  }

  lemma TurnOf(s0: Sys, s: Sys, left: set<string>, later: set<string>, n: string, w: Worker, served: set<int>)
    requires AllBacked(s0) && Leased(s0.journal) && Progress(s0, s, left, later) && n in left && n in s0.journal
    requires w == WorkerFor(s0, s0.journal[n])
    ensures var p := s0.journal[n];
            && p.name == n == NameOf(p.lease) && Backed(s, p) && (n in s.workers ==> n in s0.workers)
            && Aged(Ledgered(s0.ledger, p.lease), Ledgered(s.ledger, p.lease))
            && (Spared(s0, s, left) ==>
                  (CanRetire(s0, p, served) <==> Matches(w, p) && p.scaleSet in served && Fits(s, p)))
    ensures !CanRetire(s0, s0.journal[n], served) ==> !Retirable(s0, served)
  {
    hide Fits, Matches, Backed, Aged, Spared, Progress, AllBacked;
    Turn(s0, s, left, later, n);
  }

  /** No registration still to be retired has gone. */
  ghost predicate Spared(s0: Sys, s: Sys, left: set<string>) {
    forall id :: id in s0.regs ==>
      (id in s.regs ==> s.regs[id] == s0.regs[id]) && (s0.regs[id].name in left ==> id in s.regs)
  }

  lemma SparedMore(start: Sys, s0: Sys, v: View, v': View, left: set<string>, p: J.Proof)
    requires Calm(v, v', p.lease, Only(p)) && v.script == [] && p.name == NameOf(p.lease)
    requires Safe(v.sys) && v.sys == After(start, v.trace) && v'.sys == After(start, v'.trace) && Allowed(start, v'.trace)
    requires Spared(s0, v.sys, left) && Safe(s0) && s0.lastId <= v.sys.lastId
    ensures Spared(s0, v'.sys, left - {p.name}) && s0.lastId <= v'.sys.lastId
  {
    hide Safe, After, Allowed, OthersKept, Followed;
    assert v'.trace[..|v'.trace|] == v'.trace;
    NameConstant(start, v'.trace, |v.trace|, |v'.trace|, v.sys.lastId);
    forall id | id in s0.regs
      ensures (id in v'.sys.regs ==> v'.sys.regs[id] == s0.regs[id])
      ensures s0.regs[id].name in left - {p.name} ==> id in v'.sys.regs
    {
      SafeIds(s0, id);
      NameConstant(start, v'.trace, |v.trace|, |v'.trace|, id);
      if s0.regs[id].name in left - {p.name} { CalmSpares(start, v, v', p.lease, Only(p), id); }
    }
  }

  /** What the turns so far, undisturbed, say of the journal. */
  ghost predicate Judged(s0: Sys, left: set<string>, served: set<int>) {
    forall n :: n in s0.journal && n !in left ==> CanRetire(s0, s0.journal[n], served)
  }

  lemma JudgedAll(s0: Sys, served: set<int>)
    ensures Judged(s0, s0.journal.Keys, served) && (Judged(s0, {}, served) <==> Retirable(s0, served))
  {
    hide CanRetire;
  }

  lemma JudgedMore(s0: Sys, left: set<string>, served: set<int>, n: string)
    requires Judged(s0, left, served) && n in s0.journal && CanRetire(s0, s0.journal[n], served)
    ensures Judged(s0, left - {n}, served)
  {
    hide CanRetire;
  }

  lemma StartProgress(s: Sys)
    ensures Progress(s, s, s.journal.Keys, {})
  {
    hide Undisturbed;
    forall l ensures Undisturbed(s, s, l) { StillUndisturbed(s, l); }
  }

  lemma TurnDone(s0: Sys, s: Sys, left: set<string>, later: set<string>, n: string)
    requires n in s0.journal && n in left
    requires forall m :: m in left - {n} && m in s0.journal ==> Undisturbed(s0, s, s0.journal[m].lease)
    requires forall m :: m in s0.journal && m !in left && m !in later ==> DoneFor(s0, s, s0.journal[m])
    ensures DoneFor(s0, s, s0.journal[n]) ==> Progress(s0, s, left - {n}, later)
    ensures Progress(s0, s, left - {n}, later + {n})
  {
    hide Undisturbed, DoneFor;
  }

  lemma AllDone(before: Sys, s0: Sys, s: Sys, later: set<string>)
    requires Progress(s0, s, {}, later) && s0.journal == before.journal && s0.ledger == before.ledger
    ensures forall n :: n in before.journal && n !in later ==> DoneFor(before, s, before.journal[n])
  {
    hide Retired, ClosedAs;
  }

  /** Whatever registration was removed since, the journal had its proof. */
  ghost predicate OnlyListed(trace: seq<Step>, from: nat, journal: J.Journal) {
    forall k :: from <= k < |trace| && trace[k].Unregister? ==>
      trace[k].proof.name in journal && J.SameProof(journal[trace[k].proof.name], trace[k].proof)
  }

  lemma ListedMore(v: View, v': View, from: nat, journal: J.Journal, n: string)
    requires n in journal && journal[n].name == n && Alone(v.script) && from <= |v.trace|
    requires OnlyListed(v.trace, from, journal)
    requires Calm(v, v', journal[n].lease, Only(journal[n]))
    ensures OnlyListed(v'.trace, from, journal)
  {
    hide Alone, OthersKept;
    forall k | from <= k < |v'.trace| && v'.trace[k].Unregister?
      ensures v'.trace[k].proof.name in journal && J.SameProof(journal[v'.trace[k].proof.name], v'.trace[k].proof)
    {
      if k < |v.trace| {
        assert v'.trace[k] == v.trace[k];
      } else {
        assert Followed(v'.trace[k], v.script, journal[n].lease, Only(journal[n]));
      }
    }
  }

  /** Finishes every retirement the journal holds. Whatever fails on the way,
      no registration is forgotten, no lease charged beyond its reservation and
      no registration removed but those the journal proves; when every call
      goes through, worker, registration and proof of every entry are gone. */
  method FinishPending(c: Scaler) returns (r: Reply, later: set<string>)
    requires c.Valid() && Alone(c.script) && AllBacked(c.sys)
    modifies c`sys, c`script, c`trace
    ensures c.Valid() && |old(c.trace)| <= |c.trace| && OnlyListed(c.trace, |old(c.trace)|, old(c.sys).journal)
    ensures r.Done? ==> forall n :: n in old(c.sys).journal && n !in later ==> DoneFor(old(c.sys), c.sys, old(c.sys).journal[n])
    ensures |later| <= DelaysIn(old(c.script))
    ensures old(c.script) == [] ==> (r.Done? && later == {} <==> Retirable(old(c.sys), c.served))
  {
    hide DelaysIn, Safe, J.Managed, OthersKept, Alone, Undisturbed, Progress, Fits, Spared, Matches, Registered, Backed, Remembered,
         After, Allowed, Trailed, OnlyIts, OnlyListed, AllBacked, DoneFor, ClosedAs, Aged, RegistrationGoes, OnlyGoes,
         Judged, Retirable, CanRetire, WorkerFor;
    later := {};
    ghost var alone := c.script == [];
    var event := c.Await("");
    NothingListed(old(c.Now()), c.Now());
    AfterInventory(old(c.sys), c.sys, old(c.Now()), c.Now());
    if event.fate.Dies? { return Dead, {}; }
    if !event.fate.Works? { return Failed, {}; }
    ghost var s0 := c.sys;
    var pending, inventory, records := c.sys.journal, c.sys.workers, c.sys.records;
    var left := pending.Keys;
    StartProgress(s0);
    SafeLeased(s0);
    JudgedAll(s0, c.served);
    AllSpared(s0, left);
    while left != {}
      invariant c.Valid() && Alone(c.script) && left <= pending.Keys && Progress(s0, c.sys, left, later)
      invariant |old(c.trace)| <= |c.trace| && OnlyListed(c.trace, |old(c.trace)|, pending)
      invariant alone ==> c.script == [] && later == {} && Spared(s0, c.sys, left) && s0.lastId <= c.sys.lastId
      invariant alone ==> Judged(s0, left, c.served)
      invariant |later| + DelaysIn(c.script) <= DelaysIn(old(c.script))
      decreases |left|
    {
      var n :| n in left;
      var p := pending[n];
      var w := if n in inventory then inventory[n]
               else if n in records then records[n] else Worker(p.name, p.lease, p.id, p.scaleSet);
      SameWorker(s0, p, n, w);
      ghost var before := left;
      r := TakeTurn(c, s0, |old(c.trace)|, left, later, p, w, n in inventory);
      if r.Dead? || r.Failed? { return; }
      if alone { JudgedMore(s0, before, c.served, n); }
      if !r.Done? { later := later + {n}; }
      left := left - {n};
    }
    r := Done;
    AllDone(old(c.sys), s0, c.sys, later);
  }

  lemma SameWorker(s0: Sys, p: J.Proof, n: string, w: Worker)
    requires Leased(s0.journal) && n in s0.journal && p == s0.journal[n]
    requires w == if n in s0.workers then s0.workers[n]
                  else if n in s0.records then s0.records[n] else Worker(p.name, p.lease, p.id, p.scaleSet)
    ensures w == WorkerFor(s0, p)
  {
  }

  /** One entry's turn: its worker is checked against it, then it is finished. */
  method TakeTurn(c: Scaler, ghost s0: Sys, ghost from: nat, ghost left: set<string>, ghost later: set<string>,
                  p: J.Proof, w: Worker, present: bool)
    returns (r: Reply)
    requires c.Valid() && Alone(c.script) && Safe(s0) && AllBacked(s0) && Leased(s0.journal)
    requires Progress(s0, c.sys, left, later) && p.name in left && p.name in s0.journal && p == s0.journal[p.name]
    requires w == WorkerFor(s0, p) && (present <==> p.name in s0.workers)
    requires from <= |c.trace| && OnlyListed(c.trace, from, s0.journal)
    modifies c`sys, c`script, c`trace
    ensures c.Valid() && Alone(c.script) && from <= |c.trace| && OnlyListed(c.trace, from, s0.journal)
    ensures !r.Dead? && !r.Failed? ==> Progress(s0, c.sys, left - {p.name}, if r.Done? then later else later + {p.name})
    ensures DelaysIn(c.script) + (if r.Deferred? || r.Transient? then 1 else 0) <= DelaysIn(old(c.script))
    ensures old(c.script) == [] ==> c.script == [] && (r.Done? || r.Failed?)
    ensures old(c.script) == [] && Spared(s0, old(c.sys), left) && s0.lastId <= old(c.sys).lastId ==>
              && Spared(s0, c.sys, left - {p.name}) && s0.lastId <= c.sys.lastId
              && (r.Done? <==> CanRetire(s0, p, c.served)) && (!r.Done? ==> !Retirable(s0, c.served))
  {
    hide DelaysIn, Safe, J.Managed, OthersKept, Alone, Undisturbed, Progress, Fits, Spared, Matches, Registered, Backed, Remembered,
         After, Allowed, Trailed, OnlyIts, OnlyListed, AllBacked, DoneFor, ClosedAs, Aged, RegistrationGoes, OnlyGoes,
         CanRetire, WorkerFor, Retired, Retirable;
    TurnOf(s0, c.sys, left, later, p.name, w, c.served);
    SparedLess(s0, c.sys, left, p.name);
    if !Matches(w, p) { return Failed; }
    ghost var v1 := c.Now();
    r := c.FinishRetirement(w, present, p);
    if old(c.script) == [] && Spared(s0, v1.sys, left) && s0.lastId <= v1.sys.lastId {
      SparedMore(c.start, s0, v1, c.Now(), left, p);
    }
    ListedMore(v1, c.Now(), from, s0.journal, p.name);
    TrailLonger(v1, c.Now(), p);
    if r.Dead? || r.Failed? { return; }
    ProgressKept(s0, v1.sys, c.sys, left, later, p.name);
    if r.Done? { DoneNow(s0, v1.sys, c.sys, p, present); }
    TurnDone(s0, c.sys, left, later, p.name);
  }

  lemma SparedLess(s0: Sys, s: Sys, left: set<string>, n: string)
    ensures Spared(s0, s, left) ==> Spared(s0, s, left - {n})
  {
  }

  lemma AllSpared(s: Sys, left: set<string>)
    ensures Spared(s, s, left)
  {
  }

  lemma SafeLeased(s: Sys)
    requires Safe(s)
    ensures Leased(s.journal)
  {
  }

  lemma TrailLonger(v: View, v': View, p: J.Proof)
    requires Calm(v, v', p.lease, Only(p))
    ensures |v.trace| <= |v'.trace|
  {
  }

  lemma DoneNow(s0: Sys, s: Sys, s': Sys, p: J.Proof, present: bool)
    requires p.name == NameOf(p.lease) && Aged(Ledgered(s0.ledger, p.lease), Ledgered(s.ledger, p.lease))
    requires ClosedAs(Ledgered(s.ledger, p.lease), Ledgered(s'.ledger, p.lease), p)
    requires Retired(s', p) && OnlyGoes(s, s', p.lease) && (present ==> p.name !in s'.workers)
    requires (!present ==> p.name !in s.workers)
    ensures DoneFor(s0, s', p)
  {
    ClosedTrans(Ledgered(s0.ledger, p.lease), Ledgered(s.ledger, p.lease), Ledgered(s'.ledger, p.lease), p, p);
  }

  lemma NothingListed(v: View, v': View)
    requires Calm(v, v', "", Nobody) && Alone(v.script)
    ensures |v.trace| <= |v'.trace| && Alone(v'.script) && OnlyListed(v'.trace, |v.trace|, v.sys.journal)
  {
    hide Alone, OthersKept;
    forall k | |v.trace| <= k < |v'.trace| ensures !v'.trace[k].Unregister? {
      assert Followed(v'.trace[k], v.script, "", Nobody);
    }
  }

  /** While the inventory is read only workers and registrations go. */
  lemma AfterInventory(s: Sys, s': Sys, v: View, v': View)
    requires AllBacked(s) && OnlyOutside(s, s') && Undisturbed(s, s', "") && Safe(s')
    requires v.sys == s && v'.sys == s' && Calm(v, v', "", Nobody) && Alone(v.script)
    ensures AllBacked(s') && s'.journal == s.journal && s'.ledger == s.ledger
  {
    hide Alone, Trailed;
    forall id | id in s'.regs ensures id in s.regs && s'.regs[id] == s.regs[id] {
      assert s'.lastId == s.lastId;
    }
    BackedOutside(s, s');
  }

  /** From any run, wherever the controller dies: the journal read back is
      replayed, and what the file held is gone but for what is put off. With
      nobody interfering that is all of it, exactly if every scale set of the
      file is served and no proof in it strayed from its registration. */
  method Recover(ghost s0: Sys, ghost steps: seq<Step>, dead: Sys, served: set<int>, script: seq<Event>)
    returns (c: Scaler, r: Reply, later: set<string>)
    requires Safe(s0) && Allowed(s0, steps) && dead == After(s0, steps) && Alone(script)
    ensures fresh(c) && c.Valid() && c.start == Next(dead, Restart) && OnlyListed(c.trace, 0, dead.file)
    ensures r.Done? ==> forall n :: n in dead.file && n !in later ==> DoneFor(c.start, c.sys, dead.file[n])
    ensures |later| <= DelaysIn(script)
    ensures script == [] ==> (r.Done? && later == {} <==> Retirable(Next(dead, Restart), served))
    ensures script == [] && (forall n :: n in dead.file ==> n !in dead.strayed) ==>
              (r.Done? && later == {} <==> forall n :: n in dead.file ==> dead.file[n].scaleSet in served)
  {
    hide DelaysIn, Safe, Allowed, After, Alone, Retirable, DoneFor, AllBacked, OnlyListed;
    RunSafe(s0, steps);
    RestartBacks(dead);
    if forall n :: n in dead.file ==> n !in dead.strayed { RetirableIff(Next(dead, Restart), served); }
    c := new Scaler(Next(dead, Restart), served, script);
    r, later := FinishPending(c);
  }
}
