/**
 The usage budget: the ledger in memory, its file, and the operations that
 change both. A write may fail before or after the file is replaced.
 */
module UsageBudgets {
  import opened Basics
  import opened Disk
  import opened Ledger

  datatype Admission = Admitted | Refused(next: int) | Error

  /** The first entry of a lease, or -1. */
  function FindLease(es: seq<Entry>, lease: string, from: nat): (i: int)
    requires from <= |es|
    ensures i == -1 || from <= i < |es|
    ensures i >= 0 ==> es[i].lease == lease
    ensures forall j :: from <= j < (if i < 0 then |es| else i) ==> es[j].lease != lease
    decreases |es| - from
  {
    if from == |es| then -1 else if es[from].lease == lease then from else FindLease(es, lease, from + 1)
  }

  /** Whether a ledger read from the file may be used. */
  method Validate(es: seq<Entry>, reservation: int) returns (ok: bool)
    ensures ok <==> Reloads(es, reservation) && Used(es) <= MAX_INT64
  {
    var seen: set<string> := {};
    var total := 0;
    for i := 0 to |es|
      invariant forall j :: 0 <= j < i ==> EntryValid(es[j], reservation)
      invariant forall j, k :: 0 <= j < k < i ==> es[j].lease != es[k].lease
      invariant forall l :: l in seen <==> exists j :: 0 <= j < i && es[j].lease == l
      invariant total == Used(es[..i]) <= MAX_INT64
    {
      var e := es[i];
      assert es[..i + 1][..i] == es[..i];
      if e.lease == "" || e.startedAt == 0 || e.chargedAt == 0 { return false; }
      if e.lease in seen { return false; }
      seen := seen + {e.lease};
      if e.seconds < 1 || e.seconds > LONGEST_RESERVATION { return false; }
      if e.active && e.seconds < reservation { return false; }
      if !e.active && e.chargedAt < e.startedAt { return false; }
      if total > MAX_INT64 - e.seconds {
        if Reloads(es, reservation) { UsedGrows(es, i + 1, reservation); }
        return false;
      }
      total := total + e.seconds;
    }
    assert es[..|es|] == es;
    return true;
  }

  lemma {:induction false} UsedGrows(es: seq<Entry>, n: nat, reservation: int)
    requires Reloads(es, reservation) && n <= |es|
    ensures Used(es[..n]) <= Used(es)
  {
    if n < |es| {
      var front := es[..|es| - 1];
      assert front[..n] == es[..n];
      UsedGrows(front, n, reservation);
    } else {
      assert es[..n] == es;
    }
  }

  method ExpireEach(es: seq<Entry>, now: int) returns (expired: seq<Entry>, changed: bool)
    ensures expired == Expired(es, now) && (changed <==> expired != es)
  {
    expired, changed := es, false;
    for i := 0 to |es|
      invariant |expired| == |es|
      invariant forall j :: 0 <= j < i ==> expired[j] == Expire(es[j], now)
      invariant forall j :: i <= j < |es| ==> expired[j] == es[j]
      invariant changed <==> exists j :: 0 <= j < i && expired[j] != es[j]
    {
      var e := expired[i];
      if e.active && now >= Deadline(e) {
        expired, changed := expired[i := e.(active := false, chargedAt := Deadline(e))], true;
        assert expired[i] != es[i];
      }
    }
    if changed {
      var j :| 0 <= j < |es| && expired[j] != es[j];
    }
  }

  method DropGone(es: seq<Entry>, now: int, window: int) returns (kept: seq<Entry>)
    ensures kept == Keep(es, now, window) && (|kept| == |es| <==> kept == es)
  {
    kept := [];
    for i := 0 to |es|
      invariant kept == Keep(es[..i], now, window) && |kept| <= i
      invariant |kept| == i ==> kept == es[..i]
    {
      assert es[..i + 1][..i] == es[..i];
      if !Gone(es[i], now, window) { kept := kept + [es[i]]; }
    }
    assert es[..|es|] == es;
  }

  lemma SoundAppend(es: seq<Entry>, e: Entry, reservation: int, clock: int)
    requires Sound(es, reservation, clock) && SoundEntry(e, reservation, clock) && !Has(es, e.lease)
    ensures Sound(es + [e], reservation, clock)
  {
    forall i | 0 <= i < |es| ensures es[i].lease != e.lease {}
  }

  lemma KnownAgrees(es: seq<Entry>, h: History, time: int, window: int, lease: string)
    requires Agree(es, h, time, window)
    ensures var i := FindLease(es, lease, 0);
            (i < 0 ==> !Has(es, lease)) && (i >= 0 ==> lease in h && h[lease] == es[i])
  {
  }

  lemma SettledNow(e: Entry, stoppedAt: int, now: int)
    requires e.seconds >= 1
    ensures forall stop :: Believed(e, stoppedAt, now, stop) ==>
              ClosedFor(e, Expire(Settle(e, stoppedAt, now), now), stop, now)
  {
    forall stop | Believed(e, stoppedAt, now, stop)
      ensures ClosedFor(e, Expire(Settle(e, stoppedAt, now), now), stop, now)
    {
      ClosingCharges(e, stoppedAt, now, stop);
    }
  }

  class UsageBudget {
    const limit: int
    const window: int
    const reservation: int
    var entries: seq<Entry>
    var disk: seq<Entry>
    ghost var history: History
    ghost var clock: int

    ghost predicate Valid()
      reads this
    {
      window > 0 && 0 < reservation <= limit && clock > 0 && Agree(entries, history, clock, window)
    }

    /** Memory and file would both be accepted on a restart. */
    ghost predicate Durable()
      reads this
    {
      Seconds(reservation) <= LONGEST_RESERVATION && Sound(entries, Seconds(reservation), clock) && Reloads(disk,
              Seconds(reservation))
    }

    constructor (limit: int, window: int, reservation: int, es: seq<Entry>, now: int)
      requires window > 0 && 0 < reservation <= limit && now > 0 && Distinct(es)
      ensures Valid() && entries == disk == es && history == AsMap(es) && clock == now
      ensures this.limit == limit && this.window == window && this.reservation == reservation
    {
      this.limit, this.window, this.reservation := limit, window, reservation;
      entries, disk, history, clock := es, es, AsMap(es), now;
      new;
      forall l
        ensures (l in AsMap(es) <==> Has(es, l))
        ensures forall i :: 0 <= i < |es| && es[i].lease == l ==> l in AsMap(es) && AsMap(es)[l] == es[i]
      {
        AsMapFacts(es, l);
      }
    }

    method Persist(write: Write) returns (ok: bool)
      modifies `disk
      ensures ok <==> write.Committed?
      ensures disk == if write.Failed? then old(disk) else entries
    {
      if !write.Failed? { disk := entries; }
      ok := write.Committed?;
    }

    /** Turns reservations past their deadline into charges and drops charges
        that have left the window. */
    method Prune(now: int) returns (changed: bool)
      requires Valid() && clock <= now
      modifies `entries, `history, `clock
      ensures Valid() && clock == now && entries == Pruned(old(entries), now, window)
      ensures history == MapHistory(old(history), e => Expire(e, now))
      ensures changed <==> entries != old(entries)
    {
      hide Agree, Keep;
      var expired, some := ExpireEach(entries, now);
      var kept := DropGone(expired, now, window);
      changed := some || |kept| != |expired|;
      AgreePrune(entries, history, clock, now, window);
      entries, history, clock := kept, MapHistory(history, e => Expire(e, now)), now;
    }

    method UsedSeconds() returns (total: int)
      ensures total == Used(entries)
    {
      total := 0;
      for i := 0 to |entries|
        invariant total == Used(entries[..i])
      {
        assert entries[..i + 1][..i] == entries[..i];
        total := total + entries[i].seconds;
      }
      assert entries[..|entries|] == entries;
    }

    method NextAvailable(now: int) returns (next: int)
      ensures FirstToLeave(entries, now, window, next)
    {
      var first := -1;
      for i := 0 to |entries|
        invariant -1 <= first < i
        invariant first < 0 ==> forall j :: 0 <= j < i ==> entries[j].active
        invariant first >= 0 ==>
                    && !entries[first].active
                    && forall j :: 0 <= j < i && !entries[j].active ==> entries[first].chargedAt <= entries[j].chargedAt
      {
        if !entries[i].active && (first < 0 || entries[i].chargedAt < entries[first].chargedAt) { first := i; }
      }
      next := if first < 0 then now + window else entries[first].chargedAt + window;
    }

    /** Charges a new lease in full, if the full history's window has room. */
    method Reserve(lease: string, now: int, maximum: int, write: Write) returns (r: Admission)
      requires Valid() && clock <= now
      modifies this
      ensures Valid() && clock == now
      ensures var pruned := Pruned(old(entries), now, window);
              var used := Total(Recent(old(history), now, window));
              && used == Used(pruned)
              && (r.Admitted? <==>
                    && !Has(pruned, lease) && Seconds(maximum) == Seconds(reservation)
                    && used + Seconds(maximum) <= Seconds(limit) && write.Committed?)
              && (r.Refused? <==>
                    && !Has(pruned, lease) && Seconds(maximum) == Seconds(reservation)
                    && used + Seconds(maximum) > Seconds(limit))
              && entries == pruned + (if r.Admitted? then [NewEntry(lease, now, reservation, false)] else [])
              && (r.Refused? ==> FirstToLeave(pruned, now, window, r.next))
      ensures r.Admitted? ==> disk == entries
      ensures history == if r.Admitted? then AfterReserve(old(history), lease, now, reservation) else Lapsed(old(history), now)
      ensures r.Admitted? ==>
                Total(Recent(history, now, window)) == Total(Recent(old(history), now, window)) + Seconds(reservation)
                <= Seconds(limit)
      ensures !r.Admitted? ==> Total(Recent(history, now, window)) == Total(Recent(old(history), now, window))
      ensures old(Durable()) && lease != "" ==> Durable()
    {
      hide Agree, Pruned, Recent, Used, Sound, Reloads, FirstToLeave, Total;
      PrunedIsRecent(entries, history, clock, now, window);
      if Durable() { PruneSound(entries, Seconds(reservation), clock, now, window); }
      var _ := Prune(now);
      PrunedAgain(old(entries), now, window);
      PrunedIsRecent(entries, history, clock, now, window);
      var i := 0;
      while i < |entries|
        invariant 0 <= i <= |entries| && forall j :: 0 <= j < i ==> entries[j].lease != lease
      {
        if entries[i].lease == lease { return Error; }
        i := i + 1;
      }
      var requested := Seconds(maximum);
      if requested != Seconds(reservation) { return Error; }
      var used := UsedSeconds();
      if used > Seconds(limit) || requested > Seconds(limit) - used {
        var next := NextAvailable(now);
        return Refused(next);
      }
      ghost var pruned := entries;
      var entry := NewEntry(lease, now, reservation, false);
      entries := entries + [entry];
      var ok := Persist(write);
      if old(Durable()) && lease != "" {
        SoundAppend(pruned, entry, Seconds(reservation), now);
        SoundReloads(entries, Seconds(reservation), now);
      }
      if !ok {
        entries := entries[..|entries| - 1];
        return Error;
      }
      AgreeAppend(pruned, history, clock, window, entry);
      history := history[lease := entry];
      AppendedStays(pruned, entry, now, window);
      PrunedIsRecent(entries, history, clock, now, window);
      r := Admitted;
    }

    method IndexOfActive(lease: string) returns (i: int)
      ensures i == FindActive(entries, lease)
    {
      i := 0;
      while i < |entries|
        invariant 0 <= i <= |entries| && FindActive(entries, lease) == FindActiveFrom(entries, lease, i)
      {
        if entries[i].lease == lease && entries[i].active { return; }
        i := i + 1;
      }
      i := -1;
    }

    /** Charges an active lease for the time it ran, at most its reservation. */
    method SettleAt(lease: string, stoppedAt: int, now: int, write: Write) returns (ok: bool)
      requires Valid() && clock <= now
      modifies this
      ensures Valid() && clock == now
      ensures var i := FindActive(old(entries), lease);
              if i < 0 then ok && entries == old(entries) && disk == old(disk) && history == old(history)
              else
                var after := Pruned(old(entries)[i := Settle(old(entries)[i], stoppedAt, now)], now, window);
                && ok == write.Committed? && entries == (if ok then after else old(entries))
                && disk == (if write.Failed? then old(disk) else after)
                && history == (if ok then MapHistory(old(history)[lease := Settle(old(entries)[i], stoppedAt, now)],
                                                     e => Expire(e, now))
                               else old(history))
      ensures history == if ok then AfterSettle(old(history), lease, stoppedAt, now) else old(history)
      ensures ok && Running(old(history), lease) && old(history)[lease].seconds >= 1 ==>
                forall stop :: Believed(old(history)[lease], stoppedAt, now, stop) ==>
                  lease in history && ClosedFor(old(history)[lease], history[lease], stop, now)
      ensures old(Durable()) ==> Durable()
    {
      hide Agree, Pruned, Sound, Reloads;
      AgreeLater(entries, history, clock, now, window);
      OpenAgrees(entries, history, clock, window, lease);
      if Durable() { SoundLater(entries, Seconds(reservation), clock, now); }
      var index := IndexOfActive(lease);
      if index < 0 {
        clock := now;
        return true;
      }
      var previous, was := entries, entries[index];
      ghost var recorded := history;
      AgreeAt(entries, history, clock, window, index, Settle(was, stoppedAt, now));
      if Durable() { SoundSettled(entries, index, stoppedAt, Seconds(reservation), clock, now, window); }
      entries := entries[index := Settle(was, stoppedAt, now)];
      history := history[lease := Settle(was, stoppedAt, now)];
      var _ := Prune(now);
      ok := Persist(write);
      if !ok { entries, history := previous, recorded; }
      if was.seconds >= 1 { SettledNow(was, stoppedAt, now); }
    }

    /** Charges an active lease its whole reservation. */
    method ForfeitLease(lease: string, now: int, write: Write) returns (ok: bool)
      requires Valid() && clock <= now
      modifies this
      ensures Valid() && clock == now
      ensures var i := FindActive(old(entries), lease);
              if i < 0 then ok && entries == old(entries) && disk == old(disk) && history == old(history)
              else
                var after := old(entries)[i := Forfeit(old(entries)[i], now)];
                && ok == write.Committed? && entries == (if ok then after else old(entries))
                && disk == (if write.Failed? then old(disk) else after)
                && history == (if ok then old(history)[lease := Forfeit(old(entries)[i], now)] else old(history))
      ensures history == if ok then AfterForfeit(old(history), lease, now) else old(history)
      ensures ok && Running(old(history), lease) ==>
                lease in history && ClosedInFull(old(history)[lease], history[lease], now)
      ensures old(Durable()) ==> Durable()
    {
      hide Agree, Sound, Reloads;
      AgreeLater(entries, history, clock, now, window);
      OpenAgrees(entries, history, clock, window, lease);
      if Durable() { SoundLater(entries, Seconds(reservation), clock, now); }
      var index := IndexOfActive(lease);
      if index < 0 {
        clock := now;
        return true;
      }
      var previous, was := entries, entries[index];
      AgreeAt(entries, history, now, window, index, Forfeit(was, now));
      if Durable() { SoundForfeited(entries, index, Seconds(reservation), clock, now); }
      clock := now;
      entries := entries[index := Forfeit(was, now)];
      ok := Persist(write);
      if ok {
        history := history[lease := Forfeit(was, now)];
      } else {
        entries := previous;
      }
    }

    /** Takes a reservation back as if it had never been made. */
    method Release(lease: string, write: Write) returns (ok: bool)
      requires Valid()
      modifies this
      ensures Valid() && clock == old(clock)
      ensures var i := FindActive(old(entries), lease);
              if i < 0 then ok && entries == old(entries) && disk == old(disk) && history == old(history)
              else
                var after := old(entries)[..i] + old(entries)[i + 1..];
                && ok == write.Committed? && entries == (if ok then after else old(entries))
                && disk == (if write.Failed? then old(disk) else after)
                && history == (if ok then old(history) - {lease} else old(history))
      ensures history == if ok then AfterRelease(old(history), lease) else old(history)
      ensures old(Durable()) ==> Durable()
    {
      hide Agree;
      OpenAgrees(entries, history, clock, window, lease);
      var index := IndexOfActive(lease);
      if index < 0 { return true; }
      var previous := entries;
      AgreeDelete(entries, history, clock, window, index);
      if Durable() { SoundDeleted(entries, index, Seconds(reservation), clock); }
      entries := entries[..index] + entries[index + 1..];
      ok := Persist(write);
      if ok {
        history := history - {lease};
      } else {
        entries := previous;
      }
    }

    method IndexOfLease(lease: string) returns (i: int)
      ensures i == FindLease(entries, lease, 0)
    {
      i := 0;
      while i < |entries|
        invariant 0 <= i <= |entries| && FindLease(entries, lease, 0) == FindLease(entries, lease, i)
      {
        if entries[i].lease == lease { return; }
        i := i + 1;
      }
      i := -1;
    }

    /** Charges a worker found running. Only the write of a lease the ledger
        did not know is not taken back when it fails. */
    method AdoptLease(lease: string, startedAt: int, now: int, write: Write) returns (ok: bool)
      requires Valid() && clock <= now
      modifies this
      ensures Valid() && clock == now
      ensures var i := FindLease(old(entries), lease, 0);
              var start := if startedAt == 0 then now else startedAt;
              if lease == "" then !ok && entries == old(entries) && disk == old(disk) && history == old(history)
              else if i < 0 then
                && ok == write.Committed? && entries == old(entries) + [NewEntry(lease, start, reservation, true)]
                && disk == (if write.Failed? then old(disk) else entries)
                && history == old(history)[lease := NewEntry(lease, start, reservation, true)]
              else
                var adopted := Adopt(old(entries)[i], start, reservation);
                if adopted == old(entries)[i] then ok && entries == old(entries) && disk == old(disk) && history == old(history)
                else
                  && ok == write.Committed? && entries == (if ok then old(entries)[i := adopted] else old(entries))
                  && disk == (if write.Failed? then old(disk) else old(entries)[i := adopted])
                  && history == (if ok then old(history)[lease := adopted] else old(history))
      ensures ok ==> history == AfterAdopt(old(history), lease, if startedAt == 0 then now else startedAt, reservation)
      ensures old(Durable()) && 0 <= startedAt <= now ==> Durable()
    {
      hide Agree, Sound, Reloads;
      AgreeLater(entries, history, clock, now, window);
      ghost var sound := Durable() && 0 <= startedAt <= now;
      if sound { SoundLater(entries, Seconds(reservation), clock, now); }
      clock := now;
      if lease == "" { return false; }
      var start := if startedAt == 0 then now else startedAt;
      var index := IndexOfLease(lease);
      KnownAgrees(entries, history, clock, window, lease);
      if index >= 0 {
        var was := entries[index];
        if was.active && was.confirmed { return true; }
        ok := AdoptAt(index, start, write);
        return;
      }
      AdoptDropped(entries, history, clock, window, lease, start, reservation);
      ok := AddAdopted(NewEntry(lease, start, reservation, true), write);
    }

    /** Adopts an entry the ledger knows, and puts it back if the write fails. */
    method AdoptAt(index: nat, start: int, write: Write) returns (ok: bool)
      requires Valid() && index < |entries| && Adopt(entries[index], start, reservation) != entries[index]
      modifies `entries, `history, `disk
      ensures var adopted := Adopt(old(entries)[index], start, reservation);
              && Valid() && ok == write.Committed?
              && entries == (if ok then old(entries)[index := adopted] else old(entries))
              && disk == (if write.Failed? then old(disk) else old(entries)[index := adopted])
              && history == (if ok then old(history)[adopted.lease := adopted] else old(history))
      ensures old(Durable()) && 0 < start <= clock ==> Durable()
    {
      hide Agree, Sound, Reloads;
      var was := entries[index];
      var adopted := Adopt(was, start, reservation);
      AgreeAt(entries, history, clock, window, index, adopted);
      if Durable() && 0 < start <= clock { SoundAdopted(entries, index, start, reservation, clock); }
      entries := entries[index := adopted];
      ok := Persist(write);
      if ok {
        history := history[adopted.lease := adopted];
      } else {
        entries := entries[index := was];
        assert entries == old(entries);
      }
    }

    /** Adds a lease the ledger did not know, and keeps it even if the write
        fails. */
    method AddAdopted(entry: Entry, write: Write) returns (ok: bool)
      requires Valid() && !Has(entries, entry.lease)
      modifies `entries, `history, `disk
      ensures Valid() && ok == write.Committed? && entries == old(entries) + [entry]
      ensures history == old(history)[entry.lease := entry]
      ensures disk == if write.Failed? then old(disk) else entries
      ensures old(Durable()) && SoundEntry(entry, Seconds(reservation), clock) ==> Durable()
    {
      hide Agree, Sound, Reloads;
      AgreeAppend(entries, history, clock, window, entry);
      if Durable() && SoundEntry(entry, Seconds(reservation), clock) {
        SoundAppend(entries, entry, Seconds(reservation), clock);
        SoundReloads(entries + [entry], Seconds(reservation), clock);
      }
      entries, history := entries + [entry], history[entry.lease := entry];
      ok := Persist(write);
    }

    /** Closes every active lease no worker carries. */
    method ReconcileAll(alive: set<string>, now: int, write: Write) returns (ok: bool)
      requires Valid() && clock <= now
      modifies this
      ensures Valid() && clock == now
      ensures var after := Pruned(Map(old(entries), e => Reconcile(e, alive, now)), now, window);
              var quiet := && Map(old(entries), e => Reconcile(e, alive, now)) == old(entries)
                           && Pruned(old(entries), now, window) == old(entries);
              if quiet then ok && entries == old(entries) && disk == old(disk)
              else
                && ok == write.Committed? && entries == (if ok then after else old(entries))
                && disk == (if write.Failed? then old(disk) else after)
      ensures history == if ok then AfterReconcile(old(history), alive, now) else old(history)
      ensures old(Durable()) ==> Durable()
    {
      hide Agree, Pruned, Sound, Reloads;
      ghost var recorded := history;
      AgreeLater(entries, history, clock, now, window);
      AgreeEach(entries, history, clock, window, e => Reconcile(e, alive, now));
      if Durable() {
        SoundLater(entries, Seconds(reservation), clock, now);
        SoundReconciled(entries, alive, Seconds(reservation), clock, now);
        PruneSound(Map(entries, e => Reconcile(e, alive, now)), Seconds(reservation), now, now, window);
        SoundReloads(Pruned(Map(entries, e => Reconcile(e, alive, now)), now, window), Seconds(reservation), now);
      }
      var previous := entries;
      var reconciled, changed := ReconcileEach(entries, alive, now);
      entries, history := reconciled, MapHistory(history, e => Reconcile(e, alive, now));
      var dropped := Prune(now);
      if dropped { changed := true; }
      if !changed { return true; }
      ok := Persist(write);
      if !ok { entries, history := previous, recorded; }
    }
  }

  method ReconcileEach(es: seq<Entry>, alive: set<string>, now: int) returns (r: seq<Entry>, changed: bool)
    ensures r == Map(es, e => Reconcile(e, alive, now)) && (changed <==> r != es)
  {
    r, changed := es, false;
    for i := 0 to |es|
      invariant |r| == |es|
      invariant forall j :: 0 <= j < i ==> r[j] == Reconcile(es[j], alive, now)
      invariant forall j :: i <= j < |es| ==> r[j] == es[j]
      invariant changed <==> exists j :: 0 <= j < i && r[j] != es[j]
    {
      var e := r[i];
      if e.active && e.lease !in alive {
        var seconds := if e.confirmed then Min(e.seconds, Max(1, Seconds(now - e.startedAt))) else e.seconds;
        r, changed := r[i := e.(active := false, chargedAt := now, seconds := seconds)], true;
        assert r[i] != es[i];
      }
    }
    if changed {
      var j :| 0 <= j < |es| && r[j] != es[j];
    }
  }

  lemma SoundLater(es: seq<Entry>, reservation: int, clock: int, now: int)
    requires Sound(es, reservation, clock) && clock <= now
    ensures Sound(es, reservation, now) && Reloads(es, reservation)
  {
  }

  lemma SoundAt(es: seq<Entry>, i: nat, e: Entry, reservation: int, clock: int, now: int)
    requires Sound(es, reservation, clock) && clock <= now && i < |es| && e.lease == es[i].lease
    requires SoundEntry(e, reservation, now)
    ensures Sound(es[i := e], reservation, now) && Reloads(es[i := e], reservation)
  {
  }

  lemma SoundSettled(es: seq<Entry>, i: nat, stoppedAt: int, reservation: int, clock: int, now: int, window: int)
    requires Sound(es, reservation, clock) && clock <= now && i < |es| && es[i].active
    ensures var after := Pruned(es[i := Settle(es[i], stoppedAt, now)], now, window);
            Sound(after, reservation, now) && Reloads(after, reservation)
  {
    SettleSound(es[i], stoppedAt, reservation, clock, now);
    SoundAt(es, i, Settle(es[i], stoppedAt, now), reservation, clock, now);
    PruneSound(es[i := Settle(es[i], stoppedAt, now)], reservation, now, now, window);
  }

  lemma SoundForfeited(es: seq<Entry>, i: nat, reservation: int, clock: int, now: int)
    requires Sound(es, reservation, clock) && clock <= now && i < |es| && es[i].active
    ensures var after := es[i := Forfeit(es[i], now)]; Sound(after, reservation, now) && Reloads(after, reservation)
  {
    SettleSound(es[i], 0, reservation, clock, now);
    SoundAt(es, i, Forfeit(es[i], now), reservation, clock, now);
  }

  lemma SoundDeleted(es: seq<Entry>, i: nat, reservation: int, clock: int)
    requires Sound(es, reservation, clock) && i < |es|
    ensures var after := es[..i] + es[i + 1..]; Sound(after, reservation, clock) && Reloads(after, reservation)
  {
    var after := es[..i] + es[i + 1..];
    forall k | 0 <= k < |after| ensures after[k] == es[if k < i then k else k + 1] {}
  }

  lemma SoundAdopted(es: seq<Entry>, i: nat, startedAt: int, reservation: int, now: int)
    requires Sound(es, Seconds(reservation), now) && i < |es| && 0 < startedAt <= now
    requires 0 < Seconds(reservation) <= LONGEST_RESERVATION
    ensures var after := es[i := Adopt(es[i], startedAt, reservation)];
            Sound(after, Seconds(reservation), now) && Reloads(after, Seconds(reservation))
  {
    AdoptSound(es[i], startedAt, reservation, now, now);
    SoundAt(es, i, Adopt(es[i], startedAt, reservation), Seconds(reservation), now, now);
  }

  lemma SoundReconciled(es: seq<Entry>, alive: set<string>, reservation: int, clock: int, now: int)
    requires Sound(es, reservation, clock) && clock <= now
    ensures Sound(Map(es, e => Reconcile(e, alive, now)), reservation, now)
  {
    var after := Map(es, e => Reconcile(e, alive, now));
    forall i | 0 <= i < |es| ensures SoundEntry(after[i], reservation, now) && after[i].lease == es[i].lease {
      ReconcileSound(es[i], alive, reservation, clock, now);
    }
  }

  lemma SoundReloads(es: seq<Entry>, reservation: int, clock: int)
    requires Sound(es, reservation, clock)
    ensures Reloads(es, reservation)
  {
  }

  /** Pruning twice at one instant is pruning once. */
  lemma PrunedAgain(es: seq<Entry>, now: int, window: int)
    ensures Pruned(Pruned(es, now, window), now, window) == Pruned(es, now, window)
  {
    var pruned := Pruned(es, now, window);
    forall i | 0 <= i < |pruned| ensures Expire(pruned[i], now) == pruned[i] && !Gone(pruned[i], now, window) {
      KeepIn(Expired(es, now), now, window, pruned[i]);
      var j :| 0 <= j < |es| && Expired(es, now)[j] == pruned[i];
    }
    assert Expired(pruned, now) == pruned;
    NoneGone(pruned, now, window);
  }

  lemma AppendedStays(es: seq<Entry>, e: Entry, now: int, window: int)
    requires Pruned(es, now, window) == es && Expire(e, now) == e && !Gone(e, now, window)
    ensures Used(Pruned(es + [e], now, window)) == Used(es) + e.seconds
  {
    var all := es + [e];
    assert Expired(all, now)[..|es|] == Expired(es, now);
    assert Expired(all, now)[|es|] == e;
    assert Pruned(all, now, window) == es + [e];
    assert all[..|es|] == es;
  }

  /** Opens the ledger file: what is accepted, and what is kept of it. */
  method Open(file: seq<Entry>, limit: int, window: int, reservation: int, now: int, write: Write)
    returns (b: UsageBudget?)
    requires now > 0
    ensures b != null <==>
              && limit > 0 && window > 0 && 0 < reservation <= limit
              && Reloads(file, Seconds(reservation)) && Used(file) <= MAX_INT64
              && (Pruned(file, now, window) == file || write.Committed?)
    ensures b != null ==> fresh(b) && b.Valid() && b.entries == b.disk == Pruned(file, now, window)
  {
    if limit <= 0 || window <= 0 || reservation <= 0 || reservation > limit { return null; }
    var ok := Validate(file, Seconds(reservation));
    if !ok { return null; }
    b := new UsageBudget(limit, window, reservation, file, now);
    var changed := b.Prune(now);
    if changed {
      ok := b.Persist(write);
      if !ok { return null; }
    }
  }

  /** A refusal holds until the time it names: while nothing else happens to
      the ledger, every request before then is refused too. */
  lemma RefusalStands(es: seq<Entry>, reservation: int, limit: int, now: int, window: int, next: int, later: int)
    requires Sound(es, reservation, now) && Pruned(es, now, window) == es && window >= 0
    requires Used(es) + reservation > limit && FirstToLeave(es, now, window, next) && now <= later <= next
    ensures Used(Pruned(es, later, window)) + reservation > limit
  {
    hide Keep, Used, FirstToLeave, Deadline;
    forall i | 0 <= i < |es| && es[i].active ensures now < Deadline(es[i]) {
      ActiveIsAhead(es, now, window, i);
    }
    NothingLeaves(es, now, window, next, later);
  }

  lemma ActiveIsAhead(es: seq<Entry>, now: int, window: int, i: nat)
    requires Pruned(es, now, window) == es && i < |es| && es[i].active
    ensures now < Deadline(es[i])
  {
    KeepIn(Expired(es, now), now, window, es[i]);
    var j :| 0 <= j < |es| && Expired(es, now)[j] == es[i];
  }

  /** A worker whose provider reports a start after the controller's clock:
      settled at once, its entry would not be accepted on a restart. */
  lemma EarlySettlementDoesNotReload()
    ensures var e := NewEntry("lease", 20 * SECOND, 60 * SECOND, true);
            EntryValid(e, 60) && !EntryValid(Settle(e, 0, 10 * SECOND), 60) && EntryValid(Settle(e, 0, 20 * SECOND), 60)
  {
    var e := NewEntry("lease", 20 * SECOND, 60 * SECOND, true);
    SettleReloads(e, 0, 60, 10 * SECOND);
    SettleReloads(e, 0, 60, 20 * SECOND);
  }
}
