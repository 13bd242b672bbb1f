/**
 The rolling-window usage ledger, entry by entry: what a lease is charged, when
 a charge leaves the window, and what a never-pruned history would say.
 */
module Ledger {
  import opened Basics

  /** Times are nanoseconds of a clock that never shows zero; zero is a time
      that was never set. */
  datatype Entry = Entry(lease: string, chargedAt: int, startedAt: int, seconds: int, active: bool, confirmed: bool)

  const LONGEST_RESERVATION: int := 86_400 // seconds in 24 hours
  const MAX_INT64: int := 9_223_372_036_854_775_807

  /** A duration in whole seconds, rounded up. */
  function Seconds(duration: int): int {
    (duration + SECOND - 1) / SECOND
  }

  // ---- what happens to one entry ----

  function Deadline(e: Entry): int {
    e.startedAt + e.seconds * SECOND
  }

  /** A reservation past its deadline is a completed charge. */
  function Expire(e: Entry, now: int): Entry {
    if e.active && now >= Deadline(e) then e.(active := false, chargedAt := Deadline(e)) else e
  }

  function NewEntry(lease: string, startedAt: int, reservation: int, confirmed: bool): Entry {
    Entry(lease, startedAt, startedAt, Seconds(reservation), true, confirmed)
  }

  /** A completed charge that has left the window. */
  predicate Gone(e: Entry, now: int, window: int) {
    !e.active && e.chargedAt < now - window
  }

  /** The stop time a settlement believes. */
  function StopTime(e: Entry, stoppedAt: int, now: int): int {
    if stoppedAt == 0 || stoppedAt < e.startedAt || stoppedAt > now then now else stoppedAt
  }

  function Settle(e: Entry, stoppedAt: int, now: int): Entry {
    e.(active := false, chargedAt := now,
       seconds := Min(e.seconds, Max(1, Seconds(StopTime(e, stoppedAt, now) - e.startedAt))))
  }

  function Forfeit(e: Entry, now: int): Entry {
    e.(active := false, chargedAt := now)
  }

  /** A worker found running: its lease is active and charged in full. */
  function Adopt(e: Entry, startedAt: int, reservation: int): Entry {
    if e.active then
      if e.confirmed then e else e.(confirmed := true, seconds := Max(e.seconds, Seconds(reservation)))
    else e.(active := true, startedAt := startedAt, chargedAt := startedAt, seconds := Seconds(reservation), confirmed := true)
  }

  /** A lease no worker carries any more. */
  function Reconcile(e: Entry, alive: set<string>, now: int): Entry {
    if !e.active || e.lease in alive then e
    else e.(active := false, chargedAt := now,
            seconds := if e.confirmed then Min(e.seconds, Max(1, Seconds(now - e.startedAt))) else e.seconds)
  }

  // ---- what a lease is charged ----

  /** c is the fewest whole seconds that cover a duration: at least one, and
      never more than whole. */
  predicate Fewest(c: int, whole: int, duration: int) {
    && c <= whole && (c == whole || (c >= 1 && c * SECOND >= duration))
    && (c <= 1 || (c - 1) * SECOND < duration)
  }

  lemma SecondsMeans(duration: int)
    ensures Seconds(duration) * SECOND >= duration && (Seconds(duration) - 1) * SECOND < duration
  {
  }

  /** The reported stop is believed when it lies between the start and now. */
  predicate Believed(e: Entry, stoppedAt: int, now: int, stop: int) {
    if stoppedAt != 0 && e.startedAt <= stoppedAt <= now then stop == stoppedAt else stop == now
  }

  /** r is e closed at now, and charged from its start to stop. */
  predicate ClosedFor(e: Entry, r: Entry, stop: int, now: int) {
    && !r.active && r.chargedAt == now && Fewest(r.seconds, e.seconds, stop - e.startedAt)
    && r.lease == e.lease && r.startedAt == e.startedAt && r.confirmed == e.confirmed
  }

  /** r is e closed at now, and charged in full. */
  predicate ClosedInFull(e: Entry, r: Entry, now: int) {
    && !r.active && r.chargedAt == now && r.seconds == e.seconds
    && r.lease == e.lease && r.startedAt == e.startedAt && r.confirmed == e.confirmed
  }

  /** A settled lease is charged for the time it ran, a forfeited one in full. */
  lemma ClosingCharges(e: Entry, stoppedAt: int, now: int, stop: int)
    requires e.seconds >= 1 && Believed(e, stoppedAt, now, stop)
    ensures ClosedFor(e, Settle(e, stoppedAt, now), stop, now) && ClosedInFull(e, Forfeit(e, now), now)
  {
    SecondsMeans(stop - e.startedAt);
  }

  /** A lease that no worker carries any more is charged to now if its worker
      was ever seen, and in full otherwise; no other lease is touched. */
  lemma ReconcileCharges(e: Entry, alive: set<string>, now: int)
    requires e.seconds >= 1
    ensures var r := Reconcile(e, alive, now);
            if e.active && e.lease !in alive
            then if e.confirmed then ClosedFor(e, r, now, now) else ClosedInFull(e, r, now)
            else r == e
  {
    SecondsMeans(now - e.startedAt);
  }

  /** A reservation is charged from the start, in the fewest seconds that cover
      it; an adopted lease is open, seen, and charged no less than that. */
  lemma OpeningCharges(e: Entry, startedAt: int, reservation: int, confirmed: bool)
    requires reservation > 0
    ensures var r := NewEntry(e.lease, startedAt, reservation, confirmed);
            && r.active && r.lease == e.lease && r.confirmed == confirmed && r.startedAt == r.chargedAt == startedAt
            && r.seconds * SECOND >= reservation && (r.seconds - 1) * SECOND < reservation
    ensures var r := Adopt(e, startedAt, reservation);
            && r.active && r.confirmed && r.lease == e.lease
            && (e.active ==> r.startedAt == e.startedAt && r.chargedAt == e.chargedAt && r.seconds >= e.seconds)
            && (!e.active ==> r.startedAt == r.chargedAt == startedAt)
            && (!(e.active && e.confirmed) ==> r.seconds * SECOND >= reservation)
            && (r.seconds == e.seconds || (r.seconds - 1) * SECOND < reservation)
            && (e.active && e.confirmed ==> r == e)
  {
    SecondsMeans(reservation);
  }

  /** When a lease's time is over: its end if it is still open. */
  function EndOf(e: Entry): int {
    if e.active then e.startedAt + e.seconds * SECOND else e.chargedAt
  }

  // ---- a whole ledger ----

  predicate Distinct(es: seq<Entry>) {
    forall i, j :: 0 <= i < j < |es| ==> es[i].lease != es[j].lease
  }

  predicate Has(es: seq<Entry>, lease: string) {
    exists i :: 0 <= i < |es| && es[i].lease == lease
  }

  function Map(es: seq<Entry>, f: Entry -> Entry): (r: seq<Entry>)
    ensures |r| == |es| && forall i :: 0 <= i < |es| ==> r[i] == f(es[i])
  {
    seq(|es|, i requires 0 <= i < |es| => f(es[i]))
  }

  function Keep(es: seq<Entry>, now: int, window: int): seq<Entry> {
    if es == [] then []
    else
      var last := es[|es| - 1];
      Keep(es[..|es| - 1], now, window) + if Gone(last, now, window) then [] else [last]
  }

  function Expired(es: seq<Entry>, now: int): seq<Entry> {
    Map(es, e => Expire(e, now))
  }

  function Pruned(es: seq<Entry>, now: int, window: int): seq<Entry> {
    Keep(Expired(es, now), now, window)
  }

  function Used(es: seq<Entry>): int {
    if es == [] then 0 else Used(es[..|es| - 1]) + es[|es| - 1].seconds
  }

  /** The entry of an active lease, or -1. */
  function FindActive(es: seq<Entry>, lease: string): (i: int)
    ensures -1 <= i < |es|
    ensures i >= 0 ==> es[i].lease == lease && es[i].active
    ensures i < 0 ==> forall j :: 0 <= j < |es| ==> !(es[j].lease == lease && es[j].active)
    ensures forall j :: 0 <= j < i ==> !(es[j].lease == lease && es[j].active)
  {
    FindActiveFrom(es, lease, 0)
  }

  function FindActiveFrom(es: seq<Entry>, lease: string, from: nat): (i: int)
    requires from <= |es|
    ensures i == -1 || from <= i < |es|
    ensures i >= 0 ==> es[i].lease == lease && es[i].active
    ensures forall j :: from <= j < (if i < 0 then |es| else i) ==> !(es[j].lease == lease && es[j].active)
    decreases |es| - from
  {
    if from == |es| then -1
    else if es[from].lease == lease && es[from].active then from
    else FindActiveFrom(es, lease, from + 1)
  }

  // ---- the history that is never pruned ----

  /** Every lease ever charged, as if no charge were ever dropped. */
  type History = map<string, Entry>

  /** The part of a history that counts at now: reservations still running
      and charges inside the window. */
  function Recent(h: History, now: int, window: int): map<string, Entry> {
    map l | l in h && !Gone(Expire(h[l], now), now, window) :: Expire(h[l], now)
  }

  /** Exactly the leases still running, and those whose time was over no longer
      than the window ago, each with its own charge. */
  lemma RecentMeans(h: History, now: int, window: int, l: string)
    requires window >= 0
    ensures l in Recent(h, now, window) <==>
            l in h && ((h[l].active && now < EndOf(h[l])) || now - window <= EndOf(h[l]))
    ensures l in Recent(h, now, window) ==>
              && Recent(h, now, window)[l].seconds == h[l].seconds
              && (Recent(h, now, window)[l].active <==> h[l].active && now < EndOf(h[l]))
  {
  }

  ghost function Total(m: map<string, Entry>): int
    decreases |m|
  {
    if m == map[] then 0
    else
      var l :| l in m;
      m[l].seconds + Total(m - {l})
  }

  /** The total does not depend on the order leases are added up in. */
  lemma {:induction false} TotalSplit(m: map<string, Entry>, l: string)
    requires l in m
    ensures Total(m) == m[l].seconds + Total(m - {l})
    decreases |m|
  {
    var k :| k in m && Total(m) == m[k].seconds + Total(m - {k});
    if k != l {
      TotalSplit(m - {k}, l);
      TotalSplit(m - {l}, k);
      assert m - {k} - {l} == m - {l} - {k};
    }
  }

  function AsMap(es: seq<Entry>): map<string, Entry> {
    if es == [] then map[] else AsMap(es[..|es| - 1])[es[|es| - 1].lease := es[|es| - 1]]
  }

  lemma {:induction false} AsMapFacts(es: seq<Entry>, l: string)
    requires Distinct(es)
    ensures (l in AsMap(es) <==> Has(es, l))
    ensures forall i :: 0 <= i < |es| && es[i].lease == l ==> l in AsMap(es) && AsMap(es)[l] == es[i]
  {
    if es != [] {
      var front := es[..|es| - 1];
      AsMapFacts(front, l);
      if Has(es, l) {
        var i :| 0 <= i < |es| && es[i].lease == l;
        if i < |front| { assert front[i].lease == l; }
      }
    }
  }

  lemma {:induction false} UsedIsTotal(es: seq<Entry>)
    requires Distinct(es)
    ensures Used(es) == Total(AsMap(es))
  {
    if es != [] {
      var front, last := es[..|es| - 1], es[|es| - 1];
      UsedIsTotal(front);
      AsMapFacts(front, last.lease);
      AsMapFacts(es, last.lease);
      TotalSplit(AsMap(es), last.lease);
      assert AsMap(es) - {last.lease} == AsMap(front);
    }
  }

  /** The ledger holds the history's entries but for charges that had left the
      window by time. */
  ghost predicate Agree(es: seq<Entry>, h: History, time: int, window: int) {
    && Distinct(es)
    && (forall i :: 0 <= i < |es| ==> es[i].lease in h && h[es[i].lease] == es[i])
    && (forall l :: l in h ==> h[l].lease == l)
    && forall l :: l in h && !Has(es, l) ==> Gone(h[l], time, window)
  }

  lemma {:induction false} KeepIn(es: seq<Entry>, now: int, window: int, e: Entry)
    ensures e in Keep(es, now, window) <==> e in es && !Gone(e, now, window)
  {
    if es != [] {
      var front, last := es[..|es| - 1], es[|es| - 1];
      KeepIn(front, now, window, e);
      assert es == front + [last];
    }
  }

  lemma {:induction false} KeepDistinct(es: seq<Entry>, now: int, window: int)
    requires Distinct(es)
    ensures Distinct(Keep(es, now, window))
  {
    if es != [] {
      var front, last := es[..|es| - 1], es[|es| - 1];
      KeepDistinct(front, now, window);
      var kept := Keep(front, now, window);
      forall i | 0 <= i < |kept| ensures kept[i].lease != last.lease {
        KeepIn(front, now, window, kept[i]);
        var j :| 0 <= j < |front| && front[j] == kept[i];
      }
    }
  }

  lemma KeptLease(es: seq<Entry>, now: int, window: int, l: string)
    ensures Has(Keep(es, now, window), l) <==>
              exists i :: 0 <= i < |es| && es[i].lease == l && !Gone(es[i], now, window)
  {
    var kept := Keep(es, now, window);
    if Has(kept, l) {
      var i :| 0 <= i < |kept| && kept[i].lease == l;
      KeepIn(es, now, window, kept[i]);
      var j :| 0 <= j < |es| && es[j] == kept[i];
    }
    if i :| 0 <= i < |es| && es[i].lease == l && !Gone(es[i], now, window) {
      KeepIn(es, now, window, es[i]);
      var j :| 0 <= j < |kept| && kept[j] == es[i];
    }
  }

  // ---- agreement is kept ----

  function MapHistory(h: History, f: Entry -> Entry): History {
    map l | l in h :: f(h[l])
  }

  // ---- what the budget's operations do to the history ----

  function Lapsed(h: History, now: int): History {
    MapHistory(h, e => Expire(e, now))
  }

  predicate Running(h: History, lease: string) {
    lease in h && h[lease].active
  }

  function AfterReserve(h: History, lease: string, now: int, reservation: int): History {
    Lapsed(h, now)[lease := NewEntry(lease, now, reservation, false)]
  }

  function AfterSettle(h: History, lease: string, stoppedAt: int, now: int): History {
    if Running(h, lease) then Lapsed(h[lease := Settle(h[lease], stoppedAt, now)], now) else h
  }

  function AfterForfeit(h: History, lease: string, now: int): History {
    if Running(h, lease) then h[lease := Forfeit(h[lease], now)] else h
  }

  function AfterRelease(h: History, lease: string): History {
    if Running(h, lease) then h - {lease} else h
  }

  function AfterAdopt(h: History, lease: string, startedAt: int, reservation: int): History {
    h[lease := if lease in h then Adopt(h[lease], startedAt, reservation) else NewEntry(lease, startedAt, reservation, true)]
  }

  function AfterReconcile(h: History, alive: set<string>, now: int): History {
    Lapsed(MapHistory(h, e => Reconcile(e, alive, now)), now)
  }

  /** The ledger and the history agree which leases are open. */
  lemma OpenAgrees(es: seq<Entry>, h: History, time: int, window: int, lease: string)
    requires Agree(es, h, time, window)
    ensures var i := FindActive(es, lease); (i >= 0 <==> Running(h, lease)) && (i >= 0 ==> h[lease] == es[i])
  {
    if Running(h, lease) { assert Has(es, lease); }
  }

  /** A lease the ledger dropped is adopted as a new one. */
  lemma AdoptDropped(es: seq<Entry>, h: History, time: int, window: int, lease: string, startedAt: int,
                     reservation: int)
    requires Agree(es, h, time, window) && !Has(es, lease)
    ensures AfterAdopt(h, lease, startedAt, reservation) == h[lease := NewEntry(lease, startedAt, reservation, true)]
  {
  }

  /** A change that leaves completed charges alone, made to both. */
  lemma AgreeEach(es: seq<Entry>, h: History, time: int, window: int, f: Entry -> Entry)
    requires Agree(es, h, time, window) && (forall e: Entry :: f(e).lease == e.lease)
    requires forall e: Entry :: !e.active ==> f(e) == e
    ensures Agree(Map(es, f), MapHistory(h, f), time, window)
  {
    var es', h' := Map(es, f), MapHistory(h, f);
    forall i | 0 <= i < |es'| ensures es'[i].lease in h' && h'[es'[i].lease] == es'[i] {
      assert es[i].lease in h;
    }
    forall l | Has(es, l) ensures Has(es', l) {
      var i :| 0 <= i < |es| && es[i].lease == l;
      assert es'[i].lease == l;
    }
  }

  /** Dropping what has left the window. */
  lemma AgreeKeep(es: seq<Entry>, h: History, time: int, now: int, window: int)
    requires Agree(es, h, time, window) && time <= now
    ensures Agree(Keep(es, now, window), h, now, window)
  {
    var kept := Keep(es, now, window);
    KeepDistinct(es, now, window);
    forall i | 0 <= i < |kept| ensures kept[i].lease in h && h[kept[i].lease] == kept[i] {
      KeepIn(es, now, window, kept[i]);
      var j :| 0 <= j < |es| && es[j] == kept[i];
    }
    forall l | l in h && !Has(kept, l) ensures Gone(h[l], now, window) {
      KeptLease(es, now, window, l);
      if Has(es, l) {
        var i :| 0 <= i < |es| && es[i].lease == l;
        assert h[l] == es[i];
      }
    }
  }

  lemma AgreePrune(es: seq<Entry>, h: History, time: int, now: int, window: int)
    requires Agree(es, h, time, window) && time <= now
    ensures Agree(Pruned(es, now, window), MapHistory(h, e => Expire(e, now)), now, window)
  {
    AgreeEach(es, h, time, window, e => Expire(e, now));
    AgreeKeep(Expired(es, now), MapHistory(h, e => Expire(e, now)), time, now, window);
  }

  lemma AgreeAt(es: seq<Entry>, h: History, time: int, window: int, i: nat, e: Entry)
    requires Agree(es, h, time, window) && i < |es| && e.lease == es[i].lease
    ensures Agree(es[i := e], h[e.lease := e], time, window)
  {
    var es' := es[i := e];
    assert es'[i].lease == e.lease;
    forall l | Has(es, l) ensures Has(es', l) {
      var j :| 0 <= j < |es| && es[j].lease == l;
      assert es'[j].lease == l;
    }
  }

  lemma AgreeAppend(es: seq<Entry>, h: History, time: int, window: int, e: Entry)
    requires Agree(es, h, time, window) && !Has(es, e.lease)
    ensures Agree(es + [e], h[e.lease := e], time, window)
  {
    var es' := es + [e];
    forall i | 0 <= i < |es| ensures es[i].lease != e.lease {}
    assert es'[|es|].lease == e.lease;
    forall l | Has(es, l) ensures Has(es', l) {
      var j :| 0 <= j < |es| && es[j].lease == l;
      assert es'[j].lease == l;
    }
  }

  lemma AgreeDelete(es: seq<Entry>, h: History, time: int, window: int, i: nat)
    requires Agree(es, h, time, window) && i < |es|
    ensures Agree(es[..i] + es[i + 1..], h - {es[i].lease}, time, window)
  {
    var es', h' := es[..i] + es[i + 1..], h - {es[i].lease};
    forall k | 0 <= k < |es'| ensures es'[k].lease in h' && h'[es'[k].lease] == es'[k] {
      assert es'[k] == es[if k < i then k else k + 1];
    }
    forall l | Has(es, l) && l != es[i].lease ensures Has(es', l) {
      var j :| 0 <= j < |es| && es[j].lease == l;
      assert es'[if j < i then j else j - 1] == es[j];
    }
  }

  /** At any later time, what the pruned ledger counts is the full history's
      running reservations and charges inside the window. */
  lemma PrunedIsRecent(es: seq<Entry>, h: History, time: int, now: int, window: int)
    requires Agree(es, h, time, window) && time <= now
    ensures Used(Pruned(es, now, window)) == Total(Recent(h, now, window))
  {
    var pruned := Pruned(es, now, window);
    var h' := MapHistory(h, e => Expire(e, now));
    AgreePrune(es, h, time, now, window);
    UsedIsTotal(pruned);
    forall l
      ensures (l in AsMap(pruned) <==> l in Recent(h, now, window))
      ensures (l in AsMap(pruned) ==> AsMap(pruned)[l] == Recent(h, now, window)[l])
    {
      AsMapFacts(pruned, l);
      if Has(pruned, l) {
        var i :| 0 <= i < |pruned| && pruned[i].lease == l;
        KeepIn(Expired(es, now), now, window, pruned[i]);
        assert pruned[i] == h'[l];
      }
    }
    assert AsMap(pruned) == Recent(h, now, window);
  }

  /** What was dropped stays outside the window. */
  lemma AgreeLater(es: seq<Entry>, h: History, time: int, now: int, window: int)
    requires Agree(es, h, time, window) && time <= now
    ensures Agree(es, h, now, window)
  {
  }

  // ---- ledgers that reload ----

  /** What loading demands of one entry under a maximum lifetime. */
  predicate EntryValid(e: Entry, reservation: int) {
    && e.lease != "" && e.startedAt != 0 && e.chargedAt != 0
    && 1 <= e.seconds <= LONGEST_RESERVATION
    && (e.active ==> e.seconds >= reservation)
    && (!e.active ==> e.chargedAt >= e.startedAt)
  }

  predicate Reloads(es: seq<Entry>, reservation: int) {
    Distinct(es) && forall i :: 0 <= i < |es| ==> EntryValid(es[i], reservation)
  }

  /** No start and no completed charge lies after the clock. */
  predicate Timely(e: Entry, clock: int) {
    0 < e.startedAt <= clock && 0 < e.chargedAt && (!e.active ==> e.chargedAt <= clock)
  }

  predicate Sound(es: seq<Entry>, reservation: int, clock: int) {
    Reloads(es, reservation) && forall i :: 0 <= i < |es| ==> Timely(es[i], clock)
  }

  predicate SoundEntry(e: Entry, reservation: int, clock: int) {
    EntryValid(e, reservation) && Timely(e, clock)
  }

  lemma ExpireSound(e: Entry, reservation: int, clock: int, now: int)
    requires SoundEntry(e, reservation, clock) && clock <= now
    ensures SoundEntry(Expire(e, now), reservation, now)
  {
  }

  lemma SettleSound(e: Entry, stoppedAt: int, reservation: int, clock: int, now: int)
    requires SoundEntry(e, reservation, clock) && e.active && clock <= now
    ensures SoundEntry(Settle(e, stoppedAt, now), reservation, now) && SoundEntry(Forfeit(e, now), reservation, now)
  {
  }

  /** Whether a settled or forfeited entry reloads depends on one thing: its
      start must not lie after the clock. */
  lemma SettleReloads(e: Entry, stoppedAt: int, reservation: int, now: int)
    requires EntryValid(e, reservation) && e.active && now > 0
    ensures EntryValid(Settle(e, stoppedAt, now), reservation) <==> e.startedAt <= now
    ensures EntryValid(Forfeit(e, now), reservation) <==> e.startedAt <= now
  {
  }

  lemma ReconcileSound(e: Entry, alive: set<string>, reservation: int, clock: int, now: int)
    requires SoundEntry(e, reservation, clock) && clock <= now
    ensures SoundEntry(Reconcile(e, alive, now), reservation, now)
  {
  }

  lemma AdoptSound(e: Entry, startedAt: int, reservation: int, clock: int, now: int)
    requires SoundEntry(e, Seconds(reservation), clock) && clock <= now && 0 < startedAt <= now
    requires 0 < Seconds(reservation) <= LONGEST_RESERVATION
    ensures SoundEntry(Adopt(e, startedAt, reservation), Seconds(reservation), now)
  {
  }

  lemma PruneSound(es: seq<Entry>, reservation: int, clock: int, now: int, window: int)
    requires Sound(es, reservation, clock) && clock <= now
    ensures Sound(Pruned(es, now, window), reservation, now)
  {
    var expired := Expired(es, now);
    var pruned := Keep(expired, now, window);
    forall i | 0 <= i < |es| ensures SoundEntry(expired[i], reservation, now) {
      ExpireSound(es[i], reservation, clock, now);
    }
    KeepDistinct(expired, now, window);
    forall i | 0 <= i < |pruned| ensures SoundEntry(pruned[i], reservation, now) {
      KeepIn(expired, now, window, pruned[i]);
      var j :| 0 <= j < |expired| && expired[j] == pruned[i];
    }
  }

  /** A ledger that reloads still does under a lower maximum lifetime. */
  lemma ReloadsLower(es: seq<Entry>, reservation: int, lower: int)
    requires Reloads(es, reservation) && lower <= reservation
    ensures Reloads(es, lower)
  {
  }

  /** Adding up the charges cannot overflow below a hundred trillion entries. */
  lemma {:induction false} UsedBound(es: seq<Entry>, reservation: int)
    requires forall i :: 0 <= i < |es| ==> EntryValid(es[i], reservation)
    ensures |es| <= Used(es) <= |es| * LONGEST_RESERVATION
    ensures |es| <= 100_000_000_000_000 ==> Used(es) <= MAX_INT64
  {
    if es != [] { UsedBound(es[..|es| - 1], reservation); }
  }

  // ---- when a refused request can be tried again ----

  /** next is the time the first completed charge leaves the window, or one
      window away when none is completed. */
  predicate FirstToLeave(es: seq<Entry>, now: int, window: int, next: int) {
    if exists i :: 0 <= i < |es| && !es[i].active then
      && (exists i :: 0 <= i < |es| && !es[i].active && es[i].chargedAt + window == next)
      && forall i :: 0 <= i < |es| && !es[i].active ==> next <= es[i].chargedAt + window
    else next == now + window
  }

  /** Until then nothing leaves the window, so the refusal stands. */
  lemma NothingLeaves(es: seq<Entry>, now: int, window: int, next: int, later: int)
    requires FirstToLeave(es, now, window, next) && now <= later <= next && window >= 0
    requires forall i :: 0 <= i < |es| ==> if es[i].active then now < Deadline(es[i]) else es[i].chargedAt <= now
    ensures Used(Pruned(es, later, window)) == Used(es)
  {
    forall i | 0 <= i < |es|
      ensures !Gone(Expire(es[i], later), later, window) && Expire(es[i], later).seconds == es[i].seconds
    {
    }
    NoneGone(Expired(es, later), later, window);
    SameUsed(es, Expired(es, later));
  }

  lemma {:induction false} NoneGone(es: seq<Entry>, now: int, window: int)
    requires forall i :: 0 <= i < |es| ==> !Gone(es[i], now, window)
    ensures Keep(es, now, window) == es
  {
    if es != [] { NoneGone(es[..|es| - 1], now, window); }
  }

  lemma {:induction false} SameUsed(a: seq<Entry>, b: seq<Entry>)
    requires |a| == |b| && forall i :: 0 <= i < |a| ==> a[i].seconds == b[i].seconds
    ensures Used(a) == Used(b)
  {
    if a != [] { SameUsed(a[..|a| - 1], b[..|b| - 1]); }
  }
}
