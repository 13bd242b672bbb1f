/**
 Metering hosts: each accrual adds the time since the previous one at the state
 the previous one recorded. Slot time is kept in slot-nanoseconds, exactly.
 */
module Meters {
  /** Measured time: running is billed, ready took jobs; busy and readyBusy are
      the slot time that held runners; slot and readySlot what was offered. */
  datatype Usage = Usage(running: int, ready: int, busy: int, readyBusy: int, slot: int, readySlot: int) {
    function Add(other: Usage): Usage {
      Usage(running + other.running, ready + other.ready, busy + other.busy, readyBusy + other.readyBusy,
            slot + other.slot, readySlot + other.readySlot)
    }
  }

  const NOTHING: Usage := Usage(0, 0, 0, 0, 0, 0)

  /** A host as it is: billed or not, its phase, its occupied and reserved
      slots, and its slots, zero before the first probe. */
  datatype Live = Live(running: bool, inService: bool, held: nat, slots: nat)

  /** at is zero before the first accrual. */
  datatype Meter = Meter(at: int, running: bool, ready: bool, busy: int, used: Usage)

  datatype Host = Host(live: Live, meter: Meter)

  function SlotsOf(live: Live, slotsSeen: nat): nat {
    if live.slots > 0 then live.slots else slotsSeen
  }

  function Ready(live: Live): bool {
    live.running && live.inService
  }

  /** Slots counted busy: none while the host is not billed, and never more
      than it has. */
  function Busy(live: Live, slotsSeen: nat): (r: nat)
    ensures r <= live.held && (live.slots > 0 ==> r <= live.slots) && (r > 0 ==> live.running)
    ensures live.running && r < live.held ==> r == if live.slots > 0 then live.slots else slotsSeen
    ensures live.running && live.slots == 0 < slotsSeen ==> r <= slotsSeen
  {
    if !live.running then 0
    else if 0 < SlotsOf(live, slotsSeen) < live.held then SlotsOf(live, slotsSeen) else live.held
  }

  function Accrued(h: Host, now: int, slotsSeen: nat): Host {
    var m := h.meter;
    var elapsed := if m.at != 0 && now > m.at then now - m.at else 0;
    var used := m.used.(running := m.used.running + (if m.running then elapsed else 0),
                        busy := m.used.busy + (if m.running then m.busy * elapsed else 0),
                        ready := m.used.ready + (if m.ready then elapsed else 0),
                        readyBusy := m.used.readyBusy + (if m.ready then m.busy * elapsed else 0));
    h.(meter := Meter(if now > m.at then now else m.at, h.live.running, Ready(h.live), Busy(h.live, slotsSeen), used))
  }

  function UsageOf(h: Host, slotsSeen: nat): Usage {
    var slots := SlotsOf(h.live, slotsSeen);
    h.meter.used.(slot := slots * h.meter.used.running, readySlot := slots * h.meter.used.ready)
  }

  // ---- one host over time ----

  /** From at on the host is live, and the pool takes a host it has not probed
      to have seen slots; an accrual follows at that instant. A moment that
      repeats the state is an accrual without a change. */
  datatype Moment = Moment(at: int, live: Live, seen: nat)

  const NEW_METER: Meter := Meter(0, false, false, 0, NOTHING)

  function After(trace: seq<Moment>): Host {
    if trace == [] then Host(Live(false, false, 0, 0), NEW_METER)
    else
      var last := trace[|trace| - 1];
      Accrued(After(trace[..|trace| - 1]).(live := last.live), last.at, last.seen)
  }

  /** A clock that does not go back, and never shows zero. */
  predicate Timed(trace: seq<Moment>) {
    && (forall i :: 0 <= i < |trace| ==> trace[i].at > 0)
    && forall i :: 0 <= i < |trace| - 1 ==> trace[i].at <= trace[i + 1].at
  }

  /** The integral of the host's state from its first moment to its last. */
  function Integral(trace: seq<Moment>): Usage {
    if |trace| < 2 then NOTHING
    else
      var before, last := trace[|trace| - 2], trace[|trace| - 1];
      Integral(trace[..|trace| - 1]).Add(Over(before, last.at - before.at))
  }

  /** What a state lasting for a time uses. */
  function Over(moment: Moment, time: int): Usage {
    Spent(moment.live.running, moment.live.running && moment.live.inService, Busy(moment.live, moment.seen), time)
  }

  function Spent(running: bool, ready: bool, busy: nat, time: int): Usage {
    Usage(if running then time else 0, if ready then time else 0, busy * time, if ready then busy * time else 0, 0, 0)
  }

  /** Whatever happens to a host, if each change is followed by an accrual, its
      meter is the integral of its state. */
  lemma {:induction false} MeterIsIntegral(trace: seq<Moment>)
    requires Timed(trace) && trace != []
    ensures var h := After(trace);
            var last := trace[|trace| - 1];
            && h.meter.used == Integral(trace) && h.live == last.live
            && h.meter == Meter(last.at, last.live.running, Ready(last.live), Busy(last.live, last.seen), h.meter.used)
    decreases |trace|
  {
    if |trace| > 1 {
      var front := trace[..|trace| - 1];
      MeterIsIntegral(front);
      assert trace[|trace| - 2] == front[|front| - 1];
      Charged(After(front), trace[|trace| - 2], trace[|trace| - 1]);
    }
  }

  lemma Charged(h: Host, before: Moment, last: Moment)
    requires 0 < before.at <= last.at
    requires h.meter == Meter(before.at, before.live.running, Ready(before.live), Busy(before.live, before.seen), h.meter.used)
    ensures Accrued(h.(live := last.live), last.at, last.seen).meter.used == h.meter.used.Add(Over(before, last.at - before.at))
  {
    assert Busy(before.live, before.seen) * 0 == 0;
  }

  /** An accrual in between, with nothing changed, changes nothing. */
  lemma {:induction false} ExtraAccrual(trace: seq<Moment>, i: nat, at: int)
    requires 0 < i < |trace| && trace[i - 1].at <= at <= trace[i].at
    ensures Integral(trace[..i] + [trace[i - 1].(at := at)] + trace[i..]) == Integral(trace)
    decreases |trace| - i
  {
    hide Integral, Over;
    var extra := trace[i - 1].(at := at);
    var longer := trace[..i] + [extra] + trace[i..];
    var front, last := trace[..|trace| - 1], trace[|trace| - 1];
    assert trace == front + [last];
    IntegralStep(front, last);
    if i == |trace| - 1 {
      assert longer == (front + [extra]) + [last];
      IntegralStep(front, extra);
      IntegralStep(front + [extra], last);
      TimeSplits(trace[i - 1], extra, at - trace[i - 1].at, last.at - at);
      AddAssociates(Integral(front), Over(trace[i - 1], at - trace[i - 1].at), Over(extra, last.at - at));
    } else {
      var shorter := front[..i] + [extra] + front[i..];
      assert longer == shorter + [last] && shorter[|shorter| - 1] == front[|front| - 1];
      IntegralStep(shorter, last);
      ExtraAccrual(front, i, at);
    }
  }

  lemma TimeSplits(moment: Moment, later: Moment, a: int, b: int)
    requires later.live == moment.live && later.seen == moment.seen
    ensures Over(moment, a).Add(Over(later, b)) == Over(moment, a + b)
  {
    hide Busy, Spent;
    SpentSplits(moment.live.running, Ready(moment.live), Busy(moment.live, moment.seen), a, b);
  }

  lemma SpentSplits(running: bool, ready: bool, busy: nat, a: int, b: int)
    ensures Spent(running, ready, busy, a).Add(Spent(running, ready, busy, b)) == Spent(running, ready, busy, a + b)
  {
    Distributes(busy, a, b);
  }

  lemma Distributes(n: int, a: int, b: int)
    ensures n * (a + b) == n * a + n * b
  {
  }

  lemma IntegralStep(front: seq<Moment>, last: Moment)
    requires front != []
    ensures var before := front[|front| - 1];
            Integral(front + [last]) == Integral(front).Add(Over(before, last.at - before.at))
  {
    hide Over;
    assert (front + [last])[..|front|] == front;
  }

  lemma AddAssociates(a: Usage, b: Usage, c: Usage)
    ensures a.Add(b).Add(c) == a.Add(b.Add(c))
  {
  }

  /** Ready time is part of running time, and its busy time of all busy time. */
  lemma {:induction false} ReadyWithinRunning(trace: seq<Moment>)
    requires Timed(trace)
    ensures var u := Integral(trace); 0 <= u.ready <= u.running && 0 <= u.readyBusy <= u.busy
    decreases |trace|
  {
    if |trace| > 1 {
      var front := trace[..|trace| - 1];
      ReadyWithinRunning(front);
      var before, last := trace[|trace| - 2], trace[|trace| - 1];
      assert before.at <= last.at;
      NotNegative(Busy(before.live, before.seen), last.at - before.at);
    }
  }

  lemma NotNegative(a: nat, b: nat)
    ensures a * b >= 0
  {
  }

  // ---- the slot time offered ----

  /** What slots of a host that ran and was ready at these times offered. */
  function Offered(trace: seq<Moment>, slots: nat): (int, int) {
    if |trace| < 2 then (0, 0)
    else
      var before, time := trace[|trace| - 2].live, trace[|trace| - 1].at - trace[|trace| - 2].at;
      var rest := Offered(trace[..|trace| - 1], slots);
      (rest.0 + (if before.running then slots * time else 0),
       rest.1 + (if before.running && before.inService then slots * time else 0))
  }

  lemma {:induction false} OfferedIs(trace: seq<Moment>, slots: nat)
    ensures Offered(trace, slots) == (slots * Integral(trace).running, slots * Integral(trace).ready)
    decreases |trace|
  {
    if |trace| > 1 {
      var front, time := trace[..|trace| - 1], trace[|trace| - 1].at - trace[|trace| - 2].at;
      OfferedIs(front, slots);
      Distributes(slots, Integral(front).running, time);
      Distributes(slots, Integral(front).ready, time);
    }
  }

  /** The slot time a host is said to have offered is that of the slots it has
      now, or the most any host of the pool has if it was never probed, over
      all the time it ran or was ready. */
  lemma OfferedSoFar(trace: seq<Moment>, slotsSeen: nat)
    requires Timed(trace) && trace != []
    ensures var h := After(trace);
            var slots := if h.live.slots > 0 then h.live.slots else slotsSeen;
            (UsageOf(h, slotsSeen).slot, UsageOf(h, slotsSeen).readySlot) == Offered(trace, slots)
  {
    MeterIsIntegral(trace);
    OfferedIs(trace, if After(trace).live.slots > 0 then After(trace).live.slots else slotsSeen);
  }

  /** What the slots known at each moment offered until the next. */
  function OfferedThen(trace: seq<Moment>): int {
    if |trace| < 2 then 0
    else
      var before, time := trace[|trace| - 2], trace[|trace| - 1].at - trace[|trace| - 2].at;
      OfferedThen(trace[..|trace| - 1]) +
      if before.live.running then (if before.live.slots > 0 then before.live.slots else before.seen) * time else 0
  }

  /** Busy time never exceeds the slots of the running time, as long as their
      number is known. */
  lemma {:induction false} BusyWithinSlots(trace: seq<Moment>)
    requires Timed(trace)
    requires forall i :: 0 <= i < |trace| && trace[i].live.running ==> trace[i].live.slots > 0 || trace[i].seen > 0
    ensures Integral(trace).busy <= OfferedThen(trace)
    decreases |trace|
  {
    if |trace| > 1 {
      var front, before := trace[..|trace| - 1], trace[|trace| - 2];
      BusyWithinSlots(front);
      assert before.at <= trace[|trace| - 1].at;
      var busy, slots := Busy(before.live, before.seen), if before.live.slots > 0 then before.live.slots else before.seen;
      if before.live.running { AtMost(busy, slots, trace[|trace| - 1].at - before.at); }
    }
  }

  /** At no moment but the last were more slots counted busy than that. */
  predicate Within(trace: seq<Moment>, slots: nat) {
    forall i :: 0 <= i < |trace| - 1 ==> Busy(trace[i].live, trace[i].seen) <= slots
  }

  lemma {:induction false} BusyWithin(trace: seq<Moment>, slots: nat)
    requires Timed(trace) && Within(trace, slots)
    ensures Integral(trace).busy <= Offered(trace, slots).0 && Integral(trace).readyBusy <= Offered(trace, slots).1
    decreases |trace|
  {
    if |trace| > 1 {
      var front, before := trace[..|trace| - 1], trace[|trace| - 2];
      BusyWithin(front, slots);
      assert before.at <= trace[|trace| - 1].at;
      AtMost(Busy(before.live, before.seen), slots, trace[|trace| - 1].at - before.at);
    }
  }

  lemma AtMost(a: int, b: int, time: nat)
    requires a <= b
    ensures a * time <= b * time
  {
  }

  /** No more slot time is busy than offered, if a host never had more busy
      slots than it has slots now. */
  lemma BusyWithinOffered(trace: seq<Moment>, slotsSeen: nat)
    requires Timed(trace) && trace != [] && Within(trace, SlotsOf(After(trace).live, slotsSeen))
    ensures var u := UsageOf(After(trace), slotsSeen); 0 <= u.busy <= u.slot && 0 <= u.readyBusy <= u.readySlot
  {
    MeterIsIntegral(trace);
    OfferedSoFar(trace, slotsSeen);
    ReadyWithinRunning(trace);
    BusyWithin(trace, SlotsOf(After(trace).live, slotsSeen));
  }

  /** And only then, for a host that was in one state from its first moment to
      now: one never probed in a pool that knows no slots, or one with fewer
      slots now, is busier than it offered. */
  lemma BusyBeyond(first: Moment, last: Moment, slotsSeen: nat)
    requires 0 < first.at < last.at
    ensures var u := UsageOf(After([first, last]), slotsSeen);
            u.busy <= u.slot <==> Within([first, last], SlotsOf(last.live, slotsSeen))
  {
    hide After, Integral, Offered, Busy;
    var trace, slots := [first, last], SlotsOf(last.live, slotsSeen);
    MeterIsIntegral(trace);
    OfferedSoFar(trace, slotsSeen);
    OneState(first, last, slots);
    Compares(Busy(first.live, first.seen), slots, last.at - first.at);
    assert Within(trace, slots) <==> Busy(trace[0].live, trace[0].seen) <= slots;
  }

  lemma OneState(first: Moment, last: Moment, slots: nat)
    ensures Integral([first, last]).busy == Busy(first.live, first.seen) * (last.at - first.at)
    ensures Offered([first, last], slots).0 == if first.live.running then slots * (last.at - first.at) else 0
  {
    hide Busy;
    assert [first, last][..1] == [first];
  }

  lemma Compares(a: nat, b: nat, time: int)
    requires time > 0
    ensures a * time <= b * time <==> a <= b
  {
    if a <= b { AtMost(a, b, time); } else { AtMost(b + 1, a, time); }
  }

  // ---- the whole pool ----

  ghost function Total(hosts: map<string, Host>, slotsSeen: nat): Usage
    decreases |hosts|
  {
    if hosts == map[] then NOTHING
    else
      var id :| id in hosts;
      UsageOf(hosts[id], slotsSeen).Add(Total(hosts - {id}, slotsSeen))
  }

  lemma {:induction false} TotalSplit(hosts: map<string, Host>, id: string, slotsSeen: nat)
    requires id in hosts
    ensures Total(hosts, slotsSeen) == UsageOf(hosts[id], slotsSeen).Add(Total(hosts - {id}, slotsSeen))
    decreases |hosts|
  {
    var k :| k in hosts && Total(hosts, slotsSeen) == UsageOf(hosts[k], slotsSeen).Add(Total(hosts - {k}, slotsSeen));
    if k != id {
      TotalSplit(hosts - {k}, id, slotsSeen);
      TotalSplit(hosts - {id}, k, slotsSeen);
      assert hosts - {k} - {id} == hosts - {id} - {k};
      AddSwaps(UsageOf(hosts[k], slotsSeen), UsageOf(hosts[id], slotsSeen), Total(hosts - {k} - {id}, slotsSeen));
    }
  }

  lemma AddSwaps(a: Usage, b: Usage, c: Usage)
    ensures a.Add(b.Add(c)) == b.Add(a.Add(c))
  {
  }

  class PoolMeter {
    var hosts: map<string, Host>
    var retired: Usage
    var slotsSeen: nat

    /** What the pool's hosts, past and present, used together. */
    ghost function Used(): Usage
      reads this
    {
      retired.Add(Total(hosts, slotsSeen))
    }

    constructor ()
      ensures hosts == map[] && retired == NOTHING && slotsSeen == 0
    {
      hosts, retired, slotsSeen := map[], NOTHING, 0;
    }

    /** Brings every host's meter to now. */
    method Accrue(now: int)
      modifies `hosts
      ensures hosts == map id | id in old(hosts) :: Accrued(old(hosts)[id], now, slotsSeen)
    {
      var left, done: map<string, Host> := hosts.Keys, map[];
      while left != {}
        invariant left <= hosts.Keys && hosts == old(hosts) && done.Keys == hosts.Keys - left
        invariant forall id :: id in done ==> done[id] == Accrued(hosts[id], now, slotsSeen)
        decreases |left|
      {
        var id :| id in left;
        done := done[id := Accrued(hosts[id], now, slotsSeen)];
        left := left - {id};
      }
      hosts := done;
    }

    /** Removes a host and keeps what it used. */
    method Forget(id: string, now: int)
      modifies this
      ensures id !in hosts && slotsSeen == old(slotsSeen)
      ensures var accrued := map h | h in old(hosts) :: Accrued(old(hosts)[h], now, slotsSeen);
              if id in old(hosts) then hosts == accrued - {id} && Used() == old(retired).Add(Total(accrued, slotsSeen))
              else hosts == old(hosts) && Used() == old(Used())
    {
      if id !in hosts { return; }
      Accrue(now);
      TotalSplit(hosts, id, slotsSeen);
      AddAssociates(retired, UsageOf(hosts[id], slotsSeen), Total(hosts - {id}, slotsSeen));
      retired := retired.Add(UsageOf(hosts[id], slotsSeen));
      hosts := hosts - {id};
    }
  }
}
