/**
 The launch gate and the desired-count handler: after a provider refused a
 launch, the fleet size it proved is a ceiling, and going above it is tried
 again only after a wait.
 */
module Gates {
  import opened Options
  import opened Basics

  const MINUTE: int := 60 * SECOND
  const INITIAL_BACKOFF: int := MINUTE
  const MINIMUM_RETRY: int := 5 * SECOND
  const MAXIMUM_BACKOFF: int := 15 * MINUTE

  datatype Kind = Capacity | Rejection

  /** A refused launch; a hint above zero is when the provider expects room. */
  datatype Refusal = Refusal(kind: Kind, hint: int)

  /** closed: some launch was refused and no probe has succeeded since. */
  datatype Gate = Gate(closed: bool, kind: Kind, effective: int, retryAt: int, backoff: int)

  const OPEN: Gate := Gate(false, Capacity, 0, 0, 0)

  predicate Hinted(refusal: Refusal) {
    refusal.kind.Capacity? && refusal.hint > 0
  }

  /** The backoff that follows, unless the refusal came with a hint. */
  function Doubled(backoff: int): int {
    if backoff == 0 then INITIAL_BACKOFF else Min(backoff * 2, MAXIMUM_BACKOFF)
  }

  /** The gate after a refusal that left count workers. */
  function Refused(g: Gate, refusal: Refusal, count: int, now: int): Gate {
    var backoff := if Hinted(refusal) then g.backoff else Doubled(g.backoff);
    var wait := if Hinted(refusal) then Min(Max(refusal.hint, MINIMUM_RETRY), MAXIMUM_BACKOFF) else backoff;
    Gate(true, refusal.kind, count, now + wait, backoff)
  }

  /** What the gate says to n more launches when current workers run: an open
      one lets all out, a closed one those that stay within the ceiling, and a
      single one above it once the wait is over. */
  predicate Permits(g: Gate, current: int, now: int, n: int) {
    n <= 0 || !g.closed || current + n <= g.effective || (n == 1 && current >= g.effective && now >= g.retryAt)
  }

  /** A launch that is to be made goes above the ceiling of a closed gate. */
  predicate Above(g: Gate, current: int, now: int) {
    g.closed && current >= g.effective && now >= g.retryAt
  }

  /** How many launches may go out, and whether they probe above the ceiling:
      as many of those asked for as the gate permits. */
  function Allowance(g: Gate, current: int, target: int, now: int): (r: (int, bool))
    ensures 0 <= r.0 <= Max(0, target - current) && Permits(g, current, now, r.0)
    ensures forall n :: n <= Max(0, target - current) && Permits(g, current, now, n) ==> n <= r.0
    ensures r.1 <==> target > current && Above(g, current, now)
  {
    var requested := Max(0, target - current);
    if requested == 0 || !g.closed then (requested, false)
    else if current < g.effective then (Min(requested, g.effective - current), false)
    else if now < g.retryAt then (0, false)
    else (Min(1, requested), true)
  }

  // ---- rounds of launches ----

  /** One round: from fleet workers toward target, started more, and perhaps a
      refusal among its attempts. */
  datatype Round = Round(now: int, fleet: int, target: int, started: nat, refusal: Option<Refusal>)

  /** No more is attempted than allowed, and a refused attempt starts nothing. */
  predicate Allowed(g: Gate, r: Round) {
    var (needed, _) := Allowance(g, r.fleet, r.target, r.now);
    r.started <= needed && (r.refusal.Some? ==> r.started < needed)
  }

  predicate Probes(g: Gate, r: Round) {
    Allowance(g, r.fleet, r.target, r.now).1
  }

  function After(g: Gate, r: Round): Gate {
    var refused := if r.refusal.Some? then Refused(g, r.refusal.value, r.fleet + r.started, r.now) else g;
    if Probes(g, r) && r.started > 0 then OPEN else refused
  }

  function AfterAll(g: Gate, rounds: seq<Round>): Gate {
    if rounds == [] then g else After(AfterAll(g, rounds[..|rounds| - 1]), rounds[|rounds| - 1])
  }

  function Refusals(rounds: seq<Round>): nat {
    if rounds == [] then 0 else Refusals(rounds[..|rounds| - 1]) + if rounds[|rounds| - 1].refusal.Some? then 1 else 0
  }

  ghost predicate AllAllowed(g: Gate, rounds: seq<Round>) {
    forall i :: 0 <= i < |rounds| ==> Allowed(AfterAll(g, rounds[..i]), rounds[i]) && rounds[i].fleet >= 0
  }

  ghost predicate NoProbe(g: Gate, rounds: seq<Round>) {
    forall i :: 0 <= i < |rounds| ==> !Probes(AfterAll(g, rounds[..i]), rounds[i])
  }

  /** With the gate closed, a round that does not probe and is refused leaves a
      strictly lower ceiling. */
  lemma RefusalLowersCeiling(g: Gate, r: Round)
    requires g.closed && Allowed(g, r) && !Probes(g, r) && r.refusal.Some?
    ensures After(g, r).closed && After(g, r).effective < g.effective
  {
  }

  /** So without a probe at most as many rounds are refused as the ceiling
      was high. */
  lemma {:induction false} RefusalsBounded(g: Gate, rounds: seq<Round>)
    requires g.closed && g.effective >= 0 && AllAllowed(g, rounds) && NoProbe(g, rounds)
    ensures AfterAll(g, rounds).closed && 0 <= AfterAll(g, rounds).effective
    ensures Refusals(rounds) + AfterAll(g, rounds).effective <= g.effective
    decreases |rounds|
  {
    if rounds != [] {
      var front, last := rounds[..|rounds| - 1], rounds[|rounds| - 1];
      forall i | 0 <= i < |front|
        ensures Allowed(AfterAll(g, front[..i]), front[i]) && !Probes(AfterAll(g, front[..i]), front[i])
        ensures front[i].fleet >= 0
      {
        assert front[..i] == rounds[..i];
      }
      RefusalsBounded(g, front);
      var before := AfterAll(g, front);
      assert Allowed(before, last) && !Probes(before, last) && last.fleet >= 0;
      if last.refusal.Some? { RefusalLowersCeiling(before, last); }
    }
  }

  /** At most one launch goes out as a probe, and its success opens the gate;
      nothing else but a refusal changes it. */
  lemma ProbeOpens(g: Gate, r: Round)
    requires Allowed(g, r)
    ensures Probes(g, r) ==> r.started <= 1 && (r.started == 1 ==> After(g, r) == OPEN && r.refusal.None?)
    ensures r.refusal.None? && !(Probes(g, r) && r.started == 1) ==> After(g, r) == g
  {
  }

  /** The wait is what the hint says, or the bound the hint is beyond. */
  predicate Nearest(wait: int, hint: int) {
    && MINIMUM_RETRY <= wait <= MAXIMUM_BACKOFF
    && (wait == hint || hint < wait == MINIMUM_RETRY || hint > wait == MAXIMUM_BACKOFF)
  }

  /** A refusal closes the gate at the workers there are. A hint of room sets
      the time and leaves the backoff as it was; without one the time is the
      backoff's, which grows. */
  lemma RefusedMeans(g: Gate, refusal: Refusal, count: int, now: int)
    ensures var after := Refused(g, refusal, count, now);
            && after.closed && after.kind == refusal.kind && after.effective == count
            && if refusal.kind.Capacity? && refusal.hint > 0 then
              after.backoff == g.backoff && Nearest(after.retryAt - now, refusal.hint)
            else after.retryAt == now + after.backoff && (0 < g.backoff < MAXIMUM_BACKOFF ==> after.backoff > g.backoff)
  {
  }

  // ---- the waits ----

  /** The wait after the k-th refusal without a hint. */
  function Backoff(k: nat): int {
    if k == 0 then 0 else Min(Pow2(k - 1) * MINUTE, MAXIMUM_BACKOFF)
  }

  /** A round whose probe finds room opens the gate. */
  predicate Opens(rounds: seq<Round>)
    requires rounds != []
  {
    var last := rounds[|rounds| - 1];
    Probes(AfterAll(OPEN, rounds[..|rounds| - 1]), last) && last.started > 0
  }

  predicate RefusedUnhinted(r: Round) {
    r.refusal.Some? && !Hinted(r.refusal.value)
  }

  /** How many rounds were refused without a hint since the gate last opened. */
  function Unhinted(rounds: seq<Round>): nat {
    if rounds == [] || Opens(rounds) then 0
    else Unhinted(rounds[..|rounds| - 1]) + if RefusedUnhinted(rounds[|rounds| - 1]) then 1 else 0
  }

  lemma BackoffStep(k: nat)
    ensures Doubled(Backoff(k)) == Backoff(k + 1) && (k > 0 ==> Backoff(k) >= MINUTE)
  {
    Pow2Positive(k);
    if k > 0 { Pow2Positive(k - 1); }
  }

  lemma {:induction false} Pow2Positive(k: nat)
    ensures Pow2(k) >= 1
  {
    if k > 0 { Pow2Positive(k - 1); }
  }

  /** In every sequence of rounds, those refused without a hint since the gate
      last opened wait one, two, four, eight and then fifteen minutes, however
      many hinted ones and rounds without a refusal come between. */
  lemma {:induction false} BackoffDoubles(rounds: seq<Round>)
    ensures AfterAll(OPEN, rounds).backoff == Backoff(Unhinted(rounds))
    ensures rounds != [] && !Opens(rounds) && RefusedUnhinted(rounds[|rounds| - 1]) ==>
              && AfterAll(OPEN, rounds).closed
              && AfterAll(OPEN, rounds).retryAt == rounds[|rounds| - 1].now + Backoff(Unhinted(rounds))
    decreases |rounds|
  {
    if rounds != [] {
      BackoffDoubles(rounds[..|rounds| - 1]);
      BackoffStep(Unhinted(rounds[..|rounds| - 1]));
    }
  }

  /** The i-th round was the last one refused, and the gate's time follows it
      by what a wait may be. */
  predicate WaitsFor(g: Gate, rounds: seq<Round>, i: int) {
    && 0 <= i < |rounds| && rounds[i].refusal.Some?
    && (forall k :: i < k < |rounds| ==> rounds[k].refusal.None?)
    && rounds[i].now + MINIMUM_RETRY <= g.retryAt <= rounds[i].now + MAXIMUM_BACKOFF
  }

  /** While the gate is closed its time is at least five seconds and at most
      fifteen minutes after the last refused round, whatever came before. */
  lemma {:induction false} ClosedWaits(rounds: seq<Round>)
    ensures var g := AfterAll(OPEN, rounds);
            && (g.backoff == 0 || INITIAL_BACKOFF <= g.backoff <= MAXIMUM_BACKOFF)
            && (g.closed ==> exists i :: WaitsFor(g, rounds, i))
    decreases |rounds|
  {
    if rounds != [] {
      var front, last := rounds[..|rounds| - 1], rounds[|rounds| - 1];
      ClosedWaits(front);
      var before, g := AfterAll(OPEN, front), AfterAll(OPEN, rounds);
      if g.closed {
        if last.refusal.Some? {
          assert WaitsFor(g, rounds, |rounds| - 1);
        } else {
          var i :| WaitsFor(before, front, i);
          assert WaitsFor(g, rounds, i);
        }
      }
    }
  }

  /** A round that probes comes at least five seconds after the last round that
      was refused, in every sequence of rounds from an open gate, through
      probes that failed and gates that were opened and closed again. */
  lemma ProbeWaits(rounds: seq<Round>, r: Round)
    requires Probes(AfterAll(OPEN, rounds), r)
    ensures exists i ::
              && WaitsFor(AfterAll(OPEN, rounds), rounds, i)
              && rounds[i].now + MINIMUM_RETRY <= AfterAll(OPEN, rounds).retryAt <= r.now
  {
    ClosedWaits(rounds);
    var i :| WaitsFor(AfterAll(OPEN, rounds), rounds, i);
  }

  // ---- a burst of launches ----

  /** How one launch ends: a worker; a refusal; nothing, as the budget is used
      up or the provider does not answer; or an error nobody recovers from. */
  datatype Answer = Started | Refuse(refusal: Refusal) | Nothing | Fatal

  /** How many of the first n answers are workers. */
  function Starts(answers: nat -> Answer, n: nat): (r: nat)
    ensures r <= n && (r == n <==> forall k :: 0 <= k < n ==> answers(k).Started?)
  {
    if n == 0 then 0 else Starts(answers, n - 1) + if answers(n - 1).Started? then 1 else 0
  }

  /** The first refusal of a kind among the first n answers. */
  function FirstOf(answers: nat -> Answer, n: nat, kind: Kind): Option<Refusal> {
    if n == 0 then None
    else if FirstOf(answers, n - 1, kind).Some? then FirstOf(answers, n - 1, kind)
    else if answers(n - 1).Refuse? && answers(n - 1).refusal.kind == kind then Some(answers(n - 1).refusal)
    else None
  }

  lemma {:induction false} FirstOfMeans(answers: nat -> Answer, n: nat, kind: Kind)
    ensures var r := FirstOf(answers, n, kind);
            match r
            case None => NoneOf(answers, n, kind)
            case Some(f) =>
              f.kind == kind && exists k :: 0 <= k < n && answers(k) == Refuse(f) && NoneOf(answers, k, kind)
  {
    if n > 0 { FirstOfMeans(answers, n - 1, kind); }
  }

  predicate NoneOf(answers: nat -> Answer, n: nat, kind: Kind) {
    forall k :: 0 <= k < n && answers(k).Refuse? ==> answers(k).refusal.kind != kind
  }

  /** It came back first of its kind. */
  predicate First(answers: nat -> Answer, n: nat, f: Refusal) {
    exists k :: 0 <= k < n && answers(k) == Refuse(f) && NoneOf(answers, k, f.kind)
  }

  /** Which of the first n answers closes the gate: the first capacity refusal,
      or the first rejection if no capacity was refused. A capacity refusal of
      spare room closes nothing. */
  ghost predicate Closes(answers: nat -> Answer, n: nat, spare: bool, refusal: Option<Refusal>) {
    match refusal
    case Some(f) => First(answers, n, f) && if f.kind.Capacity? then !spare else NoneOf(answers, n, Capacity)
    case None => if NoneOf(answers, n, Capacity) then NoneOf(answers, n, Rejection) else spare
  }

  lemma ClosingCloses(answers: nat -> Answer, n: nat, spare: bool)
    ensures Closes(answers, n, spare, Closing(FirstOf(answers, n, Capacity), FirstOf(answers, n, Rejection), spare))
  {
    FirstOfMeans(answers, n, Capacity);
    FirstOfMeans(answers, n, Rejection);
    if FirstOf(answers, n, Capacity).Some? {
      assert First(answers, n, FirstOf(answers, n, Capacity).value);
    }
  }

  /** What closes the gate: a capacity refusal before any rejection, but not
      one of launches that only tried spare room. */
  function Closing(capacity: Option<Refusal>, rejection: Option<Refusal>, spare: bool): Option<Refusal> {
    if capacity.Some? then if spare then None else capacity else rejection
  }

  /** Starts up to needed workers, at most limit at a time; answers in the
      order they come back. Once one is not a worker no launch is begun: of
      those after it only the ones in flight with it still come back. */
  method LaunchBurst(needed: nat, limit: int, answers: nat -> Answer)
    returns (n: nat, started: nat, capacity: Option<Refusal>, rejection: Option<Refusal>, fatal: bool)
    ensures n <= needed && started == Starts(answers, n) && (started == n ==> n == needed)
    ensures capacity == FirstOf(answers, n, Capacity) && rejection == FirstOf(answers, n, Rejection)
    ensures fatal <==> exists k :: 0 <= k < n && answers(k).Fatal?
    ensures forall k :: 0 <= k < n && !answers(k).Started? ==> n <= k + Max(1, limit)
  {
    var begun, stopped := Min(Max(1, limit), needed), false;
    n, started, capacity, rejection, fatal := 0, 0, None, None, false;
    while n < begun
      invariant n <= begun <= needed && started == Starts(answers, n) && (stopped <==> started < n)
      invariant capacity == FirstOf(answers, n, Capacity) && rejection == FirstOf(answers, n, Rejection)
      invariant fatal <==> exists k :: 0 <= k < n && answers(k).Fatal?
      invariant !stopped ==> begun == Min(n + Max(1, limit), needed)
      invariant forall k :: 0 <= k < n && !answers(k).Started? ==> begun <= k + Max(1, limit)
      decreases needed - n
    {
      var answer := answers(n);
      match answer {
        case Started => started := started + 1;
        case Refuse(refusal) =>
          stopped := true;
          if refusal.kind.Capacity? && capacity.None? { capacity := Some(refusal); }
          if refusal.kind.Rejection? && rejection.None? { rejection := Some(refusal); }
        case Nothing => stopped := true;
        case Fatal => stopped, fatal := true, true;
      }
      n := n + 1;
      if !stopped && begun < needed { begun := begun + 1; }
    }
  }

  // ---- the handler ----

  /** Room for runners in free pool slots, and who waits for them. */
  datatype Spare = Spare(room: int, busy: int, fastIdle: int, slowIdle: int, answers: nat -> Answer)

  function RoundTarget(current: int, fleet: int, target: int, maxWorkers: int): int {
    if target > current then Min(maxWorkers, fleet + target - current) else fleet
  }

  /** A round asks for what its scale set lacks, as far as the fleet has room. */
  predicate AsksFor(r: Round, lack: int, room: int) {
    Max(0, r.target - r.fleet) == Max(0, Min(lack, room))
  }

  /** As many workers started as the gate permits. */
  ghost predicate Whole(g: Gate, r: Round) {
    forall n :: n <= Max(0, r.target - r.fleet) && Permits(g, r.fleet, r.now, n) ==> n <= r.started
  }

  /** There are free slots for so many runners, jobs that wait and have no idle
      runner in a slot, and idle runners elsewhere that they wait on. */
  predicate HasSpare(s: Spare, jobs: int, free: int, n: int) {
    n <= s.room && n <= free && n + s.fastIdle <= Max(0, jobs - s.busy) && n <= s.slowIdle
  }

  /** How many runners are started in free slots for jobs waiting elsewhere. */
  function SpareCount(s: Spare, jobs: int, free: int): (r: int)
    ensures r >= 0 && (r > 0 ==> HasSpare(s, jobs, free, r))
    ensures forall n :: n > 0 && HasSpare(s, jobs, free, n) ==> n <= r
  {
    if s.room < 1 then 0
    else Max(0, Min(Min(Max(0, jobs - s.busy) - s.fastIdle, s.slowIdle), Min(s.room, free)))
  }

  class Fleet {
    const maxWorkers: int
    const limit: int
    var gate: Gate
    var main: nat
    var ephemeral: nat

    constructor (maxWorkers: int, limit: int)
      ensures this.maxWorkers == maxWorkers && this.limit == limit && gate == OPEN && main == 0 && ephemeral == 0
    {
      this.maxWorkers, this.limit, gate, main, ephemeral := maxWorkers, limit, OPEN, 0, 0;
    }

    function Count(): nat
      reads this
    {
      main + ephemeral
    }

    method RecordRefusal(refusal: Refusal, now: int)
      modifies `gate
      ensures gate == Refused(old(gate), refusal, Count(), now)
    {
      var wait, backoff;
      if refusal.kind.Capacity? && refusal.hint > 0 {
        wait, backoff := Min(Max(refusal.hint, MINIMUM_RETRY), MAXIMUM_BACKOFF), gate.backoff;
      } else if gate.backoff == 0 {
        wait, backoff := INITIAL_BACKOFF, INITIAL_BACKOFF;
      } else {
        backoff := Min(gate.backoff * 2, MAXIMUM_BACKOFF);
        wait := backoff;
      }
      gate := Gate(true, refusal.kind, main + ephemeral, now + wait, backoff);
    }

    /** One round of launches of one scale set. It starts at most what is
        needed, and closes the gate exactly as a round with these workers and
        this refusal does. */
    method Launch(onMain: bool, needed: nat, spare: bool, answers: nat -> Answer, now: int)
      returns (ghost round: Round, fatal: bool)
      modifies this
      ensures round.now == now && round.fleet == old(Count()) && round.target == old(Count()) + needed
      ensures main == old(main) + (if onMain then round.started else 0)
      ensures ephemeral == old(ephemeral) + (if onMain then 0 else round.started)
      ensures exists n: nat ::
                && n <= needed && round.started == Starts(answers, n) && (round.started == n ==> n == needed)
                && Closes(answers, n, spare, round.refusal)
                && (forall k :: 0 <= k < n && !answers(k).Started? ==> n <= k + Max(1, limit))
      ensures round.started <= needed && (round.refusal.Some? || fatal ==> round.started < needed)
      ensures round.started == needed <==> forall k :: 0 <= k < needed ==> answers(k).Started?
      ensures fatal ==> exists k :: answers(k).Fatal?
      ensures gate == if round.refusal.Some? then Refused(old(gate), round.refusal.value, Count(), now) else old(gate)
    {
      var n, started, capacity, rejection;
      n, started, capacity, rejection, fatal := LaunchBurst(needed, limit, answers);
      ClosingCloses(answers, n, spare);
      var refusal := Closing(capacity, rejection, spare);
      round := Round(now, main + ephemeral, main + ephemeral + needed, started, refusal);
      if onMain { main := main + started; } else { ephemeral := ephemeral + started; }
      if refusal.Some? { RecordRefusal(refusal.value, now); }
    }

    /** Scales one scale set toward its assigned jobs, then the main one fills spare room.
        Both scale sets take turns, so no launch takes the fleet above its
        maximum. The gate is that of the one or two rounds the launches made,
        each of them allowed by the gate before it. */
    method HandleDesired(onMain: bool, minWorkers: nat, jobs: nat, now: int, answers: nat -> Answer,
                         spare: Option<Spare>) returns (ghost rounds: seq<Round>)
      modifies this
      ensures Count() <= Max(old(Count()), maxWorkers) && Count() == old(Count()) + Workers(rounds)
      ensures 1 <= |rounds| <= 2 && AllAllowed(old(gate), rounds) && gate == AfterAll(old(gate), rounds)
      ensures (if onMain then ephemeral == old(ephemeral) else main == old(main))
      ensures rounds[0].now == now && rounds[0].fleet == old(Count())
      ensures AsksFor(rounds[0], Min(maxWorkers, minWorkers + jobs) - old(if onMain then main else ephemeral),
                      maxWorkers - old(Count()))
      ensures (forall k :: answers(k).Started?) ==> Whole(old(gate), rounds[0])
      ensures |rounds| == 2 ==>
                && onMain && spare.Some? && !AfterAll(old(gate), rounds[..1]).closed
                && rounds[1].now == now && rounds[1].fleet == old(Count()) + rounds[0].started
                && rounds[1].target == rounds[1].fleet + SpareCount(spare.value, jobs, maxWorkers - rounds[1].fleet)
                && ((forall k :: spare.value.answers(k).Started?) ==> Whole(AfterAll(old(gate), rounds[..1]), rounds[1]))
      ensures |rounds| == 1 ==> !onMain || spare.None? || gate.closed || exists k :: answers(k).Fatal?
    {
      hide AllAllowed, AfterAll, Allowed, After, RoundTarget, SpareCount, AsksFor, Whole;
      var fatal;
      ghost var round, next;
      round, fatal := Scale(onMain, minWorkers, jobs, now, answers);
      rounds := [round];
      OneRound(old(gate), round);
      if fatal || !onMain || spare.None? || gate.closed { return; }
      next := Speculate(jobs, now, spare.value);
      rounds := [round, next];
      TwoRounds(old(gate), round, next);
    }

    /** Launches what the scale set lacks, as far as the gate lets it. */
    method Scale(onMain: bool, minWorkers: nat, jobs: nat, now: int, answers: nat -> Answer)
      returns (ghost round: Round, fatal: bool)
      modifies this
      ensures round.now == now && round.fleet == old(Count()) && Allowed(old(gate), round)
      ensures gate == After(old(gate), round) && (fatal ==> exists k :: answers(k).Fatal?)
      ensures AsksFor(round, Min(maxWorkers, minWorkers + jobs) - old(if onMain then main else ephemeral),
                      maxWorkers - old(Count()))
      ensures (forall k :: answers(k).Started?) ==> Whole(old(gate), round)
      ensures main == old(main) + (if onMain then round.started else 0)
      ensures ephemeral == old(ephemeral) + (if onMain then 0 else round.started)
      ensures Count() <= Max(old(Count()), maxWorkers)
    {
      hide Starts, FirstOf, Closing;
      var target := Min(maxWorkers, minWorkers + jobs);
      var fleet := main + ephemeral;
      var current := if onMain then main else ephemeral;
      round := Round(now, fleet, RoundTarget(current, fleet, target, maxWorkers), 0, None);
      fatal := false;
      if target > current {
        var (needed, probing) := Allowance(gate, fleet, Min(maxWorkers, fleet + target - current), now);
        if needed > 0 {
          ghost var made;
          made, fatal := Launch(onMain, needed, false, answers, now);
          round := made.(target := round.target);
          if !fatal && probing && main + ephemeral > fleet { gate := OPEN; }
        }
      }
    }

    /** Starts runners in spare room for jobs that wait elsewhere. */
    method Speculate(jobs: nat, now: int, spare: Spare) returns (ghost round: Round)
      requires !gate.closed
      modifies this
      ensures round.now == now && round.fleet == old(Count()) && Allowed(old(gate), round)
      ensures gate == After(old(gate), round)
      ensures round.target == old(Count()) + SpareCount(spare, jobs, maxWorkers - old(Count()))
      ensures (forall k :: spare.answers(k).Started?) ==> Whole(old(gate), round)
      ensures main == old(main) + round.started && ephemeral == old(ephemeral)
      ensures Count() <= Max(old(Count()), maxWorkers)
    {
      hide Starts, FirstOf, Closing;
      var count := SpareCount(spare, jobs, maxWorkers - (main + ephemeral));
      round := Round(now, main + ephemeral, main + ephemeral + count, 0, None);
      if count >= 1 {
        var fatal;
        round, fatal := Launch(true, count, true, spare.answers, now);
      }
    }
  }

  function Workers(rounds: seq<Round>): nat {
    if rounds == [] then 0 else Workers(rounds[..|rounds| - 1]) + rounds[|rounds| - 1].started
  }

  lemma OneRound(g: Gate, r: Round)
    requires Allowed(g, r) && r.fleet >= 0
    ensures AllAllowed(g, [r]) && AfterAll(g, [r]) == After(g, r) && Workers([r]) == r.started
  {
    assert [r][..0] == [];
  }

  lemma TwoRounds(g: Gate, r: Round, next: Round)
    requires Allowed(g, r) && r.fleet >= 0 && Allowed(After(g, r), next) && next.fleet >= 0
    ensures AllAllowed(g, [r, next]) && AfterAll(g, [r, next]) == After(After(g, r), next)
    ensures Workers([r, next]) == r.started + next.started
    ensures AfterAll(g, [r, next][..1]) == After(g, r)
  {
    OneRound(g, r);
    assert [r, next][..0] == [] && [r, next][..1] == [r];
  }
}
