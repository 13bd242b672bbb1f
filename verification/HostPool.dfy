/**
 The pool's hosts and their source. Creations, listings and deletions are calls
 that take time: the source acts at some moment in between, and the pool learns
 of it later, under its lock. The clock moves on with every reading.
 */
module HostPools {
  import opened Options

  /** A creation in flight: the source has not acted, has made a host, or has
      failed; the pool does not know yet. */
  datatype Creation = Asked | Made(id: string) | Broken

  /** A listing in flight: when it began, and what the source answered. */
  datatype Listing = Listing(started: int, answer: Option<set<string>>)

  /** source: the machines there are. ever: every ID a machine has had. hosts:
      the hosts the pool knows, with the time it first saw each; placeholders
      of creations count beside them. */
  datatype Pool = Pool(maxHosts: nat, source: set<string>, ever: set<string>, hosts: map<string, int>,
                       creations: map<nat, Creation>, listings: map<nat, Listing>, clock: int)

  datatype Step =
    | Grow(tokens: set<nat>)                    // placeholders for new hosts
    | Create(token: nat, id: string)            // the source makes one
    | Fail(token: nat)                          // or does not
    | Created(token: nat)                       // the pool learns of it
    | List(token: nat)                          // a listing begins
    | Answer(token: nat)                        // the source answers it
    | Listed(token: nat)                        // the pool takes the answer in
    | Delete(id: string)                        // a host goes at the source
    | Forget(id: string)                        // the pool drops one it returned

  function AskedOf(creations: map<nat, Creation>): set<nat> {
    set t | t in creations && creations[t].Asked?
  }

  function MadeOf(creations: map<nat, Creation>): set<string> {
    set t | t in creations && creations[t].Made? :: creations[t].id
  }

  /** What grow counts: hosts known and placeholders. */
  function Size(p: Pool): nat {
    |p.hosts.Keys| + |p.creations.Keys|
  }

  // ---- taking a listing in ----

  function WithListed(hosts: map<string, int>, answer: set<string>, now: int): map<string, int> {
    map id | id in hosts.Keys + answer :: if id in hosts then hosts[id] else now
  }

  function WithoutMissing(hosts: map<string, int>, answer: set<string>, started: int): map<string, int> {
    map id | id in hosts && (id in answer || hosts[id] > started) :: hosts[id]
  }

  /** Hosts newly listed are first seen now; hosts not listed go, unless they
      were first seen after the listing began. */
  function Relisted(hosts: map<string, int>, answer: set<string>, started: int, now: int): map<string, int> {
    WithoutMissing(WithListed(hosts, answer, now), answer, started)
  }

  method AddListed(hosts: map<string, int>, answer: set<string>, now: int) returns (r: map<string, int>)
    ensures r == WithListed(hosts, answer, now)
  {
    r := hosts;
    var left := answer;
    while left != {}
      invariant left <= answer && r == WithListed(hosts, answer - left, now)
      decreases |left|
    {
      var id :| id in left;
      if id !in r { r := r[id := now]; }
      left := left - {id};
    }
    assert answer - left == answer;
  }

  method DropMissing(hosts: map<string, int>, answer: set<string>, started: int) returns (r: map<string, int>)
    ensures r == WithoutMissing(hosts, answer, started)
  {
    r := map[];
    var left := hosts.Keys;
    while left != {}
      invariant left <= hosts.Keys && r == map id | id in hosts && id !in left && (id in answer || hosts[id] > started) :: hosts[id]
      decreases |left|
    {
      var id :| id in left;
      if id in answer || hosts[id] > started { r := r[id := hosts[id]]; }
      left := left - {id};
    }
  }

  method TakeListing(hosts: map<string, int>, answer: set<string>, started: int, now: int) returns (r: map<string, int>)
    ensures r == Relisted(hosts, answer, started, now)
    ensures forall id :: id in r <==> id in answer || (id in hosts && hosts[id] > started)
    ensures forall id :: id in r ==> r[id] == if id in hosts then hosts[id] else now
  {
    r := AddListed(hosts, answer, now);
    r := DropMissing(r, answer, started);
  }

  // ---- the machine ----

  predicate Enabled(p: Pool, step: Step) {
    match step
    case Grow(tokens) => tokens !! p.creations.Keys && (tokens == {} || Size(p) + |tokens| <= p.maxHosts)
    case Create(t, id) => t in p.creations && p.creations[t].Asked? && id !in p.ever && ValidId(id)
    case Fail(t) => t in p.creations && p.creations[t].Asked?
    case Created(t) => t in p.creations && !p.creations[t].Asked?
    case List(t) => t !in p.listings
    case Answer(t) => t in p.listings && p.listings[t].answer.None?
    case Listed(t) => t in p.listings && p.listings[t].answer.Some?
    case Delete(id) => id in p.source
    case Forget(id) => id !in p.source
  }

  function Grown(creations: map<nat, Creation>, tokens: set<nat>): map<nat, Creation> {
    map t | t in creations.Keys + tokens :: if t in creations then creations[t] else Asked
  }

  /** Listings and creations skip IDs that would not make a worker ID. */
  predicate ValidId(id: string) {
    id != "" && '/' !in id && ':' !in id
  }

  function Next(p: Pool, step: Step): Pool
    requires Enabled(p, step)
  {
    var now := p.clock + 1;
    match step
    case Grow(tokens) =>
      p.(creations := Grown(p.creations, tokens), clock := now)
    case Create(t, id) => p.(source := p.source + {id}, ever := p.ever + {id}, creations := p.creations[t := Made(id)])
    case Fail(t) => p.(creations := p.creations[t := Broken])
    case Created(t) =>
      var rest := p.(creations := p.creations - {t}, clock := now);
      if p.creations[t].Made? && p.creations[t].id !in p.hosts then rest.(hosts := p.hosts[p.creations[t].id := now])
      else rest
    case List(t) => p.(listings := p.listings[t := Listing(now, None)], clock := now)
    case Answer(t) => p.(listings := p.listings[t := p.listings[t].(answer := Some(p.source))])
    case Listed(t) =>
      var l := p.listings[t];
      var answer := set id | id in l.answer.value && ValidId(id);
      p.(hosts := Relisted(p.hosts, answer, l.started, now), listings := p.listings - {t}, clock := now)
    case Delete(id) => p.(source := p.source - {id})
    case Forget(id) => p.(hosts := p.hosts - {id})
  }

  // ---- no machine is overlooked ----

  /** Every machine is known, or its creation has not been heard of yet. */
  predicate Tracked(p: Pool) {
    p.source <= p.hosts.Keys + MadeOf(p.creations)
  }

  /** A listing that leaves a machine out cannot drop it: it was first seen
      after the listing began. */
  predicate ListingSafe(p: Pool, l: Listing) {
    && l.started <= p.clock
    && (l.answer.Some? ==> forall id :: id in p.source && id in p.hosts ==> id in l.answer.value || p.hosts[id] > l.started)
  }

  /** The pool and its listings speak only of machines there have been. */
  ghost predicate Known(p: Pool) {
    && Tracked(p) && p.source <= p.ever && MadeOf(p.creations) <= p.ever && p.hosts.Keys <= p.ever
    && (forall t :: t in p.listings && p.listings[t].answer.Some? ==> p.listings[t].answer.value <= p.ever)
    && (forall id :: id in p.source ==> ValidId(id))
  }

  ghost predicate Timely(p: Pool) {
    && (forall id :: id in p.hosts ==> p.hosts[id] <= p.clock)
    && (forall t :: t in p.listings ==> ListingSafe(p, p.listings[t]))
  }

  predicate Within(p: Pool) {
    |p.source| + |AskedOf(p.creations)| <= p.maxHosts
  }

  ghost predicate Inv(p: Pool) {
    Known(p) && Timely(p) && Within(p)
  }

  /** A first listing was taken in before anything grew, and there were not too
      many machines to begin with. */
  ghost predicate Start(p: Pool) {
    && p.source <= p.hosts.Keys <= p.ever && |p.source| <= p.maxHosts
    && p.creations == map[] && p.listings == map[]
    && (forall id :: id in p.source ==> ValidId(id)) && forall id :: id in p.hosts ==> p.hosts[id] <= p.clock
  }

  ghost predicate Run(pools: seq<Pool>, steps: seq<Step>) {
    && |pools| == |steps| + 1 && Start(pools[0])
    && forall i :: 0 <= i < |steps| ==> Enabled(pools[i], steps[i]) && pools[i + 1] == Next(pools[i], steps[i])
  }

  lemma SubsetSize<T>(a: set<T>, b: set<T>)
    requires a <= b
    ensures |a| <= |b|
  {
    assert b == a + (b - a);
  }

  /** Setting one creation changes what is asked and made by just that one. */
  lemma AskedWith(creations: map<nat, Creation>, t: nat, c: Creation)
    ensures AskedOf(creations[t := c]) == AskedOf(creations) - {t} + (if c.Asked? then {t} else {})
    ensures MadeOf(creations[t := c]) <= MadeOf(creations) + (if c.Made? then {c.id} else {})
    ensures c.Made? ==> c.id in MadeOf(creations[t := c])
    ensures (t in creations ==> !creations[t].Made?) ==> MadeOf(creations) <= MadeOf(creations[t := c])
  {
    var after := creations[t := c];
    if c.Made? { assert after[t].id == c.id; }
    if t in creations ==> !creations[t].Made? {
      forall id | id in MadeOf(creations) ensures id in MadeOf(after) {
        var k :| k in creations && creations[k].Made? && creations[k].id == id;
        assert after[k] == creations[k];
      }
    }
  }

  lemma AskedWithout(creations: map<nat, Creation>, t: nat)
    requires t in creations
    ensures AskedOf(creations - {t}) == AskedOf(creations) - {t}
    ensures MadeOf(creations - {t}) <= MadeOf(creations)
    ensures MadeOf(creations) <= MadeOf(creations - {t}) + (if creations[t].Made? then {creations[t].id} else {})
  {
    var after := creations - {t};
    forall id | id in MadeOf(creations) ensures id in MadeOf(after) || (creations[t].Made? && id == creations[t].id) {
      var k :| k in creations && creations[k].Made? && creations[k].id == id;
      if k != t { assert after[k] == creations[k]; }
    }
  }

  /** As many IDs were made as there are creations that made one, at most. */
  lemma {:induction false} MadeCount(creations: map<nat, Creation>)
    ensures |MadeOf(creations)| + |AskedOf(creations)| <= |creations.Keys|
    decreases |creations|
  {
    if creations != map[] {
      var t :| t in creations;
      var rest := creations - {t};
      MadeCount(rest);
      AskedWithout(creations, t);
      assert rest.Keys == creations.Keys - {t};
      SubsetSize(MadeOf(creations), MadeOf(rest) + (if creations[t].Made? then {creations[t].id} else {}));
    }
  }

  /** What there is and what is on its way is within what the pool counts. */
  lemma SizeBounds(source: set<string>, known: set<string>, creations: map<nat, Creation>)
    requires source <= known + MadeOf(creations)
    ensures |source| + |AskedOf(creations)| <= |known| + |creations.Keys|
  {
    hide MadeOf, AskedOf;
    var made := MadeOf(creations);
    SubsetSize(source, known + made);
    MadeCount(creations);
    assert known + made == known + (made - known);
    SubsetSize(made - known, made);
  }

  /** Listings in flight stay harmless: a machine the pool newly knows is first
      seen after they began. */
  lemma ListingsStay(p: Pool, p': Pool)
    requires (forall t :: t in p.listings ==> ListingSafe(p, p.listings[t])) && p.clock <= p'.clock
    requires forall t :: t in p'.listings ==> t in p.listings && p'.listings[t] == p.listings[t]
    requires forall id :: id in p'.source && id in p'.hosts ==>
               (id in p.source && id in p.hosts && p'.hosts[id] == p.hosts[id]) || p'.hosts[id] > p.clock
    ensures forall t :: t in p'.listings ==> ListingSafe(p', p'.listings[t])
  {
    forall t | t in p'.listings ensures ListingSafe(p', p'.listings[t]) {
      assert ListingSafe(p, p.listings[t]);
    }
  }

  lemma GrowKeepsInv(p: Pool, tokens: set<nat>)
    requires Inv(p) && Enabled(p, Grow(tokens))
    ensures Inv(Next(p, Grow(tokens)))
  {
    hide MadeOf, AskedOf, ListingSafe, Grown, ValidId;
    GrownFacts(p.creations, tokens);
    ListingsStay(p, Next(p, Grow(tokens)));
    if tokens != {} { SizeBounds(p.source, p.hosts.Keys, Grown(p.creations, tokens)); }
  }

  lemma GrownFacts(creations: map<nat, Creation>, tokens: set<nat>)
    requires tokens !! creations.Keys
    ensures var after := Grown(creations, tokens);
            && |after.Keys| == |creations.Keys| + |tokens| && MadeOf(after) == MadeOf(creations)
            && (tokens == {} ==> after == creations)
  {
    var after := Grown(creations, tokens);
    assert after.Keys == creations.Keys + tokens;
    forall id | id in MadeOf(creations) ensures id in MadeOf(after) {
      var k :| k in creations && creations[k].Made? && creations[k].id == id;
      assert after[k] == creations[k];
    }
    forall id | id in MadeOf(after) ensures id in MadeOf(creations) {
      var k :| k in after && after[k].Made? && after[k].id == id;
      assert creations[k] == after[k];
    }
  }

  lemma CreateKeepsInv(p: Pool, t: nat, id: string)
    requires Inv(p) && Enabled(p, Create(t, id))
    ensures Inv(Next(p, Create(t, id)))
  {
    hide MadeOf, AskedOf, ListingSafe, Known, ValidId;
    var p' := Next(p, Create(t, id));
    AskedWith(p.creations, t, Made(id));
    CreateKnown(p, t, id);
    SettleWithin(p.source, p'.source, p.creations, p'.creations, t, id);
    NotYetKnown(p, id);
    ListingsStay(p, p');
  }

  lemma NotYetKnown(p: Pool, id: string)
    requires Known(p) && id !in p.ever
    ensures id !in p.hosts && id !in p.source
  {
  }

  lemma CreateKnown(p: Pool, t: nat, id: string)
    requires Known(p) && Enabled(p, Create(t, id))
    ensures Known(Next(p, Create(t, id)))
  {
    hide MadeOf, AskedOf, ValidId;
    AskedWith(p.creations, t, Made(id));
  }

  lemma FailKnown(p: Pool, t: nat)
    requires Known(p) && Enabled(p, Fail(t))
    ensures Known(Next(p, Fail(t)))
  {
    hide MadeOf, AskedOf, ValidId;
    AskedWith(p.creations, t, Broken);
  }

  lemma FailKeepsInv(p: Pool, t: nat)
    requires Inv(p) && Enabled(p, Fail(t))
    ensures Inv(Next(p, Fail(t)))
  {
    hide MadeOf, AskedOf, ListingSafe, Known, ValidId;
    var p' := Next(p, Fail(t));
    AskedWith(p.creations, t, Broken);
    FailKnown(p, t);
    SettleWithin(p.source, p'.source, p.creations, p'.creations, t, "");
    ListingsStay(p, p');
  }

  /** One creation settled, and at most one machine more. */
  lemma SettleWithin(source: set<string>, source': set<string>, creations: map<nat, Creation>, creations': map<nat,
                     Creation>, t: nat, id: string)
    requires t in creations && creations[t].Asked? && AskedOf(creations') == AskedOf(creations) - {t}
    requires source' == source || source' == source + {id}
    ensures |source'| + |AskedOf(creations')| <= |source| + |AskedOf(creations)|
  {
    assert t in AskedOf(creations);
  }

  lemma CreatedKnown(p: Pool, t: nat)
    requires Known(p) && Enabled(p, Created(t))
    ensures Known(Next(p, Created(t)))
  {
    hide MadeOf, AskedOf, ValidId;
    AskedWithout(p.creations, t);
    MadeHere(p.creations, t);
  }

  lemma CreatedKeepsInv(p: Pool, t: nat)
    requires Inv(p) && Enabled(p, Created(t))
    ensures Inv(Next(p, Created(t)))
  {
    hide MadeOf, AskedOf, ListingSafe, Known, ValidId;
    AskedWithout(p.creations, t);
    NotAsked(p.creations, t);
    CreatedKnown(p, t);
    ListingsStay(p, Next(p, Created(t)));
  }

  lemma NotAsked(creations: map<nat, Creation>, t: nat)
    requires t in creations && !creations[t].Asked?
    ensures AskedOf(creations) - {t} == AskedOf(creations)
  {
  }

  lemma MadeHere(creations: map<nat, Creation>, t: nat)
    requires t in creations
    ensures creations[t].Made? ==> creations[t].id in MadeOf(creations)
  {
  }

  lemma ListedKeepsInv(p: Pool, t: nat)
    requires Inv(p) && Enabled(p, Listed(t))
    ensures Inv(Next(p, Listed(t)))
  {
    hide MadeOf, AskedOf, ValidId;
    assert ListingSafe(p, p.listings[t]);
    ListingsStay(p, Next(p, Listed(t)));
  }

  lemma StepKeepsInv(p: Pool, step: Step)
    requires Inv(p) && Enabled(p, step)
    ensures Inv(Next(p, step)) && Next(p, step).maxHosts == p.maxHosts
  {
    hide Inv;
    match step
    case Grow(tokens) => GrowKeepsInv(p, tokens);
    case Create(t, id) => CreateKeepsInv(p, t, id);
    case Fail(t) => FailKeepsInv(p, t);
    case Created(t) => CreatedKeepsInv(p, t);
    case Listed(t) => ListedKeepsInv(p, t);
    case List(_) | Answer(_) | Delete(_) | Forget(_) => QuietKeepsInv(p, step);
  }

  lemma QuietKeepsInv(p: Pool, step: Step)
    requires Inv(p) && Enabled(p, step) && (step.List? || step.Answer? || step.Delete? || step.Forget?)
    ensures Inv(Next(p, step))
  {
    hide MadeOf, AskedOf, ValidId;
    var p' := Next(p, step);
    SubsetSize(p'.source, p.source);
    forall l | l in p'.listings ensures ListingSafe(p', p'.listings[l]) {
      if l in p.listings { assert ListingSafe(p, p.listings[l]); }
    }
  }

  /** Under every interleaving of growth, creations, overlapping and stale
      listings and returns, machines at the source plus creations the source
      has not acted on never exceed the maximum, and no machine is unknown to
      the pool once its creation was heard of. */
  lemma {:induction false} NeverAboveMaximum(pools: seq<Pool>, steps: seq<Step>, i: nat)
    requires Run(pools, steps) && i < |pools|
    ensures Inv(pools[i]) && pools[i].maxHosts == pools[0].maxHosts
    ensures |pools[i].source| + |AskedOf(pools[i].creations)| <= pools[0].maxHosts && Tracked(pools[i])
  {
    if i == 0 {
      assert AskedOf(pools[0].creations) == {} && MadeOf(pools[0].creations) == {};
    } else {
      NeverAboveMaximum(pools, steps, i - 1);
      StepKeepsInv(pools[i - 1], steps[i - 1]);
    }
  }

  /** Growing as far as the pool may stays within the maximum exactly when the
      pool counts at least what there is and what is on its way. */
  lemma GrowToMaximum(p: Pool, tokens: set<nat>)
    requires Enabled(p, Grow(tokens)) && tokens != {} && Size(p) + |tokens| == p.maxHosts
    ensures Within(Next(p, Grow(tokens))) <==> |p.source| + |AskedOf(p.creations)| <= Size(p)
  {
    assert AskedOf(Grown(p.creations, tokens)) == AskedOf(p.creations) + tokens;
    assert AskedOf(p.creations) !! tokens;
  }

  /** Nothing makes the pool wait for its first listing: it may grow while a
      machine it has not heard of already fills it. */
  lemma GrowthBeforeListing()
    ensures var p := Pool(1, {"a"}, {"a"}, map[], map[], map[], 0);
            Enabled(p, Grow({0})) && !Within(Next(p, Grow({0})))
  {
    var p := Pool(1, {"a"}, {"a"}, map[], map[], map[], 0);
    assert p.creations.Keys == {} && p.hosts.Keys == {};
    GrowToMaximum(p, {0});
  }
}
