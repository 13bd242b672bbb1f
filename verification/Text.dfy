/**
 Decimal numbers and cutting strings, as far as worker IDs and comment markers
 need them; and the worker IDs themselves.
 */
module Text {
  import opened Options

  predicate IsDigit(c: char) {
    '0' <= c <= '9'
  }

  predicate HexDigit(c: char) {
    IsDigit(c) || 'a' <= c <= 'f'
  }

  predicate AllDigits(s: string) {
    forall i :: 0 <= i < |s| ==> IsDigit(s[i])
  }

  function Digit(d: nat): (c: char)
    requires d < 10
    ensures IsDigit(c)
  {
    '0' + d as char
  }

  function Decimal(n: nat): (s: string)
    ensures s != "" && AllDigits(s)
  {
    if n < 10 then [Digit(n)] else Decimal(n / 10) + [Digit(n % 10)]
  }

  function Value(s: string): nat
    requires AllDigits(s)
  {
    if s == "" then 0 else 10 * Value(s[..|s| - 1]) + (s[|s| - 1] as int - '0' as int)
  }

  /** A printed number reads back as itself. */
  lemma {:induction false} DecimalReads(n: nat)
    ensures Value(Decimal(n)) == n
  {
    if n >= 10 {
      DecimalReads(n / 10);
      var s := Decimal(n);
      assert s[..|s| - 1] == Decimal(n / 10);
      assert s[|s| - 1] as int - '0' as int == n % 10;
    } else {
      assert [Digit(n)][..0] == "";
    }
  }

  /** Everything before and after the first c. */
  function Cut(s: string, c: char): Option<(string, string)> {
    if s == "" then None
    else if s[0] == c then Some(("", s[1..]))
    else match Cut(s[1..], c)
      case None => None
      case Some((before, after)) => Some(([s[0]] + before, after))
  }

  lemma {:induction false} CutConcat(a: string, c: char, b: string)
    requires c !in a
    ensures Cut(a + [c] + b, c) == Some((a, b))
  {
    if a == "" {
      assert a + [c] + b == [c] + b && ([c] + b)[1..] == b;
    } else {
      CutConcat(a[1..], c, b);
      assert (a + [c] + b)[1..] == a[1..] + [c] + b;
      assert [a[0]] + a[1..] == a;
    }
  }

  /** An optional sign and digits. */
  function Atoi(s: string): Option<int> {
    var digits := if s != "" && (s[0] == '-' || s[0] == '+') then s[1..] else s;
    if digits == "" || !AllDigits(digits) then None
    else
      var value: int := Value(digits);
      Some(if s[0] == '-' then 0 - value else value)
  }

  // ---- worker IDs ----

  function WorkerId(host: string, slot: nat, lease: string): string {
    host + "/" + Decimal(slot) + "/" + lease
  }

  function ParseWorkerId(id: string): Option<(string, nat, string)> {
    match Cut(id, '/')
    case None => None
    case Some((host, rest)) =>
      match Cut(rest, '/')
      case None => None
      case Some((number, lease)) =>
        if '/' in lease || host == "" || lease == "" then None
        else match Atoi(number)
          case None => None
          case Some(slot) => if slot < 0 then None else Some((host, slot, lease))
  }

  /** A worker ID names its host, slot and lease, whatever they are. */
  lemma WorkerIdReads(host: string, slot: nat, lease: string)
    requires host != "" && '/' !in host && lease != "" && '/' !in lease
    ensures ParseWorkerId(WorkerId(host, slot, lease)) == Some((host, slot, lease))
  {
    var rest := Decimal(slot) + "/" + lease;
    assert WorkerId(host, slot, lease) == host + ['/'] + rest;
    CutConcat(host, '/', rest);
    assert rest == Decimal(slot) + ['/'] + lease;
    assert '/' !in Decimal(slot);
    CutConcat(Decimal(slot), '/', lease);
    DecimalReads(slot);
  }

  /** A placement prefixes the tier, and routes by it. */
  function Tiered(tier: string, id: string): string {
    tier + ":" + id
  }

  /** The tier an ID names and the ID within it. */
  function Route(id: string, tiers: set<string>): Option<(string, string)> {
    match Cut(id, ':')
    case None => None
    case Some((tier, rest)) => if tier in tiers && rest != "" then Some((tier, rest)) else None
  }

  /** Destroying a worker of any tier reaches that tier with the worker's own
      host, slot and lease. */
  lemma RouteReads(tier: string, tiers: set<string>, host: string, slot: nat, lease: string)
    requires tier in tiers && ':' !in tier && host != "" && '/' !in host && lease != "" && '/' !in lease
    ensures Route(Tiered(tier, WorkerId(host, slot, lease)), tiers) == Some((tier, WorkerId(host, slot, lease)))
    ensures ParseWorkerId(Route(Tiered(tier, WorkerId(host, slot, lease)), tiers).value.1) == Some((host, slot, lease))
  {
    var id := WorkerId(host, slot, lease);
    assert Tiered(tier, id) == tier + [':'] + id;
    CutConcat(tier, ':', id);
    WorkerIdReads(host, slot, lease);
  }
}
