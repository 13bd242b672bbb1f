/**
 The markers a status comment carries, as text: how they are written, and how a
 later tick finds them again in the comment.
 */
module Markers {
  import opened Options
  import opened Basics
  import opened Text

  const PREFIX: string := "<!-- runneryard-merge-queue:"
  const STATUS: string := "<!-- runneryard-merge-queue:status -->"
  const MAX_OWNS: nat := 2
  const MAX_INT: int := 9_223_372_036_854_775_807

  datatype Member = Member(number: int, sha: string)

  datatype Stack = Stack(base: string, members: seq<Member>, retry: int, at: int)

  datatype Own = Own(head: string, upstream: string)

  predicate Sha(s: string) {
    |s| == 40 && forall i :: 0 <= i < |s| ==> HexDigit(s[i])
  }

  // ---- reading, one piece at a time ----

  /** What follows a literal. */
  function Expect(s: string, literal: string): Option<string> {
    if literal <= s then Some(s[|literal|..]) else None
  }

  function TakeSha(s: string): Option<(string, string)> {
    if |s| >= 40 && Sha(s[..40]) then Some((s[..40], s[40..])) else None
  }

  /** All the digits a string starts with. */
  function Digits(s: string): (n: nat)
    ensures n <= |s| && AllDigits(s[..n]) && (n < |s| ==> !IsDigit(s[n]))
  {
    if s == "" || !IsDigit(s[0]) then 0
    else
      var n := 1 + Digits(s[1..]);
      assert s[..n] == [s[0]] + s[1..][..n - 1];
      n
  }

  function TakeNumber(s: string): Option<(nat, string)> {
    var n := Digits(s);
    if n == 0 then None else Some((Value(s[..n]), s[n..]))
  }

  /** number@sha, then more after commas. */
  function TakeMembers(s: string): Option<(seq<Member>, string)>
    decreases |s|
  {
    match TakeNumber(s)
    case None => None
    case Some((number, s1)) =>
      match Expect(s1, "@")
      case None => None
      case Some(s2) =>
        match TakeSha(s2)
        case None => None
        case Some((sha, s3)) =>
          if s3 == "" || s3[0] != ',' then Some(([Member(number, sha)], s3))
          else match TakeMembers(s3[1..])
            case None => None
            case Some((rest, s4)) => Some(([Member(number, sha)] + rest, s4))
  }

  function StackAt(s: string): Option<Stack> {
    match Expect(s, PREFIX + "stack base=")
    case None => None
    case Some(s1) =>
      match TakeSha(s1)
      case None => None
      case Some((base, s2)) =>
        match Expect(s2, " prs=")
        case None => None
        case Some(s3) =>
          match TakeMembers(s3)
          case None => None
          case Some((members, s4)) => RetryAndTime(s4, base, members)
  }

  function RetryAndTime(s: string, base: string, members: seq<Member>): Option<Stack> {
    match Expect(s, " retry=")
    case None => None
    case Some(s1) =>
      if s1 == "" || (s1[0] != '0' && s1[0] != '1') then None
      else
        var retry := s1[0] as int - '0' as int;
        match Expect(s1[1..], " at=")
        case None => None
        case Some(s2) =>
          match TakeNumber(s2)
          case None => None
          case Some((at, s3)) =>
            if Expect(s3, " -->").None? then None else Some(Stack(base, members, retry, at))
  }

  function OwnAt(s: string): (r: Option<(Own, string)>)
    ensures r.Some? ==> |r.value.1| < |s|
  {
    match Expect(s, PREFIX + "own head=")
    case None => None
    case Some(s1) =>
      match TakeSha(s1)
      case None => None
      case Some((head, s2)) =>
        match Expect(s2, " upstream=")
        case None => None
        case Some(s3) =>
          match TakeSha(s3)
          case None => None
          case Some((upstream, s4)) =>
            match Expect(s4, " -->")
            case None => None
            case Some(s5) => Some((Own(head, upstream), s5))
  }

  // ---- finding ----

  /** The leftmost stack marker. */
  function FirstStack(s: string): Option<Stack> {
    if s == "" then None else if StackAt(s).Some? then StackAt(s) else FirstStack(s[1..])
  }

  /** Up to n own markers, leftmost first, not overlapping. */
  function FirstOwns(s: string, n: nat): seq<Own>
    decreases |s|
  {
    if n == 0 || s == "" then []
    else match OwnAt(s)
      case None => FirstOwns(s[1..], n)
      case Some((own, rest)) => [own] + FirstOwns(rest, n - 1)
  }

  predicate DistinctNumbers(members: seq<Member>) {
    forall i, j :: 0 <= i < j < |members| ==> members[i].number != members[j].number
  }

  /** What a comment says of a stack: nothing if a number is not positive, does
      not fit an int, or stands twice. */
  function ParseStack(body: string): Option<Stack> {
    match FirstStack(body)
    case None => None
    case Some(stack) =>
      if (forall i :: 0 <= i < |stack.members| ==> 0 < stack.members[i].number <= MAX_INT)
         && DistinctNumbers(stack.members) && stack.at <= MAX_INT
      then Some(stack.(at := stack.at * SECOND)) else None
  }

  function ParseOwns(body: string): seq<Own> {
    FirstOwns(body, MAX_OWNS)
  }

  // ---- writing ----

  predicate WellFormed(stack: Stack) {
    && Sha(stack.base) && stack.members != [] && DistinctNumbers(stack.members)
    && (stack.retry == 0 || stack.retry == 1)
    && (forall i :: 0 <= i < |stack.members| ==> 0 < stack.members[i].number <= MAX_INT && Sha(stack.members[i].sha))
    && 0 <= stack.at <= MAX_INT
  }

  function MembersText(members: seq<Member>): string
    requires members != [] && forall i :: 0 <= i < |members| ==> members[i].number >= 0
  {
    var first := Decimal(members[0].number) + "@" + members[0].sha;
    if |members| == 1 then first else first + "," + MembersText(members[1..])
  }

  function StackMarker(stack: Stack): string
    requires WellFormed(stack)
  {
    PREFIX + "stack base=" + stack.base + " prs=" + MembersText(stack.members) + " retry=" + Decimal(stack.retry) +
    " at=" + Decimal(stack.at / SECOND) + " -->"
  }

  function OwnMarker(own: Own): string {
    PREFIX + "own head=" + own.head + " upstream=" + own.upstream + " -->"
  }

  function OwnLines(owns: seq<Own>, n: nat): string
    requires n <= |owns|
  {
    if n == 0 then "" else OwnLines(owns, n - 1) + "\n" + OwnMarker(owns[n - 1])
  }

  function StackOwn(stack: Stack, index: nat): Own
    requires index < |stack.members|
  {
    Own(stack.members[index].sha, if index == 0 then stack.base else stack.members[index - 1].sha)
  }

  function ShortSha(sha: string): string {
    if |sha| > 7 then sha[..7] else sha
  }

  /** #1, #2 and so on, without one number. */
  function Refs(members: seq<Member>, without: int): string
    requires forall i :: 0 <= i < |members| ==> members[i].number >= 0
  {
    if members == [] then ""
    else
      var front, last := members[..|members| - 1], members[|members| - 1];
      if last.number == without then Refs(front, without)
      else Refs(front, without) + (if Refs(front, without) == "" then "" else ", ") + "#" + Decimal(last.number)
  }

  const REBASED: string := "rebased into a stack"
  const ONCE: string := ". CI runs once, on the top pull request."
  const RERUN: string := "re-running the failed jobs" + " once on this stack"
  const BEFORE: string := " before giving up ("
  const TESTING: string := "testing this branch as the top of a stack"
  const ONTO: string := ", rebased onto "
  const AS: string := " as "

  /** What a member's comment tells people. */
  function StackText(stack: Stack, index: nat): string
    requires WellFormed(stack) && index < |stack.members|
  {
    var m := stack.members[index];
    var others := Refs(stack.members, m.number);
    var with := if others == "" then "" else " with " + others;
    if index < |stack.members| - 1 then REBASED + with + AS + ShortSha(m.sha) + ONCE
    else if stack.retry > 0 then RERUN + with + BEFORE + ShortSha(m.sha) + ")."
    else TESTING + with + ONTO + ShortSha(stack.base) + AS + ShortSha(m.sha) + "."
  }

  /** A stack member's comment: the status line, its text, its own record and
      the kept ones up to two, and on the top the stack. */
  function StackComment(stack: Stack, index: nat, keep: seq<Own>): string
    requires WellFormed(stack) && index < |stack.members|
  {
    var owns := [StackOwn(stack, index)] + keep;
    var n := if |owns| < MAX_OWNS then |owns| else MAX_OWNS;
    STATUS + "\nMerge queue: " + StackText(stack, index) + OwnLines(owns, n) +
    if index == |stack.members| - 1 then "\n" + StackMarker(stack) else ""
  }

  /** The check of the numbers a marker lists, as it runs. */
  method NumbersValid(members: seq<Member>) returns (ok: bool)
    ensures ok <==> (forall i :: 0 <= i < |members| ==> 0 < members[i].number <= MAX_INT) && DistinctNumbers(members)
  {
    var seen: set<int> := {};
    for i := 0 to |members|
      invariant forall k :: 0 <= k < i ==> 0 < members[k].number <= MAX_INT
      invariant forall j, k :: 0 <= j < k < i ==> members[j].number != members[k].number
      invariant forall n :: n in seen <==> exists k :: 0 <= k < i && members[k].number == n
    {
      var n := members[i].number;
      if n > MAX_INT || n <= 0 || n in seen { return false; }
      seen := seen + {n};
    }
    return true;
  }

  // ---- each piece reads back ----

  lemma ExpectReads(literal: string, rest: string)
    ensures Expect(literal + rest, literal) == Some(rest)
  {
  }

  /** A common beginning does not matter. */
  lemma ExpectDrops(p: string, a: string, b: string)
    ensures Expect(p + a, p + b) == Expect(a, b)
  {
    assert (p + b <= p + a) <==> (b <= a) by {
      if p + b <= p + a {
        assert a == (p + a)[|p|..] && b == (p + b)[|p|..];
        assert (p + a)[..|p + b|] == p + b;
        assert a[..|b|] == b;
      }
      if b <= a { assert (p + a)[..|p + b|] == p + b; }
    }
    if b <= a { assert (p + a)[|p + b|..] == a[|b|..]; }
  }

  lemma ShaReads(sha: string, rest: string)
    requires Sha(sha)
    ensures TakeSha(sha + rest) == Some((sha, rest))
  {
    assert (sha + rest)[..40] == sha && (sha + rest)[40..] == rest;
  }

  lemma {:induction false} DigitsRead(d: string, rest: string)
    requires AllDigits(d) && (rest == "" || !IsDigit(rest[0]))
    ensures Digits(d + rest) == |d|
  {
    if d == "" {
      assert d + rest == rest;
    } else {
      assert (d + rest)[1..] == d[1..] + rest;
      DigitsRead(d[1..], rest);
    }
  }

  lemma NumberReads(n: nat, rest: string)
    requires rest == "" || !IsDigit(rest[0])
    ensures TakeNumber(Decimal(n) + rest) == Some((n, rest))
  {
    var d := Decimal(n);
    DigitsRead(d, rest);
    DecimalReads(n);
    assert (d + rest)[..|d|] == d && (d + rest)[|d|..] == rest;
  }

  lemma {:induction false} MembersRead(members: seq<Member>, rest: string)
    requires members != [] && forall i :: 0 <= i < |members| ==> members[i].number >= 0 && Sha(members[i].sha)
    requires rest == "" || rest[0] != ','
    ensures TakeMembers(MembersText(members) + rest) == Some((members, rest))
    decreases |members|
  {
    hide Sha, Decimal, TakeMembers, MembersText;
    var m := members[0];
    var after := if |members| == 1 then rest else "," + MembersText(members[1..]) + rest;
    MembersTextSplits(members, rest, after);
    MemberReads(m, after);
    if |members| > 1 {
      AfterComma(MembersText(members[1..]), rest);
      MembersRead(members[1..], rest);
      assert [m] + members[1..] == members;
    } else {
      assert members == [m];
    }
  }

  /** The first member, and then the others if a comma follows. */
  lemma MemberReads(m: Member, after: string)
    requires m.number >= 0 && Sha(m.sha)
    ensures TakeMembers(Decimal(m.number) + ("@" + (m.sha + after))) ==
            if after == "" || after[0] != ',' then Some(([m], after))
            else match TakeMembers(after[1..])
              case None => None
              case Some((rest, s)) => Some(([m] + rest, s))
  {
    hide Sha, Decimal, TakeNumber, TakeSha, Expect;
    NumberReads(m.number, "@" + (m.sha + after));
    ExpectReads("@", m.sha + after);
    ShaReads(m.sha, after);
  }

  lemma AfterComma(more: string, rest: string)
    ensures ("," + more + rest)[1..] == more + rest && ("," + more + rest)[0] == ','
  {
  }

  lemma {:induction false} MembersTextSplits(members: seq<Member>, rest: string, after: string)
    requires members != [] && forall i :: 0 <= i < |members| ==> members[i].number >= 0
    requires after == if |members| == 1 then rest else "," + MembersText(members[1..]) + rest
    ensures MembersText(members) + rest == Decimal(members[0].number) + ("@" + (members[0].sha + after))
  {
    hide Decimal;
    var first := Decimal(members[0].number) + "@" + members[0].sha;
    Regroup(Decimal(members[0].number), "@", members[0].sha, after);
    if |members| > 1 {
      var more := MembersText(members[1..]);
      assert MembersText(members) == first + "," + more;
      Regrouped(first, ",", more, rest);
    }
  }

  lemma Regroup(a: string, b: string, c: string, d: string)
    ensures (a + b + c) + d == a + (b + (c + d))
  {
  }

  lemma Regrouped(a: string, b: string, c: string, d: string)
    ensures (a + b + c) + d == a + (b + c + d)
  {
  }

  lemma RetryReads(stack: Stack, rest: string)
    requires WellFormed(stack)
    ensures RetryAndTime(" retry=" + Decimal(stack.retry) + " at=" + Decimal(stack.at / SECOND) + " -->" + rest,
                         stack.base, stack.members) ==
            Some(Stack(stack.base, stack.members, stack.retry, stack.at / SECOND))
  {
    hide Decimal, Expect, TakeNumber, Sha, DistinctNumbers, RetryAndTime;
    var second := stack.at / SECOND;
    var at := Decimal(second) + (" -->" + rest);
    assert " retry=" + Decimal(stack.retry) + " at=" + Decimal(second) + " -->" + rest ==
           " retry=" + (Decimal(stack.retry) + (" at=" + at));
    NumberReads(second, " -->" + rest);
    RetryThenTime(stack.retry, second, at, rest, stack.base, stack.members);
  }

  lemma RetryThenTime(retry: nat, second: nat, at: string, rest: string, base: string, members: seq<Member>)
    requires retry <= 1 && TakeNumber(at) == Some((second, " -->" + rest))
    ensures RetryAndTime(" retry=" + (Decimal(retry) + (" at=" + at)), base, members) ==
            Some(Stack(base, members, retry, second))
  {
    hide Decimal, Expect, TakeNumber;
    OneDigit(retry);
    var digit := Decimal(retry) + (" at=" + at);
    ExpectReads(" retry=", digit);
    assert digit[0] == Decimal(retry)[0] && digit[1..] == " at=" + at;
    ExpectReads(" at=", at);
    ExpectReads(" -->", rest);
  }

  lemma OneDigit(n: nat)
    requires n <= 1
    ensures Decimal(n) == if n == 0 then "0" else "1"
  {
  }

  /** A stack marker reads back, to the whole second. */
  lemma StackReads(stack: Stack, rest: string)
    requires WellFormed(stack)
    ensures StackAt(StackMarker(stack) + rest) == Some(stack.(at := stack.at / SECOND))
  {
    hide Sha, Decimal, TakeMembers, TakeSha, Expect, MembersText, RetryAndTime;
    var tail := " retry=" + Decimal(stack.retry) + " at=" + Decimal(stack.at / SECOND) + " -->" + rest;
    var members := MembersText(stack.members) + tail;
    var base := stack.base + (" prs=" + members);
    assert StackMarker(stack) + rest == (PREFIX + "stack base=") + base;
    ExpectReads(PREFIX + "stack base=", base);
    ShaReads(stack.base, " prs=" + members);
    ExpectReads(" prs=", members);
    MembersRead(stack.members, tail);
    RetryReads(stack, rest);
  }

  lemma OwnReads(own: Own, rest: string)
    requires Sha(own.head) && Sha(own.upstream)
    ensures OwnAt(OwnMarker(own) + rest) == Some((own, rest))
  {
    hide Sha, TakeSha, Expect;
    var end := " -->" + rest;
    var up := own.upstream + end;
    var head := own.head + (" upstream=" + up);
    assert OwnMarker(own) + rest == (PREFIX + "own head=") + head;
    ExpectReads(PREFIX + "own head=", head);
    ShaReads(own.head, " upstream=" + up);
    ExpectReads(" upstream=", up);
    ShaReads(own.upstream, end);
    ExpectReads(" -->", rest);
  }

  // ---- finding the markers in a comment ----

  predicate NoMark(s: string) {
    forall i :: 0 <= i < |s| ==> s[i] != '<'
  }

  lemma NotHere(s: string, kind: string)
    requires s == "" || s[0] != '<'
    ensures Expect(s, PREFIX + kind).None?
  {
    assert (PREFIX + kind)[0] == '<';
  }

  /** Text without the opening sign hides no marker. */
  lemma {:induction false} SkipText(a: string, b: string, n: nat)
    requires NoMark(a)
    ensures FirstStack(a + b) == FirstStack(b) && FirstOwns(a + b, n) == FirstOwns(b, n)
  {
    hide Expect;
    if a == "" {
      assert a + b == b;
    } else {
      NotHere(a + b, "stack base=");
      NotHere(a + b, "own head=");
      assert (a + b)[1..] == a[1..] + b;
      SkipText(a[1..], b, n);
    }
  }

  /** A marker of another kind is passed over. */
  lemma OtherKind(rest: string, kind: string)
    requires rest != "" && kind != "" && rest[0] != kind[0]
    ensures Expect(PREFIX + rest, PREFIX + kind).None?
  {
    ExpectDrops(PREFIX, rest, kind);
  }

  lemma ShaHasNoMark(s: string)
    requires Sha(s)
    ensures NoMark(s)
  {
  }

  lemma DecimalHasNoMark(n: nat)
    ensures NoMark(Decimal(n))
  {
    var d := Decimal(n);
    forall i | 0 <= i < |d| ensures d[i] != '<' { assert IsDigit(d[i]); }
  }

  /** What follows the opening sign of PREFIX. */
  const REST: string := "!-- runneryard-merge-queue:"

  lemma PrefixSplits()
    ensures PREFIX == "<" + REST && NoMark(REST)
  {
  }

  lemma NoMarkConcat(a: string, b: string)
    requires NoMark(a) && NoMark(b)
    ensures NoMark(a + b)
  {
  }

  /** An own marker hides no stack. */
  lemma SkipOwn(own: Own, b: string)
    requires Sha(own.head) && Sha(own.upstream)
    ensures FirstStack(OwnMarker(own) + b) == FirstStack(b)
  {
    hide Expect, Sha, FirstStack;
    var tail := "own head=" + own.head + " upstream=" + own.upstream + " -->";
    assert OwnMarker(own) == PREFIX + tail;
    assert OwnMarker(own) + b == PREFIX + (tail + b);
    OtherKind(tail + b, "stack base=");
    PassOver(tail, b);
    ShaHasNoMark(own.head);
    ShaHasNoMark(own.upstream);
    assert NoMark(tail);
    SkipText(REST + tail, b, 0);
  }

  /** Past the opening sign of a marker that is not a stack. */
  lemma PassOver(tail: string, b: string)
    requires Expect(PREFIX + (tail + b), PREFIX + "stack base=").None?
    ensures FirstStack(PREFIX + (tail + b)) == FirstStack((REST + tail) + b)
  {
    hide Expect;
    PrefixSplits();
    var s := PREFIX + (tail + b);
    assert s[1..] == (REST + tail) + b;
  }

  lemma PassOverOwn(tail: string, b: string, n: nat)
    requires Expect(PREFIX + (tail + b), PREFIX + "own head=").None?
    ensures FirstOwns(PREFIX + (tail + b), n) == FirstOwns((REST + tail) + b, n)
  {
    hide Expect;
    PrefixSplits();
    var s := PREFIX + (tail + b);
    assert s[1..] == (REST + tail) + b;
  }

  lemma SkipStatus(b: string, n: nat)
    ensures FirstStack(STATUS + b) == FirstStack(b) && FirstOwns(STATUS + b, n) == FirstOwns(b, n)
  {
    hide Expect, FirstStack, FirstOwns;
    var tail := "status -->";
    assert STATUS + b == PREFIX + (tail + b);
    StatusIsNoStack(b);
    OtherKind(tail + b, "own head=");
    PassOver(tail, b);
    PassOverOwn(tail, b, n);
    PrefixSplits();
    NoMarkConcat(REST, tail);
    SkipText(REST + tail, b, n);
  }

  lemma StatusIsNoStack(b: string)
    ensures Expect(PREFIX + ("status -->" + b), PREFIX + "stack base=").None?
  {
    ExpectDrops(PREFIX, "status -->" + b, "stack base=");
    assert ("status -->" + b)[3] == 't' && "stack base="[3] == 'c';
  }

  lemma {:induction false} MembersHaveNoMark(members: seq<Member>)
    requires members != [] && forall i :: 0 <= i < |members| ==> members[i].number >= 0 && Sha(members[i].sha)
    ensures NoMark(MembersText(members))
    decreases |members|
  {
    hide Sha, Decimal;
    var m := members[0];
    DecimalHasNoMark(m.number);
    ShaHasNoMark(m.sha);
    var first := Decimal(m.number) + "@" + m.sha;
    assert NoMark(first);
    if |members| > 1 {
      MembersHaveNoMark(members[1..]);
      NoMarkConcat(first + ",", MembersText(members[1..]));
    }
  }

  /** A stack marker hides no own marker. */
  lemma SkipStack(stack: Stack, n: nat)
    requires WellFormed(stack)
    ensures FirstOwns(StackMarker(stack), n) == []
  {
    hide Expect, Sha, FirstOwns, Decimal, MembersText;
    var head := "stack base=" + stack.base + " prs=";
    var tail := " retry=" + Decimal(stack.retry) + " at=" + Decimal(stack.at / SECOND) + " -->";
    var all := head + MembersText(stack.members) + tail;
    assert StackMarker(stack) == PREFIX + (all + "");
    ShaHasNoMark(stack.base);
    MembersHaveNoMark(stack.members);
    DecimalHasNoMark(stack.retry);
    DecimalHasNoMark(stack.at / SECOND);
    assert NoMark(head) && NoMark(tail);
    NoMarkConcat(head, MembersText(stack.members));
    NoMarkConcat(head + MembersText(stack.members), tail);
    assert all[0] == 's';
    OtherKind(all + "", "own head=");
    PassOverOwn(all, "", n);
    PrefixSplits();
    NoMarkConcat(REST, all);
    SkipText(REST + all, "", n);
    NothingThere(n);
  }

  lemma NothingThere(n: nat)
    ensures FirstOwns("", n) == [] && FirstStack("") == None
  {
  }

  lemma {:induction false} OwnLinesHideNoStack(owns: seq<Own>, n: nat, b: string)
    requires n <= |owns| && forall i :: 0 <= i < |owns| ==> Sha(owns[i].head) && Sha(owns[i].upstream)
    ensures FirstStack(OwnLines(owns, n) + b) == FirstStack(b)
  {
    hide FirstStack, Sha, OwnLines, OwnMarker;
    if n == 0 {
      NoLines(owns, b);
    } else {
      LastLine(owns, n, b);
      var line := OwnMarker(owns[n - 1]) + b;
      OwnLinesHideNoStack(owns, n - 1, "\n" + line);
      SkipText("\n", line, 0);
      SkipOwn(owns[n - 1], b);
    }
  }

  lemma {:induction false} OwnLinesRead(owns: seq<Own>, n: nat, m: nat, b: string)
    requires n <= m && n <= |owns| && forall i :: 0 <= i < |owns| ==> Sha(owns[i].head) && Sha(owns[i].upstream)
    ensures FirstOwns(OwnLines(owns, n) + b, m) == owns[..n] + FirstOwns(b, m - n)
    decreases n
  {
    hide FirstOwns, Sha, OwnLines, OwnMarker;
    if n == 0 {
      NoLines(owns, b);
    } else {
      var own := owns[n - 1];
      var line := OwnMarker(own) + b;
      LastLine(owns, n, b);
      OwnLinesRead(owns, n - 1, m, "\n" + line);
      SkipText("\n", line, m - n + 1);
      OneOwn(own, b, m - n + 1);
      TakeOneMore(owns, n, FirstOwns(b, m - n));
    }
  }

  lemma NoLines(owns: seq<Own>, b: string)
    ensures OwnLines(owns, 0) + b == b
  {
  }

  lemma LastLine(owns: seq<Own>, n: nat, b: string)
    requires 0 < n <= |owns|
    ensures OwnLines(owns, n) + b == OwnLines(owns, n - 1) + ("\n" + (OwnMarker(owns[n - 1]) + b))
  {
    hide OwnMarker;
    var lines, marker := OwnLines(owns, n - 1), OwnMarker(owns[n - 1]);
    assert OwnLines(owns, n) == lines + "\n" + marker;
    Regroup(lines, "\n", marker, b);
  }

  lemma TakeOneMore(owns: seq<Own>, n: nat, rest: seq<Own>)
    requires 0 < n <= |owns|
    ensures owns[..n - 1] + ([owns[n - 1]] + rest) == owns[..n] + rest
  {
    assert owns[..n] == owns[..n - 1] + [owns[n - 1]];
  }

  lemma OneOwn(own: Own, b: string, m: nat)
    requires Sha(own.head) && Sha(own.upstream) && m > 0
    ensures FirstOwns(OwnMarker(own) + b, m) == [own] + FirstOwns(b, m - 1)
  {
    hide Sha, OwnAt;
    OwnReads(own, b);
    assert OwnMarker(own) + b != "";
  }

  /** Reading back the comment of a stack's member: its own record and then the
      kept ones, and the stack itself, to the whole second, exactly on the top. */
  lemma CommentReads(stack: Stack, index: nat, keep: seq<Own>)
    requires WellFormed(stack) && index < |stack.members|
    requires forall i :: 0 <= i < |keep| ==> Sha(keep[i].head) && Sha(keep[i].upstream)
    ensures var owns := [StackOwn(stack, index)] + keep;
            ParseOwns(StackComment(stack, index, keep)) == if |owns| < MAX_OWNS then owns else owns[..MAX_OWNS]
    ensures ParseStack(StackComment(stack, index, keep)) ==
            if index == |stack.members| - 1 then Some(stack.(at := stack.at / SECOND * SECOND)) else None
  {
    hide FirstStack, FirstOwns, Sha, StackMarker, OwnLines, StackText;
    var text := StackText(stack, index);
    TextHasNoMark(stack, index);
    var owns := [StackOwn(stack, index)] + keep;
    var n := if |owns| < MAX_OWNS then |owns| else MAX_OWNS;
    var top := index == |stack.members| - 1;
    var end := if top then "\n" + StackMarker(stack) else "";
    var said := "\nMerge queue: " + text;
    var lines := OwnLines(owns, n) + end;
    assert StackComment(stack, index, keep) == STATUS + (said + lines);
    SkipStatus(said + lines, MAX_OWNS);
    NoMarkConcat("\nMerge queue: ", text);
    SkipText(said, lines, MAX_OWNS);
    OwnLinesHideNoStack(owns, n, end);
    OwnLinesRead(owns, n, MAX_OWNS, end);
    NothingThere(MAX_OWNS - n);
    if top {
      SkipText("\n", StackMarker(stack), MAX_OWNS - n);
      SkipStack(stack, MAX_OWNS - n);
      StackReads(stack, "");
      StackFound(stack);
    }
    assert n == |owns| ==> owns[..n] == owns;
  }

  lemma {:induction false} RefsHaveNoMark(members: seq<Member>, without: int)
    requires forall i :: 0 <= i < |members| ==> members[i].number >= 0
    ensures NoMark(Refs(members, without))
  {
    hide Decimal;
    if members != [] {
      RefsHaveNoMark(members[..|members| - 1], without);
      DecimalHasNoMark(members[|members| - 1].number);
    }
  }

  lemma JoinThree(a: string, b: string, c: string)
    requires NoMark(a) && NoMark(b) && NoMark(c)
    ensures NoMark(a + b + c)
  {
  }

  lemma PhrasesHaveNoMark()
    ensures NoMark(REBASED) && NoMark(ONCE)
    ensures NoMark(RERUN) && NoMark(BEFORE)
    ensures NoMark(TESTING) && NoMark(ONTO) && NoMark(AS) && NoMark(" with ") && NoMark(").") && NoMark(".")
  {
    NoMarkConcat("re-running the failed jobs", " once on this stack");
  }

  lemma TextHasNoMark(stack: Stack, index: nat)
    requires WellFormed(stack) && index < |stack.members|
    ensures NoMark(StackText(stack, index))
  {
    hide Refs, Sha, NoMark;
    var m := stack.members[index];
    var others := Refs(stack.members, m.number);
    RefsHaveNoMark(stack.members, m.number);
    PhrasesHaveNoMark();
    ShortHasNoMark(m.sha);
    ShortHasNoMark(stack.base);
    NoMarkConcat(" with ", others);
    var with := if others == "" then "" else " with " + others;
    JoinThree(REBASED, with, AS);
    JoinThree(REBASED + with + AS, ShortSha(m.sha), ONCE);
    JoinThree(RERUN, with, BEFORE);
    JoinThree(RERUN + with + BEFORE, ShortSha(m.sha), ").");
    JoinThree(TESTING, with, ONTO);
    JoinThree(TESTING + with + ONTO, ShortSha(stack.base), AS);
    JoinThree(TESTING + with + ONTO + ShortSha(stack.base) + AS, ShortSha(m.sha), ".");
  }

  lemma ShortHasNoMark(sha: string)
    requires Sha(sha)
    ensures NoMark(ShortSha(sha)) && NoMark("")
  {
  }

  lemma StackFound(stack: Stack)
    requires WellFormed(stack) && StackAt(StackMarker(stack) + "") == Some(stack.(at := stack.at / SECOND))
    ensures FirstStack(StackMarker(stack)) == Some(stack.(at := stack.at / SECOND))
  {
    hide StackAt;
    assert StackMarker(stack) + "" == StackMarker(stack);
  }
}
