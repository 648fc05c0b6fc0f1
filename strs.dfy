// The parts of Go's `strings`, `strconv` and `bufio` packages that the tools
// rely on, over `seq<char>`.  Every separator the tools use is a single
// character, so `Split`, `SplitN` and `Join` take a `char`.
module Strs {
  import opened Wrappers

  /** Number of occurrences of `c` in `s`. */
  function Count(s: string, c: char): nat
  {
    if |s| == 0 then 0 else (if s[0] == c then 1 else 0) + Count(s[1..], c)
  }

  /** `strings.Join(parts, string(c))`. */
  function Join(parts: seq<string>, c: char): string
  {
    if |parts| == 0 then ""
    else if |parts| == 1 then parts[0]
    else parts[0] + [c] + Join(parts[1..], c)
  }

  /** `strings.Split(s, string(c))`: the pieces between occurrences of `c`;
    * they never contain `c` and joining them back gives `s`. */
  function Split(s: string, c: char): (r: seq<string>)
    ensures |r| == Count(s, c) + 1
    ensures forall i :: 0 <= i < |r| ==> c !in r[i]
    ensures Join(r, c) == s
    decreases |s|
  {
    if |s| == 0 then [""]
    else
      var rest := Split(s[1..], c);
      if s[0] == c then
        assert ([""] + rest)[1..] == rest;
        [""] + rest
      else
        var r := [[s[0]] + rest[0]] + rest[1..];
        assert r[1..] == rest[1..];
        assert s == [s[0]] + s[1..];
        r
  }

  /** First position of `c` in `s`. */
  function IndexOf(s: string, c: char): (r: Option<nat>)
    ensures r.None? <==> c !in s
    ensures r.Some? ==> r.value < |s| && s[r.value] == c && c !in s[..r.value]
  {
    if |s| == 0 then None
    else if s[0] == c then Some(0)
    else
      match IndexOf(s[1..], c)
      case None => None
      case Some(i) =>
        assert s[..i + 1] == [s[0]] + s[1..][..i];
        Some(i + 1)
  }

  /** Last position of `c` in `s`. */
  function LastIndexOf(s: string, c: char): (r: Option<nat>)
    ensures r.None? <==> c !in s
    ensures r.Some? ==> r.value < |s| && s[r.value] == c && c !in s[r.value + 1..]
    decreases |s|
  {
    if |s| == 0 then None
    else if s[|s| - 1] == c then Some(|s| - 1)
    else
      var r := LastIndexOf(s[..|s| - 1], c);
      assert s == s[..|s| - 1] + [s[|s| - 1]];
      if r.Some? then
        assert s[r.value + 1..] == s[..|s| - 1][r.value + 1..] + [s[|s| - 1]];
        r
      else r
  }

  /** `strings.SplitN(s, string(c), n)` for n >= 1: at most `n` pieces, the
    * last one keeping every further occurrence of `c`. */
  function SplitN(s: string, c: char, n: nat): (r: seq<string>)
    requires n >= 1
    ensures 1 <= |r| <= n
    ensures Join(r, c) == s
    ensures forall i :: 0 <= i < |r| - 1 ==> c !in r[i]
    ensures |r| < n ==> c !in r[|r| - 1]
    decreases n
  {
    if n == 1 then SplitNWhole(s, c, n)
    else
      match IndexOf(s, c)
      case None => SplitNWhole(s, c, n)
      case Some(i) => SplitNCons(s, c, i, SplitN(s[i + 1..], c, n - 1), n)
  }

  /** The last piece of SplitN: the whole remaining text. */
  function SplitNWhole(s: string, c: char, n: nat): (r: seq<string>)
    requires n == 1 || (n >= 1 && c !in s)
    ensures r == [s] && Join(r, c) == s
    ensures |r| < n ==> c !in r[|r| - 1]
  {
    [s]
  }

  /** One step of SplitN: the piece before the first separator, then the rest. */
  function SplitNCons(s: string, c: char, i: nat, rest: seq<string>, n: nat): (r: seq<string>)
    requires i < |s| && s[i] == c && c !in s[..i] && n >= 2
    requires 1 <= |rest| <= n - 1 && Join(rest, c) == s[i + 1..]
    requires forall k :: 0 <= k < |rest| - 1 ==> c !in rest[k]
    requires |rest| < n - 1 ==> c !in rest[|rest| - 1]
    ensures 2 <= |r| <= n
    ensures Join(r, c) == s
    ensures forall k :: 0 <= k < |r| - 1 ==> c !in r[k]
    ensures |r| < n ==> c !in r[|r| - 1]
  {
    var r := [s[..i]] + rest;
    assert r[1..] == rest;
    assert s == s[..i] + [c] + s[i + 1..];
    assert forall k :: 1 <= k < |r| ==> r[k] == rest[k - 1];
    r
  }

  /** `strings.HasPrefix`. */
  predicate HasPrefix(s: string, p: string)
  {
    |p| <= |s| && s[..|p|] == p
  }

  /** `strings.Index`: the first position where `sub` occurs in `s`. */
  function IndexOfSub(s: string, sub: string): (r: Option<nat>)
    ensures r.Some? ==> r.value <= |s| && HasPrefix(s[r.value..], sub)
    ensures r.Some? ==> forall j :: 0 <= j < r.value ==> !HasPrefix(s[j..], sub)
    ensures r.None? ==> forall j :: 0 <= j <= |s| ==> !HasPrefix(s[j..], sub)
    decreases |s|
  {
    if HasPrefix(s, sub) then Some(0)
    else if |s| == 0 then None
    else
      var rest := IndexOfSub(s[1..], sub);
      assert forall j :: 1 <= j <= |s| ==> s[j..] == s[1..][j - 1..];
      match rest
      case None => None
      case Some(i) => Some(i + 1)
  }

  /** `strings.Contains`. */
  predicate Contains(s: string, sub: string)
    decreases |s|
  {
    HasPrefix(s, sub) || (|s| > 0 && Contains(s[1..], sub))
  }

  /** `strings.Replace(s, pat, rep, -1)` for a non-empty pattern: leftmost,
    * non-overlapping occurrences are replaced. */
  function ReplaceAll(s: string, pat: string, rep: string): (r: string)
    requires |pat| > 0
    ensures !Contains(s, pat) ==> r == s
    decreases |s|
  {
    if |s| < |pat| then s
    else if s[..|pat|] == pat then rep + ReplaceAll(s[|pat|..], pat, rep)
    else [s[0]] + ReplaceAll(s[1..], pat, rep)
  }

  /** `strings.Replace(s, string(a), string(b), -1)`: a character-wise map. */
  function ReplaceChar(s: string, a: char, b: char): (r: string)
    ensures |r| == |s|
    ensures forall i :: 0 <= i < |s| ==> r[i] == (if s[i] == a then b else s[i])
  {
    if |s| == 0 then "" else [if s[0] == a then b else s[0]] + ReplaceChar(s[1..], a, b)
  }

  /** `strings.Replace(s, string(c), "", -1)`: every `c` deleted, all other
    * characters kept in order. */
  function RemoveChar(s: string, c: char): (r: string)
    ensures c !in r
    ensures |r| == |s| - Count(s, c)
    ensures c !in s ==> r == s
  {
    if |s| == 0 then "" else (if s[0] == c then "" else [s[0]]) + RemoveChar(s[1..], c)
  }

  /** `strings.TrimLeft(s, cutset)`. */
  function TrimLeft(s: string, cut: set<char>): (r: string)
    ensures |r| <= |s| && r == s[|s| - |r|..]
    ensures |r| > 0 ==> r[0] !in cut
    ensures forall i :: 0 <= i < |s| - |r| ==> s[i] in cut
  {
    if |s| > 0 && s[0] in cut then
      var r := TrimLeft(s[1..], cut);
      assert forall i :: 1 <= i < |s| - |r| ==> s[i] == s[1..][i - 1];
      r
    else s
  }

  /** `strings.TrimRight(s, cutset)`. */
  function TrimRight(s: string, cut: set<char>): (r: string)
    ensures |r| <= |s| && r == s[..|r|]
    ensures |r| > 0 ==> r[|r| - 1] !in cut
    ensures forall i :: |r| <= i < |s| ==> s[i] in cut
  {
    if |s| > 0 && s[|s| - 1] in cut then TrimRight(s[..|s| - 1], cut) else s
  }

  /** `strings.Trim(s, cutset)`. */
  function Trim(s: string, cut: set<char>): string
  {
    TrimRight(TrimLeft(s, cut), cut)
  }

  /** `unicode.IsSpace`. */
  predicate IsSpace(c: char)
  {
    c == '\U{0009}' || c == '\U{000A}' || c == '\U{000B}' || c == '\U{000C}' || c == '\U{000D}' ||
    c == '\U{0020}' || c == '\U{0085}' || c == '\U{00A0}' || c == '\U{1680}' ||
    ('\U{2000}' <= c <= '\U{200A}') || c == '\U{2028}' || c == '\U{2029}' || c == '\U{202F}' ||
    c == '\U{205F}' || c == '\U{3000}'
  }

  /** Trimming stops at the first character outside the cut set. */
  lemma TrimLeftStop(s: string, cut: set<char>)
    requires |s| > 0 && s[0] !in cut
    ensures TrimLeft(s, cut) == s
  {
  }

  lemma TrimLeftOne(s: string, cut: set<char>)
    requires |s| > 1 && s[0] in cut && s[1] !in cut
    ensures TrimLeft(s, cut) == s[1..]
  {
  }

  lemma TrimRightStop(s: string, cut: set<char>)
    requires |s| > 0 && s[|s| - 1] !in cut
    ensures TrimRight(s, cut) == s
  {
  }

  /** `strings.TrimSpace`: leading and trailing white space removed. */
  function TrimSpace(s: string): string
  {
    TrimSpaceRight(TrimSpaceLeft(s))
  }

  /** Trimming spaces a second time changes nothing. */
  lemma TrimSpaceIdempotent(s: string)
    ensures TrimSpace(TrimSpace(s)) == TrimSpace(s)
  {
    var l := TrimSpaceLeft(s);
    var t := TrimSpaceRight(l);
    assert |t| > 0 ==> t[0] == l[0];
    assert TrimSpaceLeft(t) == t;
  }

  function TrimSpaceLeft(s: string): (r: string)
    ensures |r| <= |s| && r == s[|s| - |r|..]
    ensures |r| > 0 ==> !IsSpace(r[0])
  {
    if |s| > 0 && IsSpace(s[0]) then TrimSpaceLeft(s[1..]) else s
  }

  function TrimSpaceRight(s: string): (r: string)
    ensures |r| <= |s| && r == s[..|r|]
    ensures |r| > 0 ==> !IsSpace(r[|r| - 1])
  {
    if |s| > 0 && IsSpace(s[|s| - 1]) then TrimSpaceRight(s[..|s| - 1]) else s
  }

  predicate IsDigit(c: char)
  {
    '0' <= c <= '9'
  }

  predicate AllDigits(s: string)
  {
    forall i :: 0 <= i < |s| ==> IsDigit(s[i])
  }

  function DigitChar(d: nat): (c: char)
    requires d < 10
    ensures IsDigit(c) && (c as int) - ('0' as int) == d
  {
    (('0' as int) + d) as char
  }

  /** Decimal text of a natural number, as `%d` prints it. */
  function NatToString(n: nat): (r: string)
    ensures |r| >= 1 && AllDigits(r)
    ensures |r| > 1 ==> r[0] != '0'
    decreases n
  {
    if n < 10 then [DigitChar(n)] else NatToString(n / 10) + [DigitChar(n % 10)]
  }

  /** Decimal text of an integer, as `%d` and `strconv.Itoa` print it. */
  function IntToString(i: int): (r: string)
    ensures |r| >= 1
    ensures (i < 0) <==> r[0] == '-'
  {
    if i < 0 then "-" + NatToString(-i) else NatToString(i)
  }

  /** The value of a non-empty run of decimal digits. */
  function ParseNat(s: string): (r: Option<nat>)
    ensures r.Some? <==> |s| > 0 && AllDigits(s)
    decreases |s|
  {
    if |s| == 0 || !IsDigit(s[|s| - 1]) then None
    else
      var d := (s[|s| - 1] as int) - ('0' as int);
      if |s| == 1 then Some(d)
      else
        match ParseNat(s[..|s| - 1])
        case None => None
        case Some(v) => Some(v * 10 + d)
  }

  lemma {:induction false} ParseNatToString(n: nat)
    ensures ParseNat(NatToString(n)) == Some(n)
    decreases n
  {
    if n >= 10 {
      var s := NatToString(n);
      ParseNatToString(n / 10);
      assert s[..|s| - 1] == NatToString(n / 10);
    }
  }

  const MinInt64: int := -0x8000_0000_0000_0000
  const MaxInt64: int := 0x7FFF_FFFF_FFFF_FFFF
  const MaxUint64: int := 0xFFFF_FFFF_FFFF_FFFF

  /** `strconv.Atoi` on a 64-bit platform: an optional sign, then decimal
    * digits, within the int64 range. */
  function Atoi(s: string): (r: Option<int>)
    ensures r.Some? ==> MinInt64 <= r.value <= MaxInt64
  {
    var neg := |s| > 0 && s[0] == '-';
    var body := if |s| > 0 && (s[0] == '-' || s[0] == '+') then s[1..] else s;
    match ParseNat(body)
    case None => None
    case Some(v) =>
      var vi: int := v;
      var x := if neg then -vi else vi;
      if MinInt64 <= x <= MaxInt64 then Some(x) else None
  }

  lemma AtoiIntToString(i: int)
    requires MinInt64 <= i <= MaxInt64
    ensures Atoi(IntToString(i)) == Some(i)
  {
    var t := NatToString(if i < 0 then -i else i);
    ParseNatToString(if i < 0 then -i else i);
    if i < 0 {
      SignDropped(t);
      AtoiSigned("-" + t);
    } else {
      AtoiDigits(t);
    }
  }

  /** Digits alone are read as they are. */
  lemma AtoiDigits(t: string)
    requires |t| > 0 && AllDigits(t)
    ensures var v := ParseNat(t).value;
            Atoi(t) == if v <= MaxInt64 then Some(v) else None
  {
    assert IsDigit(t[0]);
  }

  /** A '-' before digits negates them. */
  lemma AtoiSigned(s: string)
    requires |s| > 1 && s[0] == '-' && AllDigits(s[1..])
    ensures var w := 0 - (ParseNat(s[1..]).value as int);
            Atoi(s) == if MinInt64 <= w then Some(w) else None
  {
  }

  lemma SignDropped(t: string)
    ensures var s := "-" + t;
            |s| > 0 && s[0] == '-' && s[1..] == t
  {
  }

  /** `strconv.ParseUint(s, 10, 0)` on a 64-bit platform. */
  function ParseUint(s: string): (r: Option<nat>)
    ensures r.Some? ==> r.value <= MaxUint64
    ensures r.Some? ==> |s| > 0 && AllDigits(s)
  {
    match ParseNat(s)
    case None => None
    case Some(v) => if v <= MaxUint64 then Some(v) else None
  }

  /** A line with one trailing carriage return removed (bufio's dropCR). */
  function DropCR(line: string): string
  {
    if |line| > 0 && line[|line| - 1] == '\r' then line[..|line| - 1] else line
  }

  /** The lines `bufio.Scanner` with `ScanLines` yields: the text split at
    * '\n', without an empty piece after a final newline, each piece without
    * a trailing '\r'. */
  function ScanLines(s: string): (r: seq<string>)
    ensures forall i :: 0 <= i < |r| ==> '\n' !in r[i]
  {
    var parts := Split(s, '\n');
    var body := if parts[|parts| - 1] == "" then parts[..|parts| - 1] else parts;
    seq(|body|, i requires 0 <= i < |body| => DropCR(body[i]))
  }

  // ---------------------------------------------------------------------
  // Properties of Split and Join

  /** A string without the separator is one piece. */
  lemma {:induction false} SplitNoSep(s: string, c: char)
    requires c !in s
    ensures Split(s, c) == [s]
    decreases |s|
  {
    if |s| > 0 {
      SplitNoSep(s[1..], c);
      assert s == [s[0]] + s[1..];
    }
  }

  /** Splitting `a + c + b` with `c` not in `a` gives `a` then the pieces of `b`. */
  lemma {:induction false} SplitPrefix(a: string, b: string, c: char)
    requires c !in a
    ensures Split(a + [c] + b, c) == [a] + Split(b, c)
    decreases |a|
  {
    var s := a + [c] + b;
    if |a| == 0 {
      assert s[1..] == b;
    } else {
      assert s[1..] == a[1..] + [c] + b;
      SplitPrefix(a[1..], b, c);
      assert [a[0]] + a[1..] == a;
    }
  }

  /** Joining pieces that do not contain the separator and splitting again
    * gives the same pieces back. */
  lemma {:induction false} SplitJoin(parts: seq<string>, c: char)
    requires |parts| >= 1
    requires forall i :: 0 <= i < |parts| ==> c !in parts[i]
    ensures Split(Join(parts, c), c) == parts
    decreases |parts|
  {
    if |parts| == 1 {
      SplitNoSep(parts[0], c);
    } else {
      SplitJoin(parts[1..], c);
      SplitPrefix(parts[0], Join(parts[1..], c), c);
      assert [parts[0]] + parts[1..] == parts;
    }
  }

  /** The first piece of a split is everything before the first separator. */
  lemma SplitHead(s: string, c: char)
    ensures IndexOf(s, c).None? ==> Split(s, c)[0] == s
    ensures IndexOf(s, c).Some? ==> Split(s, c)[0] == s[..IndexOf(s, c).value]
  {
    match IndexOf(s, c)
    case None =>
      SplitNoSep(s, c);
    case Some(i) =>
      assert s == s[..i] + [c] + s[i + 1..];
      SplitPrefix(s[..i], s[i + 1..], c);
  }

  /** Splitting is injective. */
  lemma SplitInjective(x: string, y: string, c: char)
    requires Split(x, c) == Split(y, c)
    ensures x == y
  {
    assert Join(Split(x, c), c) == x;
  }

  /** Splitting `a + c + b` gives the pieces of `a` followed by those of `b`. */
  lemma SplitConcat(a: string, b: string, c: char)
    ensures Split(a + [c] + b, c) == Split(a, c) + Split(b, c)
  {
    var pa := Split(a, c);
    var pb := Split(b, c);
    JoinAppend(pa, pb, c);
    SplitJoin(pa + pb, c);
  }

  /** Joining two non-empty lists of pieces puts one separator between them. */
  lemma {:induction false} JoinAppend(pa: seq<string>, pb: seq<string>, c: char)
    requires |pa| >= 1 && |pb| >= 1
    ensures Join(pa + pb, c) == Join(pa, c) + [c] + Join(pb, c)
    decreases |pa|
  {
    if |pa| == 1 {
      assert (pa + pb)[1..] == pb;
    } else {
      JoinAppend(pa[1..], pb, c);
      assert (pa + pb)[1..] == pa[1..] + pb;
    }
  }

  lemma {:induction false} CountConcat(a: string, b: string, c: char)
    ensures Count(a + b, c) == Count(a, c) + Count(b, c)
    decreases |a|
  {
    if |a| > 0 {
      calc {
        Count(a + b, c);
        (if (a + b)[0] == c then 1 else 0) + Count((a + b)[1..], c);
        { assert (a + b)[0] == a[0]; assert (a + b)[1..] == a[1..] + b; }
        (if a[0] == c then 1 else 0) + Count(a[1..] + b, c);
        { CountConcat(a[1..], b, c); }
        Count(a, c) + Count(b, c);
      }
    } else {
      assert a + b == b;
    }
  }

  lemma {:induction false} CountNone(s: string, c: char)
    requires c !in s
    ensures Count(s, c) == 0
    decreases |s|
  {
    if |s| > 0 {
      CountNone(s[1..], c);
    }
  }

  lemma {:induction false} CountZero(s: string, c: char)
    requires Count(s, c) == 0
    ensures c !in s
    decreases |s|
  {
    if |s| > 0 {
      CountZero(s[1..], c);
    }
  }

  /** Splitting in two at the first separator, when the head has none. */
  lemma SplitNAtFirst(a: string, t: string, c: char)
    requires c !in a
    ensures SplitN(a + [c] + t, c, 2) == [a, t]
  {
    var s := a + [c] + t;
    IndexOfAfter(a, t, c);
    assert s[..|a|] == a && s[|a| + 1..] == t;
  }

  /** The first separator of `a + c + t` is right after `a` when `a` has none. */
  lemma IndexOfAfter(a: string, t: string, c: char)
    requires c !in a
    ensures IndexOf(a + [c] + t, c) == Some(|a|)
  {
    var s := a + [c] + t;
    assert s[|a|] == c;
    assert forall i :: 0 <= i < |a| ==> s[i] == a[i];
  }

  /** `SplitN(_, c, 3)` of "a c b c rest" gives back the three parts when
    * neither `a` nor `b` holds the separator. */
  lemma SplitN3(a: string, b: string, rest: string, c: char)
    requires c !in a && c !in b
    ensures SplitN(a + [c] + b + [c] + rest, c, 3) == [a, b, rest]
  {
    var t := b + [c] + rest;
    AppendAssoc(a, b, rest, c);
    SplitNStep(a, t, c, 3);
    SplitN2(b, rest, c);
  }

  /** The two ways of bracketing "a c b c rest" agree. */
  lemma AppendAssoc(a: string, b: string, rest: string, c: char)
    ensures a + [c] + b + [c] + rest == a + [c] + (b + [c] + rest)
  {
  }

  /** `SplitN(_, c, 2)` of "b c rest" when `b` holds no separator. */
  lemma SplitN2(b: string, rest: string, c: char)
    requires c !in b
    ensures SplitN(b + [c] + rest, c, 2) == [b, rest]
  {
    SplitNStep(b, rest, c, 2);
  }

  /** With `n` at least 2, `SplitN` of "a c t" is `a`, then `SplitN` of `t`
    * with one piece fewer. */
  lemma SplitNStep(a: string, t: string, c: char, n: nat)
    requires c !in a && n >= 2
    ensures SplitN(a + [c] + t, c, n) == [a] + SplitN(t, c, n - 1)
  {
    var s := a + [c] + t;
    IndexOfAfter(a, t, c);
    assert s[|a| + 1..] == t && s[..|a|] == a;
  }

  /** Pieces of which only the last may contain the separator: the joined
    * text has one separator per boundary plus those of the last piece. */
  lemma {:induction false} CountJoinLast(parts: seq<string>, c: char)
    requires |parts| >= 1
    requires forall i :: 0 <= i < |parts| - 1 ==> c !in parts[i]
    ensures Count(Join(parts, c), c) == |parts| - 1 + Count(parts[|parts| - 1], c)
    decreases |parts|
  {
    if |parts| > 1 {
      CountJoinLast(parts[1..], c);
      CountConcat(parts[0] + [c], Join(parts[1..], c), c);
      CountConcat(parts[0], [c], c);
      CountNone(parts[0], c);
    }
  }

  /** A separator after a piece without one adds exactly one occurrence. */
  lemma CountCons(a: string, b: string, c: char)
    requires c !in a
    ensures Count(a + [c] + b, c) == 1 + Count(b, c)
  {
    CountConcat(a + [c], b, c);
    CountConcat(a, [c], c);
    CountNone(a, c);
  }

  /** Every occurrence but the first lies after the first. */
  lemma CountAfterFirst(s: string, c: char)
    requires c in s
    ensures Count(s, c) == 1 + Count(s[IndexOf(s, c).value + 1..], c)
  {
    var i := IndexOf(s, c).value;
    CutAt(s, i);
    CountCons(s[..i], s[i + 1..], c);
  }

  /** A string is the part before position `i`, its character there, and
    * the part after. */
  lemma CutAt(s: string, i: nat)
    requires i < |s|
    ensures s == s[..i] + [s[i]] + s[i + 1..]
  {
  }

  /** The last separator of `a + c + t` is right after `a` when `t` has none. */
  lemma {:induction false} LastIndexOfAfter(a: string, t: string, c: char)
    requires c !in t
    ensures LastIndexOf(a + [c] + t, c) == Some(|a|)
    decreases |t|
  {
    var s := a + [c] + t;
    if |t| > 0 {
      var init := t[..|t| - 1];
      assert s[..|s| - 1] == a + [c] + init;
      assert s[|s| - 1] == t[|t| - 1];
      LastIndexOfAfter(a, init, c);
    }
  }

  /** Two separator-free fields joined by the separator split back. */
  lemma SplitTwo(a: string, b: string, sep: char)
    requires sep !in a && sep !in b
    ensures Split(a + [sep] + b, sep) == [a, b]
  {
    SplitConcat(a, b, sep);
    SplitNoSep(a, sep);
    SplitNoSep(b, sep);
  }

  /** Three fields free of the separator are what splitting their joined
    * text gives. */
  lemma SplitThree(a: string, b: string, c: string, sep: char)
    requires sep !in a && sep !in b && sep !in c
    ensures Split(a + [sep] + b + [sep] + c, sep) == [a, b, c]
  {
    var parts := [a, b, c];
    var tail := b + [sep] + c;
    assert Join([b, c], sep) == tail by {
      assert [b, c][1..] == [c];
    }
    assert Join(parts, sep) == a + [sep] + tail by {
      assert parts[1..] == [b, c];
    }
    assert a + [sep] + tail == a + [sep] + b + [sep] + c;
    SplitJoin(parts, sep);
  }

  /** Joining pieces free of a character with a different separator keeps
    * the result free of it. */
  lemma {:induction false} NoSepInJoin(parts: seq<string>, sep: char, c: char)
    requires sep != c
    requires forall i :: 0 <= i < |parts| ==> c !in parts[i]
    ensures c !in Join(parts, sep)
    decreases |parts|
  {
    if |parts| > 1 {
      NoSepInJoin(parts[1..], sep, c);
    }
  }
}
