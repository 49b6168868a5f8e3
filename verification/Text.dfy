/** The string functions the handlers rely on: `strings.Split`, `strings.HasPrefix`,
    `%d` printing and `fmt.Sscanf(s, "%d-%d", ...)`. */
module Text {
  import opened Prelude

  // ---------- strings.Split ----------

  function Split(s: string, sep: char): (parts: seq<string>)
    ensures |parts| >= 1
  {
    if s == "" then [""]
    else
      var rest := Split(s[1..], sep);
      if s[0] == sep then [""] + rest else [[s[0]] + rest[0]] + rest[1..]
  }

  function Join(parts: seq<string>, sep: char): string
    requires |parts| >= 1
  {
    if |parts| == 1 then parts[0] else parts[0] + [sep] + Join(parts[1..], sep)
  }

  function Count(s: string, c: char): nat {
    if s == "" then 0 else (if s[0] == c then 1 else 0) + Count(s[1..], c)
  }

  lemma JoinPrepend(c: char, parts: seq<string>, sep: char)
    requires |parts| >= 1
    ensures Join([[c] + parts[0]] + parts[1..], sep) == [c] + Join(parts, sep)
  {
    assert ([[c] + parts[0]] + parts[1..])[1..] == parts[1..];
  }

  lemma JoinEmptyFirst(parts: seq<string>, sep: char)
    requires |parts| >= 1
    ensures Join([""] + parts, sep) == [sep] + Join(parts, sep)
  {
    assert ([""] + parts)[1..] == parts;
  }

  lemma {:induction false} SplitCounts(s: string, sep: char)
    ensures forall k :: 0 <= k < |Split(s, sep)| ==> sep !in Split(s, sep)[k]
    ensures |Split(s, sep)| == Count(s, sep) + 1
  {
    if s != "" {
      SplitCounts(s[1..], sep);
    }
  }

  /** What Split means: the parts joined again are the text, no part holds the
      separator, and there is one more part than there are separators. */
  lemma {:induction false} SplitJoins(s: string, sep: char)
    ensures Join(Split(s, sep), sep) == s
    ensures forall k :: 0 <= k < |Split(s, sep)| ==> sep !in Split(s, sep)[k]
    ensures |Split(s, sep)| == Count(s, sep) + 1
  {
    SplitCounts(s, sep);
    if s != "" {
      SplitJoins(s[1..], sep);
      assert s == [s[0]] + s[1..];
      JoinEmptyFirst(Split(s[1..], sep), sep);
      JoinPrepend(s[0], Split(s[1..], sep), sep);
    }
  }

  lemma {:induction false} SplitNoSep(a: string, sep: char)
    requires sep !in a
    ensures Split(a, sep) == [a]
  {
    if a != "" {
      SplitNoSep(a[1..], sep);
      assert a == [a[0]] + a[1..];
    }
  }

  /** A separator-free prefix followed by the separator is exactly the first part. */
  lemma {:induction false} SplitFirst(a: string, sep: char, rest: string)
    requires sep !in a
    ensures Split(a + [sep] + rest, sep) == [a] + Split(rest, sep)
  {
    var s := a + [sep] + rest;
    if a == "" {
      assert s[1..] == rest;
    } else {
      SplitFirst(a[1..], sep, rest);
      assert s[1..] == a[1..] + [sep] + rest;
      assert a == [a[0]] + a[1..];
    }
  }

  /** Split is the inverse of Join on lists of separator-free parts. */
  lemma {:induction false} JoinSplits(parts: seq<string>, sep: char)
    requires |parts| >= 1
    requires forall k :: 0 <= k < |parts| ==> sep !in parts[k]
    ensures Split(Join(parts, sep), sep) == parts
  {
    if |parts| == 1 {
      SplitNoSep(parts[0], sep);
    } else {
      JoinSplits(parts[1..], sep);
      SplitFirst(parts[0], sep, Join(parts[1..], sep));
    }
  }

  // ---------- strings.HasPrefix ----------

  predicate HasPrefix(s: string, prefix: string) {
    |prefix| <= |s| && s[..|prefix|] == prefix
  }

  // ---------- %d ----------

  predicate IsDigit(c: char) {
    '0' <= c <= '9'
  }

  function DigitChar(d: nat): (c: char)
    requires d < 10
    ensures IsDigit(c) && DigitValue(c) == d
  {
    '0' + d as char
  }

  function DigitValue(c: char): nat
    requires IsDigit(c)
  {
    c as nat - '0' as nat
  }

  predicate AllDigits(s: string) {
    forall k :: 0 <= k < |s| ==> IsDigit(s[k])
  }

  function Nat(n: nat): (s: string)
    ensures s != "" && AllDigits(s)
    ensures s[0] == '0' <==> n == 0
    ensures n == 0 ==> |s| == 1
  {
    if n < 10 then [DigitChar(n)] else Nat(n / 10) + [DigitChar(n % 10)]
  }

  function Itoa(n: int): string {
    if n < 0 then "-" + Nat(-n) else Nat(n)
  }

  function ValueOf(s: string): nat
    requires AllDigits(s)
  {
    if s == "" then 0 else ValueOf(s[..|s| - 1]) * 10 + DigitValue(s[|s| - 1])
  }

  lemma {:induction false} NatRoundTrip(n: nat)
    ensures ValueOf(Nat(n)) == n
  {
    var s := Nat(n);
    if n < 10 {
      assert s[..0] == "";
    } else {
      NatRoundTrip(n / 10);
      assert s[..|s| - 1] == Nat(n / 10);
    }
  }

  // ---------- fmt.Sscanf(s, "%d-%d", &start, &end) ----------

  predicate IsSpace(c: char) {
    c == ' ' || c == '\t'
  }

  function SkipSpace(s: string): (rest: string)
    ensures s != "" && !IsSpace(s[0]) ==> rest == s
  {
    if s != "" && IsSpace(s[0]) then SkipSpace(s[1..]) else s
  }

  function DigitsEnd(s: string, i: nat): (j: nat)
    requires i <= |s|
    ensures i <= j <= |s|
    ensures AllDigits(s[i..j])
    ensures j < |s| ==> !IsDigit(s[j])
    decreases |s| - i
  {
    if i < |s| && IsDigit(s[i]) then DigitsEnd(s, i + 1) else i
  }

  /** `%d`: blanks, an optional sign, at least one digit, a value that fits 64 bits.
      Gives the value and the unread rest. */
  function ScanInt(s: string): Option<(int, string)> {
    var t := SkipSpace(s);
    var i := if t != "" && (t[0] == '+' || t[0] == '-') then 1 else 0;
    var j := DigitsEnd(t, i);
    if i == j then None
    else
      var v: int := ValueOf(t[i..j]);
      var n := if t[0] == '-' then -v else v;
      if -0x8000_0000_0000_0000 <= n < 0x8000_0000_0000_0000 then Some((n, t[j..])) else None
  }

  /** `%d-%d`; text after the second number is ignored. */
  function ScanRange(s: string): Option<(int, int)> {
    match ScanInt(s)
    case None => None
    case Some((start, rest)) =>
      if rest == "" || rest[0] != '-' then None
      else
        match ScanInt(rest[1..])
        case None => None
        case Some((end, _)) => Some((start, end))
  }

  function RangeText(start: int, end: int): string {
    Itoa(start) + "-" + Itoa(end)
  }

  lemma {:induction false} DigitsEndExact(a: string, rest: string, i: nat)
    requires i <= |a| && AllDigits(a)
    requires rest != "" ==> !IsDigit(rest[0])
    ensures DigitsEnd(a + rest, i) == |a|
    decreases |a| - i
  {
    if i < |a| {
      assert (a + rest)[i] == a[i];
      DigitsEndExact(a, rest, i + 1);
    } else if rest != "" {
      assert (a + rest)[i] == rest[0];
    }
  }

  const INT64_LIMIT: nat := 0x8000_0000_0000_0000

  lemma ScanNat(n: nat, rest: string)
    requires rest != "" ==> !IsDigit(rest[0])
    ensures ScanInt(Nat(n) + rest) == if n < INT64_LIMIT then Some((n, rest)) else None
  {
    var s := Nat(n) + rest;
    assert s[0] == Nat(n)[0];
    assert SkipSpace(s) == s;
    DigitsEndExact(Nat(n), rest, 0);
    NatRoundTrip(n);
    assert s[0..|Nat(n)|] == Nat(n);
    assert s[|Nat(n)|..] == rest;
  }

  /** Scanning a printed range gives both numbers back, exactly when both fit 64 bits. */
  lemma RangeRoundTrip(start: nat, end: nat)
    ensures ScanRange(RangeText(start, end)) ==
      if start < INT64_LIMIT && end < INT64_LIMIT then Some((start as int, end as int)) else None
  {
    var tail := "-" + Nat(end);
    assert RangeText(start, end) == Nat(start) + tail;
    ScanNat(start, tail);
    assert tail[1..] == Nat(end) + "";
    ScanNat(end, "");
  }

  /** The textual test for the prefix "0-" on a printed range is the test start == 0. */
  lemma ZeroPrefixIsZeroStart(start: nat, end: int)
    ensures HasPrefix(RangeText(start, end), "0-") <==> start == 0
  {
    var s := RangeText(start, end);
    assert s[0] == Nat(start)[0];
    if start == 0 {
      assert Nat(0) == "0";
      assert s[..2] == "0-";
    } else {
      assert s[..2][0] != '0';
    }
  }

  /** The same for an end of -1, which the server reports while it has no byte. */
  lemma EmptyRangeScans()
    ensures ScanRange(RangeText(0, -1)) == Some((0, -1))
  {
    assert Nat(0) == "0" && Nat(1) == "1";
    var tail := "--1";
    assert RangeText(0, -1) == Nat(0) + tail;
    ScanNat(0, tail);
    var minusOne := tail[1..];
    assert minusOne == "-1" && SkipSpace(minusOne) == minusOne;
    DigitsEndExact("1", "", 0);
    assert DigitsEnd(minusOne, 1) == 2;
    assert minusOne[1..2] == "1";
    NatRoundTrip(1);
  }

  /** A printed range from 0, its end -1 or more. */
  lemma ReportedRangeScans(end: int)
    requires end >= -1
    ensures ScanRange(RangeText(0, end)) == if end < INT64_LIMIT then Some((0, end)) else None
  {
    if end == -1 {
      EmptyRangeScans();
    } else {
      RangeRoundTrip(0, end);
    }
  }

  // ---------- what the scanner accepts, on any text ----------

  lemma HasPrefixMeans(s: string, prefix: string)
    ensures HasPrefix(s, prefix) <==> exists rest :: s == prefix + rest
  {
    if HasPrefix(s, prefix) {
      assert s == prefix + s[|prefix|..];
    }
  }

  predicate AllSpaces(s: string) {
    forall k :: 0 <= k < |s| ==> s[k] == ' ' || s[k] == '\t'
  }

  lemma {:induction false} SkipSpaces(blanks: string, s: string)
    requires AllSpaces(blanks) && (s != "" ==> !IsSpace(s[0]))
    ensures SkipSpace(blanks + s) == s
  {
    if blanks == "" {
      assert blanks + s == s;
    } else {
      SkipSpaces(blanks[1..], s);
      assert (blanks + s)[1..] == blanks[1..] + s;
    }
  }

  /** A further digit is worth what it is in base ten. */
  lemma DigitAppends(s: string, c: char)
    requires AllDigits(s) && IsDigit(c)
    ensures AllDigits(s + [c]) && ValueOf(s + [c]) == 10 * ValueOf(s) + (c as int - '0' as int)
  {
    assert (s + [c])[..|s|] == s;
  }

  /** Leading zeros are worth nothing. */
  lemma {:induction false} LeadingZero(s: string)
    requires AllDigits(s)
    ensures ValueOf("0" + s) == ValueOf(s)
  {
    var t := "0" + s;
    assert AllDigits(t);
    if s == "" {
      assert t == "0" && t[..0] == "";
    } else {
      LeadingZero(s[..|s| - 1]);
      assert t[..|t| - 1] == "0" + s[..|s| - 1];
    }
  }

  lemma {:induction false} DigitsOnlyEnd(t: string, i: nat, j: nat)
    requires i <= j <= |t| && (forall k :: i <= k < j ==> IsDigit(t[k]))
    requires j < |t| ==> !IsDigit(t[j])
    ensures DigitsEnd(t, i) == j
    decreases j - i
  {
    if i < j {
      DigitsOnlyEnd(t, i + 1, j);
    }
  }

  lemma BlanksAreSkipped(blanks: string, t: string)
    requires AllSpaces(blanks) && (t != "" ==> !IsSpace(t[0]))
    ensures ScanInt(blanks + t) == ScanInt(t)
  {
    SkipSpaces(blanks, t);
  }

  /** One number, after the blanks: an optional sign, then the longest run of digits, from `i` to
      `j`. It is read exactly when there is a digit and the signed value fits 64 bits; the rest
      is left unread. */
  lemma ScanIntMeans(blanks: string, t: string, i: nat, j: nat)
    requires AllSpaces(blanks) && (t != "" ==> t[0] != ' ' && t[0] != '\t')
    requires i == if t != "" && (t[0] == '+' || t[0] == '-') then 1 else 0
    requires i <= j <= |t| && (forall k :: i <= k < j ==> IsDigit(t[k])) && (j < |t| ==> !IsDigit(t[j]))
    ensures AllDigits(t[i..j])
    ensures var n: int := ValueOf(t[i..j]);
      var v := if i == 1 && t[0] == '-' then -n else n;
      ScanInt(blanks + t) ==
        if i < j && -0x8000_0000_0000_0000 <= v < 0x8000_0000_0000_0000 then Some((v, t[j..])) else None
  {
    DigitsOnlyEnd(t, i, j);
    BlanksAreSkipped(blanks, t);
    assert SkipSpace(t) == t;
  }

  /** Two numbers with a dash between them, whatever follows. */
  lemma ScanRangeMeans(s: string, tail: string, first: int)
    requires ScanInt(s) == Some((first, tail))
    ensures ScanRange(s) ==
      if tail != "" && tail[0] == '-' && ScanInt(tail[1..]).Some? then Some((first, ScanInt(tail[1..]).value.0))
      else None
  {
  }
}
