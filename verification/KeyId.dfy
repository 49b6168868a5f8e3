/** Key ids: the unpadded base32 text of a hash, cut into groups by colons. */
module KeyId {
  import opened Text

  /** Groups of four; what is left over, four to seven characters, is the last group. */
  function Grouped(s: string): string {
    if |s| < 8 then s else s[..4] + ":" + Grouped(s[4..])
  }

  /** Go's `len(s)/4 - 1`, which is -1 for short texts: then the loop does not run. */
  method KeyIDEncode(s: string) returns (encoded: string)
    ensures encoded == Grouped(s)
  {
    var buf := "";
    var i := 0;
    while i < |s| / 4 - 1
      invariant 0 <= i && 4 * i <= |s|
      invariant i > 0 ==> i <= |s| / 4 - 1
      invariant buf + Grouped(s[4 * i..]) == Grouped(s)
    {
      var start := i * 4;
      var end := start + 4;
      assert s[start..][..4] == s[start..end];
      assert s[start..][4..] == s[end..];
      buf := buf + (s[start..end] + ":");
      i := i + 1;
    }
    encoded := buf + s[i * 4..];
  }

  function Delete(s: string, c: char): string {
    if s == "" then "" else (if s[0] == c then "" else [s[0]]) + Delete(s[1..], c)
  }

  lemma {:induction false} DeleteAppend(a: string, b: string, c: char)
    requires c !in a
    ensures Delete(a + b, c) == a + Delete(b, c)
  {
    if a == "" {
      assert a + b == b;
    } else {
      DeleteAppend(a[1..], b, c);
      assert (a + b)[1..] == a[1..] + b;
      assert a == [a[0]] + a[1..];
    }
  }

  lemma UngroupStep(head: string, tail: string)
    requires ':' !in head
    ensures Delete(head + ":" + tail, ':') == head + Delete(tail, ':')
  {
    assert head + ":" + tail == head + (":" + tail);
    DeleteAppend(head, ":" + tail, ':');
    assert (":" + tail)[1..] == tail;
  }

  /** Deleting the colons gives the text back. */
  lemma {:induction false} UngroupGrouped(s: string)
    requires ':' !in s
    ensures Delete(Grouped(s), ':') == s
  {
    if |s| < 8 {
      DeleteAppend(s, "", ':');
      assert s + "" == s;
    } else {
      UngroupGrouped(s[4..]);
      UngroupStep(s[..4], Grouped(s[4..]));
      assert s == s[..4] + s[4..];
    }
  }

  /** So grouping never maps two texts to one key id. */
  lemma GroupingIsInjective(a: string, b: string)
    requires ':' !in a && ':' !in b
    requires Grouped(a) == Grouped(b)
    ensures a == b
  {
    UngroupGrouped(a);
    UngroupGrouped(b);
  }

  /** The groups: all but the last have four characters; the last has four to seven, or is
      the whole text when that is shorter than four. */
  lemma {:induction false} GroupLengths(s: string)
    requires ':' !in s
    ensures var groups := Split(Grouped(s), ':');
      var last := groups[|groups| - 1];
      && (forall k :: 0 <= k < |groups| - 1 ==> |groups[k]| == 4)
      && (if |s| < 4 then groups == [s] else 4 <= |last| <= 7)
      && (|s| >= 4 ==> |groups| == |s| / 4)
  {
    if |s| < 8 {
      SplitNoSep(s, ':');
    } else {
      GroupLengths(s[4..]);
      SplitFirst(s[..4], ':', Grouped(s[4..]));
      var rest := Split(Grouped(s[4..]), ':');
      assert Split(Grouped(s), ':') == [s[..4]] + rest;
    }
  }
}
