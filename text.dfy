/**
 * Text helpers shared by the calendar and the CSV export: decimal rendering
 * of naturals (Kotlin's string template of an Int), zero padding, splitting a
 * string on a separator, and the facts about them that the export relies on.
 */
module Text {

  predicate IsDigit(c: char) {
    '0' <= c <= '9'
  }

  predicate AllDigits(s: string) {
    forall i :: 0 <= i < |s| ==> IsDigit(s[i])
  }

  function DigitChar(n: nat): (c: char)
    requires n < 10
    ensures IsDigit(c) && DigitValue(c) == n
  {
    ('0' as int + n) as char
  }

  function DigitValue(c: char): nat
    requires IsDigit(c)
  {
    c as int - '0' as int
  }

  /** Decimal text of a natural number, without leading zeros. */
  function NatText(n: nat): (s: string)
    ensures 1 <= |s| && AllDigits(s)
    ensures s[0] == '0' <==> n == 0
    ensures n < 10 <==> |s| == 1
  {
    if n < 10 then [DigitChar(n)] else NatText(n / 10) + [DigitChar(n % 10)]
  }

  /** Reads a string of decimal digits back as a number. */
  function ParseNat(s: string): nat
    requires AllDigits(s)
  {
    if |s| == 0 then 0 else ParseNat(s[..|s| - 1]) * 10 + DigitValue(s[|s| - 1])
  }

  lemma {:induction false} ParseNatText(n: nat)
    ensures ParseNat(NatText(n)) == n
  {
    if n >= 10 {
      var s := NatText(n);
      assert s[..|s| - 1] == NatText(n / 10);
      ParseNatText(n / 10);
    }
  }

  lemma NatTextInjective(a: nat, b: nat)
    requires NatText(a) == NatText(b)
    ensures a == b
  {
    ParseNatText(a);
    ParseNatText(b);
  }

  /** Left-pads `s` with '0' up to `width` characters; longer strings are kept. */
  function PadLeft(s: string, width: nat): (r: string)
    ensures |r| == if |s| >= width then |s| else width
    decreases width - |s|
  {
    if |s| >= width then s else PadLeft(['0'] + s, width)
  }

  lemma {:induction false} ParseNatZeroPrefix(s: string)
    requires AllDigits(s)
    ensures ParseNat(['0'] + s) == ParseNat(s)
  {
    if |s| > 0 {
      assert (['0'] + s)[..|s|] == ['0'] + s[..|s| - 1];
      ParseNatZeroPrefix(s[..|s| - 1]);
    }
  }

  /** Leading zeros do not change the value read back. */
  lemma {:induction false} ParsePadLeft(s: string, width: nat)
    requires AllDigits(s)
    ensures AllDigits(PadLeft(s, width)) && ParseNat(PadLeft(s, width)) == ParseNat(s)
    decreases width - |s|
  {
    PadLeftDigits(s, width);
    if |s| < width {
      ParseNatZeroPrefix(s);
      ParsePadLeft(['0'] + s, width);
    }
  }

  lemma {:induction false} PadLeftDigits(s: string, width: nat)
    requires AllDigits(s)
    ensures AllDigits(PadLeft(s, width))
    decreases width - |s|
  {
    if |s| < width {
      PadLeftDigits(['0'] + s, width);
    }
  }

  /**
   * Splits `s` at every occurrence of `sep`, like Kotlin's `split(sep)`:
   * n separators give n + 1 pieces, empty pieces included.
   */
  function SplitOn(s: string, sep: char): (r: seq<string>)
    ensures |r| >= 1
  {
    if |s| == 0 then [""]
    else
      var rest := SplitOn(s[1..], sep);
      if s[0] == sep then [""] + rest else [[s[0]] + rest[0]] + rest[1..]
  }

  /** Joins the pieces with `sep` between consecutive ones. */
  function Join(pieces: seq<string>, sep: char): string
    requires |pieces| >= 1
  {
    if |pieces| == 1 then pieces[0] else pieces[0] + [sep] + Join(pieces[1..], sep)
  }

  /** A prefix free of the separator extends the first piece of what follows. */
  lemma {:induction false} SplitPrefix(a: string, tail: string, sep: char)
    requires sep !in a
    ensures SplitOn(a + tail, sep) == [a + SplitOn(tail, sep)[0]] + SplitOn(tail, sep)[1..]
  {
    if |a| > 0 {
      assert (a + tail)[1..] == a[1..] + tail;
      SplitPrefix(a[1..], tail, sep);
      assert [a[0]] + (a[1..] + SplitOn(tail, sep)[0]) == a + SplitOn(tail, sep)[0];
    } else {
      var r := SplitOn(tail, sep);
      assert a + tail == tail && a + r[0] == r[0];
      assert [r[0]] + r[1..] == r;
    }
  }

  /** A piece followed by the separator is split off whole. */
  lemma SplitAtSeparator(a: string, rest: string, sep: char)
    requires sep !in a
    ensures SplitOn(a + [sep] + rest, sep) == [a] + SplitOn(rest, sep)
  {
    assert a + [sep] + rest == a + ([sep] + rest);
    SplitPrefix(a, [sep] + rest, sep);
    assert ([sep] + rest)[1..] == rest;
    assert SplitOn([sep] + rest, sep) == [""] + SplitOn(rest, sep);
    assert a + "" == a;
  }

  /** Splitting undoes joining, provided no piece contains the separator. */
  lemma {:induction false} SplitJoin(pieces: seq<string>, sep: char)
    requires |pieces| >= 1
    requires forall i :: 0 <= i < |pieces| ==> sep !in pieces[i]
    ensures SplitOn(Join(pieces, sep), sep) == pieces
  {
    if |pieces| == 1 {
      SplitPrefix(pieces[0], "", sep);
      assert pieces[0] + "" == pieces[0];
    } else {
      SplitJoin(pieces[1..], sep);
      SplitAtSeparator(pieces[0], Join(pieces[1..], sep), sep);
      assert [pieces[0]] + pieces[1..] == pieces;
    }
  }

  /**
   * Two strings that each put a separator-free piece before the separator
   * agree on that piece and on what follows it.
   */
  lemma SplitFirstUnique(a: string, x: string, b: string, y: string, sep: char)
    requires sep !in a && sep !in b
    requires a + [sep] + x == b + [sep] + y
    ensures a == b && x == y
  {
    var s, t := a + [sep] + x, b + [sep] + y;
    var k := if |a| < |b| then |a| else |b|;
    assert s[k] == t[k];
    if |a| != |b| {
      assert false;
    }
    assert a == s[..|a|] == b;
    assert x == s[|a| + 1..] == y;
  }
}
