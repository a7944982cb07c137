/**
 * The pieces of Python's `str` behaviour that the application relies on:
 * ASCII case mapping (`lower`, `capitalize`), `strip`, substring tests,
 * `split("\n")` / `"\n".join(...)`, and `str(int)` together with a reader
 * that recovers the integer from its decimal text.
 */
module Text {
  import opened Wrappers

  // ---------------------------------------------------------------------------
  // Case mapping (ASCII letters only)
  // ---------------------------------------------------------------------------

  function LowerChar(c: char): char {
    if 'A' <= c <= 'Z' then (c as int + 32) as char else c
  }

  function UpperChar(c: char): char {
    if 'a' <= c <= 'z' then (c as int - 32) as char else c
  }

  /** `s.lower()`, restricted to ASCII letters. */
  function Lower(s: string): (r: string)
    ensures |r| == |s|
    ensures forall i :: 0 <= i < |s| ==> r[i] == LowerChar(s[i])
  {
    if s == [] then [] else [LowerChar(s[0])] + Lower(s[1..])
  }

  /** `s.capitalize()`: the first character upper-cased, every other one lower-cased. */
  function Capitalize(s: string): (r: string)
    ensures |r| == |s|
    ensures s != [] ==> r[0] == UpperChar(s[0]) && r[1..] == Lower(s[1..])
  {
    if s == [] then [] else [UpperChar(s[0])] + Lower(s[1..])
  }

  /** Case-insensitive (ASCII) equality, as `re.IGNORECASE` compares literal characters. */
  predicate EqualsIgnoreCase(a: string, b: string) {
    Lower(a) == Lower(b)
  }

  /** `w` occurs in `s` at position `i`, ignoring ASCII case. */
  predicate OccursAtIgnoreCase(s: string, w: string, i: nat) {
    i + |w| <= |s| && EqualsIgnoreCase(s[i..i + |w|], w)
  }

  /** Python's `w in s`. */
  predicate Contains(s: string, w: string) {
    exists i :: 0 <= i <= |s| && w <= s[i..]
  }

  // ---------------------------------------------------------------------------
  // strip()
  // ---------------------------------------------------------------------------

  /** The characters for which Python's `str.isspace()` holds. */
  predicate IsSpace(c: char) {
    c == ' ' || '\t' <= c <= '\r' || '\U{1C}' <= c <= '\U{1F}' || c == '\U{85}' || c == '\U{A0}' ||
    c == '\U{1680}' || '\U{2000}' <= c <= '\U{200A}' || c == '\U{2028}' || c == '\U{2029}' ||
    c == '\U{202F}' || c == '\U{205F}' || c == '\U{3000}'
  }

  predicate AllSpace(s: string) {
    forall i :: 0 <= i < |s| ==> IsSpace(s[i])
  }

  function StripLeft(s: string): string {
    if s != [] && IsSpace(s[0]) then StripLeft(s[1..]) else s
  }

  function StripRight(s: string): string {
    if s != [] && IsSpace(s[|s| - 1]) then StripRight(s[..|s| - 1]) else s
  }

  /** `s.lstrip()` keeps a suffix of `s`, cuts off only white space, and leaves no white space in front. */
  lemma {:induction false} StripLeftTrims(s: string)
    ensures var r := StripLeft(s);
      |r| <= |s| && r == s[|s| - |r|..] && AllSpace(s[..|s| - |r|]) && (r == [] || !IsSpace(r[0]))
  {
    if s != [] && IsSpace(s[0]) {
      var t := s[1..];
      StripLeftTrims(t);
      var r := StripLeft(s);
      assert r == StripLeft(t);
      assert t[|t| - |r|..] == s[|s| - |r|..];
      assert s[..|s| - |r|] == [s[0]] + t[..|t| - |r|];
    }
  }

  /** `s.rstrip()` keeps a prefix of `s`, cuts off only white space, and leaves no white space at the end. */
  lemma {:induction false} StripRightTrims(s: string)
    ensures var r := StripRight(s);
      |r| <= |s| && r == s[..|r|] && AllSpace(s[|r|..]) && (r == [] || !IsSpace(r[|r| - 1]))
  {
    if s != [] && IsSpace(s[|s| - 1]) {
      var t := s[..|s| - 1];
      StripRightTrims(t);
      var r := StripRight(s);
      assert r == StripRight(t);
      assert t[..|r|] == s[..|r|];
      assert s[|r|..] == t[|r|..] + [s[|s| - 1]];
    }
  }

  /** `s.strip()`: `s` without its leading and trailing white space. */
  function Strip(s: string): string {
    StripRight(StripLeft(s))
  }

  /** Stripping leaves a slice of `s` with only white space cut off around it, and no white space at either end. */
  lemma StripTrims(s: string)
    ensures var r := Strip(s);
      (exists i, j :: 0 <= i <= j <= |s| && r == s[i..j] && AllSpace(s[..i]) && AllSpace(s[j..])) &&
      (r == [] || (!IsSpace(r[0]) && !IsSpace(r[|r| - 1])))
  {
    var l := StripLeft(s);
    StripLeftTrims(s);
    StripRightTrims(l);
    StripBounds(s, l, Strip(s));
  }

  /** Stripping the right end of the left-stripped text leaves a slice of `s` with only white space around it. */
  lemma StripBounds(s: string, l: string, r: string)
    requires |l| <= |s| && l == s[|s| - |l|..] && AllSpace(s[..|s| - |l|])
    requires |r| <= |l| && r == l[..|r|] && AllSpace(l[|r|..])
    ensures exists i, j :: 0 <= i <= j <= |s| && r == s[i..j] && AllSpace(s[..i]) && AllSpace(s[j..])
  {
    var i := |s| - |l|;
    var j := i + |r|;
    assert s[i..j] == l[..|r|];
    assert s[j..] == l[|r|..];
  }

  // ---------------------------------------------------------------------------
  // split(sep) and sep.join(...)
  // ---------------------------------------------------------------------------

  /** Python's `s.split(sep)` for a one-character separator: never empty; `""` gives `[""]`. */
  function Split(s: string, sep: char): (r: seq<string>)
    ensures |r| >= 1
  {
    if s == [] then [""]
    else
      var rest := Split(s[1..], sep);
      if s[0] == sep then [""] + rest else [[s[0]] + rest[0]] + rest[1..]
  }

  /** Python's `sep.join(lines)`. */
  function Join(lines: seq<string>, sep: char): string {
    if lines == [] then ""
    else if |lines| == 1 then lines[0]
    else lines[0] + [sep] + Join(lines[1..], sep)
  }

  /** No piece of a split contains the separator. */
  lemma {:induction false} SplitPiecesFree(s: string, sep: char)
    ensures forall k :: 0 <= k < |Split(s, sep)| ==> sep !in Split(s, sep)[k]
  {
    if s != [] {
      SplitPiecesFree(s[1..], sep);
      var rest := Split(s[1..], sep);
      if s[0] != sep {
        assert sep !in [s[0]] + rest[0];
      }
    }
  }

  /** Joining the pieces of a split gives back the text. */
  lemma {:induction false} JoinSplit(s: string, sep: char)
    ensures Join(Split(s, sep), sep) == s
  {
    if s != [] {
      var rest := Split(s[1..], sep);
      JoinSplit(s[1..], sep);
      if s[0] == sep {
        assert Split(s, sep) == [""] + rest;
      } else {
        var r := [[s[0]] + rest[0]] + rest[1..];
        assert Split(s, sep) == r;
        if |rest| == 1 {
          assert Join(r, sep) == [s[0]] + rest[0];
        } else {
          assert r[1..] == rest[1..];
          assert Join(r, sep) == [s[0]] + (rest[0] + [sep] + Join(rest[1..], sep));
        }
      }
    }
  }

  /** Splitting a join of separator-free pieces gives back the pieces. */
  lemma {:induction false} SplitJoin(lines: seq<string>, sep: char)
    requires |lines| >= 1
    requires forall k :: 0 <= k < |lines| ==> sep !in lines[k]
    ensures Split(Join(lines, sep), sep) == lines
  {
    if |lines| == 1 {
      SplitFree(lines[0], sep);
    } else {
      SplitJoin(lines[1..], sep);
      SplitAfterSep(lines[0], Join(lines[1..], sep), sep);
      assert Join(lines, sep) == lines[0] + [sep] + Join(lines[1..], sep);
      assert [lines[0]] + lines[1..] == lines;
    }
  }

  lemma {:induction false} SplitFree(s: string, sep: char)
    requires sep !in s
    ensures Split(s, sep) == [s]
  {
    if s != [] {
      assert sep !in s[1..];
      SplitFree(s[1..], sep);
      assert [s[0]] + s[1..] == s;
    }
  }

  lemma {:induction false} SplitAfterSep(a: string, b: string, sep: char)
    requires sep !in a
    ensures Split(a + [sep] + b, sep) == [a] + Split(b, sep)
  {
    if a == [] {
      assert a + [sep] + b == [sep] + b;
      assert ([sep] + b)[1..] == b;
    } else {
      var t := a + [sep] + b;
      assert t[1..] == a[1..] + [sep] + b;
      SplitAfterSep(a[1..], b, sep);
      assert [a[0]] + a[1..] == a;
    }
  }

  /** A separator between two texts separates their pieces. */
  lemma {:induction false} SplitConcat(a: string, b: string, sep: char)
    ensures Split(a + [sep] + b, sep) == Split(a, sep) + Split(b, sep)
  {
    if a == [] {
      SplitAtSep(b, sep);
      assert a + [sep] + b == [sep] + b;
    } else {
      var c, a' := a[0], a[1..];
      var t' := a' + [sep] + b;
      SplitConcat(a', b, sep);
      assert a + [sep] + b == [c] + t';
      assert a == [c] + a';
      if c == sep {
        SplitAtSep(t', sep);
        SplitAtSep(a', sep);
        SepPieces(Split(t', sep), Split(a', sep), Split(b, sep), Split([c] + t', sep), Split([c] + a', sep));
      } else {
        SplitAtOther(c, t', sep);
        SplitAtOther(c, a', sep);
        OtherPieces(c, Split(t', sep), Split(a', sep), Split(b, sep), Split([c] + t', sep), Split([c] + a', sep));
      }
    }
  }

  /** A leading separator starts an empty piece. */
  lemma SplitAtSep(s: string, sep: char)
    ensures Split([sep] + s, sep) == [""] + Split(s, sep)
  {
    assert ([sep] + s)[1..] == s;
  }

  /** Any other leading character joins the first piece. */
  lemma SplitAtOther(c: char, s: string, sep: char)
    requires c != sep
    ensures Split([c] + s, sep) == [[c] + Split(s, sep)[0]] + Split(s, sep)[1..]
  {
    assert ([c] + s)[1..] == s;
  }

  /** The inductive steps of `SplitConcat`, on the pieces alone. */
  lemma SepPieces(pieces: seq<string>, ra: seq<string>, rb: seq<string>, whole: seq<string>, left: seq<string>)
    requires pieces == ra + rb && whole == [""] + pieces && left == [""] + ra
    ensures whole == left + rb
  {
  }

  lemma OtherPieces(c: char, pieces: seq<string>, ra: seq<string>, rb: seq<string>, whole: seq<string>, left: seq<string>)
    requires |ra| >= 1 && pieces == ra + rb
    requires whole == [[c] + pieces[0]] + pieces[1..] && left == [[c] + ra[0]] + ra[1..]
    ensures whole == left + rb
  {
    assert pieces[1..] == ra[1..] + rb;
  }

  /** Every piece of a split occurs in the text; the first one is a prefix of it. */
  lemma {:induction false} PieceAt(s: string, sep: char, k: nat)
    requires k < |Split(s, sep)|
    ensures Contains(s, Split(s, sep)[k])
    ensures k == 0 ==> Split(s, sep)[0] <= s
  {
    var pieces := Split(s, sep);
    if s == [] {
      assert pieces[k] <= s[0..];
    } else {
      var c, t := s[0], s[1..];
      assert s == [c] + t;
      var rest := Split(t, sep);
      if c == sep {
        SplitAtSep(t, sep);
        if k == 0 {
          assert pieces[0] <= s[0..];
        } else {
          assert pieces[k] == rest[k - 1];
          PieceAt(t, sep, k - 1);
          ContainsTail(s, pieces[k]);
        }
      } else {
        SplitAtOther(c, t, sep);
        if k == 0 {
          PieceAt(t, sep, 0);
          PrefixCons(c, t, rest[0]);
          assert pieces[0] <= s[0..];
        } else {
          assert pieces[k] == rest[k];
          PieceAt(t, sep, k);
          ContainsTail(s, pieces[k]);
        }
      }
    }
  }

  lemma PrefixCons(c: char, t: string, p: string)
    requires p <= t
    ensures [c] + p <= [c] + t
  {
    assert ([c] + t)[..|p| + 1] == [c] + p;
  }

  lemma ContainsTail(s: string, w: string)
    requires s != [] && Contains(s[1..], w)
    ensures Contains(s, w)
  {
    var i :| 0 <= i <= |s| - 1 && w <= s[1..][i..];
    assert s[1..][i..] == s[i + 1..];
  }

  /** What occurs in a text that occurs in `s` occurs in `s`. */
  lemma ContainsTrans(s: string, p: string, w: string)
    requires Contains(s, p) && Contains(p, w)
    ensures Contains(s, w)
  {
    var i :| 0 <= i <= |s| && p <= s[i..];
    var j :| 0 <= j <= |p| && w <= p[j..];
    assert w <= s[i + j..];
  }

  // ---------------------------------------------------------------------------
  // str(int) and reading it back
  // ---------------------------------------------------------------------------

  predicate IsDigit(c: char) {
    '0' <= c <= '9'
  }

  function DigitChar(d: nat): (c: char)
    requires d < 10
    ensures IsDigit(c) && DigitValue(c) == d
  {
    ('0' as int + d) as char
  }

  function DigitValue(c: char): nat
    requires IsDigit(c)
  {
    c as int - '0' as int
  }

  /** The value of a run of decimal digits, most significant first. */
  function DigitsValue(ds: string): nat
    requires forall i :: 0 <= i < |ds| ==> IsDigit(ds[i])
  {
    if ds == [] then 0 else DigitsValue(ds[..|ds| - 1]) * 10 + DigitValue(ds[|ds| - 1])
  }

  /** Python's `str(n)` for a natural number. */
  function NatToString(n: nat): (r: string)
    ensures r != [] && forall i :: 0 <= i < |r| ==> IsDigit(r[i])
  {
    if n < 10 then [DigitChar(n)] else NatToString(n / 10) + [DigitChar(n % 10)]
  }

  /** The digits of `str(n)` are worth `n`. */
  lemma {:induction false} NatToStringValue(n: nat)
    ensures DigitsValue(NatToString(n)) == n
  {
    if n >= 10 {
      NatToStringValue(n / 10);
      var r := NatToString(n);
      assert r[..|r| - 1] == NatToString(n / 10);
    }
  }

  /** Python's `str(n)`. */
  function IntToString(n: int): (r: string)
    ensures r != []
  {
    if n < 0 then "-" + NatToString(-n) else NatToString(n)
  }

  /** The longest prefix of `s` made of digits. */
  function LeadingDigits(s: string): (r: string)
    ensures r <= s && forall i :: 0 <= i < |r| ==> IsDigit(r[i])
    ensures |r| == |s| || !IsDigit(s[|r|])
  {
    if s != [] && IsDigit(s[0]) then [s[0]] + LeadingDigits(s[1..]) else []
  }

  /**
   * Reads an optionally signed decimal integer from the front of `s`, taking
   * every digit that follows; gives the value and the text after it.
   */
  function ReadInt(s: string): Option<(int, string)> {
    var neg := s != [] && s[0] == '-';
    var body := if neg then s[1..] else s;
    var ds := LeadingDigits(body);
    if ds == [] then None
    else Some((if neg then -(DigitsValue(ds) as int) else DigitsValue(ds), body[|ds|..]))
  }

  lemma {:induction false} LeadingDigitsOfDigits(ds: string, rest: string)
    requires forall i :: 0 <= i < |ds| ==> IsDigit(ds[i])
    requires rest == [] || !IsDigit(rest[0])
    ensures LeadingDigits(ds + rest) == ds
  {
    if ds != [] {
      assert (ds + rest)[1..] == ds[1..] + rest;
      LeadingDigitsOfDigits(ds[1..], rest);
    }
  }

  /** `str(n)` followed by a non-digit reads back as `n` and the text after it. */
  lemma ReadIntToString(n: int, rest: string)
    requires rest == [] || !IsDigit(rest[0])
    ensures ReadInt(IntToString(n) + rest) == Some((n, rest))
  {
    var m: nat := if n < 0 then -n else n;
    var digits := NatToString(m);
    NatToStringValue(m);
    LeadingDigitsOfDigits(digits, rest);
    if n < 0 {
      ReadNegative(digits, rest);
      assert IntToString(n) + rest == "-" + (digits + rest);
    } else {
      ReadDigits(digits, rest);
    }
  }

  lemma ReadDigits(digits: string, rest: string)
    requires digits != [] && forall i :: 0 <= i < |digits| ==> IsDigit(digits[i])
    requires LeadingDigits(digits + rest) == digits
    ensures ReadInt(digits + rest) == Some((DigitsValue(digits) as int, rest))
  {
    assert (digits + rest)[0] == digits[0];
    assert (digits + rest)[|digits|..] == rest;
  }

  lemma ReadNegative(digits: string, rest: string)
    requires digits != [] && forall i :: 0 <= i < |digits| ==> IsDigit(digits[i])
    requires LeadingDigits(digits + rest) == digits
    ensures ReadInt("-" + (digits + rest)) == Some((-(DigitsValue(digits) as int), rest))
  {
    assert ("-" + (digits + rest))[1..] == digits + rest;
    assert (digits + rest)[|digits|..] == rest;
  }

}
