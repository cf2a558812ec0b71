/**
 * Strings as the Python code sees them: prefixes, substrings, ASCII lower-casing,
 * integer printing (`str(n)`, `f"{n:02d}"`), `str.split` on one character, and the
 * subset of `int(text)` that the model needs, with the round trips between them.
 */
module Text {
  import opened Wrappers

  predicate StartsWith(s: string, prefix: string) {
    |prefix| <= |s| && s[..|prefix|] == prefix
  }

  predicate EndsWith(s: string, suffix: string) {
    |suffix| <= |s| && s[|s| - |suffix|..] == suffix
  }

  /** Python's `sub in s`. */
  predicate Contains(s: string, sub: string)
    decreases |s|
  {
    StartsWith(s, sub) || (|s| > 0 && Contains(s[1..], sub))
  }

  /** `str.lower()` restricted to ASCII letters; other characters are kept. */
  function LowerChar(c: char): char {
    if 'A' <= c <= 'Z' then (c as int - 'A' as int + 'a' as int) as char else c
  }

  function Lower(s: string): (r: string)
    ensures |r| == |s|
    ensures forall i :: 0 <= i < |s| ==> r[i] == LowerChar(s[i])
  {
    seq(|s|, i requires 0 <= i < |s| => LowerChar(s[i]))
  }

  predicate IsDigit(c: char) {
    '0' <= c <= '9'
  }

  function DigitValue(c: char): nat
    requires IsDigit(c)
  {
    c as int - '0' as int
  }

  function DigitChar(d: nat): (c: char)
    requires d < 10
    ensures IsDigit(c) && DigitValue(c) == d
  {
    ('0' as int + d) as char
  }

  /** `str(n)` for a non-negative integer: decimal digits, no leading zeros. */
  function NatToString(n: nat): (s: string)
    ensures |s| > 0
    ensures forall i :: 0 <= i < |s| ==> IsDigit(s[i])
    decreases n
  {
    if n < 10 then [DigitChar(n)] else NatToString(n / 10) + [DigitChar(n % 10)]
  }

  /** `str(i)` for any integer. */
  function IntToString(i: int): (s: string)
    ensures |s| > 0
    ensures forall k :: 0 <= k < |s| ==> IsDigit(s[k]) || s[k] == '-'
  {
    if i < 0 then "-" + NatToString(-i) else NatToString(i)
  }

  /** `f"{n:02d}"` for a non-negative integer: at least two digits, zero padded. */
  function Pad2(n: nat): (s: string)
    ensures |s| >= 2
    ensures forall i :: 0 <= i < |s| ==> IsDigit(s[i])
  {
    if n < 10 then ['0', DigitChar(n)] else NatToString(n)
  }

  /**
   * The digits part of Python's `int(text)` in base 10: one or more ASCII digits,
   * where single underscores may separate two digits. None when malformed.
   */
  function DigitsValue(s: string): Option<nat>
    decreases |s|
  {
    if |s| == 0 || !IsDigit(s[|s| - 1]) then None
    else if |s| == 1 then Some(DigitValue(s[0]))
    else
      var prefix := if s[|s| - 2] == '_' then s[..|s| - 2] else s[..|s| - 1];
      match DigitsValue(prefix)
      case None => None
      case Some(v) => Some(v * 10 + DigitValue(s[|s| - 1]))
  }

  /** The characters `str.strip()` removes from the ends (the ASCII ones: tab to CR, the four separators, space). */
  predicate IsSpace(c: char) {
    c == ' ' || 9 <= c as int <= 13 || 28 <= c as int <= 31
  }

  function TrimLeft(s: string): (r: string)
    ensures |r| <= |s|
    decreases |s|
  {
    if |s| > 0 && IsSpace(s[0]) then TrimLeft(s[1..]) else s
  }

  function TrimRight(s: string): (r: string)
    ensures |r| <= |s|
    decreases |s|
  {
    if |s| > 0 && IsSpace(s[|s| - 1]) then TrimRight(s[..|s| - 1]) else s
  }

  /**
   * Python's `int(text)`: surrounding whitespace, an optional sign, then digits
   * (with single underscores between digits). None where Python raises ValueError.
   */
  function ParseInt(text: string): Option<int> {
    var t := TrimRight(TrimLeft(text));
    if |t| > 0 && (t[0] == '+' || t[0] == '-') then
      match DigitsValue(t[1..])
      case None => None
      case Some(v) => var n: int := v; Some(if t[0] == '-' then 0 - n else n)
    else
      match DigitsValue(t)
      case None => None
      case Some(v) => var unsigned: int := v; Some(unsigned)
  }

  /** Index of the first `c` in `s`, or |s| when `c` does not occur. */
  function IndexOf(s: string, c: char): (i: nat)
    ensures i <= |s|
    ensures i < |s| ==> s[i] == c
    ensures forall k :: 0 <= k < i ==> s[k] != c
    decreases |s|
  {
    if |s| == 0 then 0 else if s[0] == c then 0 else 1 + IndexOf(s[1..], c)
  }

  /** Python's `s.split(c)`: the maximal `c`-free pieces, always at least one. */
  function SplitOn(s: string, c: char): (pieces: seq<string>)
    ensures |pieces| > 0
    decreases |s|
  {
    var i := IndexOf(s, c);
    if i == |s| then [s] else [s[..i]] + SplitOn(s[i + 1..], c)
  }

  // ---------------------------------------------------------------- round trips

  lemma {:induction false} DigitsOfNatToString(n: nat)
    ensures DigitsValue(NatToString(n)) == Some(n)
    decreases n
  {
    if n >= 10 {
      var s := NatToString(n);
      DigitsOfNatToString(n / 10);
      assert s[..|s| - 1] == NatToString(n / 10);
      assert s[|s| - 2] != '_' by {
        assert IsDigit(NatToString(n / 10)[|NatToString(n / 10)| - 1]);
      }
    }
  }

  lemma DigitsOfPad2(n: nat)
    requires n < 60
    ensures DigitsValue(Pad2(n)) == Some(n)
  {
    if n < 10 {
      var s := Pad2(n);
      assert s[..1] == "0";
    } else {
      DigitsOfNatToString(n);
    }
  }

  /** Below 100, `f"{n:02d}"` is exactly two characters. */
  lemma Pad2Length(n: nat)
    requires n < 100
    ensures |Pad2(n)| == 2
  {
    if n >= 10 {
      assert NatToString(n) == NatToString(n / 10) + [DigitChar(n % 10)];
    }
  }

  lemma TrimDigits(s: string)
    requires |s| > 0
    requires forall i :: 0 <= i < |s| ==> IsDigit(s[i]) || s[i] == '-'
    ensures TrimRight(TrimLeft(s)) == s
  {
  }

  /** `int(str(i)) == i` for every integer. */
  lemma {:induction false} ParseIntOfIntToString(i: int)
    ensures ParseInt(IntToString(i)) == Some(i)
  {
    if i < 0 {
      ParseIntOfNegative(-i);
    } else {
      ParseIntOfNat(i);
    }
  }

  lemma ParseIntOfNat(n: nat)
    ensures ParseInt(NatToString(n)) == Some(n)
  {
    var s := NatToString(n);
    TrimDigits(s);
    assert IsDigit(s[0]);
    DigitsOfNatToString(n);
  }

  lemma ParseIntOfNegative(n: nat)
    ensures ParseInt("-" + NatToString(n)) == Some(-(n as int))
  {
    var s := "-" + NatToString(n);
    TrimDigits(s);
    assert s[0] == '-';
    assert s[1..] == NatToString(n);
    DigitsOfNatToString(n);
  }

  lemma {:induction false} SplitOnFree(s: string, c: char)
    requires forall k :: 0 <= k < |s| ==> s[k] != c
    ensures SplitOn(s, c) == [s]
  {
    assert IndexOf(s, c) == |s|;
  }

  /** Splitting `a + [c] + b` where `a` has no `c` yields `a` first, then the pieces of `b`. */
  lemma {:induction false} SplitOnCons(a: string, c: char, b: string)
    requires forall k :: 0 <= k < |a| ==> a[k] != c
    ensures SplitOn(a + [c] + b, c) == [a] + SplitOn(b, c)
  {
    var s := a + [c] + b;
    assert s[|a|] == c;
    assert forall k :: 0 <= k < |a| ==> s[k] == a[k];
    assert IndexOf(s, c) == |a|;
    assert s[..|a|] == a;
    assert s[|a| + 1..] == b;
  }
}
