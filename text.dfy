/** The Python `str` operations the core relies on: ASCII case mapping,
    character replacement, decimal formatting (`str(i)`, `f"{i:03d}"`) and
    `strip()`. */
module Text {

  predicate IsAsciiUpper(c: char) { 'A' <= c <= 'Z' }
  predicate IsAsciiLower(c: char) { 'a' <= c <= 'z' }
  predicate IsAsciiLetter(c: char) { IsAsciiUpper(c) || IsAsciiLower(c) }

  function LowerChar(c: char): char
  {
    if IsAsciiUpper(c) then (c as int + 32) as char else c
  }

  function UpperChar(c: char): char
  {
    if IsAsciiLower(c) then (c as int - 32) as char else c
  }

  /** `s.lower()` restricted to ASCII letters. */
  function Lower(s: string): string
  {
    seq(|s|, i requires 0 <= i < |s| => LowerChar(s[i]))
  }

  /** `s.upper()` restricted to ASCII letters. */
  function Upper(s: string): string
  {
    seq(|s|, i requires 0 <= i < |s| => UpperChar(s[i]))
  }

  /** A text without upper-case letters is its own lower-casing. */
  lemma LowerFixed(s: string)
    requires forall i :: 0 <= i < |s| ==> !IsAsciiUpper(s[i])
    ensures Lower(s) == s
  {
  }

  /** Lower-casing first does not change the upper-cased form, so two strings
      with the same lower-case form have the same upper-case form. */
  lemma UpperOfLower(s: string)
    ensures Upper(Lower(s)) == Upper(s)
  {
    forall i | 0 <= i < |s|
      ensures Upper(Lower(s))[i] == Upper(s)[i]
    {
      var c := s[i];
      if IsAsciiUpper(c) {
        assert LowerChar(c) as int == c as int + 32;
      }
    }
  }

  /** Upper-casing twice is upper-casing once. */
  lemma UpperIdempotent(s: string)
    ensures Upper(Upper(s)) == Upper(s)
  {
    forall i | 0 <= i < |s|
      ensures Upper(Upper(s))[i] == Upper(s)[i]
    {
      var c := s[i];
      if IsAsciiLower(c) {
        assert UpperChar(c) as int == c as int - 32;
      }
    }
  }

  /** `s.replace(from, to)` for single characters. */
  function ReplaceChar(s: string, from: char, to: char): string
  {
    seq(|s|, i requires 0 <= i < |s| => if s[i] == from then to else s[i])
  }

  /** Replacing leaves no `from` behind and keeps every other character in
      place, so replacing again changes nothing. */
  lemma ReplaceCharRemoves(s: string, from: char, to: char)
    requires from != to
    ensures |ReplaceChar(s, from, to)| == |s| && from !in ReplaceChar(s, from, to)
    ensures forall i :: 0 <= i < |s| && s[i] != from ==> ReplaceChar(s, from, to)[i] == s[i]
    ensures ReplaceChar(ReplaceChar(s, from, to), from, to) == ReplaceChar(s, from, to)
  {
  }

  predicate StartsWith(s: string, prefix: string)
  {
    |prefix| <= |s| && s[..|prefix|] == prefix
  }

  predicate IsDigit(c: char) { '0' <= c <= '9' }

  predicate AllDigits(s: string)
  {
    forall i :: 0 <= i < |s| ==> IsDigit(s[i])
  }

  function DigitChar(d: nat): char
    requires d < 10
  {
    ('0' as int + d) as char
  }

  /** `str(n)` for a natural number: decimal digits, no leading zero. */
  function NatToString(n: nat): (s: string)
    ensures |s| >= 1 && AllDigits(s)
    ensures n > 0 ==> s[0] != '0'
    ensures n < 10 <==> |s| == 1
    ensures 10 <= n < 100 ==> |s| == 2
    ensures 100 <= n < 1000 ==> |s| == 3
    ensures n >= 1000 ==> |s| > 3
    decreases n
  {
    if n < 10 then [DigitChar(n)]
    else NatToString(n / 10) + [DigitChar(n % 10)]
  }

  /** The number a string of decimal digits denotes. */
  function DigitsValue(s: string): nat
    requires AllDigits(s)
    decreases |s|
  {
    if s == [] then 0
    else DigitsValue(s[..|s| - 1]) * 10 + (s[|s| - 1] as int - '0' as int)
  }

  lemma {:induction false} NatToStringValue(n: nat)
    ensures DigitsValue(NatToString(n)) == n
    decreases n
  {
    if n >= 10 {
      NatToStringValue(n / 10);
      var s := NatToString(n);
      assert s[..|s| - 1] == NatToString(n / 10);
    }
  }

  lemma {:induction false} LeadingZeroValue(s: string)
    requires AllDigits(s)
    ensures AllDigits("0" + s) && DigitsValue("0" + s) == DigitsValue(s)
    decreases |s|
  {
    if s != [] {
      LeadingZeroValue(s[..|s| - 1]);
      assert ("0" + s)[..|s|] == "0" + s[..|s| - 1];
    }
  }

  function Zeros(n: nat): (z: string)
    ensures |z| == n && AllDigits(z)
  {
    seq(n, _ => '0')
  }

  lemma {:induction false} ZerosValue(n: nat, s: string)
    requires AllDigits(s)
    ensures AllDigits(Zeros(n) + s) && DigitsValue(Zeros(n) + s) == DigitsValue(s)
    decreases n
  {
    if n > 0 {
      ZerosValue(n - 1, s);
      assert Zeros(n) == "0" + Zeros(n - 1);
      assert Zeros(n) + s == "0" + (Zeros(n - 1) + s);
      LeadingZeroValue(Zeros(n - 1) + s);
    } else {
      assert Zeros(n) + s == s;
    }
  }

  /** `f"{n:03d}"`: the decimal digits of `n`, zero-padded to at least three. */
  function Pad3(n: nat): (s: string)
    ensures AllDigits(s) && |s| >= 3
    ensures n < 1000 ==> |s| == 3
    ensures DigitsValue(s) == n
  {
    var d := NatToString(n);
    var z := if |d| < 3 then Zeros(3 - |d|) else "";
    NatToStringValue(n);
    assert z == Zeros(|z|);
    ZerosValue(|z|, d);
    assert |z + d| >= 3;
    z + d
  }

  /** From three digits on there is no padding: `{n:03d}` is `str(n)`, and a
      result longer than three digits never starts with 0. */
  lemma Pad3Unpadded(n: nat)
    ensures n >= 100 ==> Pad3(n) == NatToString(n)
    ensures |Pad3(n)| > 3 ==> Pad3(n)[0] != '0'
  {
  }

  /** A one-digit number is padded with two zeros. */
  lemma Pad3OneDigit()
    ensures Pad3(1) == "001"
  {
    assert NatToString(1) == "1";
    assert Zeros(2) == "00";
  }

  /** `str(i)` for a Python int. */
  function IntToString(i: int): string
  {
    if i < 0 then "-" + NatToString(-i) else NatToString(i)
  }

  /** `str(i)` is the decimal digits of the magnitude, without a leading zero
      unless `i` is 0, preceded by `-` exactly when `i` is negative. */
  lemma IntToStringValue(i: int)
    ensures var s := IntToString(i);
      && |s| >= 1 && (i < 0 <==> s[0] == '-')
      && var digits := if i < 0 then s[1..] else s;
      && |digits| >= 1 && AllDigits(digits) && DigitsValue(digits) == (if i < 0 then -i else i)
      && (digits[0] == '0' ==> i == 0)
  {
    var s := IntToString(i);
    if i < 0 {
      NatToStringValue(-i);
      assert s[1..] == NatToString(-i);
    } else {
      NatToStringValue(i);
      assert IsDigit(s[0]);
    }
  }

  /** Different numbers print differently. */
  lemma IntToStringInjective(i: int, j: int)
    requires IntToString(i) == IntToString(j)
    ensures i == j
  {
    IntToStringValue(i);
    IntToStringValue(j);
  }

  /** `str.isspace()`: the characters Python's `strip()` removes. */
  predicate IsSpace(c: char)
  {
    c == ' ' || c == '\t' || c == '\n' || c == '\r' || c == '\U{000B}' || c == '\U{000C}'
    || ('\U{001C}' <= c <= '\U{001F}') || c == '\U{0085}' || c == '\U{00A0}' || c == '\U{1680}'
    || ('\U{2000}' <= c <= '\U{200A}') || c == '\U{2028}' || c == '\U{2029}' || c == '\U{202F}'
    || c == '\U{205F}' || c == '\U{3000}'
  }

  function LStrip(s: string): (r: string)
    ensures r != [] ==> !IsSpace(r[0])
    ensures exists k :: 0 <= k <= |s| && r == s[k..] && forall j :: 0 <= j < k ==> IsSpace(s[j])
    decreases |s|
  {
    if s != [] && IsSpace(s[0]) then
      var r := LStrip(s[1..]);
      ghost var k :| 0 <= k <= |s[1..]| && r == s[1..][k..] && forall j :: 0 <= j < k ==> IsSpace(s[1..][j]);
      assert r == s[k + 1..];
      assert forall j :: 0 <= j < k + 1 ==> IsSpace(s[j]) by {
        forall j | 0 <= j < k + 1 ensures IsSpace(s[j]) {
          if j > 0 { assert s[j] == s[1..][j - 1]; }
        }
      }
      r
    else
      assert s == s[0..];
      s
  }

  function RStrip(s: string): (r: string)
    ensures r != [] ==> !IsSpace(r[|r| - 1])
    ensures exists k :: 0 <= k <= |s| && r == s[..k] && forall j :: k <= j < |s| ==> IsSpace(s[j])
    decreases |s|
  {
    if s != [] && IsSpace(s[|s| - 1]) then
      var t := s[..|s| - 1];
      var r := RStrip(t);
      ghost var k :| 0 <= k <= |t| && r == t[..k] && forall j :: k <= j < |t| ==> IsSpace(t[j]);
      assert r == s[..k];
      assert forall j :: k <= j < |s| ==> IsSpace(s[j]) by {
        forall j | k <= j < |s| ensures IsSpace(s[j]) {
          if j < |t| { assert s[j] == t[j]; }
        }
      }
      r
    else
      assert s == s[..|s|];
      s
  }

  /** `s.strip()`: the longest middle part without a white-space character at
      either end. */
  function Strip(s: string): string
  {
    RStrip(LStrip(s))
  }

  /** A text with no white space at either end is its own `strip()`. */
  lemma StripUnpadded(s: string)
    requires s == [] || (!IsSpace(s[0]) && !IsSpace(s[|s| - 1]))
    ensures Strip(s) == s
  {
    assert LStrip(s) == s;
  }
}
