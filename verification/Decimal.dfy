/** Printing natural numbers in decimal, and reading integers as Python's int does. */
module Decimal {
  import opened Basics

  function Digit(d: nat): char
    requires d < 10
  {
    '0' + d as char
  }

  predicate IsDigit(c: char) {
    '0' <= c <= '9'
  }

  /** The code points of the zeros of Unicode 15 other than '0'; the digits 1 to 9 follow each of them. */
  const OTHER_ZEROS: seq<nat> := [
    0x660, 0x6F0, 0x7C0, 0x966, 0x9E6, 0xA66, 0xAE6, 0xB66, 0xBE6, 0xC66, 0xCE6, 0xD66, 0xDE6, 0xE50, 0xED0,
    0xF20, 0x1040, 0x1090, 0x17E0, 0x1810, 0x1946, 0x19D0, 0x1A80, 0x1A90, 0x1B50, 0x1BB0, 0x1C40, 0x1C50,
    0xA620, 0xA8D0, 0xA900, 0xA9D0, 0xA9F0, 0xAA50, 0xABF0, 0xFF10, 0x104A0, 0x10D30, 0x11066, 0x110F0,
    0x11136, 0x111D0, 0x112F0, 0x11450, 0x114D0, 0x11650, 0x116C0, 0x11730, 0x118E0, 0x11950, 0x11C50, 0x11D50,
    0x11DA0, 0x11F50, 0x16A60, 0x16AC0, 0x16B50, 0x1D7CE, 0x1D7D8, 0x1D7E2, 0x1D7EC, 0x1D7F6, 0x1E140, 0x1E2F0,
    0x1E4F0, 0x1E950, 0x1FBF0
  ]

  function BlockValue(c: nat, zeros: seq<nat>): Option<nat> {
    if zeros == [] then None
    else if zeros[0] <= c < zeros[0] + 10 then Some(c - zeros[0])
    else BlockValue(c, zeros[1..])
  }

  /** The value of a decimal digit of any script. */
  function DigitValue(c: char): Option<nat> {
    if IsDigit(c) then Some((c - '0') as nat) else if c < '\U{80}' || IsSpace(c) then None
    else BlockValue(c as nat, OTHER_ZEROS)
  }

  function Show(n: nat): string {
    if n < 10 then [Digit(n)] else Show(n / 10) + [Digit(n % 10)]
  }

  /** Digits, with single underscores allowed between two of them. */
  function ParseDigits(s: string): Option<nat> {
    if s == [] then None
    else
      match DigitValue(s[|s| - 1])
      case None => None
      case Some(d) =>
        if |s| == 1 then Some(d)
        else
          var front := if s[|s| - 2] == '_' then s[..|s| - 2] else s[..|s| - 1];
          match ParseDigits(front)
          case None => None
          case Some(m) => Some(10 * m + d)
  }

  /** White space around the number is ignored, and a sign may precede it. */
  function Parse(text: string): Option<int> {
    var s := Strip(text);
    if s != [] && (s[0] == '-' || s[0] == '+') then
      match ParseDigits(s[1..])
      case None => None
      case Some(n) => var v: int := if s[0] == '-' then 0 - n else n; Some(v)
    else
      match ParseDigits(s)
      case None => None
      case Some(n) => Some(n)
  }

  lemma {:induction false} ParseDigitsShow(n: nat)
    ensures ParseDigits(Show(n)) == Some(n)
    ensures n > 0 ==> Show(n)[0] != '0'
    ensures Show(n) != [] && forall i :: 0 <= i < |Show(n)| ==> IsDigit(Show(n)[i])
  {
    hide BlockValue;
    if n >= 10 {
      ParseDigitsShow(n / 10);
      var s := Show(n);
      assert s[..|s| - 1] == Show(n / 10);
      assert s[|s| - 2] == Show(n / 10)[|s| - 2];
    }
  }

  /** Reading a printed number gives it back, and its text is digits only, without a leading zero. */
  lemma {:induction false} ParseShow(n: nat)
    ensures Parse(Show(n)) == Some(n) && (n > 0 ==> Show(n)[0] != '0')
    ensures Show(n) != [] && forall i :: 0 <= i < |Show(n)| ==> IsDigit(Show(n)[i])
  {
    ParseDigitsShow(n);
    hide Show, ParseDigits;
    assert Strip(Show(n)) == Show(n);
  }

  // ----- what texts are read, and as what

  /** The value is the distance from the zero of the digit's block. */
  lemma {:induction false} BlockMeans(c: nat, zeros: seq<nat>)
    ensures BlockValue(c, zeros).Some? ==>
      exists i :: 0 <= i < |zeros| && zeros[i] <= c < zeros[i] + 10 && BlockValue(c, zeros).value == c - zeros[i]
    ensures BlockValue(c, zeros).None? ==> forall i :: 0 <= i < |zeros| ==> c < zeros[i] || zeros[i] + 10 <= c
  {
    if zeros != [] && !(zeros[0] <= c < zeros[0] + 10) {
      BlockMeans(c, zeros[1..]);
      assert forall i :: 0 < i < |zeros| ==> zeros[i] == zeros[1..][i - 1];
      if BlockValue(c, zeros).Some? {
        var i :| 0 <= i < |zeros[1..]| && zeros[1..][i] <= c < zeros[1..][i] + 10
                 && BlockValue(c, zeros[1..]).value == c - zeros[1..][i];
        assert zeros[i + 1] == zeros[1..][i];
      }
    }
  }

  lemma DigitIsBare(c: char)
    requires DigitValue(c).Some?
    ensures !IsSpace(c) && c != '-' && c != '+' && c != '_'
  {
    hide BlockValue;
  }

  /** Digits, each underscore between two of them. */
  ghost predicate Numeral(s: string) {
    && s != [] && DigitValue(s[0]).Some? && DigitValue(s[|s| - 1]).Some?
    && (forall i :: 0 <= i < |s| ==> DigitValue(s[i]).Some? || s[i] == '_')
    && (forall i :: 0 < i < |s| && s[i] == '_' ==> s[i - 1] != '_')
  }

  /** The number the digits spell, underscores passed over. */
  ghost function Value(s: string): nat {
    if s == [] then 0
    else
      match DigitValue(s[|s| - 1])
      case None => Value(s[..|s| - 1])
      case Some(d) => 10 * Value(s[..|s| - 1]) + d
  }

  lemma {:induction false} ParseDigitsMeans(s: string)
    ensures ParseDigits(s) == if Numeral(s) then Some(Value(s)) else None
  {
    hide DigitValue;
    NoDigit();
    if s != [] && DigitValue(s[|s| - 1]).Some? && |s| > 1 {
      var n := |s| - 1;
      if s[n - 1] == '_' {
        ParseDigitsMeans(s[..n - 1]);
        assert s[..n][..n - 1] == s[..n - 1];
        NumeralShortens(s, n - 1);
      } else {
        ParseDigitsMeans(s[..n]);
        NumeralShortens(s, n);
      }
    }
  }

  lemma NoDigit()
    ensures DigitValue('_').None?
  {
  }

  /** A numeral without its last digit, and the underscore before it if there is one. */
  lemma NumeralShortens(s: string, n: nat)
    requires 0 < |s| - n <= 2 && |s| >= 2 && DigitValue(s[|s| - 1]).Some?
    requires if n == |s| - 2 then s[n] == '_' else s[n - 1] != '_'
    ensures Numeral(s) <==> Numeral(s[..n])
  {
    hide DigitValue;
    NoDigit();
    var t := s[..n];
    if Numeral(s) {
      assert n > 0;
      assert s[n - 1] != '_';
    }
    if Numeral(t) {
      forall i | 0 <= i < |s| ensures DigitValue(s[i]).Some? || s[i] == '_' {
        assert i < n ==> s[i] == t[i];
      }
      forall i | 0 < i < |s| && s[i] == '_' ensures s[i - 1] != '_' {
        assert i < n ==> s[i] == t[i] && s[i - 1] == t[i - 1];
        assert i == n ==> s[i - 1] == t[n - 1];
      }
    }
  }

  ghost predicate IsSign(s: string) {
    s == "" || s == "+" || s == "-"
  }

  lemma NumeralIsBare(sign: string, s: string)
    requires IsSign(sign) && Numeral(s)
    ensures Bare(sign + s) && sign + s != [] && s[0] != '-' && s[0] != '+'
  {
    hide DigitValue;
    DigitIsBare(s[0]);
    DigitIsBare(s[|s| - 1]);
  }

  /** A text is read as a number exactly if it is a numeral with an optional sign and white space around
      it, and then as the number it spells. */
  lemma ParseMeans(a: string, sign: string, s: string, b: string)
    requires Blank(a) && Blank(b) && IsSign(sign) && Numeral(s)
    ensures Parse(a + (sign + s) + b) == Some(if sign == "-" then 0 - Value(s) else Value(s) as int)
  {
    hide DigitValue, Strip, Numeral, Value, ParseDigits, Bare;
    NumeralIsBare(sign, s);
    StripOf(a, sign + s, b);
    ParseDigitsMeans(s);
    assert sign != "" ==> (sign + s)[1..] == s && (sign + s)[0] == sign[0];
    assert sign == "" ==> sign + s == s;
  }

  lemma ParsesOnly(text: string) returns (a: string, sign: string, s: string, b: string)
    requires Parse(text).Some?
    ensures text == a + (sign + s) + b && Blank(a) && Blank(b) && IsSign(sign) && Numeral(s)
  {
    hide DigitValue, Strip, Numeral, Value, ParseDigits, Bare;
    a, b := StripSplits(text);
    var m := Strip(text);
    if m != [] && (m[0] == '-' || m[0] == '+') {
      sign, s := [m[0]], m[1..];
    } else {
      sign, s := "", m;
    }
    ParseDigitsMeans(s);
    assert sign + s == m;
  }

  lemma ShowInjective(a: nat, b: nat)
    requires Show(a) == Show(b)
    ensures a == b
  {
    ParseShow(a);
    ParseShow(b);
  }
}
