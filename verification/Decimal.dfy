/** Decimal text of sizes and offsets: what snprintf("%llu") prints and strtol reads. */
module Decimal {
  import opened Core

  predicate IsDigit(c: char) {
    '0' <= c <= '9'
  }

  predicate AllDigits(s: string) {
    forall i :: 0 <= i < |s| ==> IsDigit(s[i])
  }

  function DigitChar(d: nat): char
    requires d < 10
  {
    '0' + d as char
  }

  function Print(n: nat): (s: string)
    ensures |s| > 0 && AllDigits(s)
  {
    if n < 10 then [DigitChar(n)] else Print(n / 10) + [DigitChar(n % 10)]
  }

  /** The value of a run of digits. */
  function Value(s: string): nat
    requires AllDigits(s)
  {
    if s == "" then 0
    else
      assert IsDigit(s[|s| - 1]);
      Value(s[..|s| - 1]) * 10 + (s[|s| - 1] as int - '0' as int)
  }

  lemma {:induction false} ValuePrint(n: nat)
    ensures Value(Print(n)) == n
  {
    if n >= 10 {
      ValuePrint(n / 10);
      assert Print(n)[..|Print(n)| - 1] == Print(n / 10);
    }
  }

  const LONG_MAX: int := 0x7FFF_FFFF_FFFF_FFFF
  const LONG_MIN: int := -0x8000_0000_0000_0000

  predicate IsSpace(c: char) {
    c == ' ' || '\t' <= c <= '\r'
  }

  function SkipSpace(s: string): string {
    if s != "" && IsSpace(s[0]) then SkipSpace(s[1..]) else s
  }

  /** strtol(s, &end, 10) accepted only when it consumes all of `s` without overflow. */
  function ParseLong(s: string): Option<int> {
    var t := SkipSpace(s);
    var negative := t != "" && t[0] == '-';
    var digits := if t != "" && (t[0] == '-' || t[0] == '+') then t[1..] else t;
    if digits == "" || !AllDigits(digits) then None
    else
      var v := if negative then -(Value(digits) as int) else Value(digits) as int;
      if LONG_MIN <= v <= LONG_MAX then Some(v) else None
  }

  /** White space, at most one sign and some digits, and nothing behind them. */
  predicate Numeral(s: string, space: string, sign: string, digits: string) {
    && s == space + sign + digits
    && (forall c :: c in space ==> IsSpace(c))
    && (sign == "" || sign == "+" || sign == "-")
    && digits != "" && AllDigits(digits)
  }

  function Signed(sign: string, digits: string): int
    requires AllDigits(digits)
  {
    if sign == "-" then -(Value(digits) as int) else Value(digits) as int
  }

  ghost predicate Means(s: string, v: int) {
    exists space, sign, digits :: Numeral(s, space, sign, digits) && v == Signed(sign, digits)
  }

  lemma {:induction false} SkipsSpace(space: string, t: string)
    requires (forall c :: c in space ==> IsSpace(c)) && (t == "" || !IsSpace(t[0]))
    ensures SkipSpace(space + t) == t
  {
    if space == "" {
      assert space + t == t;
    } else {
      assert (space + t)[1..] == space[1..] + t;
      SkipsSpace(space[1..], t);
    }
  }

  lemma {:induction false} SpaceSkipped(s: string) returns (space: string)
    ensures s == space + SkipSpace(s) && forall c :: c in space ==> IsSpace(c)
  {
    if s != "" && IsSpace(s[0]) {
      var rest := SpaceSkipped(s[1..]);
      space := [s[0]] + rest;
    } else {
      space := "";
    }
  }

  /** A text that reads as a number does so in one way. */
  lemma NumeralParses(s: string, space: string, sign: string, digits: string)
    requires Numeral(s, space, sign, digits)
    ensures var v := Signed(sign, digits);
      ParseLong(s) == if LONG_MIN <= v <= LONG_MAX then Some(v) else None
  {
    hide Value;
    var t := sign + digits;
    assert IsDigit(digits[0]);
    assert s == space + t && t[0] == if sign == "" then digits[0] else sign[0];
    SkipsSpace(space, t);
    assert sign != "" ==> t[1..] == digits;
    assert sign == "" ==> t == digits;
  }

  lemma ParsedIsNumeral(s: string) returns (space: string, sign: string, digits: string)
    requires ParseLong(s).Some?
    ensures Numeral(s, space, sign, digits)
  {
    hide Value, IsSpace, SkipSpace, AllDigits;
    var t := SkipSpace(s);
    space := SpaceSkipped(s);
    sign := if t[0] == '-' || t[0] == '+' then [t[0]] else "";
    digits := if t[0] == '-' || t[0] == '+' then t[1..] else t;
    assert t == sign + digits;
  }

  /**
    Exactly which texts are refused: those that are no number with white space in front, and the
    numbers that do not fit. The others have the value of their digits, negative behind a minus sign.
  */
  lemma ParsedExactly(s: string, v: int)
    ensures ParseLong(s) == Some(v) <==> LONG_MIN <= v <= LONG_MAX && Means(s, v)
  {
    if ParseLong(s).Some? {
      var space, sign, digits := ParsedIsNumeral(s);
      NumeralParses(s, space, sign, digits);
    }
    if Means(s, v) {
      var space, sign, digits :| Numeral(s, space, sign, digits) && v == Signed(sign, digits);
      NumeralParses(s, space, sign, digits);
    }
  }

  lemma ParsePrinted(n: nat)
    requires n <= LONG_MAX
    ensures ParseLong(Print(n)) == Some(n)
  {
    ValuePrint(n);
    assert IsDigit(Print(n)[0]);
    assert SkipSpace(Print(n)) == Print(n);
  }
}
