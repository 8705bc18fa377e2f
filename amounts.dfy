/**
 * Amounts as the synthesis enrichment reads and writes them: Python's
 * `float(...)` on cleaned strings (restricted to plain decimal notation and
 * computed exactly), `int(...)` truncation, `.0f` rounding and thousands
 * grouping.
 */
module Amounts {
  import opened Wrappers
  import opened Text

  predicate IsDigit(c: char) {
    '0' <= c <= '9'
  }

  predicate AllDigits(s: string) {
    forall i :: 0 <= i < |s| ==> IsDigit(s[i])
  }

  function DigitsValue(s: string): nat
    requires AllDigits(s)
    decreases |s|
  {
    if |s| == 0 then 0 else DigitsValue(s[..|s| - 1]) * 10 + (s[|s| - 1] as int - '0' as int)
  }

  function Pow10(n: nat): (r: nat)
    ensures r >= 1
  {
    if n == 0 then 1 else 10 * Pow10(n - 1)
  }

  /** The position of the first `c` in `s`, if any. */
  function IndexOf(s: string, c: char): (r: Option<nat>)
    ensures r.Some? ==> r.value < |s| && s[r.value] == c
    ensures r.Some? ==> forall i :: 0 <= i < r.value ==> s[i] != c
    ensures r.None? ==> forall i :: 0 <= i < |s| ==> s[i] != c
    decreases |s|
  {
    if |s| == 0 then None
    else if s[0] == c then Some(0)
    else match IndexOf(s[1..], c)
      case None => None
      case Some(p) => Some(p + 1)
  }

  /** Digits with at most one decimal point and at least one digit. */
  function ParseUnsigned(s: string): Option<real> {
    match IndexOf(s, '.')
    case None =>
      if |s| > 0 && AllDigits(s) then Some(DigitsValue(s) as real) else None
    case Some(p) => DecimalValue(s[..p], s[p + 1..])
  }

  /** The value of `whole.frac`, when both sides are digits and not both empty. */
  function DecimalValue(whole: string, frac: string): Option<real> {
    if AllDigits(whole) && AllDigits(frac) && |whole| + |frac| > 0 then
      Some(DigitsValue(whole) as real + DigitsValue(frac) as real / Pow10(|frac|) as real)
    else None
  }

  function ParseNumber(s: string): Option<real> {
    if |s| > 0 && s[0] == '-' then
      match ParseUnsigned(s[1..])
      case Some(x) => Some(-x)
      case None => None
    else if |s| > 0 && s[0] == '+' then ParseUnsigned(s[1..])
    else ParseUnsigned(s)
  }

  /**
   * Python's `float(s)` on the plain decimal forms (optional sign, digits,
   * at most one decimal point), ignoring surrounding whitespace; `None`
   * stands for the `ValueError` it raises on anything else.
   */
  function ParseFloat(s: string): Option<real> {
    ParseNumber(Strip(s))
  }

  /** Python's `int(x)` on a float: truncation toward zero. */
  function Truncate(x: real): (r: int)
    ensures x >= 0.0 ==> r >= 0 && r as real <= x < r as real + 1.0
    ensures x < 0.0 ==> r <= 0 && r as real - 1.0 < x <= r as real
  {
    if x >= 0.0 then x.Floor else -((-x).Floor)
  }

  /** Rounding to the nearest integer with ties to even, as `.0f` formatting does. */
  function RoundHalfEven(x: real): (r: int)
    ensures -0.5 <= r as real - x <= 0.5
    ensures (r as real - x == 0.5 || x - r as real == 0.5) ==> r % 2 == 0
  {
    var f := x.Floor;
    var d := x - f as real;
    if d < 0.5 then f
    else if d > 0.5 then f + 1
    else if f % 2 == 0 then f
    else f + 1
  }

  lemma DigitCharIsDigit(d: nat)
    requires d < 10
    ensures IsDigit(DigitChar(d)) && DigitChar(d) as int - '0' as int == d
  {
  }

  /** The decimal rendering of a natural number reads back as that number. */
  lemma {:induction false} NatToStringValue(n: nat)
    ensures AllDigits(NatToString(n)) && DigitsValue(NatToString(n)) == n
    decreases n
  {
    DigitCharIsDigit(n % 10);
    if n >= 10 {
      NatToStringValue(n / 10);
      var s := NatToString(n);
      assert s[..|s| - 1] == NatToString(n / 10);
    }
  }

  lemma DigitNotSpace(c: char)
    requires IsDigit(c)
    ensures !IsSpace(c)
  {
  }

  lemma NoPointInDigits(s: string)
    requires AllDigits(s)
    ensures IndexOf(s, '.') == None
  {
  }

  /** A run of digits reads as its decimal value. */
  lemma ParseUnsignedDigits(s: string)
    requires |s| > 0 && AllDigits(s)
    ensures ParseUnsigned(s) == Some(DigitsValue(s) as real)
  {
    NoPointInDigits(s);
  }

  lemma ParseDigits(s: string)
    requires |s| > 0 && AllDigits(s)
    ensures ParseFloat(s) == Some(DigitsValue(s) as real)
  {
    DigitNotSpace(s[0]);
    DigitNotSpace(s[|s| - 1]);
    StripUnpadded(s);
    ParseUnsignedDigits(s);
    assert IsDigit(s[0]);
  }

  /** `float(str(n)) == n` for a natural number. */
  lemma ParseNatToString(n: nat)
    ensures ParseFloat(NatToString(n)) == Some(n as real)
  {
    NatToStringValue(n);
    ParseDigits(NatToString(n));
  }

  lemma StripUnpadded(s: string)
    requires |s| > 0 && !IsSpace(s[0]) && !IsSpace(s[|s| - 1])
    ensures Strip(s) == s
  {
    assert TrimEnd(s) == s;
  }

  /** `float(str(i)) == i` for an integer. */
  lemma ParseIntToString(i: int)
    ensures ParseFloat(IntToString(i)) == Some(i as real)
  {
    if i < 0 {
      ParseNegativeToString(-i);
    } else {
      ParseNatToString(i);
    }
  }

  lemma ParseNegativeToString(n: nat)
    requires n > 0
    ensures ParseFloat(IntToString(-(n as int))) == Some(-(n as real))
  {
    assert IntToString(-(n as int)) == "-" + NatToString(n);
    NatToStringValue(n);
    ParseMinusDigits(NatToString(n));
  }

  /** A minus sign before digits parses to the negated value. */
  lemma ParseMinusDigits(d: string)
    requires |d| > 0 && AllDigits(d)
    ensures ParseFloat("-" + d) == Some(-(DigitsValue(d) as real))
  {
    var s := "-" + d;
    DigitNotSpace(d[|d| - 1]);
    assert s[|s| - 1] == d[|d| - 1];
    StripUnpadded(s);
    assert s[1..] == d;
    ParseUnsignedDigits(d);
  }

  /** Cutting three digits off the right of a decimal rendering. */
  lemma NatToStringSplit3(a: nat, b: nat)
    requires a >= 1 && b < 1000
    ensures NatToString(a * 1000 + b) == NatToString(a) + Pad3(b)
  {
    var n := a * 1000 + b;
    assert n / 10 == a * 100 + b / 10 && n % 10 == b % 10;
    assert (a * 100 + b / 10) / 10 == a * 10 + b / 100 && (a * 100 + b / 10) % 10 == b / 10 % 10;
    assert (a * 10 + b / 100) / 10 == a && (a * 10 + b / 100) % 10 == b / 100;
    assert NatToString(a * 10 + b / 100) == NatToString(a) + [DigitChar(b / 100)];
    assert NatToString(a * 100 + b / 10) == NatToString(a * 10 + b / 100) + [DigitChar(b / 10 % 10)];
  }

  lemma NoSeparatorInDigits(s: string, sep: char)
    requires AllDigits(s) && !IsDigit(sep)
    ensures forall i :: 0 <= i < |s| ==> s[i] != sep
  {
  }

  lemma Pad3Digits(k: nat)
    requires k < 1000
    ensures AllDigits(Pad3(k))
  {
    DigitCharIsDigit(k / 100);
    DigitCharIsDigit(k / 10 % 10);
    DigitCharIsDigit(k % 10);
  }

  /** Dropping the separators from the last group and the separator before it. */
  lemma GroupedStep(n: nat, sep: char)
    requires n >= 1000 && !IsDigit(sep)
    ensures Replace(GroupedNat(n, sep), [sep], "") == Replace(GroupedNat(n / 1000, sep), [sep], "") + Pad3(n % 1000)
  {
    var head, tail := GroupedNat(n / 1000, sep), Pad3(n % 1000);
    assert GroupedNat(n, sep) == head + ([sep] + tail);
    Pad3Digits(n % 1000);
    DropSeparatorBeforeDigits(head, tail, sep);
  }

  /** Dropping the separators of `head`, a separator and digits: the digits follow what is left of `head`. */
  lemma DropSeparatorBeforeDigits(head: string, tail: string, sep: char)
    requires AllDigits(tail) && !IsDigit(sep)
    ensures Replace(head + ([sep] + tail), [sep], "") == Replace(head, [sep], "") + tail
  {
    var rest := [sep] + tail;
    ReplaceCharConcat(head, rest, sep, "");
    ReplaceCharConcat([sep], tail, sep, "");
    ReplaceCharStep([sep], sep, "");
    NoSeparatorInDigits(tail, sep);
    ReplaceAbsentChar(tail, sep, "");
    assert Replace(rest, [sep], "") == tail;
  }

  /** Dropping the separators from a grouped rendering gives the plain rendering. */
  lemma {:induction false} GroupedNatWithoutSeparators(n: nat, sep: char)
    requires !IsDigit(sep)
    ensures Replace(GroupedNat(n, sep), [sep], "") == NatToString(n)
    decreases n
  {
    if n < 1000 {
      NatToStringValue(n);
      NoSeparatorInDigits(NatToString(n), sep);
      ReplaceAbsentChar(NatToString(n), sep, "");
    } else {
      GroupedStep(n, sep);
      GroupedNatWithoutSeparators(n / 1000, sep);
      NatToStringSplit3(n / 1000, n % 1000);
    }
  }

  /** `f"{n:,}".replace(",", " ")` is the grouping with spaces. */
  lemma {:induction false} GroupedNatCommaToSpace(n: nat)
    ensures Replace(GroupedNat(n, ','), ",", " ") == GroupedNat(n, ' ')
    decreases n
  {
    if n < 1000 {
      NatToStringValue(n);
      ReplaceAbsentChar(NatToString(n), ',', " ");
    } else {
      var head, tail := GroupedNat(n / 1000, ','), Pad3(n % 1000);
      assert GroupedNat(n, ',') == head + ([','] + tail);
      assert Replace(tail, ",", " ") == tail by {
        DigitCharIsDigit(n % 1000 / 100);
        DigitCharIsDigit(n % 1000 / 10 % 10);
        DigitCharIsDigit(n % 1000 % 10);
        ReplaceAbsentChar(tail, ',', " ");
      }
      assert Replace([','] + tail, ",", " ") == " " + tail by {
        ReplaceCharConcat([','], tail, ',', " ");
        assert Replace([','], ",", " ") == " ";
      }
      ReplaceCharConcat(head, [','] + tail, ',', " ");
      GroupedNatCommaToSpace(n / 1000);
    }
  }

  /** Two digits, zero-padded. */
  function TwoDigits(c: nat): string
    requires c < 100
  {
    [DigitChar(c / 10), DigitChar(c % 10)]
  }

  /** A grouped rendering holds nothing but digits and the separator. */
  lemma {:induction false} GroupedNatChars(n: nat, sep: char)
    ensures forall i :: 0 <= i < |GroupedNat(n, sep)| ==> IsDigit(GroupedNat(n, sep)[i]) || GroupedNat(n, sep)[i] == sep
    decreases n
  {
    if n < 1000 {
      NatToStringValue(n);
    } else {
      GroupedNatChars(n / 1000, sep);
      DigitCharIsDigit(n % 1000 / 100);
      DigitCharIsDigit(n % 1000 / 10 % 10);
      DigitCharIsDigit(n % 1000 % 10);
    }
  }

  lemma ParseUnsignedAtPoint(whole: string, frac: string)
    requires AllDigits(whole)
    ensures ParseUnsigned(whole + "." + frac) == DecimalValue(whole, frac)
  {
    var s := whole + "." + frac;
    PointAfterDigits(whole, frac);
    assert s[..|whole|] == whole;
    assert s[|whole| + 1..] == frac;
  }

  lemma PointAfterDigits(whole: string, frac: string)
    requires AllDigits(whole)
    ensures IndexOf(whole + "." + frac, '.') == Some(|whole|)
  {
    assert (whole + "." + frac)[|whole|] == '.';
  }

  /** `float` of a decimal with digits on both sides of the point. */
  lemma ParseFloatDecimal(whole: string, frac: string)
    requires |whole| > 0 && |frac| > 0 && AllDigits(whole) && AllDigits(frac)
    ensures ParseFloat(whole + "." + frac) == DecimalValue(whole, frac)
  {
    var s := whole + "." + frac;
    assert s[0] == whole[0] && s[|s| - 1] == frac[|frac| - 1];
    DigitNotSpace(whole[0]);
    DigitNotSpace(frac[|frac| - 1]);
    StripUnpadded(s);
    assert IsDigit(s[0]);
    ParseUnsignedAtPoint(whole, frac);
  }

  lemma TwoDigitsValue(c: nat)
    requires c < 100
    ensures |TwoDigits(c)| == 2 && AllDigits(TwoDigits(c)) && DigitsValue(TwoDigits(c)) == c
  {
    var frac := TwoDigits(c);
    DigitCharIsDigit(c / 10);
    DigitCharIsDigit(c % 10);
    assert frac[..1] == [DigitChar(c / 10)];
    assert frac[..1][..0] == [];
  }

  /** `float("<n>.<cc>")` is n + cc/100. */
  lemma ParseDecimal(n: nat, c: nat)
    requires c < 100
    ensures ParseFloat(NatToString(n) + "." + TwoDigits(c)) == Some(n as real + c as real / 100.0)
  {
    var whole, frac := NatToString(n), TwoDigits(c);
    NatToStringValue(n);
    TwoDigitsValue(c);
    assert DecimalValue(whole, frac) == Some(n as real + c as real / 100.0) by {
      assert Pow10(|frac|) == 100;
    }
    ParseFloatDecimal(whole, frac);
  }
}
