/** Two-decimal rounding and the report's number format. Values are exact
    reals: round(x, 2) and f"{x:.2f}" both round the exact value to the
    nearest hundredth with ties to the even neighbour. */
module Decimal {
  import opened Maybe
  import opened PyText

  /** The integer nearest to y; a tie goes to the even neighbour. */
  function RoundHalfEven(y: real): (n: int)
    ensures -0.5 <= n as real - y <= 0.5
    ensures (n as real - y == 0.5 || y - n as real == 0.5) ==> n % 2 == 0
  {
    var f := y.Floor;
    var frac := y - f as real;
    if frac < 0.5 then f
    else if frac > 0.5 then f + 1
    else if f % 2 == 0 then f
    else f + 1
  }

  /** The two properties above pin the rounded value down. */
  lemma RoundHalfEvenUnique(y: real, m: int)
    requires -0.5 <= m as real - y <= 0.5
    requires (m as real - y == 0.5 || y - m as real == 0.5) ==> m % 2 == 0
    ensures m == RoundHalfEven(y)
  {
  }

  /** round(x, 2): x to the nearest hundredth. */
  function Round2(x: real): (r: real)
    ensures -0.005 <= r - x <= 0.005
  {
    RoundHalfEven(x * 100.0) as real / 100.0
  }

  /** round(x, 2) is within half a hundredth of x, lands on a whole number of
      hundredths, and changes nothing when applied again. */
  lemma Round2Properties(x: real)
    ensures -0.005 <= Round2(x) - x <= 0.005
    ensures Round2(x) * 100.0 == RoundHalfEven(x * 100.0) as real
    ensures Round2(Round2(x)) == Round2(x)
  {
    var n := RoundHalfEven(x * 100.0);
    assert Round2(x) * 100.0 == n as real;
    RoundHalfEvenUnique(n as real, n);
  }

  /** The text of m hundredths: the whole part, '.', and two decimals. */
  function UnsignedCents(m: nat): (r: string)
    ensures |r| >= 4 && r[|r| - 3] == '.'
    ensures forall k :: 0 <= k < |r| ==> IsDigit(r[k]) || r[k] == '.'
  {
    NatText(m / 100) + "." + [DigitChar(m / 10 % 10), DigitChar(m % 10)]
  }

  /** The text of c hundredths, with a leading '-' when negative. */
  function CentsText(c: int): (r: string)
    ensures forall k :: 0 <= k < |r| ==> IsDigit(r[k]) || r[k] == '.' || r[k] == '-'
  {
    if c < 0 then "-" + UnsignedCents(-c) else UnsignedCents(c)
  }

  /** f"{x:.2f}". */
  function Fixed2(x: real): (r: string)
    ensures |r| >= 4 && r[|r| - 3] == '.'
    ensures forall k :: 0 <= k < |r| && k != |r| - 3 ==> IsDigit(r[k]) || r[k] == '-'
  {
    CentsTextShape(RoundHalfEven(x * 100.0));
    CentsText(RoundHalfEven(x * 100.0))
  }

  /** muotoile_luku: x to two decimals with a comma as the decimal separator. */
  function FormatNumber(x: real): (r: string)
    ensures |r| >= 4 && r[|r| - 3] == ',' && IsDigit(r[|r| - 2]) && IsDigit(r[|r| - 1])
    ensures '.' !in r
    ensures forall k :: 0 <= k < |r| ==> IsDigit(r[k]) || r[k] == ',' || r[k] == '-'
  {
    ReplaceChar(Fixed2(x), '.', ',')
  }

  /** The value of a numeral with two decimal digits appended. */
  lemma DigitsValueTwo(s: string, d1: char, d2: char)
    requires AllDigits(s) && IsDigit(d1) && IsDigit(d2)
    ensures AllDigits(s + [d1, d2])
    ensures DigitsValue(s + [d1, d2]) == DigitsValue(s) * 100 + DigitValue(d1) * 10 + DigitValue(d2)
  {
    DigitsValueSnoc(s, d1);
    DigitsValueSnoc(s + [d1], d2);
    assert s + [d1] + [d2] == s + [d1, d2];
  }

  /** A two-decimal text without its separator character. */
  function DropSeparator(r: string): string
    requires |r| >= 3
  {
    r[..|r| - 3] + r[|r| - 2..]
  }

  /** Reading the formatted number back, with the comma dropped, gives the
      rounded number of hundredths: the format loses nothing but the rounding. */
  lemma FormatNumberDecodes(x: real)
    ensures ParseInt(DropSeparator(FormatNumber(x))) == Some(RoundHalfEven(x * 100.0))
  {
    var c := RoundHalfEven(x * 100.0);
    var f := Fixed2(x);
    var r := FormatNumber(x);
    CentsTextShape(c);
    assert DropSeparator(r) == DropSeparator(f) by {
      forall k | 0 <= k < |r| - 3 ensures r[k] == f[k] {
        assert f[k] != '.';
      }
      assert r[..|r| - 3] == f[..|f| - 3];
    }
    CentsTextDecodes(c);
    StripTight(DropSeparator(f));
  }

  /** CentsText(c) is an optional '-', digits, '.', and two more digits. */
  lemma CentsTextShape(c: int)
    ensures var t := CentsText(c);
      && |t| >= 4 && t[|t| - 3] == '.'
      && (forall k :: 0 <= k < |t| && k != |t| - 3 ==> t[k] == '-' || IsDigit(t[k]))
      && (forall k :: 0 < k < |t| ==> t[k] != '-')
  {
    var m: nat := if c < 0 then -c else c;
    var whole := NatText(m / 100);
    var u := UnsignedCents(m);
    assert forall k :: 0 <= k < |u| && k != |u| - 3 ==> IsDigit(u[k]) by {
      assert u == whole + "." + [DigitChar(m / 10 % 10), DigitChar(m % 10)];
      assert forall k :: 0 <= k < |whole| ==> u[k] == whole[k];
    }
    if c < 0 {
      assert CentsText(c) == "-" + u;
      assert forall k :: 0 < k < |u| + 1 ==> CentsText(c)[k] == u[k - 1];
    }
  }

  /** Without its '.', the text of c hundredths is the numeral of c. */
  lemma CentsTextDecodes(c: int)
    ensures var t := DropSeparator(CentsText(c));
            t != [] && !IsSpace(t[0]) && !IsSpace(t[|t| - 1]) && NumeralValue(t) == Some(c)
  {
    var m: nat := if c < 0 then -c else c;
    var u := UnsignedCents(m);
    UnsignedCentsDecodes(m);
    var digits := DropSeparator(u);
    var t := DropSeparator(CentsText(c));
    if c < 0 {
      assert CentsText(c) == "-" + u;
      assert t == "-" + digits;
      assert t[1..] == digits;
    } else {
      assert t == digits && IsDigit(t[0]);
    }
  }

  /** Without its '.', the text of m hundredths is the numeral of m. */
  lemma UnsignedCentsDecodes(m: nat)
    ensures var t := DropSeparator(UnsignedCents(m));
            t != [] && AllDigits(t) && DigitsValue(t) == m
  {
    var whole := NatText(m / 100);
    var d1, d2 := DigitChar(m / 10 % 10), DigitChar(m % 10);
    DigitsValueTwo(whole, d1, d2);
    HundredsSplit(m);
    assert DropSeparator(UnsignedCents(m)) == whole + [d1, d2];
  }

  lemma HundredsSplit(m: nat)
    ensures m == (m / 100) * 100 + (m / 10 % 10) * 10 + m % 10
  {
  }

  /** Formatting a value that was already rounded to two decimals shows the
      same digits as formatting the unrounded value. */
  lemma FormatRoundedValue(x: real)
    ensures FormatNumber(Round2(x)) == FormatNumber(x)
  {
    Round2Properties(x);
    RoundHalfEvenUnique(Round2(x) * 100.0, RoundHalfEven(x * 100.0));
  }

  /** A formatted number between -99,99 and 999,99 fits a six-wide column. */
  lemma FormatNumberWidth(x: real)
    requires -9999 <= RoundHalfEven(x * 100.0) <= 99999
    ensures |FormatNumber(x)| <= 6
  {
  }
}
