/**
 * The date key the date picker writes into the selection:
 * `String.format("%04d-%02d-%02d", year, month + 1, dayOfMonth)`, where the
 * picker's month is 0-based.
 */
module DateKey {
  import opened Wrappers
  import opened Lexicographic

  function Pow10(w: nat): nat {
    if w == 0 then 1 else 10 * Pow10(w - 1)
  }

  predicate IsDigit(c: char) {
    '0' <= c <= '9'
  }

  predicate AllDigits(s: string) {
    forall i :: 0 <= i < |s| ==> IsDigit(s[i])
  }

  function DigitChar(d: nat): char
    requires d < 10
  {
    ('0' as int + d) as char
  }

  function DigitValue(c: char): nat
    requires IsDigit(c)
  {
    c as int - '0' as int
  }

  /** `%0<width>d` of a non-negative value: its decimal digits, left-padded with zeros to `width`. */
  function ZeroPad(n: nat, width: nat): string
    decreases n + width
  {
    if n < 10 && width <= 1 then [DigitChar(n)]
    else ZeroPad(n / 10, if width == 0 then 0 else width - 1) + [DigitChar(n % 10)]
  }

  /** `%0<width>d` of any integer: a minus sign goes first and counts towards the width. */
  function FormatDecimal(n: int, width: nat): string {
    if n < 0 then "-" + ZeroPad(-n, if width == 0 then 0 else width - 1) else ZeroPad(n, width)
  }

  /** The key for the picker's `(year, month, dayOfMonth)`, the month counted from 0. */
  function FormatDateKey(year: int, month0: int, day: int): string {
    FormatDecimal(year, 4) + "-" + FormatDecimal(month0 + 1, 2) + "-" + FormatDecimal(day, 2)
  }

  /** The decimal value of a string of digits. */
  function DigitsValue(s: string): nat
    requires AllDigits(s)
  {
    if s == [] then 0 else 10 * DigitsValue(s[..|s| - 1]) + DigitValue(s[|s| - 1])
  }

  /** Year, month (counted from 1) and day read back from a key. */
  datatype DateFields = DateFields(year: nat, month: nat, day: nat)

  /** Reads a `YYYY-MM-DD` key; anything of another shape is `None`. */
  function ParseDateKey(key: string): Option<DateFields> {
    if |key| == 10 && key[4] == '-' && key[7] == '-'
       && AllDigits(key[..4]) && AllDigits(key[5..7]) && AllDigits(key[8..])
    then Some(DateFields(DigitsValue(key[..4]), DigitsValue(key[5..7]), DigitsValue(key[8..])))
    else None
  }

  /** Chronological order on the picker's fields. */
  predicate DateBefore(year1: int, month01: int, day1: int, year2: int, month02: int, day2: int) {
    year1 < year2 || (year1 == year2 && (month01 < month02 || (month01 == month02 && day1 < day2)))
  }

  /** A value below `10^width` pads to exactly `width` digits that read back as the value. */
  lemma {:induction false} ZeroPadFixed(n: nat, width: nat)
    requires 1 <= width && n < Pow10(width)
    ensures |ZeroPad(n, width)| == width && AllDigits(ZeroPad(n, width))
    ensures DigitsValue(ZeroPad(n, width)) == n
  {
    var s := ZeroPad(n, width);
    if width == 1 {
      assert s == [DigitChar(n)];
      assert s[..0] == [];
    } else {
      assert n / 10 < Pow10(width - 1);
      ZeroPadFixed(n / 10, width - 1);
      var p := ZeroPad(n / 10, width - 1);
      assert s == p + [DigitChar(n % 10)];
      assert s[..|s| - 1] == p;
    }
  }

  /** Every string of `width` digits is the padding of its own value: keys have one spelling. */
  lemma {:induction false} ZeroPadOfDigits(s: string)
    requires |s| >= 1 && AllDigits(s)
    ensures DigitsValue(s) < Pow10(|s|)
    ensures ZeroPad(DigitsValue(s), |s|) == s
  {
    var prefix := s[..|s| - 1];
    var v := DigitsValue(s);
    if |s| == 1 {
      assert prefix == [];
      assert [s[0]] == s;
    } else {
      ZeroPadOfDigits(prefix);
      assert v / 10 == DigitsValue(prefix) && v % 10 == DigitValue(s[|s| - 1]);
      assert ZeroPad(v, |s|) == ZeroPad(DigitsValue(prefix), |s| - 1) + [DigitChar(v % 10)];
      assert s == prefix + [s[|s| - 1]];
    }
  }

  /** Comparing by the leading digits first, then by the last digit, is comparing the numbers. */
  lemma LastDigitOrder(n1: nat, n2: nat)
    ensures n1 < n2 <==> n1 / 10 < n2 / 10 || (n1 / 10 == n2 / 10 && n1 % 10 < n2 % 10)
  {
    assert n1 == 10 * (n1 / 10) + n1 % 10 && n2 == 10 * (n2 / 10) + n2 % 10;
  }

  /** Digit characters are ordered as their values. */
  lemma DigitCharOrder(d1: nat, d2: nat)
    requires d1 < 10 && d2 < 10
    ensures LexLess([DigitChar(d1)], [DigitChar(d2)]) <==> d1 < d2
  {
    assert [DigitChar(d1)][1..] == [] && [DigitChar(d2)][1..] == [];
  }

  /** Padded values of one width compare as strings exactly as they compare as numbers. */
  lemma {:induction false} ZeroPadOrder(n1: nat, n2: nat, width: nat)
    requires 1 <= width && n1 < Pow10(width) && n2 < Pow10(width)
    ensures LexLess(ZeroPad(n1, width), ZeroPad(n2, width)) <==> n1 < n2
  {
    if width == 1 {
      DigitCharOrder(n1, n2);
    } else {
      var h1, h2 := n1 / 10, n2 / 10;
      assert h1 < Pow10(width - 1) && h2 < Pow10(width - 1);
      var p1, p2 := ZeroPad(h1, width - 1), ZeroPad(h2, width - 1);
      ZeroPadFixed(h1, width - 1);
      ZeroPadFixed(h2, width - 1);
      ZeroPadOrder(h1, h2, width - 1);
      var c1, c2 := [DigitChar(n1 % 10)], [DigitChar(n2 % 10)];
      assert ZeroPad(n1, width) == p1 + c1 && ZeroPad(n2, width) == p2 + c2;
      LexAppend(p1, p2, c1, c2);
      DigitCharOrder(n1 % 10, n2 % 10);
      LastDigitOrder(n1, n2);
      assert p1 == p2 <==> h1 == h2;
    }
  }

  /** On the picker's range the key is a non-negative padding, field by field. */
  lemma KeyFields(year: int, month0: int, day: int)
    requires 0 <= year <= 9999 && 0 <= month0 <= 11 && 1 <= day <= 31
    ensures FormatDateKey(year, month0, day)
      == ZeroPad(year, 4) + ("-" + (ZeroPad(month0 + 1, 2) + ("-" + ZeroPad(day, 2))))
    ensures |ZeroPad(year, 4)| == 4 && |ZeroPad(month0 + 1, 2)| == 2 && |ZeroPad(day, 2)| == 2
    ensures AllDigits(ZeroPad(year, 4)) && AllDigits(ZeroPad(month0 + 1, 2)) && AllDigits(ZeroPad(day, 2))
    ensures DigitsValue(ZeroPad(year, 4)) == year
    ensures DigitsValue(ZeroPad(month0 + 1, 2)) == month0 + 1
    ensures DigitsValue(ZeroPad(day, 2)) == day
  {
    ZeroPadFixed(year, 4);
    ZeroPadFixed(month0 + 1, 2);
    ZeroPadFixed(day, 2);
  }

  /**
   * For years 0..9999, months 0..11 and days 1..31 the key is ten characters
   * `YYYY-MM-DD` and reads back as the year, the month counted from 1 and the day.
   */
  lemma DateKeyRoundTrip(year: int, month0: int, day: int)
    requires 0 <= year <= 9999 && 0 <= month0 <= 11 && 1 <= day <= 31
    ensures |FormatDateKey(year, month0, day)| == 10
    ensures FormatDateKey(year, month0, day)[4] == '-' && FormatDateKey(year, month0, day)[7] == '-'
    ensures ParseDateKey(FormatDateKey(year, month0, day)) == Some(DateFields(year, month0 + 1, day))
  {
    KeyFields(year, month0, day);
    var y, m, d := ZeroPad(year, 4), ZeroPad(month0 + 1, 2), ZeroPad(day, 2);
    var key := FormatDateKey(year, month0, day);
    assert key[..4] == y;
    assert key[5..7] == m;
    assert key[8..] == d;
  }

  /** Every well-formed key is what the format writes for the fields it parses to. */
  lemma ParseThenFormat(key: string)
    requires ParseDateKey(key).Some?
    ensures var f := ParseDateKey(key).value;
      FormatDateKey(f.year, f.month - 1, f.day) == key
  {
    var f := ParseDateKey(key).value;
    ZeroPadOfDigits(key[..4]);
    ZeroPadOfDigits(key[5..7]);
    ZeroPadOfDigits(key[8..]);
    assert key == key[..4] + "-" + key[5..7] + "-" + key[8..];
  }

  /**
   * On the picker's range, keys sort as strings in chronological order, so the
   * provider's "fecha ASC" sort and its range filter on key text follow the calendar.
   */
  lemma DateKeyOrder(year1: int, month01: int, day1: int, year2: int, month02: int, day2: int)
    requires 0 <= year1 <= 9999 && 0 <= month01 <= 11 && 1 <= day1 <= 31
    requires 0 <= year2 <= 9999 && 0 <= month02 <= 11 && 1 <= day2 <= 31
    ensures LexLess(FormatDateKey(year1, month01, day1), FormatDateKey(year2, month02, day2))
        <==> DateBefore(year1, month01, day1, year2, month02, day2)
  {
    KeyFields(year1, month01, day1);
    KeyFields(year2, month02, day2);
    var y1, m1, d1 := ZeroPad(year1, 4), ZeroPad(month01 + 1, 2), ZeroPad(day1, 2);
    var y2, m2, d2 := ZeroPad(year2, 4), ZeroPad(month02 + 1, 2), ZeroPad(day2, 2);
    ZeroPadOrder(year1, year2, 4);
    ZeroPadOrder(month01 + 1, month02 + 1, 2);
    ZeroPadOrder(day1, day2, 2);
    LexIrreflexive("-");
    LexAppend("-", "-", d1, d2);
    LexAppend(m1, m2, "-" + d1, "-" + d2);
    LexAppend("-", "-", m1 + ("-" + d1), m2 + ("-" + d2));
    LexAppend(y1, y2, "-" + (m1 + ("-" + d1)), "-" + (m2 + ("-" + d2)));
  }
}
