/**
 * The human-readable sale number `V{year}{month:2}{day:2}-{sequence:4}`, where the
 * sequence is one more than the number of sales created since today's midnight.
 * Decimal printing mirrors `String(n)` and `padStart(width, '0')`.
 */
module SaleNumbers {
  import opened Util

  /** The calendar date the clock reads today (year, 1-based month, day of month). */
  datatype CalendarDate = CalendarDate(year: nat, month: nat, day: nat)

  predicate IsDigit(c: char) {
    '0' <= c <= '9'
  }

  function DigitChar(d: nat): (c: char)
    requires d < 10
    ensures IsDigit(c)
  {
    (48 + d) as char
  }

  function DigitValue(c: char): nat {
    if IsDigit(c) then c as int - 48 else 0
  }

  /** `String(n)` for a non-negative integer: its decimal digits, no leading zeros. */
  function NatToString(n: nat): (s: string)
    ensures |s| >= 1
    ensures forall i :: 0 <= i < |s| ==> IsDigit(s[i])
    ensures n < 10 <==> |s| == 1
    ensures 10 <= n < 100 ==> |s| == 2
    decreases n
  {
    if n < 10 then [DigitChar(n)] else NatToString(n / 10) + [DigitChar(n % 10)]
  }

  function Zeros(k: nat): (z: string)
    ensures |z| == k
    ensures forall i :: 0 <= i < k ==> z[i] == '0'
  {
    seq(k, _ => '0')
  }

  /** `s.padStart(width, '0')`: a shorter string is left-filled with zeros; a longer one is kept whole. */
  function PadStart(s: string, width: nat): (r: string)
    ensures |r| == Max(|s|, width)
    ensures r == Zeros(|r| - |s|) + s
  {
    if |s| >= width then
      assert Zeros(0) + s == s;
      s
    else Zeros(width - |s|) + s
  }

  /** The value of a string of decimal digits (most significant first). */
  function ParseNat(s: string): nat
    decreases |s|
  {
    if s == [] then 0 else ParseNat(s[..|s| - 1]) * 10 + DigitValue(s[|s| - 1])
  }

  lemma {:induction false} ParseNatToString(n: nat)
    ensures ParseNat(NatToString(n)) == n
    decreases n
  {
    var s := NatToString(n);
    if n >= 10 {
      assert s[..|s| - 1] == NatToString(n / 10);
      ParseNatToString(n / 10);
    }
  }

  lemma {:induction false} ParseNatZeros(k: nat)
    ensures ParseNat(Zeros(k)) == 0
    decreases k
  {
    if k > 0 {
      assert Zeros(k)[..k - 1] == Zeros(k - 1);
      ParseNatZeros(k - 1);
    }
  }

  /** Leading zeros do not change the value, so a padded number parses back to itself. */
  lemma {:induction false} ParseNatLeadingZeros(k: nat, s: string)
    ensures ParseNat(Zeros(k) + s) == ParseNat(s)
    decreases |s|
  {
    if s == [] {
      assert Zeros(k) + s == Zeros(k);
      ParseNatZeros(k);
    } else {
      var t := Zeros(k) + s;
      assert t[..|t| - 1] == Zeros(k) + s[..|s| - 1];
      ParseNatLeadingZeros(k, s[..|s| - 1]);
    }
  }

  lemma ParsePadded(n: nat, width: nat)
    ensures ParseNat(PadStart(NatToString(n), width)) == n
  {
    var s := NatToString(n);
    ParseNatLeadingZeros(|PadStart(s, width)| - |s|, s);
    ParseNatToString(n);
  }

  /** The sale number for the given date when `count` sales were already created today. */
  function SaleNumber(date: CalendarDate, count: nat): string {
    "V" + NatToString(date.year) + PadStart(NatToString(date.month), 2) + PadStart(NatToString(date.day), 2)
    + "-" + PadStart(NatToString(count + 1), 4)
  }

  datatype SaleNumberParts = SaleNumberParts(year: nat, month: nat, day: nat, sequence: nat)

  /** The position of the first occurrence of `c` in `s`. */
  function IndexOf(s: string, c: char): (r: Option<nat>)
    ensures r.Some? ==> r.value < |s| && s[r.value] == c
    decreases |s|
  {
    if s == [] then None
    else if s[0] == c then Some(0)
    else match IndexOf(s[1..], c)
      case None => None
      case Some(k) => Some(k + 1)
  }

  lemma {:induction false} IndexOfAfter(a: string, c: char, b: string)
    requires forall i :: 0 <= i < |a| ==> a[i] != c
    ensures IndexOf(a + [c] + b, c) == Some(|a|)
    decreases |a|
  {
    if a != [] {
      assert (a + [c] + b)[1..] == a[1..] + [c] + b;
      IndexOfAfter(a[1..], c, b);
    }
  }

  /** Read a sale number back: the year is everything between `V` and the last four digits before the dash. */
  function ParseSaleNumber(s: string): Option<SaleNumberParts> {
    if |s| == 0 || s[0] != 'V' then None
    else match IndexOf(s, '-')
      case None => None
      case Some(k) =>
        if k < 5 then None
        else Some(SaleNumberParts(ParseNat(s[1..k - 4]), ParseNat(s[k - 4..k - 2]), ParseNat(s[k - 2..k]), ParseNat(s[k + 1..])))
  }

  predicate AllDigits(s: string) {
    forall i :: 0 <= i < |s| ==> IsDigit(s[i])
  }

  lemma PaddedDigits(n: nat, width: nat)
    ensures AllDigits(PadStart(NatToString(n), width))
  {
  }

  /** The part of a sale number before the dash: `V`, then digits only. */
  lemma PrefixHasNoDash(y: string, m: string, d: string)
    requires AllDigits(y) && AllDigits(m) && AllDigits(d)
    ensures forall i :: 0 <= i < |"V" + y + m + d| ==> ("V" + y + m + d)[i] != '-'
  {
  }

  lemma Slices(y: string, m: string, d: string, q: string)
    requires |m| == 2 && |d| == 2
    ensures var s := "V" + y + m + d + "-" + q; var k := 1 + |y| + 4;
      && s[1..k - 4] == y && s[k - 4..k - 2] == m && s[k - 2..k] == d && s[k + 1..] == q
  {
  }

  /** Parsing splits a `V`-prefixed string at its first dash into year, two-digit month and day, and sequence. */
  lemma ParseShape(y: string, m: string, d: string, q: string)
    requires AllDigits(y) && AllDigits(m) && AllDigits(d)
    requires |m| == 2 && |d| == 2
    ensures ParseSaleNumber("V" + y + m + d + "-" + q)
         == Some(SaleNumberParts(ParseNat(y), ParseNat(m), ParseNat(d), ParseNat(q)))
  {
    PrefixHasNoDash(y, m, d);
    var a := "V" + y + m + d;
    var s := "V" + y + m + d + "-" + q;
    assert s == a + ['-'] + q;
    IndexOfAfter(a, '-', q);
    Slices(y, m, d, q);
  }

  /** Every sale number reads back as the date it was made on and its 1-based sequence. */
  lemma SaleNumberRoundTrip(date: CalendarDate, count: nat)
    requires date.month < 100 && date.day < 100
    ensures ParseSaleNumber(SaleNumber(date, count)) == Some(SaleNumberParts(date.year, date.month, date.day, count + 1))
  {
    var y := NatToString(date.year);
    var m := PadStart(NatToString(date.month), 2);
    var d := PadStart(NatToString(date.day), 2);
    var q := PadStart(NatToString(count + 1), 4);
    PaddedDigits(date.month, 2);
    PaddedDigits(date.day, 2);
    ParseShape(y, m, d, q);
    ParseNatToString(date.year);
    ParsePadded(date.month, 2);
    ParsePadded(date.day, 2);
    ParsePadded(count + 1, 4);
  }

  /** Two sales numbered on dates with two-digit months and days share a number only if date and count agree. */
  lemma SaleNumberInjective(d1: CalendarDate, c1: nat, d2: CalendarDate, c2: nat)
    requires d1.month < 100 && d1.day < 100 && d2.month < 100 && d2.day < 100
    requires SaleNumber(d1, c1) == SaleNumber(d2, c2)
    ensures d1 == d2 && c1 == c2
  {
    SaleNumberRoundTrip(d1, c1);
    SaleNumberRoundTrip(d2, c2);
  }

  /** For a four-digit year and fewer than 9999 earlier sales today, the number is exactly 14 characters. */
  lemma SaleNumberLength(date: CalendarDate, count: nat)
    requires 1000 <= date.year <= 9999 && 1 <= date.month <= 12 && 1 <= date.day <= 31 && count < 9999
    ensures |SaleNumber(date, count)| == 14
  {
    FourDigits(date.year);
    FourDigitsAtMost(count + 1);
  }

  lemma FourDigits(n: nat)
    requires 1000 <= n <= 9999
    ensures |NatToString(n)| == 4
  {
  }

  lemma FourDigitsAtMost(n: nat)
    requires n <= 9999
    ensures |NatToString(n)| <= 4
  {
  }
}
