/** The human-readable document numbers of sales (`VENTA-`), purchases
    (`COMPRA-`) and purchase returns (`DEV-`): the prefix, the date of the
    ISO timestamp without dashes, and the day's running count plus one,
    left-padded with zeros to four digits. The day's count is an input. */
module Numbering {

  predicate IsDigit(c: char) { '0' <= c <= '9' }

  predicate AllDigits(s: string)
  {
    forall k :: 0 <= k < |s| ==> IsDigit(s[k])
  }

  function DigitChar(d: nat): (c: char)
    requires d < 10
    ensures IsDigit(c) && (c as int) - ('0' as int) == d
  {
    (('0' as int) + d) as char
  }

  /** `n.toString()` for a non-negative integer. */
  function NatToString(n: nat): (s: string)
    ensures |s| >= 1 && AllDigits(s)
  {
    if n < 10 then [DigitChar(n)] else NatToString(n / 10) + [DigitChar(n % 10)]
  }

  /** The number a string of decimal digits denotes. */
  function DigitsValue(s: string): nat
    requires AllDigits(s)
  {
    if s == [] then 0
    else DigitsValue(s[..|s| - 1]) * 10 + ((s[|s| - 1] as int) - ('0' as int))
  }

  /** Printing then reading a count gives the count back. */
  lemma {:induction false} NatToStringValue(n: nat)
    ensures DigitsValue(NatToString(n)) == n
  {
    if n >= 10 {
      NatToStringValue(n / 10);
      var s := NatToString(n);
      assert s[..|s| - 1] == NatToString(n / 10);
    }
  }

  /** A count below 10000 prints in at most four digits. */
  lemma {:induction false} NatToStringShort(n: nat, width: nat)
    requires width >= 1 && n < Pow10(width)
    ensures |NatToString(n)| <= width
  {
    if n >= 10 {
      assert width > 1;
      NatToStringShort(n / 10, width - 1);
    }
  }

  function Pow10(k: nat): (r: nat)
    ensures r >= 1
  {
    if k == 0 then 1 else 10 * Pow10(k - 1)
  }

  /** Leading zeros do not change the value. */
  lemma {:induction false} LeadingZeroValue(s: string)
    requires AllDigits(s)
    ensures AllDigits("0" + s) && DigitsValue("0" + s) == DigitsValue(s)
  {
    if s != [] {
      var t := "0" + s;
      assert t[..|t| - 1] == "0" + s[..|s| - 1];
      LeadingZeroValue(s[..|s| - 1]);
    }
  }

  /** `s.padStart(4, "0")` */
  function PadStart4(s: string): (r: string)
    requires AllDigits(s)
    ensures AllDigits(r) && DigitsValue(r) == DigitsValue(s)
    ensures |r| == if |s| >= 4 then |s| else 4
    ensures r[|r| - |s|..] == s
    decreases 4 - |s|
  {
    if |s| >= 4 then s
    else
      LeadingZeroValue(s);
      PadStart4("0" + s)
  }

  /** `isoDate.replace(/-/g, "")` */
  function StripDashes(s: string): (r: string)
    ensures forall k :: 0 <= k < |r| ==> r[k] != '-'
    ensures |r| <= |s|
  {
    if s == [] then []
    else if s[0] == '-' then StripDashes(s[1..])
    else [s[0]] + StripDashes(s[1..])
  }

  /** The four-or-more digit part: the day's count plus one. */
  function CountPart(countToday: nat): (r: string)
    ensures AllDigits(r) && DigitsValue(r) == countToday + 1
    ensures |r| >= 4
    ensures countToday + 1 < 10000 ==> |r| == 4
  {
    var digits := NatToString(countToday + 1);
    NatToStringValue(countToday + 1);
    if countToday + 1 < 10000 then
      assert Pow10(4) == 10000;
      NatToStringShort(countToday + 1, 4);
      PadStart4(digits)
    else PadStart4(digits)
  }

  /** `${prefix}-${dateStr}-${paddedCount}` */
  function DocumentNumber(prefix: string, isoDate: string, countToday: nat): (r: string)
    ensures r == prefix + "-" + StripDashes(isoDate) + "-" + CountPart(countToday)
    ensures |r| >= |prefix| + |StripDashes(isoDate)| + 6
  {
    prefix + "-" + StripDashes(isoDate) + "-" + CountPart(countToday)
  }

  /** Two different counts on the same day give two different numbers. */
  lemma DocumentNumberInjective(prefix: string, isoDate: string, a: nat, b: nat)
    requires DocumentNumber(prefix, isoDate, a) == DocumentNumber(prefix, isoDate, b)
    ensures a == b
  {
    var head := prefix + "-" + StripDashes(isoDate) + "-";
    var x, y := CountPart(a), CountPart(b);
    assert DocumentNumber(prefix, isoDate, a) == head + x;
    assert DocumentNumber(prefix, isoDate, b) == head + y;
    assert x == (head + x)[|head|..];
    assert y == (head + y)[|head|..];
  }

  function SaleNumber(isoDate: string, countToday: nat): string { DocumentNumber("VENTA", isoDate, countToday) }

  function PurchaseNumber(isoDate: string, countToday: nat): string { DocumentNumber("COMPRA", isoDate, countToday) }

  function ReturnNumber(isoDate: string, countToday: nat): string { DocumentNumber("DEV", isoDate, countToday) }

  /** The first document of a day carries 0001. */
  lemma FirstCountPart()
    ensures CountPart(0) == "0001"
  {
    assert DigitChar(1) == '1';
    assert NatToString(1) == "1";
    assert PadStart4("0001") == "0001";
    assert PadStart4("1") == "0001";
  }

  /** Stripping dashes works piecewise over a concatenation. */
  lemma {:induction false} StripDashesAppend(a: string, b: string)
    ensures StripDashes(a + b) == StripDashes(a) + StripDashes(b)
  {
    if a == [] {
      assert a + b == b;
    } else {
      assert (a + b)[0] == a[0] && (a + b)[1..] == a[1..] + b;
      StripDashesAppend(a[1..], b);
    }
  }

  /** A string of digits has no dash to strip. */
  lemma {:induction false} StripDashesOfDigits(s: string)
    requires AllDigits(s)
    ensures StripDashes(s) == s
  {
    if s != [] {
      assert IsDigit(s[0]);
      StripDashesOfDigits(s[1..]);
    }
  }

  /** The date part of a number is the ISO date's year, month and day run
      together: "2024-03-05" gives "20240305". */
  lemma StripDashesOfIsoDate(year: string, month: string, day: string)
    requires AllDigits(year) && AllDigits(month) && AllDigits(day)
    ensures StripDashes(year + "-" + month + "-" + day) == year + month + day
  {
    assert StripDashes("-") == [];
    StripDashesOfDigits(year);
    StripDashesOfDigits(month);
    StripDashesOfDigits(day);
    StripDashesAppend(year, "-");
    assert StripDashes(year + "-") == year;
    StripDashesAppend(year + "-", month);
    assert StripDashes(year + "-" + month) == year + month;
    StripDashesAppend(year + "-" + month, "-");
    assert StripDashes(year + "-" + month + "-") == year + month;
    StripDashesAppend(year + "-" + month + "-", day);
  }

  /** The sale numbered first on 2024-03-05 is VENTA-20240305-0001. */
  lemma FirstSaleNumber()
    ensures SaleNumber("2024-03-05", 0) == "VENTA" + "-" + ("2024" + "03" + "05") + "-" + "0001"
  {
    FirstCountPart();
    assert "2024-03-05" == "2024" + "-" + "03" + "-" + "05";
    StripDashesOfIsoDate("2024", "03", "05");
  }
}
