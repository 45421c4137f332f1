/** The date window of a lead request: the start day written as `YYYY-MM-DD` and the length of
    the window in days (GdeslonApi.js, `toGdeslonFormatDate` and the `period` of `getLeadsByOfferId`). */
module DateWindow {
  import opened Wrappers
  import opened Decimal

  /** Milliseconds in a day, `1000 * 3600 * 24`. */
  const MS_PER_DAY: int := 1000 * 3600 * 24

  /** The local calendar fields of a timestamp, as `getFullYear`, `getMonth() + 1` and `getDate`
      give them. */
  datatype CalendarDate = CalendarDate(year: int, month: int, day: int)
  {
    predicate Valid()
    {
      1 <= month <= 12 && 1 <= day <= 31
    }
  }

  /** `(n > 9 ? '' : '0') + n`: a leading zero before a number of one digit. */
  function Pad2(n: int): string
  {
    (if n > 9 then "" else "0") + IntToString(n)
  }

  /** `[year, mm, dd].join('-')` with month and day padded. */
  function FormatDate(d: CalendarDate): string
  {
    IntToString(d.year) + "-" + Pad2(d.month) + "-" + Pad2(d.day)
  }

  /** Reads a `FormatDate` text back: the year before the last six characters, which are
      `-MM-DD`. */
  function ParseDate(s: string): Option<CalendarDate>
  {
    if |s| < 7 || s[|s| - 6] != '-' || s[|s| - 3] != '-' then None
    else
      var year, mm, dd := s[..|s| - 6], s[|s| - 5..|s| - 3], s[|s| - 2..];
      if IsIntText(year) && AllDigits(mm) && AllDigits(dd)
      then Some(CalendarDate(ParseInt(year), ParseNat(mm), ParseNat(dd)))
      else None
  }

  /** A padded component of a number below 100 is two digits that read back as the number. */
  lemma Pad2Digits(n: int)
    requires 0 <= n < 100
    ensures |Pad2(n)| == 2 && AllDigits(Pad2(n))
    ensures ParseNat(Pad2(n)) == n
  {
    var p := Pad2(n);
    if n < 10 {
      assert p == ['0', DigitChar(n)];
      assert p[..1] == ['0'];
    } else {
      assert NatToString(n) == NatToString(n / 10) + [DigitChar(n % 10)];
      NatRoundTrip(n);
    }
  }

  /** `ParseDate` splits a joined text back into its three components. */
  lemma ParseJoined(y: string, mm: string, dd: string)
    requires IsIntText(y) && |mm| == 2 && |dd| == 2 && AllDigits(mm) && AllDigits(dd)
    ensures ParseDate(y + "-" + mm + "-" + dd) == Some(CalendarDate(ParseInt(y), ParseNat(mm), ParseNat(dd)))
  {
    var s := y + "-" + mm + "-" + dd;
    assert |s| == |y| + 6;
    assert s[..|s| - 6] == y;
    assert s[|s| - 5..|s| - 3] == mm;
    assert s[|s| - 2..] == dd;
  }

  /** The formatted date of a valid calendar date reads back as that date. */
  lemma DateRoundTrip(d: CalendarDate)
    requires d.Valid()
    ensures ParseDate(FormatDate(d)) == Some(d)
  {
    Pad2Digits(d.month);
    Pad2Digits(d.day);
    IntRoundTrip(d.year);
    ParseJoined(IntToString(d.year), Pad2(d.month), Pad2(d.day));
  }

  /** The shape of the request date: the year's text, then `-`, two digits, `-`, two digits. */
  lemma FormatDateShape(d: CalendarDate)
    requires d.Valid()
    ensures var s := FormatDate(d);
      && |s| == |IntToString(d.year)| + 6
      && s[..|s| - 6] == IntToString(d.year)
      && s[|s| - 6] == '-' && s[|s| - 3] == '-'
      && AllDigits(s[|s| - 5..|s| - 3]) && AllDigits(s[|s| - 2..])
  {
    Pad2Digits(d.month);
    Pad2Digits(d.day);
    var s := FormatDate(d);
    assert s[|s| - 5..|s| - 3] == Pad2(d.month);
    assert s[|s| - 2..] == Pad2(d.day);
  }

  /** `(dateTo - dateFrom) / (1000 * 3600 * 24)`: a plain division, so the window spans exactly
      `dateTo - dateFrom` milliseconds; it is not rounded and not checked for sign. */
  function Period(dateFrom: int, dateTo: int): (p: real)
    ensures p * MS_PER_DAY as real == (dateTo - dateFrom) as real
    ensures dateFrom <= dateTo <==> 0.0 <= p
  {
    (dateTo - dateFrom) as real / MS_PER_DAY as real
  }

  /** On exact day boundaries the period is the whole number of days between them. */
  lemma PeriodWholeDays(dateFrom: int, days: int)
    ensures Period(dateFrom, dateFrom + days * MS_PER_DAY) == days as real
  {
  }
}
