/** Today's date as the `YYYY-MM-DD` text entries are stored under. The clock
    read is a parameter: the local year, the zero-based month and the day of
    the month. */
module Dates {
  import opened Strings

  /** A number written with at least two digits, zero-padded on the left. */
  function TwoDigits(n: nat): string {
    PadStart(NatToString(n), 2, '0')
  }

  /** `getTodayISO`: the year unpadded, then the month and the day padded to two
      digits, joined by hyphens. */
  function TodayISO(year: int, month0: nat, day: nat): string {
    IntToString(year) + "-" + TwoDigits(month0 + 1) + "-" + TwoDigits(day)
  }

  lemma {:induction false} LeadingZeroIgnored(x: string)
    requires AllDigits(x)
    ensures DigitsValue("0" + x) == DigitsValue(x)
  {
    if |x| > 0 {
      assert ("0" + x)[..|"0" + x| - 1] == "0" + x[..|x| - 1];
      LeadingZeroIgnored(x[..|x| - 1]);
    }
  }

  /** Numbers below 100 are written as exactly two digits that read back as the number. */
  lemma TwoDigitsOf(n: nat)
    requires n < 100
    ensures |TwoDigits(n)| == 2 && AllDigits(TwoDigits(n))
    ensures DigitsValue(TwoDigits(n)) == n
    ensures n >= 10 ==> TwoDigits(n) == NatToString(n)
    ensures n < 10 ==> TwoDigits(n) == "0" + NatToString(n)
  {
    NatToStringLength(n);
    NatToStringRoundTrip(n);
    if n < 10 {
      assert TwoDigits(n) == "0" + NatToString(n);
      LeadingZeroIgnored(NatToString(n));
    }
  }

  /** The month part is "01" to "12" for the months 0 to 11. */
  lemma MonthPart(month0: nat)
    requires month0 < 12
    ensures var m := TwoDigits(month0 + 1);
            |m| == 2 && AllDigits(m) && DigitsValue(m) == month0 + 1
            && (m[0] == '0' || m[0] == '1')
  {
    TwoDigitsOf(month0 + 1);
    if month0 + 1 >= 10 {
      assert NatToString(month0 + 1) == NatToString((month0 + 1) / 10) + [DigitChar((month0 + 1) % 10)];
    }
  }

  lemma DateLayout(y: string, m: string, d: string)
    requires |y| == 4 && |m| == 2 && |d| == 2
    ensures var r := y + "-" + m + "-" + d;
            |r| == 10 && r[4] == '-' && r[7] == '-' && r[..4] == y && r[5..7] == m && r[8..] == d
  {
  }

  /** For a four-digit year the date has the fixed `YYYY-MM-DD` layout, and its
      three fields read back as the year, the month and the day. */
  lemma TodayISOLayout(year: int, month0: nat, day: nat)
    requires 1000 <= year <= 9999 && month0 < 12 && day < 100
    ensures var r := TodayISO(year, month0, day);
            && |r| == 10 && r[4] == '-' && r[7] == '-'
            && AllDigits(r[..4]) && AllDigits(r[5..7]) && AllDigits(r[8..])
            && DigitsValue(r[..4]) == year
            && DigitsValue(r[5..7]) == month0 + 1
            && DigitsValue(r[8..]) == day
  {
    NatToStringLength(year);
    NatToStringRoundTrip(year);
    TwoDigitsOf(month0 + 1);
    TwoDigitsOf(day);
    DateLayout(IntToString(year), TwoDigits(month0 + 1), TwoDigits(day));
  }
}
