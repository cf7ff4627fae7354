/**
 * The date stamps the core takes from `moment().format(...)`. The clock is
 * not read: day, month and year are parameters.
 */
module Moment {
  import opened JsText

  predicate ValidDayMonth(day: nat, month: nat)
  {
    1 <= day <= 31 && 1 <= month <= 12
  }

  /** A two-digit, zero-padded field such as "DD", "MM" or "YY". */
  function TwoDigits(n: nat): (r: string)
    requires n < 100
    ensures |r| == 2 && AllDigits(r)
    ensures ValueOf(r) == n
  {
    var r := [DigitChar(n / 10), DigitChar(n % 10)];
    assert r[1..] == [DigitChar(n % 10)];
    assert ValueOf(r[1..]) == n % 10;
    assert Pow10(1) == 10;
    r
  }

  /** `format("DDMM")`: day then month, four digits. */
  function DayMonth(day: nat, month: nat): (r: string)
    requires ValidDayMonth(day, month)
    ensures |r| == 4 && AllDigits(r)
    ensures ValueOf(r[..2]) == day && ValueOf(r[2..]) == month
  {
    var dd := TwoDigits(day);
    var mm := TwoDigits(month);
    assert (dd + mm)[..2] == dd && (dd + mm)[2..] == mm;
    dd + mm
  }

  /** `format("YY")`: the last two digits of the year. */
  function TwoDigitYear(year: nat): (r: string)
    ensures |r| == 2 && AllDigits(r)
    ensures ValueOf(r) == year % 100
  {
    TwoDigits(year % 100)
  }
}
