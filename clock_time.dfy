/**
 * Time-of-day strings "HH:MM" as they appear in station timetables, and the
 * minute of the day each one names. The arrival filter compares these
 * strings as text; the formatter subtracts them as instants of one day.
 */
module ClockTime {
  import opened Strings

  /** A zero-padded 24-hour time of day "HH:MM", 00:00 to 23:59. */
  predicate IsClockTime(t: string)
  {
    && |t| == 5
    && IsDigit(t[0]) && IsDigit(t[1]) && t[2] == ':' && IsDigit(t[3]) && IsDigit(t[4])
    && 10 * DigitValue(t[0]) + DigitValue(t[1]) <= 23
    && DigitValue(t[3]) <= 5
  }

  /** The minute of the day named by an "HH:MM" string. */
  function Minutes(t: string): (m: nat)
    requires IsClockTime(t)
    ensures m < 24 * 60
  {
    (10 * DigitValue(t[0]) + DigitValue(t[1])) * 60 + 10 * DigitValue(t[3]) + DigitValue(t[4])
  }

  /** The "HH:MM" string naming a minute of the day. */
  function ClockTimeOf(m: nat): (t: string)
    requires m < 24 * 60
    ensures IsClockTime(t)
  {
    var h, mm := m / 60, m % 60;
    [DigitChar(h / 10), DigitChar(h % 10), ':', DigitChar(mm / 10), DigitChar(mm % 10)]
  }

  /** Minutes and ClockTimeOf are inverse to each other. */
  lemma ClockTimeRoundTrip(t: string, m: nat)
    requires IsClockTime(t) && m < 24 * 60
    ensures Minutes(ClockTimeOf(m)) == m
    ensures ClockTimeOf(Minutes(t)) == t
  {
    var u := ClockTimeOf(Minutes(t));
    assert u[0] == t[0] && u[1] == t[1] && u[3] == t[3] && u[4] == t[4];
  }

  /** For zero-padded times of day, comparing the strings as JavaScript does
      agrees with comparing the instants they name. */
  lemma ClockTimeOrder(a: string, b: string)
    requires IsClockTime(a) && IsClockTime(b)
    ensures StringLess(a, b) <==> Minutes(a) < Minutes(b)
  {
    var a1, b1 := a[1..], b[1..];
    var a2, b2 := a1[1..], b1[1..];
    var a3, b3 := a2[1..], b2[1..];
    var a4, b4 := a3[1..], b3[1..];
    var a5, b5 := a4[1..], b4[1..];
    assert a1[0] == a[1] && a2[0] == a[2] && a3[0] == a[3] && a4[0] == a[4] && a5 == [];
    assert b1[0] == b[1] && b2[0] == b[2] && b3[0] == b[3] && b4[0] == b[4] && b5 == [];
    assert StringLess(a4, b4) <==> a[4] < b[4];
    assert StringLess(a3, b3) <==> a[3] < b[3] || (a[3] == b[3] && a[4] < b[4]);
    assert StringLess(a2, b2) <==> StringLess(a3, b3);
  }

  /** Comparing "HH:MM" strings with `>=` is comparing the instants. */
  lemma ClockTimeAtLeast(a: string, b: string)
    requires IsClockTime(a) && IsClockTime(b)
    ensures StringAtLeast(a, b) <==> Minutes(a) >= Minutes(b)
  {
    ClockTimeOrder(a, b);
  }
}
