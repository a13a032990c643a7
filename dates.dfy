/**
 * Calendar dates as Python's `datetime.date` sees them: the proleptic Gregorian calendar,
 * `toordinal`, `isoformat` (also `str(date)`), and `datetime.strptime(s, '%Y-%m-%d')`.
 */
module Dates {
  import opened Wrappers
  import opened Text

  datatype Date = Date(year: int, month: int, day: int)

  /** A point in time: a calendar date and the microseconds since its midnight. */
  datatype Moment = Moment(date: Date, micros: int)

  const MicrosPerDay := 86_400_000_000

  predicate IsLeap(y: int)
  {
    y % 4 == 0 && (y % 100 != 0 || y % 400 == 0)
  }

  function DaysInMonth(y: int, m: int): (n: int)
    requires 1 <= m <= 12
    ensures 28 <= n <= 31
  {
    if m == 2 then (if IsLeap(y) then 29 else 28)
    else if m == 4 || m == 6 || m == 9 || m == 11 then 30
    else 31
  }

  /** The dates `datetime.date` accepts. */
  predicate Valid(d: Date)
  {
    1 <= d.year <= 9999 && 1 <= d.month <= 12 && 1 <= d.day <= DaysInMonth(d.year, d.month)
  }

  predicate ValidMoment(m: Moment)
  {
    Valid(m.date) && 0 <= m.micros < MicrosPerDay
  }

  function YearDays(y: int): int
  {
    if IsLeap(y) then 366 else 365
  }

  /** Days in the years before `y`, counted year by year (Python adds them up in closed form). */
  function DaysBeforeYear(y: int): int
    requires y >= 1
    decreases y
  {
    if y == 1 then 0 else DaysBeforeYear(y - 1) + YearDays(y - 1)
  }

  function DaysBeforeMonth(y: int, m: int): (n: int)
    requires 1 <= m <= 12
    ensures 0 <= n <= 31 * (m - 1)
  {
    if m == 1 then 0 else DaysBeforeMonth(y, m - 1) + DaysInMonth(y, m - 1)
  }

  /** `d.toordinal()`: 1 for 0001-01-01, one more for every following day. */
  function Ordinal(d: Date): int
    requires Valid(d)
  {
    DaysBeforeYear(d.year) + DaysBeforeMonth(d.year, d.month) + d.day
  }

  /** `(b - a).days` for two dates. */
  function DaysBetween(a: Date, b: Date): int
    requires Valid(a) && Valid(b)
  {
    Ordinal(b) - Ordinal(a)
  }

  /** Microseconds since 0001-01-01 00:00. */
  function Stamp(m: Moment): int
    requires ValidMoment(m)
  {
    (Ordinal(m.date) - 1) * MicrosPerDay + m.micros
  }

  /** `(b - a).days` for two datetimes: whole days, rounded towards minus infinity. */
  function MomentDaysBetween(a: Moment, b: Moment): (n: int)
    requires ValidMoment(a) && ValidMoment(b)
    ensures n * MicrosPerDay <= Stamp(b) - Stamp(a) < (n + 1) * MicrosPerDay
  {
    (Stamp(b) - Stamp(a)) / MicrosPerDay
  }

  lemma {:induction false} OrdinalWithinYear(y: int, m: int, d: int, m2: int, d2: int)
    requires Valid(Date(y, m, d)) && Valid(Date(y, m2, d2))
    requires m < m2 || (m == m2 && d < d2)
    ensures Ordinal(Date(y, m, d)) < Ordinal(Date(y, m2, d2))
    decreases m2
  {
    if m < m2 {
      if m2 - 1 == m {
        assert DaysBeforeMonth(y, m2) == DaysBeforeMonth(y, m) + DaysInMonth(y, m);
      } else {
        OrdinalWithinYear(y, m, d, m2 - 1, 1);
        assert DaysBeforeMonth(y, m2) > DaysBeforeMonth(y, m2 - 1);
      }
    }
  }

  /** Every valid date lies among the days of its own year. */
  lemma YearLength(d: Date)
    requires Valid(d)
    ensures DaysBeforeYear(d.year) < Ordinal(d) <= DaysBeforeYear(d.year + 1)
  {
    var y := d.year;
    if (d.month, d.day) != (12, 31) {
      OrdinalWithinYear(y, d.month, d.day, 12, 31);
    }
    var feb := DaysInMonth(y, 2);
    assert DaysBeforeMonth(y, 3) == 31 + feb;
    assert DaysBeforeMonth(y, 5) == 92 + feb;
    assert DaysBeforeMonth(y, 7) == 153 + feb;
    assert DaysBeforeMonth(y, 9) == 215 + feb;
    assert DaysBeforeMonth(y, 11) == 276 + feb;
    assert DaysBeforeMonth(y, 12) == 306 + feb;
  }

  lemma {:induction false} DaysBeforeYearMonotone(y: int, z: int)
    requires 1 <= y <= z
    ensures DaysBeforeYear(y) <= DaysBeforeYear(z)
    decreases z - y
  {
    if y < z {
      DaysBeforeYearMonotone(y, z - 1);
    }
  }

  /** `toordinal` follows the calendar order of dates: later dates have larger ordinals. */
  lemma OrdinalMonotone(a: Date, b: Date)
    requires Valid(a) && Valid(b)
    requires a.year < b.year || (a.year == b.year && (a.month < b.month || (a.month == b.month && a.day < b.day)))
    ensures Ordinal(a) < Ordinal(b)
  {
    if a.year < b.year {
      YearLength(a);
      YearLength(b);
      DaysBeforeYearMonotone(a.year + 1, b.year);
    } else {
      OrdinalWithinYear(a.year, a.month, a.day, b.month, b.day);
    }
  }

  /** `n` written with exactly `w` decimal digits, zero-padded on the left. */
  function PadDigits(n: nat, w: nat): (s: string)
    requires n < Pow10(w)
    ensures |s| == w && AllDigits(s) && DigitsValue(s) == n
  {
    if w == 0 then ""
    else
      var s := PadDigits(n / 10, w - 1) + [('0' as int + n % 10) as char];
      assert s[..|s| - 1] == PadDigits(n / 10, w - 1);
      s
  }

  /** `d.isoformat()`, which is also `str(d)`. */
  function IsoFormat(d: Date): (s: string)
    requires Valid(d)
    ensures |s| == 10 && s[4] == '-' && s[7] == '-'
  {
    PadDigits(d.year, 4) + "-" + PadDigits(d.month, 2) + "-" + PadDigits(d.day, 2)
  }

  /** The `%m` directive: one of `1[0-2]`, `0[1-9]`, `[1-9]`, first match wins; value and length. */
  function MonthToken(t: string): (r: Option<(int, nat)>)
    ensures r.Some? ==> 1 <= r.value.0 <= 12 && 1 <= r.value.1 <= 2 && r.value.1 <= |t|
  {
    if |t| >= 2 && t[0] == '1' && '0' <= t[1] <= '2' then Some((10 + DigitValue(t[1]), 2))
    else if |t| >= 2 && t[0] == '0' && '1' <= t[1] <= '9' then Some((DigitValue(t[1]), 2))
    else if |t| >= 1 && '1' <= t[0] <= '9' then Some((DigitValue(t[0]), 1))
    else None
  }

  /** The `%d` directive: one of `3[01]`, `[12]\d`, `0[1-9]`, `[1-9]`, ` [1-9]`, first match wins. */
  function DayToken(t: string): (r: Option<(int, nat)>)
    ensures r.Some? ==> 1 <= r.value.0 <= 31 && 1 <= r.value.1 <= 2 && r.value.1 <= |t|
  {
    if |t| >= 2 && t[0] == '3' && '0' <= t[1] <= '1' then Some((30 + DigitValue(t[1]), 2))
    else if |t| >= 2 && '1' <= t[0] <= '2' && IsDigit(t[1]) then Some((10 * DigitValue(t[0]) + DigitValue(t[1]), 2))
    else if |t| >= 2 && t[0] == '0' && '1' <= t[1] <= '9' then Some((DigitValue(t[1]), 2))
    else if |t| >= 1 && '1' <= t[0] <= '9' then Some((DigitValue(t[0]), 1))
    else if |t| >= 2 && t[0] == ' ' && '1' <= t[1] <= '9' then Some((DigitValue(t[1]), 2))
    else None
  }

  /**
   * `datetime.strptime(s, '%Y-%m-%d').date()`: four digits, `-`, a month, `-`, a day, nothing
   * after it, naming a real date; None where Python raises ValueError.
   */
  function ParseYmd(s: string): (r: Option<Date>)
    ensures r.Some? ==> Valid(r.value)
  {
    if |s| < 5 || !AllDigits(s[..4]) || s[4] != '-' then None
    else
      var year := DigitsValue(s[..4]);
      match MonthToken(s[5..])
      case None => None
      case Some((month, k)) =>
        var rest := s[5 + k..];
        if |rest| == 0 || rest[0] != '-' then None
        else
          match DayToken(rest[1..])
          case None => None
          case Some((day, k2)) =>
            if 1 + k2 != |rest| then None
            else if Valid(Date(year, month, day)) then Some(Date(year, month, day))
            else None
  }

  /** Formatting a date and parsing the text back gives the same date. */
  lemma ParseIsoFormat(d: Date)
    requires Valid(d)
    ensures ParseYmd(IsoFormat(d)) == Some(d)
  {
    var s := IsoFormat(d);
    var ys, ms, ds := PadDigits(d.year, 4), PadDigits(d.month, 2), PadDigits(d.day, 2);
    assert s[..4] == ys;
    assert s[5..] == ms + "-" + ds;
    MonthTokenPadded(d.month, "-" + ds);
    assert s[7..] == "-" + ds;
    DayTokenPadded(d.day);
  }

  /** Two decimal digits, zero-padded: the tens digit, then the units digit. */
  lemma PadTwo(n: nat)
    requires n < 100
    ensures PadDigits(n, 2) == [('0' as int + n / 10) as char, ('0' as int + n % 10) as char]
  {
    assert PadDigits(n / 10, 1) == PadDigits(n / 10 / 10, 0) + [('0' as int + n / 10 % 10) as char];
  }

  /** `%m` reads a zero-padded month back as both of its digits. */
  lemma MonthTokenPadded(month: nat, rest: string)
    requires 1 <= month <= 12
    ensures MonthToken(PadDigits(month, 2) + rest) == Some((month, 2))
  {
    PadTwo(month);
    var t := PadDigits(month, 2) + rest;
    assert t[0] == ('0' as int + month / 10) as char && t[1] == ('0' as int + month % 10) as char;
    if month >= 10 {
      assert month / 10 == 1 && month % 10 <= 2;
    } else {
      assert month / 10 == 0 && month % 10 >= 1;
    }
  }

  /** `%d` reads a zero-padded day back as both of its digits. */
  lemma DayTokenPadded(day: nat)
    requires 1 <= day <= 31
    ensures DayToken(PadDigits(day, 2)) == Some((day, 2))
  {
    PadTwo(day);
    var t := PadDigits(day, 2);
    assert t[0] == ('0' as int + day / 10) as char && t[1] == ('0' as int + day % 10) as char;
    if day >= 30 {
      assert day / 10 == 3 && day % 10 <= 1;
    } else if day >= 10 {
      assert 1 <= day / 10 <= 2;
    } else {
      assert day / 10 == 0 && day % 10 >= 1;
    }
  }

  lemma DigitsValueFour(s: string)
    requires |s| == 4 && AllDigits(s)
    ensures DigitsValue(s) == 1000 * DigitValue(s[0]) + 100 * DigitValue(s[1]) + 10 * DigitValue(s[2]) + DigitValue(s[3])
  {
    var s3, s2, s1 := s[..3], s[..2], s[..1];
    assert s3[..2] == s2 && s3[2] == s[2];
    assert s2[..1] == s1 && s2[1] == s[1];
    assert s1[..0] == [] && s1[0] == s[0];
    assert DigitsValue(s1) == DigitValue(s[0]);
    assert DigitsValue(s2) == 10 * DigitValue(s[0]) + DigitValue(s[1]);
    assert DigitsValue(s3) == 100 * DigitValue(s[0]) + 10 * DigitValue(s[1]) + DigitValue(s[2]);
  }

  lemma ParseExampleShortMonth()
    ensures ParseYmd("2024-2-29") == Some(Date(2024, 2, 29))
  {
    var s := "2024-2-29";
    DigitsValueFour(s[..4]);
    assert MonthToken(s[5..]) == Some((2, 1));
    assert s[6..] == "-29";
    assert DayToken(s[7..]) == Some((29, 2));
  }

  lemma ParseExampleNotADate()
    ensures ParseYmd("2023-02-29") == None
  {
    var t := "2023-02-29";
    DigitsValueFour(t[..4]);
    assert MonthToken(t[5..]) == Some((2, 2));
    assert t[7..] == "-29";
    assert DayToken(t[8..]) == Some((29, 2));
    assert !IsLeap(2023);
  }

  lemma ParseExampleTrailing()
    ensures ParseYmd("2024-10-311") == None
  {
    var u := "2024-10-311";
    assert MonthToken(u[5..]) == Some((10, 2));
    assert u[7..] == "-311";
    assert DayToken(u[8..]) == Some((31, 2));
  }
}
