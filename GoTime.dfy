/** The part of Go's `time` package the modelled code uses. A `time.Time` is
    an `Instant`: nanoseconds since 1970-01-01 00:00:00 UTC. Calendar fields
    are those of the proleptic Gregorian calendar in UTC, computed with the
    days-from-civil and civil-from-days algorithms of H. Hinnant; a
    `time.Duration` is an `int` of nanoseconds. */
module GoTime {

  datatype Instant = Instant(ns: int)

  /** The calendar fields Go's accessors (`Year`, `Month`, `Day`, `Hour`,
      `Minute`, `Second`, `Nanosecond`) return. */
  datatype Civil = Civil(year: int, month: int, day: int,
                         hour: int, minute: int, second: int, nanosecond: int)

  const Nanosecond: int := 1
  const Second: int := 1_000_000_000
  const Minute: int := 60 * Second
  const Hour: int := 60 * Minute
  const SecondsPerDay: int := 86400

  /** Days from 1970-01-01 to the given date; `m` in 1..12. */
  function DaysFromCivil(y: int, m: int, d: int): int
    requires 1 <= m <= 12
  {
    var y' := if m <= 2 then y - 1 else y;
    var era := y' / 400;
    var yoe := y' - era * 400;
    var doy := (153 * (if m > 2 then m - 3 else m + 9) + 2) / 5 + d - 1;
    var doe := yoe * 365 + yoe / 4 - yoe / 100 + doy;
    era * 146097 + doe - 719468
  }

  /** The date (year, month, day) that lies `z` days after 1970-01-01. */
  function CivilFromDays(z: int): (int, int, int) {
    var z' := z + 719468;
    var era := z' / 146097;
    var doe := z' - era * 146097;
    var yoe := (doe - doe / 1460 + doe / 36524 - doe / 146096) / 365;
    var y := yoe + era * 400;
    var doy := doe - (365 * yoe + yoe / 4 - yoe / 100);
    var mp := (5 * doy + 2) / 153;
    var d := doy - (153 * mp + 2) / 5 + 1;
    var m := if mp < 10 then mp + 3 else mp - 9;
    (if m <= 2 then y + 1 else y, m, d)
  }

  /** `t.UTC()` followed by the calendar accessors. */
  function CivilOf(t: Instant): (c: Civil)
    ensures 0 <= c.hour < 24 && 0 <= c.minute < 60 && 0 <= c.second < 60
    ensures 0 <= c.nanosecond < Second
  {
    var secs := t.ns / Second;
    var days := secs / SecondsPerDay;
    var sod := secs % SecondsPerDay;
    var (y, m, d) := CivilFromDays(days);
    Civil(y, m, d, sod / 3600, sod % 3600 / 60, sod % 60, t.ns % Second)
  }

  /** `time.Date(y, mo, d, h, mi, s, ns, time.UTC)`; like Go, a month outside
      1..12 is carried into the year and the other fields add linearly. */
  function Date(y: int, mo: int, d: int, h: int, mi: int, s: int, ns: int): Instant {
    var m0 := mo - 1;
    var y1 := y + m0 / 12;
    var m1 := m0 % 12 + 1;
    var days := DaysFromCivil(y1, m1, 1) + d - 1;
    Instant((days * SecondsPerDay + h * 3600 + mi * 60 + s) * Second + ns)
  }

  /** `t.Add(d)`. */
  function Add(t: Instant, d: int): Instant {
    Instant(t.ns + d)
  }

  /** `t.Sub(u)`. */
  function Sub(t: Instant, u: Instant): int {
    t.ns - u.ns
  }

  /** Two instants in the same whole second have the same calendar fields
      down to the second. */
  lemma SameSecondSameFields(t: Instant, u: Instant)
    requires t.ns / Second == u.ns / Second
    ensures var c, e := CivilOf(t), CivilOf(u);
      c.year == e.year && c.month == e.month && c.day == e.day
      && c.hour == e.hour && c.minute == e.minute && c.second == e.second
  {
  }

  /** `time.Date` adds the clock fields linearly to the day's midnight. */
  lemma DateClock(y: int, mo: int, d: int, h: int, mi: int, s: int, ns: int)
    ensures Date(y, mo, d, h, mi, s, ns).ns
      == Date(y, mo, d, 0, 0, 0, 0).ns + h * Hour + mi * Minute + s * Second + ns
  {
    var m0 := mo - 1;
    var days := DaysFromCivil(y + m0 / 12, m0 % 12 + 1, 1) + d - 1;
    assert Date(y, mo, d, h, mi, s, ns).ns == (days * SecondsPerDay + h * 3600 + mi * 60 + s) * Second + ns;
    assert Date(y, mo, d, 0, 0, 0, 0).ns == days * SecondsPerDay * Second;
  }
}
