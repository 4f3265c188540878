/**
 * Proleptic Gregorian civil dates and times of day, as java.time's LocalDate and
 * LocalDateTime hold them, with the day steps that plusDays(1) and offset shifts need.
 */
module CivilTime {

  datatype Date = Date(year: int, month: int, day: int)

  datatype DateTime = DateTime(date: Date, hour: int, minute: int, second: int)

  const SECONDS_PER_DAY: int := 86400

  predicate IsLeapYear(y: int)
  {
    y % 4 == 0 && (y % 100 != 0 || y % 400 == 0)
  }

  function DaysInMonth(y: int, m: int): (n: int)
    requires 1 <= m <= 12
    ensures 28 <= n <= 31
  {
    if m == 2 then (if IsLeapYear(y) then 29 else 28)
    else if m == 4 || m == 6 || m == 9 || m == 11 then 30
    else 31
  }

  predicate ValidDate(d: Date)
  {
    1 <= d.month <= 12 && 1 <= d.day <= DaysInMonth(d.year, d.month)
  }

  predicate ValidDateTime(t: DateTime)
  {
    ValidDate(t.date) && 0 <= t.hour < 24 && 0 <= t.minute < 60 && 0 <= t.second < 60
  }

  /** LocalDate.plusDays(1). */
  function NextDay(d: Date): (r: Date)
    requires ValidDate(d)
    ensures ValidDate(r)
    ensures r.year == d.year || (r.year == d.year + 1 && d.month == 12 && d.day == 31 && r.month == 1 && r.day == 1)
  {
    if d.day < DaysInMonth(d.year, d.month) then Date(d.year, d.month, d.day + 1)
    else if d.month < 12 then Date(d.year, d.month + 1, 1)
    else Date(d.year + 1, 1, 1)
  }

  /** LocalDate.minusDays(1). */
  function PrevDay(d: Date): (r: Date)
    requires ValidDate(d)
    ensures ValidDate(r)
  {
    if d.day > 1 then Date(d.year, d.month, d.day - 1)
    else if d.month > 1 then Date(d.year, d.month - 1, DaysInMonth(d.year, d.month - 1))
    else Date(d.year - 1, 12, 31)
  }

  /** The two day steps undo each other, so no valid date is skipped or repeated. */
  lemma NextPrevInverse(d: Date)
    requires ValidDate(d)
    ensures PrevDay(NextDay(d)) == d && NextDay(PrevDay(d)) == d
  {
  }

  function SecondOfDay(t: DateTime): int
  {
    t.hour * 3600 + t.minute * 60 + t.second
  }

  function AtSecondOfDay(d: Date, s: int): (t: DateTime)
    requires ValidDate(d) && 0 <= s < SECONDS_PER_DAY
    ensures ValidDateTime(t) && t.date == d && SecondOfDay(t) == s
  {
    DateTime(d, s / 3600, (s % 3600) / 60, s % 60)
  }

  /**
   * The date-time `delta` seconds later (earlier for a negative delta); offsets never
   * exceed a day, so at most one day boundary is crossed.
   */
  function ShiftSeconds(t: DateTime, delta: int): (r: DateTime)
    requires ValidDateTime(t) && -SECONDS_PER_DAY < delta < SECONDS_PER_DAY
    ensures ValidDateTime(r)
    ensures r.date == t.date || r.date == NextDay(t.date) || r.date == PrevDay(t.date)
    ensures r.date == t.date ==> SecondOfDay(r) == SecondOfDay(t) + delta
    ensures r.date == NextDay(t.date) ==> SecondOfDay(r) == SecondOfDay(t) + delta - SECONDS_PER_DAY
  {
    var s := SecondOfDay(t) + delta;
    if s < 0 then AtSecondOfDay(PrevDay(t.date), s + SECONDS_PER_DAY)
    else if s >= SECONDS_PER_DAY then AtSecondOfDay(NextDay(t.date), s - SECONDS_PER_DAY)
    else AtSecondOfDay(t.date, s)
  }

  lemma SecondOfDayDetermines(a: DateTime, b: DateTime)
    requires ValidDateTime(a) && ValidDateTime(b) && a.date == b.date && SecondOfDay(a) == SecondOfDay(b)
    ensures a == b
  {
    var ra, rb := a.minute * 60 + a.second, b.minute * 60 + b.second;
    assert 0 <= ra < 3600 && 0 <= rb < 3600;
    assert a.hour < b.hour ==> a.hour * 3600 + 3600 <= b.hour * 3600;
    assert b.hour < a.hour ==> b.hour * 3600 + 3600 <= a.hour * 3600;
    assert a.hour == b.hour && ra == rb;
    assert a.minute < b.minute ==> a.minute * 60 + 60 <= b.minute * 60;
    assert b.minute < a.minute ==> b.minute * 60 + 60 <= a.minute * 60;
  }

  /** Shifting an instant by an offset and back returns the original date-time. */
  lemma {:induction false} ShiftRoundTrip(t: DateTime, delta: int)
    requires ValidDateTime(t) && -SECONDS_PER_DAY < delta < SECONDS_PER_DAY
    ensures ShiftSeconds(ShiftSeconds(t, delta), -delta) == t
  {
    var u := ShiftSeconds(t, delta);
    var s := SecondOfDay(t) + delta;
    NextPrevInverse(t.date);
    var back := ShiftSeconds(u, -delta);
    if s < 0 {
      assert u.date == PrevDay(t.date) && SecondOfDay(u) == s + SECONDS_PER_DAY;
      assert back.date == t.date && SecondOfDay(back) == SecondOfDay(t);
    } else if s >= SECONDS_PER_DAY {
      assert u.date == NextDay(t.date) && SecondOfDay(u) == s - SECONDS_PER_DAY;
      assert back.date == t.date && SecondOfDay(back) == SecondOfDay(t);
    } else {
      assert back.date == t.date && SecondOfDay(back) == SecondOfDay(t);
    }
    SecondOfDayDetermines(back, t);
  }

  lemma ShiftZero(t: DateTime)
    requires ValidDateTime(t)
    ensures ShiftSeconds(t, 0) == t
  {
    SecondOfDayDetermines(ShiftSeconds(t, 0), t);
  }
}
