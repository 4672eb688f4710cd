/**
 * The small part of java.time that the alarm code relies on. A date is an epoch
 * day (days since 1970-01-01, a Thursday), so the day of the week advances by one
 * per day; a time of day keeps its hour, minute, second and nanosecond.
 */
module JavaTime {

  /** LocalTime: a time of day. */
  datatype LocalTime = LocalTime(hour: int, minute: int, second: int, nano: int)

  /** LocalDateTime: an epoch day and a time of day, with no zone. */
  datatype LocalDateTime = LocalDateTime(date: int, time: LocalTime)

  /** java.time.DayOfWeek, in its own order (Monday first). */
  datatype DayOfWeek = MONDAY | TUESDAY | WEDNESDAY | THURSDAY | FRIDAY | SATURDAY | SUNDAY

  /** The arguments LocalTime.of(hour, minute) accepts; it throws for any other. */
  predicate IsValidHourMinute(hour: int, minute: int)
  {
    0 <= hour < 24 && 0 <= minute < 60
  }

  /** LocalTime.of(hour, minute). */
  function TimeOf(hour: int, minute: int): LocalTime
    requires IsValidHourMinute(hour, minute)
  {
    LocalTime(hour, minute, 0, 0)
  }

  /** LocalTime.isAfter: later within the day, field by field. */
  predicate TimeIsAfter(a: LocalTime, b: LocalTime)
  {
    || a.hour > b.hour
    || (a.hour == b.hour && a.minute > b.minute)
    || (a.hour == b.hour && a.minute == b.minute && a.second > b.second)
    || (a.hour == b.hour && a.minute == b.minute && a.second == b.second && a.nano > b.nano)
  }

  /** LocalDateTime.isAfter: a later date, or the same date and a later time. */
  predicate IsAfter(a: LocalDateTime, b: LocalDateTime)
  {
    a.date > b.date || (a.date == b.date && TimeIsAfter(a.time, b.time))
  }

  /** The position of a day in DayOfWeek, Monday = 0. */
  function Ordinal(d: DayOfWeek): (i: nat)
    ensures i < 7
  {
    match d
    case MONDAY => 0
    case TUESDAY => 1
    case WEDNESDAY => 2
    case THURSDAY => 3
    case FRIDAY => 4
    case SATURDAY => 5
    case SUNDAY => 6
  }

  /** DayOfWeek.of(i + 1). */
  function DayAt(i: nat): (d: DayOfWeek)
    requires i < 7
    ensures Ordinal(d) == i
  {
    [MONDAY, TUESDAY, WEDNESDAY, THURSDAY, FRIDAY, SATURDAY, SUNDAY][i]
  }

  /** LocalDate.getDayOfWeek: floorMod(epochDay + 3, 7) counted from Monday. */
  function DayOfWeekOf(date: int): (d: DayOfWeek)
    ensures Ordinal(d) == (date + 3) % 7
  {
    DayAt((date + 3) % 7)
  }

  /** The number of days, between 1 and 7, from `date` to the next `d`. */
  function DaysUntil(date: int, d: DayOfWeek): (k: int)
    ensures 1 <= k <= 7
    ensures DayOfWeekOf(date + k) == d
  {
    var k := (Ordinal(d) - (date + 3) % 7 + 6) % 7 + 1;
    OrdinalInjective(DayOfWeekOf(date + k), d);
    k
  }

  lemma OrdinalInjective(a: DayOfWeek, b: DayOfWeek)
    requires Ordinal(a) == Ordinal(b)
    ensures a == b
  {
  }

  /** Seven days later it is the same day of the week. */
  lemma {:induction false} WeekLater(date: int)
    ensures DayOfWeekOf(date + 7) == DayOfWeekOf(date)
  {
    OrdinalInjective(DayOfWeekOf(date + 7), DayOfWeekOf(date));
  }

  /** Within one week no day of the week repeats. */
  lemma {:induction false} DaysOfOneWeekDiffer(date: int, i: int, j: int)
    requires 0 <= i < j < 7
    ensures DayOfWeekOf(date + i) != DayOfWeekOf(date + j)
  {
  }
}
