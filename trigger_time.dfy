/**
 * AlarmScheduler.getNextTriggerTime and dayOfWeekToBitmask: the next local
 * date-time at which an alarm is due, given the current local date-time. The
 * conversion of that local date-time to epoch milliseconds through the system
 * zone is not modelled.
 */
module TriggerTime {
  import opened JavaTime
  import opened AlarmModel

  /** AlarmScheduler.dayOfWeekToBitmask: the Alarm day constant of a java.time day. */
  function DayOfWeekToBitmask(day: DayOfWeek): (bit: bv32)
    ensures bit == DAY_VALUES[Ordinal(day)]
  {
    match day
    case MONDAY => AlarmModel.MONDAY
    case TUESDAY => AlarmModel.TUESDAY
    case WEDNESDAY => AlarmModel.WEDNESDAY
    case THURSDAY => AlarmModel.THURSDAY
    case FRIDAY => AlarmModel.FRIDAY
    case SATURDAY => AlarmModel.SATURDAY
    case SUNDAY => AlarmModel.SUNDAY
  }

  /** Distinct days map to distinct single bits inside ALL_DAYS. */
  lemma BitmaskInjective(d: DayOfWeek, e: DayOfWeek)
    ensures DayOfWeekToBitmask(d) & ALL_DAYS == DayOfWeekToBitmask(d) != 0
    ensures d != e ==> DayOfWeekToBitmask(d) & DayOfWeekToBitmask(e) == 0
  {
  }

  /** Whether two masks have a bit in common. */
  predicate Shares(mask: bv32, bit: bv32)
  {
    mask & bit != 0
  }

  /** The slot at hour:minute `offset` days after today. */
  function Candidate(now: LocalDateTime, t: LocalTime, offset: int): LocalDateTime
  {
    LocalDateTime(now.date + offset, t)
  }

  /**
   * Whether the repeating search stops at `offset`: today's slot only if it is
   * still strictly ahead of now, and only on a day whose bit is set in the mask.
   */
  predicate Accepts(mask: bv32, now: LocalDateTime, t: LocalTime, offset: int)
  {
    && !(offset == 0 && !IsAfter(Candidate(now, t, offset), now))
    && Shares(mask, DayOfWeekToBitmask(DayOfWeekOf(now.date + offset)))
  }

  /** The search over offsets `offset`..7, ending in the fallback: tomorrow at the same time. */
  function Scan(mask: bv32, t: LocalTime, now: LocalDateTime, offset: nat): (r: LocalDateTime)
    requires offset <= 8
    ensures r.time == t
    ensures IsAfter(r, now)
    ensures now.date <= r.date <= now.date + 7
    decreases 8 - offset
  {
    if offset == 8 then LocalDateTime(now.date + 1, t)
    else if Accepts(mask, now, t, offset) then Candidate(now, t, offset)
    else Scan(mask, t, now, offset + 1)
  }

  /**
   * getNextTriggerTime: a one-time alarm (empty mask) is due today at hour:minute
   * if that is still ahead, otherwise tomorrow; a repeating one on the first
   * accepted day of the search.
   */
  function NextTrigger(a: Alarm, now: LocalDateTime): (r: LocalDateTime)
    requires IsValidHourMinute(a.hour, a.minute)
    ensures r.time == TimeOf(a.hour, a.minute)
    ensures IsAfter(r, now)
    ensures now.date <= r.date <= now.date + 7
  {
    var t := TimeOf(a.hour, a.minute);
    if a.daysOfWeek == 0 then
      var candidate := LocalDateTime(now.date, t);
      if IsAfter(candidate, now) then candidate else LocalDateTime(now.date + 1, t)
    else
      Scan(a.daysOfWeek, t, now, 0)
  }

  /** The loop of getNextTriggerTime, offsets 0..7 with early return, then the fallback. */
  method GetNextTriggerTime(a: Alarm, now: LocalDateTime) returns (trigger: LocalDateTime)
    requires IsValidHourMinute(a.hour, a.minute)
    ensures trigger == NextTrigger(a, now)
  {
    var alarmTime := TimeOf(a.hour, a.minute);
    if a.daysOfWeek == 0 {
      var candidate := LocalDateTime(now.date, alarmTime);
      trigger := if IsAfter(candidate, now) then candidate else LocalDateTime(candidate.date + 1, alarmTime);
      return;
    }
    for offset := 0 to 8
      invariant forall k :: 0 <= k < offset ==> !Accepts(a.daysOfWeek, now, alarmTime, k)
    {
      var candidateDate := now.date + offset;
      var candidateDateTime := LocalDateTime(candidateDate, alarmTime);
      if offset == 0 && !IsAfter(candidateDateTime, now) {
        continue;
      }
      var alarmDay := DayOfWeekToBitmask(DayOfWeekOf(candidateDate));
      if Shares(a.daysOfWeek, alarmDay) {
        ScanFinds(a.daysOfWeek, alarmTime, now, 0, offset);
        return candidateDateTime;
      }
    }
    ScanFinds(a.daysOfWeek, alarmTime, now, 0, 8);
    trigger := LocalDateTime(now.date + 1, alarmTime);
  }

  /** The search from `from` stops at the first accepted offset, or falls back after offset 7. */
  lemma {:induction false} ScanFinds(mask: bv32, t: LocalTime, now: LocalDateTime, from: nat, stop: nat)
    requires from <= stop <= 8
    requires forall k :: from <= k < stop ==> !Accepts(mask, now, t, k)
    requires stop < 8 ==> Accepts(mask, now, t, stop)
    ensures Scan(mask, t, now, from) == if stop < 8 then Candidate(now, t, stop) else LocalDateTime(now.date + 1, t)
    decreases stop - from
  {
    if from < stop {
      ScanFinds(mask, t, now, from + 1, stop);
    }
  }

  /** A one-time alarm is due today at hour:minute if that is strictly after now, else tomorrow. */
  lemma OneTimeTrigger(a: Alarm, now: LocalDateTime)
    requires IsValidHourMinute(a.hour, a.minute) && a.daysOfWeek == 0
    ensures var today := LocalDateTime(now.date, TimeOf(a.hour, a.minute));
      NextTrigger(a, now) == if IsAfter(today, now) then today else LocalDateTime(now.date + 1, today.time)
  {
  }

  /** The lowest weekday whose bit is set in a mask with some low-7 bit. */
  function LowestDay(mask: bv32): (i: nat)
    requires mask & ALL_DAYS != 0
    ensures i < 7 && mask & DAY_VALUES[i] != 0
    ensures forall j :: 0 <= j < i ==> mask & DAY_VALUES[j] == 0
  {
    if mask & 1 != 0 then 0
    else if mask & 2 != 0 then 1
    else if mask & 4 != 0 then 2
    else if mask & 8 != 0 then 3
    else if mask & 16 != 0 then 4
    else if mask & 32 != 0 then 5
    else 6
  }

  /** If offset k (at or after `offset`) is accepted, the search stops at the first accepted offset, by k. */
  lemma {:induction false} ScanStopsByAccepted(mask: bv32, t: LocalTime, now: LocalDateTime, offset: nat, k: nat)
    requires offset <= k < 8 && Accepts(mask, now, t, k)
    ensures var r := Scan(mask, t, now, offset);
      && offset <= r.date - now.date <= k
      && Accepts(mask, now, t, r.date - now.date)
      && r == Candidate(now, t, r.date - now.date)
      && forall j :: offset <= j < r.date - now.date ==> !Accepts(mask, now, t, j)
    decreases k - offset
  {
    if !Accepts(mask, now, t, offset) {
      ScanStopsByAccepted(mask, t, now, offset + 1, k);
    }
  }

  /**
   * A repeating alarm with some weekday bit set is due on the earliest accepted
   * offset in 0..7: a day whose bit is set, strictly after now, with no accepted
   * day before it; so the fallback is never used and the result is at most 7 days ahead.
   */
  lemma {:induction false} RepeatingTriggerIsEarliest(a: Alarm, now: LocalDateTime)
    requires IsValidHourMinute(a.hour, a.minute) && a.daysOfWeek & ALL_DAYS != 0
    ensures var t := TimeOf(a.hour, a.minute); var r := NextTrigger(a, now); var k := r.date - now.date;
      && 0 <= k <= 7
      && r == Candidate(now, t, k)
      && IsDayEnabled(a, DayOfWeekToBitmask(DayOfWeekOf(r.date)))
      && Accepts(a.daysOfWeek, now, t, k)
      && forall j :: 0 <= j < k ==> !Accepts(a.daysOfWeek, now, t, j)
  {
    var t := TimeOf(a.hour, a.minute);
    var k := ScanFindsEarliest(a.daysOfWeek, t, now);
    assert a.daysOfWeek != 0;
    var r := NextTrigger(a, now);
    assert r == Candidate(now, t, k);
    DayOfAccepted(a, now, t, k, r.date);
  }

  /** An accepted offset falls on a day the alarm has enabled. */
  lemma DayOfAccepted(a: Alarm, now: LocalDateTime, t: LocalTime, k: int, date: int)
    requires Accepts(a.daysOfWeek, now, t, k) && date == now.date + k
    ensures IsDayEnabled(a, DayOfWeekToBitmask(DayOfWeekOf(date)))
  {
  }

  /** The search over a mask with a weekday bit stops at its earliest accepted offset. */
  lemma {:induction false} ScanFindsEarliest(mask: bv32, t: LocalTime, now: LocalDateTime) returns (k: nat)
    requires mask & ALL_DAYS != 0
    ensures k <= 7
    ensures Scan(mask, t, now, 0) == Candidate(now, t, k)
    ensures Accepts(mask, now, t, k)
    ensures forall j :: 0 <= j < k ==> !Accepts(mask, now, t, j)
  {
    var i := SomeAcceptedOffset(mask, t, now);
    ScanStopsByAccepted(mask, t, now, 0, i);
    k := Scan(mask, t, now, 0).date - now.date;
  }

  /** Some offset in 1..7 falls on a day whose bit is set in a mask with a weekday bit. */
  lemma {:induction false} SomeAcceptedOffset(mask: bv32, t: LocalTime, now: LocalDateTime) returns (k: nat)
    requires mask & ALL_DAYS != 0
    ensures 1 <= k <= 7 && Accepts(mask, now, t, k)
  {
    var i := LowestDay(mask);
    k := DaysUntil(now.date, DayAt(i));
    assert DayOfWeekToBitmask(DayOfWeekOf(now.date + k)) == DAY_VALUES[i];
  }

  /** With no accepted offset from `offset` on, the search ends in the fallback. */
  lemma {:induction false} ScanWithoutMatchFallsBack(mask: bv32, t: LocalTime, now: LocalDateTime, offset: nat)
    requires offset <= 8 && mask & ALL_DAYS == 0
    ensures Scan(mask, t, now, offset) == LocalDateTime(now.date + 1, t)
    decreases 8 - offset
  {
    if offset < 8 {
      BitmaskInjective(DayOfWeekOf(now.date + offset), DayOfWeekOf(now.date + offset));
      ScanWithoutMatchFallsBack(mask, t, now, offset + 1);
    }
  }

  /** A non-zero mask with no weekday bit (for instance 128) falls back to tomorrow at hour:minute. */
  lemma {:induction false} HighBitsOnlyFallBack(a: Alarm, now: LocalDateTime)
    requires IsValidHourMinute(a.hour, a.minute) && a.daysOfWeek != 0 && a.daysOfWeek & ALL_DAYS == 0
    ensures NextTrigger(a, now) == LocalDateTime(now.date + 1, TimeOf(a.hour, a.minute))
  {
    ScanWithoutMatchFallsBack(a.daysOfWeek, TimeOf(a.hour, a.minute), now, 0);
  }

  /** An every-day alarm is due when a one-time alarm at the same time would be: within a day. */
  lemma {:induction false} EveryDayMatchesOneTime(a: Alarm, now: LocalDateTime)
    requires IsValidHourMinute(a.hour, a.minute) && a.daysOfWeek & ALL_DAYS == ALL_DAYS
    ensures NextTrigger(a, now) == NextTrigger(a.(daysOfWeek := 0), now)
  {
    var t := TimeOf(a.hour, a.minute);
    BitmaskInjective(DayOfWeekOf(now.date), DayOfWeekOf(now.date));
    BitmaskInjective(DayOfWeekOf(now.date + 1), DayOfWeekOf(now.date + 1));
    assert Accepts(a.daysOfWeek, now, t, 1);
    ScanStopsByAccepted(a.daysOfWeek, t, now, 0, 1);
  }

  /** A weekly alarm for today's weekday whose slot today has passed is due one week later. */
  lemma {:induction false} WeeklyPassedIsNextWeek(a: Alarm, now: LocalDateTime)
    requires IsValidHourMinute(a.hour, a.minute)
    requires a.daysOfWeek == DayOfWeekToBitmask(DayOfWeekOf(now.date))
    requires !IsAfter(LocalDateTime(now.date, TimeOf(a.hour, a.minute)), now)
    ensures NextTrigger(a, now) == LocalDateTime(now.date + 7, TimeOf(a.hour, a.minute))
  {
    var d := DayOfWeekOf(now.date);
    BitmaskInjective(d, d);
    RepeatingTriggerIsEarliest(a, now);
    var r := NextTrigger(a, now);
    var k := r.date - now.date;
    if k < 7 {
      assert k != 0;
      DaysOfOneWeekDiffer(now.date, 0, k);
      BitmaskInjective(d, DayOfWeekOf(r.date));
      assert false;
    }
  }

  /** Monday, Wednesday and Friday at 07:00, asked on a Tuesday (epoch day 5) at 08:00: Wednesday 07:00. */
  lemma WeekdayExample()
    ensures var a := Alarm(groupId := 1, hour := 7, minute := 0, daysOfWeek := AlarmModel.MONDAY | AlarmModel.WEDNESDAY | AlarmModel.FRIDAY);
      && DayOfWeekOf(5) == TUESDAY && DayOfWeekOf(6) == WEDNESDAY
      && NextTrigger(a, LocalDateTime(5, LocalTime(8, 0, 0, 0))) == LocalDateTime(6, LocalTime(7, 0, 0, 0))
  {
    var a := Alarm(groupId := 1, hour := 7, minute := 0, daysOfWeek := AlarmModel.MONDAY | AlarmModel.WEDNESDAY | AlarmModel.FRIDAY);
    var now := LocalDateTime(5, LocalTime(8, 0, 0, 0));
    assert Scan(a.daysOfWeek, TimeOf(7, 0), now, 1) == LocalDateTime(6, LocalTime(7, 0, 0, 0));
  }
}
