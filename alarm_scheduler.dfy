/**
 * AlarmScheduler: arms, re-arms and cancels the alarm clocks of alarms in the
 * AlarmManager's table. A regular alarm clock is keyed by the alarm id
 * truncated to a 32-bit Int; a snooze by that Int plus 100000, again wrapped.
 */
module AlarmScheduler {
  import opened JavaTime
  import opened AlarmModel
  import opened TriggerTime
  import opened Platform

  const SNOOZE_KEY_OFFSET := 100000
  /** 5 minutes in milliseconds. */
  const SNOOZE_DELAY_MILLIS := 5 * 60 * 1000

  const TWO_32 := 0x1_0000_0000
  const TWO_31 := 0x8000_0000

  /** Kotlin's Long.toInt() and Int addition: keep the low 32 bits, read as two's complement. */
  function ToInt(x: int): (r: int)
    ensures -TWO_31 <= r < TWO_31
    ensures (x - r) % TWO_32 == 0
  {
    (x + TWO_31) % TWO_32 - TWO_31
  }

  /** Two values with the same low 32 bits truncate to the same Int. */
  lemma {:induction false} ToIntCongruent(x: int, y: int)
    requires (x - y) % TWO_32 == 0
    ensures ToInt(x) == ToInt(y)
  {
    var r, s := ToInt(x), ToInt(y);
    assert (r - s) % TWO_32 == 0 by {
      assert r - s == (x - s) - (x - r);
      assert (x - s) % TWO_32 == 0 by {
        assert x - s == (x - y) + (y - s);
      }
    }
    assert -TWO_32 < r - s < TWO_32;
  }

  /** createPendingIntent: the request code of an alarm's regular alarm clock. */
  function RegularKey(id: int): (k: int)
    ensures 0 <= id < TWO_31 ==> k == id
  {
    ToInt(id)
  }

  /** scheduleSnooze: the request code of an alarm's snooze alarm clock. */
  function SnoozeKey(id: int): (k: int)
    ensures 0 <= id < TWO_31 - SNOOZE_KEY_OFFSET ==> k == id + SNOOZE_KEY_OFFSET
  {
    ToInt(ToInt(id) + SNOOZE_KEY_OFFSET)
  }

  /** An alarm's regular and snooze alarm clocks never share a key, for any id. */
  lemma {:induction false} RegularAndSnoozeKeysDiffer(id: int)
    ensures RegularKey(id) != SnoozeKey(id)
  {
    var r := ToInt(id);
    var s := ToInt(r + SNOOZE_KEY_OFFSET);
    assert s - r == SNOOZE_KEY_OFFSET || s - r == SNOOZE_KEY_OFFSET - TWO_32;
  }

  /** The offset avoids only small ids: the snooze key of `id` is the regular key of `id + 100000`. */
  lemma {:induction false} SnoozeKeyIsRegularKeyOfOffsetId(id: int)
    ensures SnoozeKey(id) == RegularKey(id + SNOOZE_KEY_OFFSET)
  {
    var r := ToInt(id);
    assert (id + SNOOZE_KEY_OFFSET) - (r + SNOOZE_KEY_OFFSET) == id - r;
    ToIntCongruent(id + SNOOZE_KEY_OFFSET, r + SNOOZE_KEY_OFFSET);
  }

  /** What `alarm`'s regular alarm clock is, once armed at `now`. */
  function RegularAlarm(alarm: Alarm, now: LocalDateTime): (p: PendingAlarm)
    requires IsValidHourMinute(alarm.hour, alarm.minute)
    ensures p.when.AtLocal? && IsAfter(p.when.at, now) && p.when.at.date <= now.date + 7
    ensures p.when.at.time == TimeOf(alarm.hour, alarm.minute)
    ensures p.alarmId == alarm.id && !p.isSnooze
  {
    PendingAlarm(AtLocal(NextTrigger(alarm, now)), alarm.id, false)
  }

  /**
   * The table after schedule(alarm): a disabled alarm, a time LocalTime.of
   * rejects, or a denied setAlarmClock leaves it as it was; otherwise the
   * alarm's regular key is set to its next trigger.
   */
  function ScheduledTable(table: map<int, PendingAlarm>, alarm: Alarm, now: LocalDateTime, denied: bool): (r: map<int, PendingAlarm>)
    ensures forall k :: k != RegularKey(alarm.id) ==> (k in r <==> k in table) && (k in r ==> r[k] == table[k])
    ensures alarm.isEnabled && IsValidHourMinute(alarm.hour, alarm.minute) && !denied ==>
      RegularKey(alarm.id) in r && r[RegularKey(alarm.id)] == RegularAlarm(alarm, now) && r[RegularKey(alarm.id)].alarmId == alarm.id &&
      r[RegularKey(alarm.id)].when.AtLocal? && IsAfter(r[RegularKey(alarm.id)].when.at, now)
    ensures !(alarm.isEnabled && IsValidHourMinute(alarm.hour, alarm.minute) && !denied) ==> r == table
  {
    if alarm.isEnabled && IsValidHourMinute(alarm.hour, alarm.minute) && !denied then
      table[RegularKey(alarm.id) := RegularAlarm(alarm, now)]
    else
      table
  }

  /** schedule(alarm) throws: an enabled alarm whose hour or minute LocalTime.of rejects. */
  predicate ScheduleThrows(alarm: Alarm): (r: bool)
    ensures !alarm.isEnabled ==> !r
    ensures 0 <= alarm.hour < 24 && 0 <= alarm.minute < 60 ==> !r
  {
    alarm.isEnabled && !IsValidHourMinute(alarm.hour, alarm.minute)
  }

  /**
   * schedule: arms the alarm's regular key. LocalTime.of throws for an
   * hour or minute out of range; that exception escapes (`threw`) with the
   * table untouched. A SecurityException is caught and also leaves it untouched.
   */
  method Schedule(am: AlarmManager, alarm: Alarm, now: LocalDateTime) returns (threw: bool)
    modifies am
    ensures threw <==> ScheduleThrows(alarm)
    ensures am.denied == old(am.denied)
    ensures am.pending == ScheduledTable(old(am.pending), alarm, now, am.denied)
  {
    if !alarm.isEnabled {
      return false;
    }
    if !IsValidHourMinute(alarm.hour, alarm.minute) {
      return true;
    }
    var triggerTime := GetNextTriggerTime(alarm, now);
    var key := RegularKey(alarm.id);
    if am.denied {
      return false;
    }
    am.pending := am.pending[key := PendingAlarm(AtLocal(triggerTime), alarm.id, false)];
    threw := false;
  }

  /** The table after scheduleSnooze(alarmId) at `nowMillis`. */
  function SnoozedTable(table: map<int, PendingAlarm>, alarmId: int, nowMillis: int, denied: bool): (r: map<int, PendingAlarm>)
    ensures RegularKey(alarmId) in r <==> RegularKey(alarmId) in table
    ensures RegularKey(alarmId) in r ==> r[RegularKey(alarmId)] == table[RegularKey(alarmId)]
    ensures !denied ==> SnoozeKey(alarmId) in r && r[SnoozeKey(alarmId)] == PendingAlarm(AtEpochMillis(nowMillis + 300000), alarmId, true)
    ensures forall k :: k != SnoozeKey(alarmId) ==> (k in r <==> k in table) && (k in r ==> r[k] == table[k])
    ensures denied ==> r == table
  {
    RegularAndSnoozeKeysDiffer(alarmId);
    if denied then table
    else table[SnoozeKey(alarmId) := PendingAlarm(AtEpochMillis(nowMillis + SNOOZE_DELAY_MILLIS), alarmId, true)]
  }

  /** scheduleSnooze: arms the snooze key five minutes after `nowMillis`, unless setAlarmClock is denied. */
  method ScheduleSnooze(am: AlarmManager, alarmId: int, nowMillis: int)
    modifies am
    ensures am.denied == old(am.denied)
    ensures am.pending == SnoozedTable(old(am.pending), alarmId, nowMillis, am.denied)
  {
    var snoozeTime := nowMillis + SNOOZE_DELAY_MILLIS;
    var key := ToInt(ToInt(alarmId) + SNOOZE_KEY_OFFSET);
    if am.denied {
      return;
    }
    am.pending := am.pending[key := PendingAlarm(AtEpochMillis(snoozeTime), alarmId, true)];
  }

  /** cancel: removes the regular key only; the snooze key and every other key stay. */
  method Cancel(am: AlarmManager, alarm: Alarm)
    modifies am
    ensures am.denied == old(am.denied)
    ensures am.pending == old(am.pending) - {RegularKey(alarm.id)}
  {
    am.pending := am.pending - {RegularKey(alarm.id)};
  }

  /** Cancelling keeps the alarm's snooze; cancelling twice is cancelling once. */
  lemma CancelKeepsSnooze(table: map<int, PendingAlarm>, id: int)
    ensures SnoozeKey(id) in table ==> SnoozeKey(id) in table - {RegularKey(id)} && (table - {RegularKey(id)})[SnoozeKey(id)] == table[SnoozeKey(id)]
    ensures RegularKey(id) !in table - {RegularKey(id)}
    ensures (table - {RegularKey(id)}) - {RegularKey(id)} == table - {RegularKey(id)}
  {
    RegularAndSnoozeKeysDiffer(id);
  }

  /** Scheduling again replaces, never duplicates: the second schedule alone decides the key. */
  lemma ScheduleTwiceIsScheduleOnce(table: map<int, PendingAlarm>, alarm: Alarm, now: LocalDateTime, denied: bool)
    requires alarm.isEnabled && IsValidHourMinute(alarm.hour, alarm.minute) && !denied
    ensures ScheduledTable(ScheduledTable(table, alarm, now, denied), alarm, now, denied) == ScheduledTable(table, alarm, now, denied)
  {
  }
}
