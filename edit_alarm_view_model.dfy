/**
 * EditAlarmViewModel: the editor of one alarm. A navigation id above 0
 * edits that alarm; anything else creates a new one. Save writes the
 * store first and then the timer table.
 */
module EditAlarmViewModel {
  import opened Wrappers
  import opened JavaTime
  import opened AlarmModel
  import opened AlarmGroupModel
  import opened Platform
  import opened AlarmScheduler
  import opened Store
  import AlarmDao
  import AlarmGroupDao

  const DEFAULT_HOUR := 7
  const DEFAULT_MINUTE := 0

  /** Toggling the same day twice gives back the mask; a toggle flips that day and no other. */
  lemma ToggleDayTwiceRestores(mask: bv32, day: bv32)
    ensures (mask ^ day) ^ day == mask
  {
  }

  lemma ToggleDayFlipsOneDay(mask: bv32, i: nat, j: nat)
    requires i < 7 && j < 7
    ensures ((mask ^ DAY_VALUES[i]) & DAY_VALUES[j] != 0) == (if i == j then mask & DAY_VALUES[j] == 0 else mask & DAY_VALUES[j] != 0)
  {
    DayConstants();
    var v, w := DAY_VALUES[i], DAY_VALUES[j];
    assert v == (1 as bv32) << i && w == (1 as bv32) << j;
  }

  /**
   * Editing cancels the alarm's regular key and schedules it again: whatever
   * was armed under the key before is gone, and the key holds the new
   * trigger exactly when the schedule succeeds.
   */
  lemma EditLeavesOneFreshTimer(table: map<int, PendingAlarm>, alarm: Alarm, now: LocalDateTime, denied: bool)
    requires alarm.isEnabled
    ensures var r := ScheduledTable(table - {RegularKey(alarm.id)}, alarm, now, denied);
      && (RegularKey(alarm.id) in r <==> IsValidHourMinute(alarm.hour, alarm.minute) && !denied)
      && (RegularKey(alarm.id) in r ==> r[RegularKey(alarm.id)] == RegularAlarm(alarm, now))
  {
  }

  class EditAlarmViewModel {
    const alarmId: int
    const isEditing: bool
    var hour: int
    var minute: int
    var daysOfWeek: bv32
    var selectedGroupId: Option<int>
    var soundUri: string
    var labelText: string
    /** The last value of the groups flow; empty until the store first emits. */
    var groups: seq<AlarmGroup>
    var saved: bool

    /**
     * The view model and its init block: the navigation argument, the
     * defaults 07:00 every day, then either the stored alarm's fields or
     * the device's default alarm sound.
     */
    constructor(navAlarmId: Option<int>, db: Database, defaultAlarmUri: Option<Uri>)
      requires db.Valid()
      ensures alarmId == (if navAlarmId.Some? then navAlarmId.value else -1)
      ensures isEditing <==> alarmId > 0
      ensures groups == [] && !saved
      ensures !isEditing ==>
        && hour == DEFAULT_HOUR && minute == DEFAULT_MINUTE && daysOfWeek == ALL_DAYS
        && selectedGroupId.None? && labelText == ""
        && soundUri == (if defaultAlarmUri.Some? then defaultAlarmUri.value else "")
      ensures isEditing ==> match AlarmDao.GetAlarmById(db, alarmId)
        case None =>
          && hour == DEFAULT_HOUR && minute == DEFAULT_MINUTE && daysOfWeek == ALL_DAYS
          && selectedGroupId.None? && soundUri == "" && labelText == ""
        case Some(a) =>
          && hour == a.hour && minute == a.minute && daysOfWeek == a.daysOfWeek
          && selectedGroupId == Some(a.groupId) && soundUri == a.soundUri && labelText == a.labelText
    {
      var id := if navAlarmId.Some? then navAlarmId.value else -1;
      alarmId := id;
      isEditing := id > 0;
      hour := DEFAULT_HOUR;
      minute := DEFAULT_MINUTE;
      daysOfWeek := ALL_DAYS;
      selectedGroupId := None;
      soundUri := "";
      labelText := "";
      groups := [];
      saved := false;
      new;
      if isEditing {
        var found := AlarmDao.GetAlarmById(db, alarmId);
        if found.Some? {
          var alarm := found.value;
          hour := alarm.hour;
          minute := alarm.minute;
          daysOfWeek := alarm.daysOfWeek;
          selectedGroupId := Some(alarm.groupId);
          soundUri := alarm.soundUri;
          labelText := alarm.labelText;
        }
      } else {
        soundUri := if defaultAlarmUri.Some? then defaultAlarmUri.value else "";
      }
    }

    /** The groups flow emits: the store's groups by name. */
    method CollectGroups(db: Database)
      modifies this
      ensures groups == AlarmGroupDao.GetAllGroups(db)
      ensures hour == old(hour) && minute == old(minute) && daysOfWeek == old(daysOfWeek) && selectedGroupId == old(selectedGroupId)
      ensures soundUri == old(soundUri) && labelText == old(labelText) && saved == old(saved)
    {
      groups := AlarmGroupDao.GetAllGroups(db);
    }

    method SetHour(h: int)
      modifies this
      ensures hour == h
      ensures minute == old(minute) && daysOfWeek == old(daysOfWeek) && selectedGroupId == old(selectedGroupId)
      ensures soundUri == old(soundUri) && labelText == old(labelText) && groups == old(groups) && saved == old(saved)
    {
      hour := h;
    }

    method SetMinute(m: int)
      modifies this
      ensures minute == m
      ensures hour == old(hour) && daysOfWeek == old(daysOfWeek) && selectedGroupId == old(selectedGroupId)
      ensures soundUri == old(soundUri) && labelText == old(labelText) && groups == old(groups) && saved == old(saved)
    {
      minute := m;
    }

    method SetLabel(l: string)
      modifies this
      ensures labelText == l
      ensures hour == old(hour) && minute == old(minute) && daysOfWeek == old(daysOfWeek) && selectedGroupId == old(selectedGroupId)
      ensures soundUri == old(soundUri) && groups == old(groups) && saved == old(saved)
    {
      labelText := l;
    }

    method SetSoundUri(uri: string)
      modifies this
      ensures soundUri == uri
      ensures hour == old(hour) && minute == old(minute) && daysOfWeek == old(daysOfWeek) && selectedGroupId == old(selectedGroupId)
      ensures labelText == old(labelText) && groups == old(groups) && saved == old(saved)
    {
      soundUri := uri;
    }

    /** toggleDay: XOR of the day's bit into the mask. */
    method ToggleDay(day: bv32)
      modifies this
      ensures daysOfWeek == old(daysOfWeek) ^ day
      ensures hour == old(hour) && minute == old(minute) && selectedGroupId == old(selectedGroupId)
      ensures soundUri == old(soundUri) && labelText == old(labelText) && groups == old(groups) && saved == old(saved)
    {
      daysOfWeek := daysOfWeek ^ day;
    }

    method SelectGroup(groupId: int)
      modifies this
      ensures selectedGroupId == Some(groupId)
      ensures hour == old(hour) && minute == old(minute) && daysOfWeek == old(daysOfWeek)
      ensures soundUri == old(soundUri) && labelText == old(labelText) && groups == old(groups) && saved == old(saved)
    {
      selectedGroupId := Some(groupId);
    }

    /** The group save() writes to: the selected one, else the first group listed, else none. */
    function ChosenGroup(): (g: Option<int>)
      reads this
      ensures g.None? <==> selectedGroupId.None? && groups == []
      ensures selectedGroupId.Some? ==> g == selectedGroupId
      ensures selectedGroupId.None? && groups != [] ==> g == Some(groups[0].id)
    {
      if selectedGroupId.Some? then selectedGroupId
      else if groups != [] then Some(groups[0].id)
      else None
    }

    /** The row save() writes: the editor's fields under the edited id (0 for a new alarm), always enabled. */
    function Draft(groupId: int): (a: Alarm)
      reads this
      ensures a.isEnabled
      ensures a.id == (if isEditing then alarmId else 0) && a.groupId == groupId
      ensures a.hour == hour && a.minute == minute && a.daysOfWeek == daysOfWeek
      ensures a.soundUri == soundUri && a.labelText == labelText
    {
      Alarm(id := if isEditing then alarmId else 0, groupId := groupId, hour := hour, minute := minute,
            daysOfWeek := daysOfWeek, isEnabled := true, soundUri := soundUri, labelText := labelText)
    }

    /**
     * save, with its coroutine run to completion. `failed` is an exception
     * nothing catches, so it ends the coroutine and crashes the app: the
     * store's foreign-key abort, or the DateTimeException of scheduling an
     * out-of-range time. Without a group
     * it returns at once.
     */
    method Save(db: Database, am: AlarmManager, now: LocalDateTime) returns (failed: bool)
      requires db.Valid()
      modifies this, db, am
      ensures db.Valid()
      ensures db.groups == old(db.groups)
      ensures am.denied == old(am.denied)
      ensures hour == old(hour) && minute == old(minute) && daysOfWeek == old(daysOfWeek) && groups == old(groups)
      ensures selectedGroupId == old(selectedGroupId) && soundUri == old(soundUri) && labelText == old(labelText)
      ensures db.groupSeq == old(db.groupSeq)
      ensures old(ChosenGroup()).None? ==>
        && !failed && saved == old(saved)
        && db.alarms == old(db.alarms) && db.alarmSeq == old(db.alarmSeq) && am.pending == old(am.pending)
      ensures old(ChosenGroup()).Some? && isEditing ==>
        var draft := old(Draft(ChosenGroup().value));
        if alarmId in AlarmIds(old(db.alarms)) && draft.groupId !in GroupIds(old(db.groups)) then
          && failed && saved == old(saved)
          && db.alarms == old(db.alarms) && db.alarmSeq == old(db.alarmSeq) && am.pending == old(am.pending)
        else
          && db.alarms == ReplaceAlarm(old(db.alarms), draft) && db.alarmSeq == old(db.alarmSeq)
          && am.pending == ScheduledTable(old(am.pending) - {RegularKey(alarmId)}, draft, now, am.denied)
          && (failed <==> !IsValidHourMinute(hour, minute))
          && saved == (if failed then old(saved) else true)
      ensures old(ChosenGroup()).Some? && !isEditing ==>
        var draft := old(Draft(ChosenGroup().value));
        if draft.groupId !in GroupIds(old(db.groups)) then
          && failed && saved == old(saved)
          && db.alarms == old(db.alarms) && db.alarmSeq == old(db.alarmSeq) && am.pending == old(am.pending)
        else
          var stored := draft.(id := old(db.alarmSeq) + 1);
          && db.alarms == old(db.alarms) + [stored] && db.alarmSeq == old(db.alarmSeq) + 1
          && am.pending == ScheduledTable(old(am.pending), stored, now, am.denied)
          && (failed <==> !IsValidHourMinute(hour, minute))
          && saved == (if failed then old(saved) else true)
    {
      failed := false;
      var chosen := ChosenGroup();
      if chosen.None? {
        return;
      }
      var alarm := Draft(chosen.value);
      if isEditing {
        var ok := AlarmDao.Update(db, alarm);
        if !ok {
          return true;
        }
        Cancel(am, alarm);
      } else {
        var id := AlarmDao.Insert(db, alarm);
        if id.None? {
          return true;
        }
        failed := Schedule(am, alarm.(id := id.value), now);
        if failed {
          return;
        }
        saved := true;
        return;
      }
      failed := Schedule(am, alarm, now);
      if failed {
        return;
      }
      saved := true;
    }

    /** delete: only when editing; cancels and removes the alarm if it is still stored; `saved` either way. */
    method Delete(db: Database, am: AlarmManager)
      requires db.Valid()
      modifies this, db, am
      ensures db.Valid()
      ensures db.groups == old(db.groups)
      ensures am.denied == old(am.denied)
      ensures hour == old(hour) && minute == old(minute) && daysOfWeek == old(daysOfWeek) && groups == old(groups)
      ensures selectedGroupId == old(selectedGroupId) && soundUri == old(soundUri) && labelText == old(labelText)
      ensures db.alarmSeq == old(db.alarmSeq) && db.groupSeq == old(db.groupSeq)
      ensures !isEditing ==> saved == old(saved) && db.alarms == old(db.alarms) && am.pending == old(am.pending)
      ensures isEditing ==> saved
      ensures isEditing && alarmId in AlarmIds(old(db.alarms)) ==>
        db.alarms == RemoveAlarm(old(db.alarms), alarmId) && am.pending == old(am.pending) - {RegularKey(alarmId)}
      ensures isEditing && alarmId !in AlarmIds(old(db.alarms)) ==>
        db.alarms == old(db.alarms) && am.pending == old(am.pending)
    {
      if !isEditing {
        return;
      }
      var found := AlarmDao.GetAlarmById(db, alarmId);
      if found.Some? {
        Cancel(am, found.value);
        AlarmDao.Delete(db, found.value);
      }
      saved := true;
    }
  }
}
