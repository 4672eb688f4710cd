/**
 * AlarmActivity: the full-screen alarm shown over the lock screen. It keeps
 * the id of the alarm it shows and resolves the session by dismiss, snooze
 * or silence-group, each ending in stop-and-finish.
 */
module AlarmActivity {
  import opened Wrappers
  import opened JavaTime
  import opened AlarmModel
  import opened Platform
  import opened AlarmScheduler
  import opened Store
  import opened AlarmDao
  import AlarmGroupDao
  import AlarmService

  class AlarmActivity {
    var alarmId: int
    var alarmLabel: string
    var groupName: string
    /** The clock as "HH:mm" when the intent arrived. */
    var currentTime: string
    /** finishAndRemoveTask has been called. */
    var finished: bool

    constructor()
      ensures alarmId == AlarmService.NO_ALARM_ID && alarmLabel == "" && groupName == "" && currentTime == ""
      ensures !finished
    {
      alarmId := AlarmService.NO_ALARM_ID;
      alarmLabel := "";
      groupName := "";
      currentTime := "";
      finished := false;
    }

    /**
     * handleIntent: the latest intent decides the alarm shown, replacing
     * any earlier one; its label and group name are loaded, "" when absent.
     */
    method HandleIntent(intentAlarmId: int, db: Database, nowTime: LocalTime)
      requires db.Valid()
      modifies this
      ensures alarmId == intentAlarmId && finished == old(finished)
      ensures currentTime == Pad2(nowTime.hour) + ":" + Pad2(nowTime.minute)
      ensures var found := GetAlarmWithGroupById(db, intentAlarmId);
        && alarmLabel == (if found.Some? then found.value.0.labelText else "")
        && groupName == (if found.Some? then found.value.1.name else "")
    {
      alarmId := intentAlarmId;
      currentTime := Pad2(nowTime.hour) + ":" + Pad2(nowTime.minute);
      var found := GetAlarmWithGroupById(db, alarmId);
      alarmLabel := if found.Some? then found.value.0.labelText else "";
      groupName := if found.Some? then found.value.1.name else "";
    }

    /** onNewIntent: a new alarm arriving while the activity is shown takes its place. */
    method OnNewIntent(intentAlarmId: int, db: Database, nowTime: LocalTime)
      requires db.Valid()
      modifies this
      ensures alarmId == intentAlarmId && finished == old(finished)
      ensures alarmLabel == (if intentAlarmId in AlarmIds(db.alarms) then GetAlarmById(db, intentAlarmId).value.labelText else "")
      ensures currentTime == Pad2(nowTime.hour) + ":" + Pad2(nowTime.minute)
      ensures var found := GetAlarmWithGroupById(db, intentAlarmId);
        groupName == (if found.Some? then found.value.1.name else "")
    {
      HandleIntent(intentAlarmId, db, nowTime);
    }

    /** finishAndCleanup, also what the ACTION_FINISH broadcast triggers. */
    method FinishAndCleanup()
      modifies this
      ensures finished
      ensures alarmId == old(alarmId) && alarmLabel == old(alarmLabel) && groupName == old(groupName) && currentTime == old(currentTime)
    {
      finished := true;
    }

    /** stopAndFinish: stop the service, cancel notification 1001, finish. */
    method StopAndFinish(svc: AlarmService.AlarmService, nm: NotificationManager)
      modifies this, svc, nm
      ensures finished && alarmId == old(alarmId)
      ensures !svc.running && (old(svc.running) ==> svc.Released())
      ensures !old(svc.running) ==> svc.mediaPlayer == old(svc.mediaPlayer) && svc.ringtone == old(svc.ringtone) && svc.vibrating == old(svc.vibrating)
      ensures svc.abandoned == old(svc.abandoned) && svc.launchedActivities == old(svc.launchedActivities)
      ensures alarmLabel == old(alarmLabel) && groupName == old(groupName) && currentTime == old(currentTime)
      ensures nm.posted == old(nm.posted) - {AlarmService.NOTIFICATION_ID}
    {
      svc.Stop();
      nm.Cancel(AlarmService.NOTIFICATION_ID);
      FinishAndCleanup();
    }

    /** dismissAlarm: stop-and-finish and nothing else; no timer and no row changes. */
    method DismissAlarm(svc: AlarmService.AlarmService, nm: NotificationManager)
      modifies this, svc, nm
      ensures finished && alarmId == old(alarmId)
      ensures !svc.running && (old(svc.running) ==> svc.Released())
      ensures !old(svc.running) ==> svc.mediaPlayer == old(svc.mediaPlayer) && svc.ringtone == old(svc.ringtone) && svc.vibrating == old(svc.vibrating)
      ensures svc.abandoned == old(svc.abandoned) && svc.launchedActivities == old(svc.launchedActivities)
      ensures alarmLabel == old(alarmLabel) && groupName == old(groupName) && currentTime == old(currentTime)
      ensures nm.posted == old(nm.posted) - {AlarmService.NOTIFICATION_ID}
    {
      StopAndFinish(svc, nm);
    }

    /** snoozeAlarm: arms the snooze key of the shown alarm (even the -1 of no alarm), then stops. */
    method SnoozeAlarm(am: AlarmManager, svc: AlarmService.AlarmService, nm: NotificationManager, nowMillis: int)
      modifies this, am, svc, nm
      ensures finished && alarmId == old(alarmId)
      ensures am.denied == old(am.denied)
      ensures am.pending == SnoozedTable(old(am.pending), alarmId, nowMillis, am.denied)
      ensures RegularKey(alarmId) in am.pending <==> RegularKey(alarmId) in old(am.pending)
      ensures !svc.running && (old(svc.running) ==> svc.Released())
      ensures !old(svc.running) ==> svc.mediaPlayer == old(svc.mediaPlayer) && svc.ringtone == old(svc.ringtone) && svc.vibrating == old(svc.vibrating)
      ensures svc.abandoned == old(svc.abandoned) && svc.launchedActivities == old(svc.launchedActivities)
      ensures alarmLabel == old(alarmLabel) && groupName == old(groupName) && currentTime == old(currentTime)
      ensures nm.posted == old(nm.posted) - {AlarmService.NOTIFICATION_ID}
    {
      ScheduleSnooze(am, alarmId, nowMillis);
      StopAndFinish(svc, nm);
    }

    /** silenceGroup: today's date on the group of the shown alarm, if it still exists; then stop. */
    method SilenceGroup(db: Database, svc: AlarmService.AlarmService, nm: NotificationManager, today: int)
      requires db.Valid()
      modifies this, db, svc, nm
      ensures db.Valid()
      ensures finished && alarmId == old(alarmId)
      ensures db.alarms == old(db.alarms) && db.alarmSeq == old(db.alarmSeq) && db.groupSeq == old(db.groupSeq)
      ensures db.groups == match FindAlarm(old(db.alarms), alarmId)
        case None => old(db.groups)
        case Some(a) => AlarmGroupDao.WithSilencedDate(old(db.groups), a.groupId, today)
      ensures !svc.running && (old(svc.running) ==> svc.Released())
      ensures !old(svc.running) ==> svc.mediaPlayer == old(svc.mediaPlayer) && svc.ringtone == old(svc.ringtone) && svc.vibrating == old(svc.vibrating)
      ensures svc.abandoned == old(svc.abandoned) && svc.launchedActivities == old(svc.launchedActivities)
      ensures alarmLabel == old(alarmLabel) && groupName == old(groupName) && currentTime == old(currentTime)
      ensures nm.posted == old(nm.posted) - {AlarmService.NOTIFICATION_ID}
    {
      var alarm := GetAlarmById(db, alarmId);
      if alarm.Some? {
        AlarmGroupDao.SilenceGroupForDate(db, alarm.value.groupId, today);
      }
      StopAndFinish(svc, nm);
    }
  }
}
