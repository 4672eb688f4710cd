/**
 * AlarmActionReceiver: the three buttons of the alarm notification. Every
 * action ends the ringing session; snooze also arms the snooze alarm clock,
 * silence-group also stores today's date on the alarm's group.
 */
module AlarmActionReceiver {
  import opened Wrappers
  import opened Platform
  import opened AlarmScheduler
  import opened Store
  import opened AlarmDao
  import AlarmGroupDao
  import AlarmService
  import AlarmActivity

  /**
   * onReceive, with its coroutine run to completion. The ACTION_FINISH
   * broadcast is delivered to the open activity, which finishes.
   */
  method OnReceive(action: Option<string>, alarmId: int, db: Database, am: AlarmManager, nm: NotificationManager,
                   svc: AlarmService.AlarmService, activity: AlarmActivity.AlarmActivity, today: int, nowMillis: int)
    requires db.Valid()
    modifies db, am, nm, svc, activity
    ensures db.Valid()
    ensures am.denied == old(am.denied)
    ensures alarmId == AlarmService.NO_ALARM_ID ==> unchanged(db, am, nm, svc, activity)
    ensures alarmId != AlarmService.NO_ALARM_ID ==>
      && !svc.running && (old(svc.running) ==> svc.Released())
      && (!old(svc.running) ==> svc.mediaPlayer == old(svc.mediaPlayer) && svc.ringtone == old(svc.ringtone) && svc.vibrating == old(svc.vibrating))
      && svc.abandoned == old(svc.abandoned) && svc.launchedActivities == old(svc.launchedActivities)
      && nm.posted == old(nm.posted) - {AlarmService.NOTIFICATION_ID}
      && activity.finished
      && activity.alarmId == old(activity.alarmId) && activity.alarmLabel == old(activity.alarmLabel)
      && activity.groupName == old(activity.groupName) && activity.currentTime == old(activity.currentTime)
      && db.alarms == old(db.alarms) && db.alarmSeq == old(db.alarmSeq) && db.groupSeq == old(db.groupSeq)
      && am.pending == (if action == Some(AlarmService.ACTION_SNOOZE) then SnoozedTable(old(am.pending), alarmId, nowMillis, am.denied) else old(am.pending))
      && db.groups == (if action == Some(AlarmService.ACTION_SILENCE_GROUP) && alarmId in AlarmIds(old(db.alarms))
                       then AlarmGroupDao.WithSilencedDate(old(db.groups), FindAlarm(old(db.alarms), alarmId).value.groupId, today)
                       else old(db.groups))
  {
    if alarmId == AlarmService.NO_ALARM_ID {
      return;
    }
    svc.Stop();
    nm.Cancel(AlarmService.NOTIFICATION_ID);
    activity.FinishAndCleanup();
    if action == Some(AlarmService.ACTION_SNOOZE) {
      ScheduleSnooze(am, alarmId, nowMillis);
    } else if action == Some(AlarmService.ACTION_SILENCE_GROUP) {
      var alarm := GetAlarmById(db, alarmId);
      if alarm.Some? {
        AlarmGroupDao.SilenceGroupForDate(db, alarm.value.groupId, today);
      }
    }
  }
}
