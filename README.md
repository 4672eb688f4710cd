# GroupAlarm: a verified model of the alarm core

GroupAlarm is an Android alarm clock. Each alarm belongs to a group. A group
can be silenced for the current day ("Basta por hoy"), and then its alarms
skip today's firing but stay armed for later days. This project models the
app's core in Dafny:

- the alarm and group records with the weekday bitmask;
- the Room tables behind `AlarmDao` and `AlarmGroupDao`, as an in-memory store with unique ids, a foreign key and a cascade on group delete;
- `AlarmScheduler`: the next-trigger search, and the AlarmManager timer table keyed by request code;
- the firing path: `AlarmService.onStartCommand`, and how a ringing alarm is resolved by `AlarmActionReceiver` and `AlarmActivity`;
- `BootReceiver`, which re-arms every enabled alarm;
- the home and editor view models, without their UI;
- the home screen's `daysText` summary.

Every Android "now" is a parameter. `now` is a local date-time, `today` an epoch day, and `nowMillis` the snooze clock.

Layout, one module per file:

| file | module | models |
|---|---|---|
| wrappers.dfy | Wrappers | `Option` |
| java_time.dfy | JavaTime | the slice of `java.time` used: `LocalTime.of`, `isAfter`, `DayOfWeek`, epoch-day weekdays |
| alarm.dfy | AlarmModel | `Alarm.kt` |
| alarm_group.dfy | AlarmGroupModel | `AlarmGroup.kt` |
| sorting.dfy | Sorting | the `ORDER BY` of the queries, as a stable insertion sort |
| store.dfy | Store | the two tables and their integrity constraints |
| alarm_dao.dfy / alarm_group_dao.dfy | AlarmDao / AlarmGroupDao | the DAO queries and statements |
| alarm_repository.dfy | AlarmRepository | the repository's silence pair; its pass-through methods are the DAO members themselves |
| trigger_time.dfy | TriggerTime | `getNextTriggerTime`, `dayOfWeekToBitmask` |
| platform.dfy | Platform | AlarmManager (a `map` from request code to pending alarm) and NotificationManager |
| alarm_scheduler.dfy | AlarmScheduler | `schedule`, `scheduleSnooze`, `cancel`, request-code keying |
| alarm_service.dfy | AlarmService | `onStartCommand`, `buildNotification`, `playSound`, `startVibration`, `onDestroy` |
| alarm_activity.dfy | AlarmActivity | `handleIntent`, `dismissAlarm`, `snoozeAlarm`, `silenceGroup`, `stopAndFinish` |
| alarm_action_receiver.dfy | AlarmActionReceiver | `onReceive` |
| boot_receiver.dfy | BootReceiver | `onReceive` |
| home_view_model.dfy | HomeViewModel | `HomeViewModel.kt` |
| edit_alarm_view_model.dfy | EditAlarmViewModel | `EditAlarmViewModel.kt` |
| home_screen.dfy | HomeScreen | `daysText` |

Choices that shape the model:

- **Dates.** A date is an epoch day. Its weekday is `(day + 3) mod 7` counted from Monday, as in `java.time`. `LocalDate.toString()` is only ever compared for equality, so a stored silenced date is that day number.
- **Bitmask.** The `daysOfWeek` mask is a `bv32`, the Kotlin `Int`.
- **Request codes.** The timer table is keyed by the 32-bit request code: `alarm.id.toInt()`, and `alarmId.toInt() + 100000` for a snooze, with explicit two's-complement wrap-around.
- **Exceptions.** `LocalTime.of` throws for an hour or minute out of range. Scheduling such an alarm returns `threw` with the table unchanged. Inside the service coroutine a `catch (e: Exception)` ends the coroutine quietly, so the steps after the throw do not happen. In the boot receiver and the two view models nothing catches it: the exception reaches the default handler and the app crashes. The model stops those operations at the throw with the stored effects made so far, and reports the throw as `threw` or `failed`; the crash itself is left out. A `SecurityException` from `setAlarmClock` is caught and leaves the table unchanged; the AlarmManager's `denied` flag models it.
- **Store errors.** A store statement that violates a constraint aborts with nothing changed. An insert whose explicit id is taken fails, and so does a row whose group does not exist.
- **Coroutines.** Each coroutine and `goAsync` block runs to completion, sequentially, at the point where it is launched.

Where the code and its documentation differ, the model follows the code:

- **Vibration and the foreground notification** start before the database lookup. An aborted or skipped firing has vibrated, and posted the "Alarma" placeholder, until it stops.
- **A second `onStartCommand`** while an alarm is sounding does not stop the first player. The field is overwritten and the old player is never released. `AlarmService.abandoned` counts such players, and `AlarmService.PlayWhileHeldLeaks` states that a ring while one is held raises it.
- **Snooze keys.** The snooze request code of alarm `id` equals the regular request code of alarm `id + 100000` (`AlarmScheduler.SnoozeKeyIsRegularKeyOfOffsetId`).
- **A failed re-arm.** When the re-arm inside the service coroutine throws, neither `stopSelf` nor the activity launch runs.
- **Boot loop.** An exception while re-arming at boot is not caught (only a `finally` finishes the broadcast), so it ends the loop and crashes the app. The alarms after the throwing one stay unarmed.
- **`AlarmActivity.silenceGroup`** launches the group write and stops at once. The model runs the write first.
- **`snoozeAlarm`** has no guard for the id −1 that `handleIntent` stores when the intent has no id. It arms the snooze key of −1.
- **`toggleGroupSilence`** clears the date by writing back the whole row it was given. A rename made since that snapshot is undone.

## Model

| member | source | states |
|---|---|---|
| AlarmModel.NewAlarmDefaults | app/src/main/java/com/groupalarm/app/data/model/Alarm.kt:21-35 | an alarm built from group, hour and minute only is one-time (mask 0), enabled, with no sound and no label, and gets its id from the store (0) |
| AlarmModel.DayConstants | app/src/main/java/com/groupalarm/app/data/model/Alarm.kt:43-53 | the seven day constants are the distinct single bits 1 << i, Monday lowest; their OR is ALL_DAYS = 127; DAY_VALUES and DAY_LABELS have seven entries, aligned Monday first |
| AlarmModel.IsDayEnabledReadsBit | app/src/main/java/com/groupalarm/app/data/model/Alarm.kt:40 | isDayEnabled of day constant i holds exactly when bit i of the mask is set |
| AlarmModel.IsDayEnabled | app/src/main/java/com/groupalarm/app/data/model/Alarm.kt:40 | a day is enabled only for a non-zero day and a non-empty mask; IsDayEnabledReadsBit gives the exact bit |
| AlarmModel.Digits | app/src/main/java/com/groupalarm/app/data/model/Alarm.kt:36-38 | the decimal digits of a number: one for 0..9, at most two below 100 |
| AlarmModel.Pad2 | app/src/main/java/com/groupalarm/app/data/model/Alarm.kt:36-38 | "%02d" is exactly two characters for 0..99, at least two for any non-negative number, and starts with the sign for a negative one |
| AlarmModel.TimeFormatted | app/src/main/java/com/groupalarm/app/data/model/Alarm.kt:36-38 | for hour and minute in 0..99 the text is five characters with ":" in the middle |
| AlarmModel.Pad2RoundTrip | app/src/main/java/com/groupalarm/app/data/model/Alarm.kt:36-38 | "%02d" of 0..99 is two decimal digits that read back as the number |
| AlarmModel.TimeFormattedRoundTrip | app/src/main/java/com/groupalarm/app/data/model/Alarm.kt:36-38 | timeFormatted of hour and minute in 0..99 is five characters "HH:MM" whose halves read back as hour and minute |
| AlarmGroupModel.NoDateNotSilenced | app/src/main/java/com/groupalarm/app/data/model/AlarmGroup.kt:14-18 | a group with no silenced date is not silenced |
| AlarmGroupModel.SilencedOnlyOnStoredDay | app/src/main/java/com/groupalarm/app/data/model/AlarmGroup.kt:16-18 | a group is silenced today exactly when its stored date is today; a stale date counts as not silenced |
| AlarmGroupModel.SilenceIgnoresIdAndName | app/src/main/java/com/groupalarm/app/data/model/AlarmGroup.kt:16-18 | only the stored date and today decide isSilencedToday |
| AlarmGroupModel.IsSilencedToday | app/src/main/java/com/groupalarm/app/data/model/AlarmGroup.kt:16-18 | a silenced group has a stored date, and a group without one is never silenced |
| JavaTime.Ordinal | app/src/main/java/com/groupalarm/app/alarm/AlarmScheduler.kt:106 | a weekday's position is below 7 |
| JavaTime.DayAt | app/src/main/java/com/groupalarm/app/alarm/AlarmScheduler.kt:106 | DayOfWeek.of is the inverse of the position |
| JavaTime.DayOfWeekOf | app/src/main/java/com/groupalarm/app/alarm/AlarmScheduler.kt:106 | the weekday of an epoch day has position (day + 3) mod 7 |
| JavaTime.DaysUntil | app/src/main/java/com/groupalarm/app/alarm/AlarmScheduler.kt:99-101 | the next occurrence of a weekday is 1 to 7 days ahead and falls on that weekday |
| JavaTime.OrdinalInjective | app/src/main/java/com/groupalarm/app/alarm/AlarmScheduler.kt:106 | distinct weekdays have distinct positions |
| JavaTime.WeekLater | app/src/main/java/com/groupalarm/app/alarm/AlarmScheduler.kt:99-101 | seven days later is the same weekday |
| JavaTime.DaysOfOneWeekDiffer | app/src/main/java/com/groupalarm/app/alarm/AlarmScheduler.kt:99-101 | no weekday repeats within seven consecutive days |
| TriggerTime.DayOfWeekToBitmask | app/src/main/java/com/groupalarm/app/alarm/AlarmScheduler.kt:119-127 | a weekday maps to the day constant at its position |
| TriggerTime.BitmaskInjective | app/src/main/java/com/groupalarm/app/alarm/AlarmScheduler.kt:119-127 | each weekday's bit is non-zero and within ALL_DAYS; distinct weekdays have disjoint bits |
| TriggerTime.Scan | app/src/main/java/com/groupalarm/app/alarm/AlarmScheduler.kt:99-116 | the offset search always ends strictly after now, at the alarm's time, within 7 days |
| TriggerTime.NextTrigger | app/src/main/java/com/groupalarm/app/alarm/AlarmScheduler.kt:86-117 | the next trigger carries the alarm's hour and minute, is strictly after now and at most 7 days ahead |
| TriggerTime.GetNextTriggerTime | app/src/main/java/com/groupalarm/app/alarm/AlarmScheduler.kt:86-117 | the loop over offsets 0..7 with early return, then the fallback, computes NextTrigger |
| TriggerTime.OneTimeTrigger | app/src/main/java/com/groupalarm/app/alarm/AlarmScheduler.kt:90-96 | a one-time alarm is due today at hour:minute if that is strictly after now, otherwise tomorrow at that time |
| TriggerTime.LowestDay | app/src/main/java/com/groupalarm/app/alarm/AlarmScheduler.kt:109 | the lowest set weekday bit of a mask with some weekday bit |
| TriggerTime.ScanStopsByAccepted | app/src/main/java/com/groupalarm/app/alarm/AlarmScheduler.kt:99-112 | if some offset k is accepted, the search returns an accepted offset no later than k |
| TriggerTime.RepeatingTriggerIsEarliest | app/src/main/java/com/groupalarm/app/alarm/AlarmScheduler.kt:99-112 | with a weekday bit set, the trigger falls on a day whose bit is set, is the earliest accepted offset in 0..7, and today's slot counts only if strictly after now; the fallback is unreachable |
| TriggerTime.SomeAcceptedOffset | app/src/main/java/com/groupalarm/app/alarm/AlarmScheduler.kt:99-112 | a mask with a weekday bit accepts some offset in 1..7 |
| TriggerTime.ScanFinds | app/src/main/java/com/groupalarm/app/alarm/AlarmScheduler.kt:99-116 | a search that rejects every offset before `stop` ends at `stop` if it is accepted, else in the fallback |
| TriggerTime.ScanFindsEarliest | app/src/main/java/com/groupalarm/app/alarm/AlarmScheduler.kt:99-112 | with a weekday bit set, the search ends at its earliest accepted offset, at most 7 days ahead |
| TriggerTime.DayOfAccepted | app/src/main/java/com/groupalarm/app/alarm/AlarmScheduler.kt:106-109 | an accepted offset falls on a day the alarm has enabled |
| TriggerTime.ScanWithoutMatchFallsBack | app/src/main/java/com/groupalarm/app/alarm/AlarmScheduler.kt:109-116 | a mask with no weekday bit makes the search fall back to tomorrow |
| TriggerTime.HighBitsOnlyFallBack | app/src/main/java/com/groupalarm/app/alarm/AlarmScheduler.kt:109-116 | a non-zero mask without weekday bits (e.g. 128) gives tomorrow at hour:minute |
| TriggerTime.EveryDayMatchesOneTime | app/src/main/java/com/groupalarm/app/alarm/AlarmScheduler.kt:90-112 | an every-day alarm is due exactly when the one-time alarm at the same time would be |
| TriggerTime.WeeklyPassedIsNextWeek | app/src/main/java/com/groupalarm/app/alarm/AlarmScheduler.kt:99-112 | a weekly alarm for today whose slot has passed is due one week later |
| TriggerTime.WeekdayExample | app/src/main/java/com/groupalarm/app/alarm/AlarmScheduler.kt:99-112 | Mon/Wed/Fri at 07:00, asked on a Tuesday at 08:00, is due on Wednesday at 07:00 |
| Sorting.InsertBy | app/src/main/java/com/groupalarm/app/data/dao/AlarmDao.kt:17 | insertion adds the element to the multiset |
| Sorting.InsertKeepsSorted | app/src/main/java/com/groupalarm/app/data/dao/AlarmDao.kt:17 | inserting into a sorted sequence under a total preorder keeps it sorted |
| Sorting.SortBy | app/src/main/java/com/groupalarm/app/data/dao/AlarmDao.kt:17 | the ORDER BY result is a sorted permutation of the rows |
| Sorting.StringLeTotal | app/src/main/java/com/groupalarm/app/data/dao/AlarmGroupDao.kt:14 | the name order is total |
| Sorting.StringLeTransitive | app/src/main/java/com/groupalarm/app/data/dao/AlarmGroupDao.kt:14 | the name order is transitive |
| Store.Database.constructor | app/src/main/java/com/groupalarm/app/data/db/AppDatabase.kt:12-19 | a new database has empty tables, which are valid |
| Store.FindAlarm | app/src/main/java/com/groupalarm/app/data/dao/AlarmDao.kt:20-21 | the lookup finds a row with that id exactly when one exists |
| Store.FindGroup | app/src/main/java/com/groupalarm/app/data/dao/AlarmGroupDao.kt:17-18 | the lookup finds a row with that id exactly when one exists |
| Store.FindAlarmIsTheRow | app/src/main/java/com/groupalarm/app/data/dao/AlarmDao.kt:20-21 | with unique ids, the lookup of a stored alarm's id is that alarm |
| Store.FindGroupIsTheRow | app/src/main/java/com/groupalarm/app/data/dao/AlarmGroupDao.kt:17-18 | with unique ids, the lookup of a stored group's id is that group |
| Store.AppendAlarmKeepsUnique | app/src/main/java/com/groupalarm/app/data/dao/AlarmDao.kt:30-31 | appending an alarm with a fresh id keeps the ids unique |
| Store.AppendGroupKeepsUnique | app/src/main/java/com/groupalarm/app/data/dao/AlarmGroupDao.kt:20-21 | appending a group with a fresh id keeps the ids unique |
| Store.ReplaceAlarm | app/src/main/java/com/groupalarm/app/data/dao/AlarmDao.kt:33-34 | UPDATE by primary key replaces the row with that id and no other |
| Store.ReplaceAlarmKeepsIds | app/src/main/java/com/groupalarm/app/data/dao/AlarmDao.kt:33-34 | the update keeps the set of ids and their uniqueness |
| Store.ReplaceAlarmRows | app/src/main/java/com/groupalarm/app/data/dao/AlarmDao.kt:33-34 | after the update every row is the new row or an old one; with no row of that id the table is unchanged |
| Store.ReplaceAlarmFits | app/src/main/java/com/groupalarm/app/data/dao/AlarmDao.kt:33-34 | the updated table keeps ids within the counter and every group_id naming a group |
| Store.AlarmIdsCons | app/src/main/java/com/groupalarm/app/data/dao/AlarmDao.kt:33-34 | the ids of a row in front of a table are its id and the table's ids |
| Store.ReplaceGroup | app/src/main/java/com/groupalarm/app/data/dao/AlarmGroupDao.kt:23-24 | UPDATE by primary key replaces the row with that id and no other |
| Store.ReplaceGroupKeepsIds | app/src/main/java/com/groupalarm/app/data/dao/AlarmGroupDao.kt:23-24 | the update keeps the set of ids and their uniqueness |
| Store.ReplaceGroupRows | app/src/main/java/com/groupalarm/app/data/dao/AlarmGroupDao.kt:23-24 | after the update every row is the new row or an old one; with no row of that id the table is unchanged |
| Store.GroupIdsCons | app/src/main/java/com/groupalarm/app/data/dao/AlarmGroupDao.kt:23-24 | the ids of a row in front of a table are its id and the table's ids |
| Store.RemoveAlarm | app/src/main/java/com/groupalarm/app/data/dao/AlarmDao.kt:36-37 | DELETE removes exactly the rows with that id |
| Store.RemoveGroup | app/src/main/java/com/groupalarm/app/data/dao/AlarmGroupDao.kt:26-27 | DELETE removes exactly the rows with that id |
| Store.RemoveAlarmsOfGroup | app/src/main/java/com/groupalarm/app/data/model/Alarm.kt:11-17 | the cascade removes exactly the alarms of the deleted group |
| AlarmDao.ByTimeIsTotalPreorder | app/src/main/java/com/groupalarm/app/data/dao/AlarmDao.kt:17 | ORDER BY hour, minute is a total preorder |
| AlarmDao.WithGroups | app/src/main/java/com/groupalarm/app/data/model/AlarmWithGroup.kt:6-13 | every alarm is paired with the group whose id is its group id |
| AlarmDao.GetAllAlarmsWithGroup | app/src/main/java/com/groupalarm/app/data/dao/AlarmDao.kt:16-18 | the rows paired with their groups, sorted by (hour, minute), as a permutation of the table |
| AlarmDao.GetAlarmById | app/src/main/java/com/groupalarm/app/data/dao/AlarmDao.kt:20-21 | the row with that id, or none when there is none |
| AlarmDao.GetAlarmWithGroupById | app/src/main/java/com/groupalarm/app/data/dao/AlarmDao.kt:23-25 | the row with that id and its group, or none |
| AlarmDao.EnabledRows | app/src/main/java/com/groupalarm/app/data/dao/AlarmDao.kt:27-28 | exactly the rows with is_enabled set |
| AlarmDao.GetEnabledAlarms | app/src/main/java/com/groupalarm/app/data/repository/AlarmRepository.kt:26 | exactly the stored alarms that are enabled |
| AlarmDao.Insert | app/src/main/java/com/groupalarm/app/data/dao/AlarmDao.kt:30-31 | appends one row and returns its id (the next autoincrement for id 0); a missing group or a taken explicit id fails with nothing changed |
| AlarmDao.Update | app/src/main/java/com/groupalarm/app/data/dao/AlarmDao.kt:33-34 | replaces the row with the alarm's id; a missing group aborts with nothing changed; no row changes nothing |
| AlarmDao.Delete | app/src/main/java/com/groupalarm/app/data/dao/AlarmDao.kt:36-37 | removes exactly the row with the alarm's id |
| AlarmDao.SetEnabledTouchesOneField | app/src/main/java/com/groupalarm/app/data/dao/AlarmDao.kt:39-40 | setEnabled changes only is_enabled of row id; every other row and field is unchanged |
| AlarmDao.WithEnabled | app/src/main/java/com/groupalarm/app/data/dao/AlarmDao.kt:39-40 | the table keeps its length and its ids in place, and every row with that id gets the new is_enabled |
| AlarmDao.SetEnabled | app/src/main/java/com/groupalarm/app/data/repository/AlarmRepository.kt:34 | the table becomes the single-field update, keeping the store valid |
| AlarmGroupDao.ByNameIsTotalPreorder | app/src/main/java/com/groupalarm/app/data/dao/AlarmGroupDao.kt:14 | ORDER BY name is a total preorder |
| AlarmGroupDao.GetAllGroups | app/src/main/java/com/groupalarm/app/data/dao/AlarmGroupDao.kt:14-15 | a permutation of the group table sorted by name |
| AlarmGroupDao.GetGroupById | app/src/main/java/com/groupalarm/app/data/dao/AlarmGroupDao.kt:17-18 | the group with that id, or none when there is none |
| AlarmGroupDao.GetSilencedDate | app/src/main/java/com/groupalarm/app/data/dao/AlarmGroupDao.kt:32-33 | a missing group gives null; a date given is a stored group's date |
| AlarmGroupDao.SilencedDateIsTheRows | app/src/main/java/com/groupalarm/app/data/dao/AlarmGroupDao.kt:32-33 | the silenced date read for a stored group is its own |
| AlarmGroupDao.GetCount | app/src/main/java/com/groupalarm/app/data/repository/AlarmRepository.kt:53 | the number of group rows |
| AlarmGroupDao.Insert | app/src/main/java/com/groupalarm/app/data/dao/AlarmGroupDao.kt:20-21 | appends one row with a new id and increases the count by one; a taken explicit id fails with nothing changed |
| AlarmGroupDao.Update | app/src/main/java/com/groupalarm/app/data/dao/AlarmGroupDao.kt:23-24 | replaces the row with the group's id |
| AlarmGroupDao.Delete | app/src/main/java/com/groupalarm/app/data/dao/AlarmGroupDao.kt:26-27 | removes the group and, by the cascade, exactly its alarms |
| AlarmGroupDao.SilenceTouchesOneField | app/src/main/java/com/groupalarm/app/data/dao/AlarmGroupDao.kt:29-30 | silenceGroupForDate changes only silenced_date of row groupId; name and every other row are unchanged |
| AlarmGroupDao.WithSilencedDate | app/src/main/java/com/groupalarm/app/data/dao/AlarmGroupDao.kt:29-30 | the table keeps its length and its ids in place, and every row with that id gets the new silenced_date |
| AlarmGroupDao.SilenceKeepsIds | app/src/main/java/com/groupalarm/app/data/dao/AlarmGroupDao.kt:29-30 | the update keeps the group ids and their uniqueness |
| AlarmGroupDao.SilenceGroupForDate | app/src/main/java/com/groupalarm/app/data/dao/AlarmGroupDao.kt:29-30 | the group table becomes the single-field update; the alarms are untouched |
| AlarmGroupDao.SilenceThenRead | app/src/main/java/com/groupalarm/app/data/dao/AlarmGroupDao.kt:29-33 | after the update the group reads back the written date |
| AlarmRepository.SilenceGroupForToday | app/src/main/java/com/groupalarm/app/data/repository/AlarmRepository.kt:44-46 | writes today on the group; afterwards the group is silenced today |
| AlarmRepository.IsGroupSilencedToday | app/src/main/java/com/groupalarm/app/data/repository/AlarmRepository.kt:48-51 | true only for a stored group whose date is today; false for a missing group |
| AlarmRepository.AgreesWithStoredGroup | app/src/main/java/com/groupalarm/app/data/repository/AlarmRepository.kt:48-51 | the repository check agrees with AlarmGroup.isSilencedToday of the stored record |
| AlarmRepository.SilenceThenCheck | app/src/main/java/com/groupalarm/app/data/repository/AlarmRepository.kt:44-51 | silencing a group for today makes the check true on the same day |
| AlarmRepository.SilenceLeavesOtherGroups | app/src/main/java/com/groupalarm/app/data/repository/AlarmRepository.kt:44-46 | silencing one group leaves every other group's answer as it was before |
| Platform.AlarmManager.constructor | app/src/main/java/com/groupalarm/app/alarm/AlarmScheduler.kt:23 | an empty timer table |
| Platform.NotificationManager.constructor | app/src/main/java/com/groupalarm/app/alarm/AlarmService.kt:109 | no notification posted |
| Platform.NotificationManager.Notify | app/src/main/java/com/groupalarm/app/alarm/AlarmService.kt:110 | posts the notification under its id, replacing any previous one |
| Platform.NotificationManager.Cancel | app/src/main/java/com/groupalarm/app/alarm/AlarmActionReceiver.kt:21-22 | removes the notification with that id only |
| AlarmScheduler.ToInt | app/src/main/java/com/groupalarm/app/alarm/AlarmScheduler.kt:79 | Long.toInt is the 32-bit value congruent to the input |
| AlarmScheduler.ToIntCongruent | app/src/main/java/com/groupalarm/app/alarm/AlarmScheduler.kt:54 | numbers congruent mod 2^32 convert to the same Int |
| AlarmScheduler.RegularKey | app/src/main/java/com/groupalarm/app/alarm/AlarmScheduler.kt:73-82 | the request code of an id in the Int range is the id |
| AlarmScheduler.SnoozeKey | app/src/main/java/com/groupalarm/app/alarm/AlarmScheduler.kt:54 | the snooze request code is id + 100000 when that is in range |
| AlarmScheduler.RegularAndSnoozeKeysDiffer | app/src/main/java/com/groupalarm/app/alarm/AlarmScheduler.kt:52-82 | one alarm's regular and snooze keys never coincide |
| AlarmScheduler.SnoozeKeyIsRegularKeyOfOffsetId | app/src/main/java/com/groupalarm/app/alarm/AlarmScheduler.kt:52-82 | the snooze key of id is the regular key of id + 100000 |
| AlarmScheduler.RegularAlarm | app/src/main/java/com/groupalarm/app/alarm/AlarmScheduler.kt:30-36 | the armed entry fires after now, within 7 days, at the alarm's time, for this alarm, not as a snooze |
| AlarmScheduler.ScheduledTable | app/src/main/java/com/groupalarm/app/alarm/AlarmScheduler.kt:25-41 | only the regular key changes; it is set to RegularAlarm, the alarm's next trigger after now, when the alarm is enabled, its time valid and the call allowed; otherwise the table is unchanged |
| AlarmScheduler.ScheduleThrows | app/src/main/java/com/groupalarm/app/alarm/AlarmScheduler.kt:26-30 | a disabled alarm never throws, and neither does one whose hour and minute LocalTime.of accepts |
| AlarmScheduler.Schedule | app/src/main/java/com/groupalarm/app/alarm/AlarmScheduler.kt:25-41 | throws exactly for an enabled alarm with an invalid time; the table becomes ScheduledTable |
| AlarmScheduler.SnoozedTable | app/src/main/java/com/groupalarm/app/alarm/AlarmScheduler.kt:43-66 | sets the snooze key to nowMillis + 300000 and touches no other key, the regular key included; a SecurityException leaves the table |
| AlarmScheduler.ScheduleSnooze | app/src/main/java/com/groupalarm/app/alarm/AlarmScheduler.kt:43-66 | the table becomes SnoozedTable |
| AlarmScheduler.Cancel | app/src/main/java/com/groupalarm/app/alarm/AlarmScheduler.kt:68-71 | removes only the regular key, a no-op when absent |
| AlarmScheduler.CancelKeepsSnooze | app/src/main/java/com/groupalarm/app/alarm/AlarmScheduler.kt:68-71 | cancel keeps a pending snooze, leaves no regular entry, and is idempotent |
| AlarmScheduler.ScheduleTwiceIsScheduleOnce | app/src/main/java/com/groupalarm/app/alarm/AlarmScheduler.kt:33-36 | scheduling replaces the entry, never duplicates it: twice is once |
| BootReceiver.OnReceive | app/src/main/java/com/groupalarm/app/alarm/BootReceiver.kt:12-28 | another action changes nothing; boot re-arms the enabled alarms in order, stopping with an uncaught exception (an app crash) exactly when one has an invalid time |
| BootReceiver.ScheduleAll | app/src/main/java/com/groupalarm/app/alarm/BootReceiver.kt:20-22 | the forEach re-arm loop removes no key from the table |
| BootReceiver.ScheduleEach | app/src/main/java/com/groupalarm/app/alarm/BootReceiver.kt:20-22 | the forEach leaves the table ScheduleAll computes and stops with an uncaught exception exactly when some alarm has an invalid time |
| BootReceiver.ScheduleAllFrame | app/src/main/java/com/groupalarm/app/alarm/BootReceiver.kt:20-23 | a key no listed alarm uses keeps its entry |
| BootReceiver.ScheduleAllDenied | app/src/main/java/com/groupalarm/app/alarm/BootReceiver.kt:20-23 | when every schedule is denied the table is unchanged |
| BootReceiver.ScheduleAllArmsEach | app/src/main/java/com/groupalarm/app/alarm/BootReceiver.kt:20-23 | every enabled alarm ends with its regular key set to its next trigger |
| BootReceiver.ScheduleAllOrderIrrelevant | app/src/main/java/com/groupalarm/app/alarm/BootReceiver.kt:21-23 | with distinct keys, the order of the enabled list does not change the final table |
| BootReceiver.SameIdSameRow | app/src/main/java/com/groupalarm/app/data/model/Alarm.kt:22-23 | the primary key identifies the row |
| BootReceiver.BootLeavesDisabledAlarms | app/src/main/java/com/groupalarm/app/alarm/BootReceiver.kt:20 | a disabled alarm's key keeps its entry after boot |
| AlarmService.Decide | app/src/main/java/com/groupalarm/app/alarm/AlarmService.kt:90-120 | abort exactly for a missing alarm or a disabled one on a regular firing; skip exactly when a regular firing's group is silenced today, re-arming iff repeating; otherwise ring, re-arming iff repeating and not a snooze |
| AlarmService.SnoozeRingsWithoutRearm | app/src/main/java/com/groupalarm/app/alarm/AlarmService.kt:90-120 | a snooze firing of a stored alarm rings, enabled or not, and never re-arms |
| AlarmService.RepeatingAlarmStaysArmed | app/src/main/java/com/groupalarm/app/alarm/AlarmService.kt:97-120 | an enabled repeating alarm is re-armed on a regular firing, silenced or not |
| AlarmService.SilenceEndsWithTheDay | app/src/main/java/com/groupalarm/app/alarm/AlarmService.kt:97 | a group silenced on one day skips that day and rings on any other |
| AlarmService.BuildNotification | app/src/main/java/com/groupalarm/app/alarm/AlarmService.kt:136-164 | the title is the label, or "Alarma" when it is empty; the text is "Grupo: " and the group name, or empty without a group name |
| AlarmService.FirstPresent | app/src/main/java/com/groupalarm/app/alarm/AlarmService.kt:180-182 | the first present candidate, present iff some candidate is |
| AlarmService.FirstPresentOfThree | app/src/main/java/com/groupalarm/app/alarm/AlarmService.kt:180-182 | the three-way elvis chain |
| AlarmService.PrimaryUri | app/src/main/java/com/groupalarm/app/alarm/AlarmService.kt:180-182 | the configured sound, else the default alarm, else the default notification sound |
| AlarmService.FallbackUri | app/src/main/java/com/groupalarm/app/alarm/AlarmService.kt:208-210 | the default alarm, else notification, else ringtone sound, ignoring the configured one |
| AlarmService.PrimaryAndFallbackAgree | app/src/main/java/com/groupalarm/app/alarm/AlarmService.kt:177-210 | a configured sound is always the primary; without one, the primary and the fallback agree whenever an alarm or notification default exists |
| AlarmService.PlayOutcome | app/src/main/java/com/groupalarm/app/alarm/AlarmService.kt:177-226 | the sound held after playSound; one call loses at most one player or ringtone |
| AlarmService.PlaySoundPlays | app/src/main/java/com/groupalarm/app/alarm/AlarmService.kt:184-218 | a configured sound a MediaPlayer takes is played; else the first default a MediaPlayer takes; else the fallback Ringtone; so something sounds whenever a player or the ringtone can play |
| AlarmService.FailureReleasesHeldPlayer | app/src/main/java/com/groupalarm/app/alarm/AlarmService.kt:185-204 | when the new MediaPlayer fails it is never assigned; the player held before is released and the field cleared, so it is not counted as lost |
| AlarmService.PlayWhileHeldLeaks | app/src/main/java/com/groupalarm/app/alarm/AlarmService.kt:185 | a player that plays overwrites a held player and a fallback overwrites a held ringtone, raising `abandoned` by one; nothing is lost when nothing was held |
| AlarmService.AlarmService.constructor | app/src/main/java/com/groupalarm/app/alarm/AlarmService.kt:30-32 | no player, ringtone or vibration |
| AlarmService.AlarmService.PlaySound | app/src/main/java/com/groupalarm/app/alarm/AlarmService.kt:177-226 | the player, ringtone and lost-player count become PlayOutcome of the old ones; running, vibration and launches are kept |
| AlarmService.AlarmService.StartVibration | app/src/main/java/com/groupalarm/app/alarm/AlarmService.kt:228-243 | vibrates exactly when the device has a vibrator |
| AlarmService.AlarmService.OnDestroy | app/src/main/java/com/groupalarm/app/alarm/AlarmService.kt:245-254 | releases player, ringtone and vibration; a second release changes nothing |
| AlarmService.AlarmService.Stop | app/src/main/java/com/groupalarm/app/alarm/AlarmService.kt:42-44 | a running service is destroyed and releases everything; a stopped one is left as it is |
| AlarmService.AlarmService.HandleDecision | app/src/main/java/com/groupalarm/app/alarm/AlarmService.kt:86-130 | per decision: abort stops with nothing armed; skip re-arms a repeating alarm and stops; ring posts the detailed notification, holds the sound PlayOutcome gives for the alarm's configured URI, re-arms unless snoozed and launches the activity; abort and skip lose no player, and a skip whose re-arm throws keeps the sound and the running flag |
| AlarmService.AlarmService.OnStartCommand | app/src/main/java/com/groupalarm/app/alarm/AlarmService.kt:49-134 | id −1 or a failed startForeground stops with no lookup, sound or re-arm; otherwise the placeholder is posted, vibration starts, and the decision of the looked-up alarm is carried out; on ring the sound held is PlayOutcome of the configured URI and the sound held before, so a ring while a player is held loses it |
| AlarmActivity.AlarmActivity.constructor | app/src/main/java/com/groupalarm/app/alarm/AlarmActivity.kt:56-59 | no alarm id (−1), empty texts, not finished |
| AlarmActivity.AlarmActivity.HandleIntent | app/src/main/java/com/groupalarm/app/alarm/AlarmActivity.kt:95-105 | the id of the latest intent replaces the shown one; the clock text is "HH:mm"; label and group name come from the store, empty when missing |
| AlarmActivity.AlarmActivity.OnNewIntent | app/src/main/java/com/groupalarm/app/alarm/AlarmActivity.kt:88-93 | a new alarm replaces the shown alarm's id, label, group name and time text, as handleIntent loads them |
| AlarmActivity.AlarmActivity.FinishAndCleanup | app/src/main/java/com/groupalarm/app/alarm/AlarmActivity.kt:156-158 | the activity is finished, nothing else changes |
| AlarmActivity.AlarmActivity.StopAndFinish | app/src/main/java/com/groupalarm/app/alarm/AlarmActivity.kt:148-154 | stops the service, cancels notification 1001 only, finishes; the activity's id and texts, the service's launch and lost-player counts, and a stopped service's resources are kept |
| AlarmActivity.AlarmActivity.DismissAlarm | app/src/main/java/com/groupalarm/app/alarm/AlarmActivity.kt:124-126 | only stop-and-finish, with its frame: no timer or store change |
| AlarmActivity.AlarmActivity.SnoozeAlarm | app/src/main/java/com/groupalarm/app/alarm/AlarmActivity.kt:128-132 | arms only the snooze key of the current id, leaves the regular key as it was, then stops with stop-and-finish's frame |
| AlarmActivity.AlarmActivity.SilenceGroup | app/src/main/java/com/groupalarm/app/alarm/AlarmActivity.kt:134-146 | writes today on the current alarm's group if the alarm exists, changes no alarm or timer, then stops with stop-and-finish's frame; both id counters are kept |
| AlarmActionReceiver.OnReceive | app/src/main/java/com/groupalarm/app/alarm/AlarmActionReceiver.kt:15-51 | id −1 changes nothing in the store, timer table, notifications, service or activity; otherwise the service stops (keeping its launch and lost-player counts), notification 1001 goes and the activity finishes, keeping its id and texts; snooze arms only the snooze key; silence-group writes today on the alarm's group if the alarm exists; any other action does nothing more |
| HomeViewModel.AlarmsOfGroup | app/src/main/java/com/groupalarm/app/ui/home/HomeViewModel.kt:43-45 | exactly the listed alarms with that group id |
| HomeViewModel.GroupsWithAlarms | app/src/main/java/com/groupalarm/app/ui/home/HomeViewModel.kt:39-47 | one card per group in group order, each with its group's alarms |
| HomeViewModel.ListedAlarmsAreStored | app/src/main/java/com/groupalarm/app/ui/home/HomeViewModel.kt:36-48 | the listed alarms are exactly the stored ones |
| HomeViewModel.SnapshotCard | app/src/main/java/com/groupalarm/app/ui/home/HomeViewModel.kt:36-48 | card i shows the i-th group by name and exactly the stored alarms of that group |
| HomeViewModel.Snapshot | app/src/main/java/com/groupalarm/app/ui/home/HomeViewModel.kt:36-48 | one card per stored group |
| HomeViewModel.SnapshotPartitionsAlarms | app/src/main/java/com/groupalarm/app/ui/home/HomeViewModel.kt:36-48 | every stored alarm shows on exactly one card, its group's |
| HomeViewModel.BeforeAllRowsBeforeGroup | app/src/main/java/com/groupalarm/app/ui/home/HomeViewModel.kt:43-45 | a bound on all rows bounds the filtered ones |
| HomeViewModel.AlarmsOfGroupInTimeOrder | app/src/main/java/com/groupalarm/app/ui/home/HomeViewModel.kt:43-45 | each card's alarms keep the (hour, minute) order of the query |
| HomeViewModel.ConsKeepsTimeOrder | app/src/main/java/com/groupalarm/app/ui/home/HomeViewModel.kt:43-45 | an alarm no later than every alarm of a time-ordered list keeps it ordered in front |
| HomeViewModel.FindCard | app/src/main/java/com/groupalarm/app/ui/home/HomeViewModel.kt:111-112 | the card with that group id, none iff no card has it |
| HomeViewModel.FreshCardIsTheGroup | app/src/main/java/com/groupalarm/app/ui/home/HomeViewModel.kt:108-116 | on a fresh snapshot, a stored group's card holds exactly its stored alarms |
| HomeViewModel.FindCardIndex | app/src/main/java/com/groupalarm/app/ui/home/HomeViewModel.kt:111-112 | the found card sits at some index of the list |
| HomeViewModel.HomeViewModel.constructor | app/src/main/java/com/groupalarm/app/ui/home/HomeViewModel.kt:30-48 | dialog closed, nothing edited, empty list |
| HomeViewModel.HomeViewModel.Collect | app/src/main/java/com/groupalarm/app/ui/home/HomeViewModel.kt:36-48 | the list becomes the snapshot of the store |
| HomeViewModel.HomeViewModel.ToggleAlarm | app/src/main/java/com/groupalarm/app/ui/home/HomeViewModel.kt:50-60 | flips the stored flag; arms the enabled copy when it becomes enabled (an uncaught exception, crashing the app, only for an invalid time), cancels its key otherwise; both id counters are kept |
| HomeViewModel.HomeViewModel.DeleteAlarm | app/src/main/java/com/groupalarm/app/ui/home/HomeViewModel.kt:62-67 | cancels the regular key, then removes the row; both id counters are kept |
| HomeViewModel.HomeViewModel.ShowCreateGroupDialog | app/src/main/java/com/groupalarm/app/ui/home/HomeViewModel.kt:69-72 | dialog shown, no group edited |
| HomeViewModel.HomeViewModel.ShowEditGroupDialog | app/src/main/java/com/groupalarm/app/ui/home/HomeViewModel.kt:74-77 | dialog shown for that group |
| HomeViewModel.HomeViewModel.DismissGroupDialog | app/src/main/java/com/groupalarm/app/ui/home/HomeViewModel.kt:79-82 | dialog hidden and no group edited |
| HomeViewModel.HomeViewModel.SaveGroup | app/src/main/java/com/groupalarm/app/ui/home/HomeViewModel.kt:84-94 | renames the edited group or inserts a new one, then closes the dialog; a rename keeps both id counters, an insert takes group counter + 1 as the new id and raises that counter by one; the alarm counter and the card list are kept |
| HomeViewModel.HomeViewModel.ToggleGroupSilence | app/src/main/java/com/groupalarm/app/ui/home/HomeViewModel.kt:96-106 | writes back the row with no date if silenced today, else silences it; a stored group's answer flips; both id counters are kept |
| HomeViewModel.HomeViewModel.DeleteGroup | app/src/main/java/com/groupalarm/app/ui/home/HomeViewModel.kt:108-116 | cancels the regular key of every alarm on the group's card, then deletes the group and, by cascade, its alarms; both id counters are kept, so deleted ids are not reused |
| HomeViewModel.HomeViewModel.EnsureDefaultGroup | app/src/main/java/com/groupalarm/app/ui/home/HomeViewModel.kt:118-127 | inserts "General" only into an empty group table, leaving at least one group, so a second call adds nothing; the insert raises the group counter by one, and the alarm counter is kept |
| EditAlarmViewModel.ToggleDayTwiceRestores | app/src/main/java/com/groupalarm/app/ui/edit/EditAlarmViewModel.kt:66-68 | toggling the same day twice restores the mask |
| EditAlarmViewModel.ToggleDayFlipsOneDay | app/src/main/java/com/groupalarm/app/ui/edit/EditAlarmViewModel.kt:66-68 | toggling day i flips day i's bit and no other day's |
| EditAlarmViewModel.EditLeavesOneFreshTimer | app/src/main/java/com/groupalarm/app/ui/edit/EditAlarmViewModel.kt:89-99 | after cancel then schedule, the regular key holds the new trigger iff the schedule succeeded; the old entry never survives |
| EditAlarmViewModel.EditAlarmViewModel.constructor | app/src/main/java/com/groupalarm/app/ui/edit/EditAlarmViewModel.kt:26-59 | editing iff the navigation id > 0; a new alarm defaults to 07:00 every day with the default sound; an edited one loads the stored fields |
| EditAlarmViewModel.EditAlarmViewModel.CollectGroups | app/src/main/java/com/groupalarm/app/ui/edit/EditAlarmViewModel.kt:36-37 | the groups by name |
| EditAlarmViewModel.EditAlarmViewModel.SetHour | app/src/main/java/com/groupalarm/app/ui/edit/EditAlarmViewModel.kt:61 | sets the hour only |
| EditAlarmViewModel.EditAlarmViewModel.SetMinute | app/src/main/java/com/groupalarm/app/ui/edit/EditAlarmViewModel.kt:62 | sets the minute only |
| EditAlarmViewModel.EditAlarmViewModel.SetLabel | app/src/main/java/com/groupalarm/app/ui/edit/EditAlarmViewModel.kt:63 | sets the label only |
| EditAlarmViewModel.EditAlarmViewModel.SetSoundUri | app/src/main/java/com/groupalarm/app/ui/edit/EditAlarmViewModel.kt:64 | sets the sound only |
| EditAlarmViewModel.EditAlarmViewModel.ToggleDay | app/src/main/java/com/groupalarm/app/ui/edit/EditAlarmViewModel.kt:66-68 | XORs the day into the mask only |
| EditAlarmViewModel.EditAlarmViewModel.SelectGroup | app/src/main/java/com/groupalarm/app/ui/edit/EditAlarmViewModel.kt:70-72 | selects the group only |
| EditAlarmViewModel.EditAlarmViewModel.ChosenGroup | app/src/main/java/com/groupalarm/app/ui/edit/EditAlarmViewModel.kt:76 | the selected group, else the first group listed, else none |
| EditAlarmViewModel.EditAlarmViewModel.Draft | app/src/main/java/com/groupalarm/app/ui/edit/EditAlarmViewModel.kt:78-87 | the saved row is always enabled, under the edited id or 0, with the editor's fields |
| EditAlarmViewModel.EditAlarmViewModel.Save | app/src/main/java/com/groupalarm/app/ui/edit/EditAlarmViewModel.kt:74-102 | no group: nothing written, saved unchanged; editing: update, cancel, re-schedule under the same id; new: insert and schedule under the new id; `failed` is an uncaught exception that crashes the app (the foreign-key abort or an invalid time), and saved is set only without one; the editor fields are kept; the group counter is kept, and the alarm counter rises by one exactly on a successful insert |
| EditAlarmViewModel.EditAlarmViewModel.Delete | app/src/main/java/com/groupalarm/app/ui/edit/EditAlarmViewModel.kt:104-113 | nothing when not editing; otherwise cancels and removes the alarm if stored, and sets saved either way; the editor fields are kept in every case; both id counters are kept |
| HomeScreen.LabelsFrom | app/src/main/java/com/groupalarm/app/ui/home/HomeScreen.kt:359-361 | at most one three-letter label per remaining day |
| HomeScreen.SetLabels | app/src/main/java/com/groupalarm/app/ui/home/HomeScreen.kt:359-361 | the labels of the set days are three-letter labels |
| HomeScreen.JoinCommaLength | app/src/main/java/com/groupalarm/app/ui/home/HomeScreen.kt:361 | joining k three-letter labels gives 5k − 2 characters |
| HomeScreen.JoinComma | app/src/main/java/com/groupalarm/app/ui/home/HomeScreen.kt:361 | no parts join to ""; otherwise the first part starts the text |
| HomeScreen.DaysText | app/src/main/java/com/groupalarm/app/ui/home/HomeScreen.kt:351-362 | "Una vez" exactly for 0, "Todos los días" exactly for 127, the empty text exactly for a non-zero mask without weekday bits |
| HomeScreen.DayIsOneBit | app/src/main/java/com/groupalarm/app/ui/home/HomeScreen.kt:359-360 | each day constant is a single non-zero bit |
| HomeScreen.DayWithinAllDays | app/src/main/java/com/groupalarm/app/ui/home/HomeScreen.kt:359-360 | masking with 127 keeps every day's bit |
| HomeScreen.LabelNamesDay | app/src/main/java/com/groupalarm/app/ui/home/HomeScreen.kt:359-360 | each day's label parses back to that day's bit |
| HomeScreen.ConsStep | app/src/main/java/com/groupalarm/app/ui/home/HomeScreen.kt:359-360 | a day's label is listed exactly when its bit adds to the mask named by the later labels |
| HomeScreen.LowBitsAreMasked | app/src/main/java/com/groupalarm/app/ui/home/HomeScreen.kt:359-360 | the set bits from day i on are d masked with the union of those days' bits |
| HomeScreen.DaysFromZero | app/src/main/java/com/groupalarm/app/ui/home/HomeScreen.kt:359-360 | the seven day bits together are 127 |
| HomeScreen.LowBitsAreTheMask | app/src/main/java/com/groupalarm/app/ui/home/HomeScreen.kt:359-360 | the seven day bits of d together are d & 127 |
| HomeScreen.LabelsFromMask | app/src/main/java/com/groupalarm/app/ui/home/HomeScreen.kt:359-361 | the labels from day i on name exactly the set bits from i on |
| HomeScreen.LabelsNameTheMask | app/src/main/java/com/groupalarm/app/ui/home/HomeScreen.kt:359-361 | the labels shown name exactly the weekday bits of the mask |
| HomeScreen.SetLabelsEmpty | app/src/main/java/com/groupalarm/app/ui/home/HomeScreen.kt:359-361 | no label iff no weekday bit |
| HomeScreen.NoLabelsFrom | app/src/main/java/com/groupalarm/app/ui/home/HomeScreen.kt:359-361 | the empty mask has no labels |
| HomeScreen.SplitJoin | app/src/main/java/com/groupalarm/app/ui/home/HomeScreen.kt:361 | the ", " join of three-letter labels splits back into them |
| HomeScreen.DaysTextRoundTrip | app/src/main/java/com/groupalarm/app/ui/home/HomeScreen.kt:351-362 | the summary reads back as the mask's seven weekday bits |
| HomeScreen.DaysTextInjective | app/src/main/java/com/groupalarm/app/ui/home/HomeScreen.kt:351-362 | two masks within ALL_DAYS never share a summary |
| HomeScreen.HighBitsAddNoLabel | app/src/main/java/com/groupalarm/app/ui/home/HomeScreen.kt:359-361 | bits above Sunday contribute no label |
| HomeScreen.SameLabelsFrom | app/src/main/java/com/groupalarm/app/ui/home/HomeScreen.kt:359-361 | from any day on, the labels ignore the bits above Sunday |
| HomeScreen.NamedMasks | app/src/main/java/com/groupalarm/app/ui/home/HomeScreen.kt:354-357 | 31 reads "Lun a Vie" and 96 "Sáb y Dom" |
| HomeScreen.MondayAndWednesday | app/src/main/java/com/groupalarm/app/ui/home/HomeScreen.kt:359-361 | Monday and Wednesday list as "Lun", "Mié", in week order |

## Left out

- Zone conversion. The local trigger time's conversion through `ZoneId.systemDefault()` to epoch milliseconds is not modelled, so daylight-saving gaps and overlaps are out. The timer table stores the local date-time itself.
- The clock. The source reads the clock several times (`LocalDateTime.now()`, `LocalDate.now()` on every pass of the search, `LocalTime.now()` in the activity). The model reads it once per operation, so a run across midnight is out.
- Crashes. An exception that nothing catches (a `DateTimeException` from an invalid alarm time in the boot receiver, `HomeViewModel.toggleAlarm` or `EditAlarmViewModel.save`, and a foreign-key `SQLiteConstraintException` in `save`) kills the process, taking a sounding AlarmService and all view-model state with it. The model reports the throw and keeps the stored effects made before it, but does not model the process dying.
- Concurrency. Coroutines, `goAsync` and the `StateFlow`s are left out: each handler runs sequentially to completion, and every flow is a plain field refreshed by an explicit `Collect`. The race between `AlarmActivity.silenceGroup`'s write and its stop is not modelled.
- Platform internals. MediaPlayer, Ringtone, Vibrator, PendingIntent, AlarmManager and NotificationManager internals are abstract. Their effects are resource fields, a map from request code to pending alarm, and a map of posted notifications. Whether a URI can be played is a device parameter.
- The rest of the pending intent. Its extras and flags, the notification's actions and full-screen intent, and the action intents' hash-code request codes are left out.
- `AlarmService.AlarmService.PlaySound`: an exception thrown by `Ringtone.play()` is not modelled (that ringtone is taken as held), and neither is a null `getRingtone`, beyond a URI that cannot play.
- The platform's removal of the foreground notification when the service stops is not modelled. Only the explicit `cancel(1001)` calls are.
- The activity-finish broadcast is delivered directly to the one open activity. Registering and unregistering the receiver are left out.
- `AlarmActivity.AlarmActivity.HandleIntent`: `DateTimeFormatter "HH:mm"` of a valid time is the zero-padded hour and minute. The locale's digits are taken to be ASCII, and the same holds for `AlarmModel.TimeFormatted`'s "%02d".
- `AlarmReceiver.kt`, `AppDatabase.kt` (beyond its two tables), `AppModule.kt`, `GroupAlarmApp.kt`, `MainActivity.kt`, `NavGraph.kt` and the Compose screens are not part of this model. That covers the wake lock, the database singleton, dependency injection, channel setup, permissions and rendering. The service's input is the alarm id and snooze flag that `AlarmReceiver` forwards.
- Repository pass-throughs. `AlarmRepository`'s methods other than the silence pair delegate to a DAO. The model's callers use the DAO members directly.
- `AlarmGroupDao.GetSilencedDate`: the ensures gives one direction of "returns the stored date". The converse, for a stored group, is the lemma `AlarmGroupDao.SilencedDateIsTheRows`.
- `AlarmRepository.IsGroupSilencedToday`: likewise, the agreement with the stored record is the lemma `AlarmRepository.AgreesWithStoredGroup`.
- `Sorting.SortBy` is a stable insertion sort. SQLite's order among rows that tie on (hour, minute), or on name, is unspecified, and the model fixes one.
- Long ids. Ids are unbounded integers. The store never runs out of ids, and the 32-bit wrap is written out only where the source truncates: the request codes.
