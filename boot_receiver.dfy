/** BootReceiver: after a reboot the AlarmManager table is empty again; every enabled alarm is re-armed. */
module BootReceiver {
  import opened JavaTime
  import opened AlarmModel
  import opened Platform
  import opened AlarmScheduler
  import opened Store
  import opened AlarmDao

  const ACTION_BOOT_COMPLETED := "android.intent.action.BOOT_COMPLETED"

  /** The table after `alarms.forEach { schedule(it) }`; the first alarm that throws ends the loop. */
  function ScheduleAll(table: map<int, PendingAlarm>, alarms: seq<Alarm>, now: LocalDateTime, denied: bool): (r: map<int, PendingAlarm>)
    ensures forall k :: k in table ==> k in r
    decreases |alarms|
  {
    if alarms == [] then table
    else if ScheduleThrows(alarms[0]) then table
    else ScheduleAll(ScheduledTable(table, alarms[0], now, denied), alarms[1..], now, denied)
  }

  /** No two alarms of the list share a regular key. */
  predicate DistinctKeys(alarms: seq<Alarm>)
  {
    forall i, j :: 0 <= i < j < |alarms| ==> RegularKey(alarms[i].id) != RegularKey(alarms[j].id)
  }

  /**
   * onReceive: any other action is ignored; after boot, every enabled alarm
   * is scheduled in table order. `threw` is an exception the coroutine does
   * not catch: only `finally` finishes the broadcast, then the app crashes.
   */
  method OnReceive(action: string, db: Database, am: AlarmManager, now: LocalDateTime) returns (threw: bool)
    requires db.Valid()
    modifies am
    ensures am.denied == old(am.denied)
    ensures action != ACTION_BOOT_COMPLETED ==> am.pending == old(am.pending) && !threw
    ensures action == ACTION_BOOT_COMPLETED ==>
      && am.pending == ScheduleAll(old(am.pending), GetEnabledAlarms(db), now, am.denied)
      && (threw <==> exists a :: a in GetEnabledAlarms(db) && ScheduleThrows(a))
  {
    if action != ACTION_BOOT_COMPLETED {
      return false;
    }
    var enabledAlarms := GetEnabledAlarms(db);
    threw := ScheduleEach(am, enabledAlarms, now);
  }

  /** `alarms.forEach { scheduler.schedule(it) }`: stops at the first alarm whose schedule throws. */
  method ScheduleEach(am: AlarmManager, alarms: seq<Alarm>, now: LocalDateTime) returns (threw: bool)
    modifies am
    ensures am.denied == old(am.denied)
    ensures am.pending == ScheduleAll(old(am.pending), alarms, now, am.denied)
    ensures threw <==> exists a :: a in alarms && ScheduleThrows(a)
  {
    var i := 0;
    while i < |alarms|
      invariant 0 <= i <= |alarms|
      invariant am.denied == old(am.denied)
      invariant ScheduleAll(am.pending, alarms[i..], now, am.denied) == ScheduleAll(old(am.pending), alarms, now, am.denied)
      invariant forall j :: 0 <= j < i ==> !ScheduleThrows(alarms[j])
    {
      threw := Schedule(am, alarms[i], now);
      if threw {
        assert alarms[i] in alarms;
        return;
      }
      assert alarms[i..][1..] == alarms[i + 1..];
      i := i + 1;
    }
    threw := false;
    assert forall a :: a in alarms ==> !ScheduleThrows(a) by {
      forall a | a in alarms ensures !ScheduleThrows(a) {
        var j :| 0 <= j < |alarms| && alarms[j] == a;
      }
    }
  }

  /** Keys that belong to none of the scheduled alarms keep their entries. */
  lemma {:induction false} ScheduleAllFrame(table: map<int, PendingAlarm>, alarms: seq<Alarm>, now: LocalDateTime, denied: bool, k: int)
    requires forall a :: a in alarms ==> RegularKey(a.id) != k
    ensures var r := ScheduleAll(table, alarms, now, denied);
      (k in r <==> k in table) && (k in r ==> r[k] == table[k])
    decreases |alarms|
  {
    if alarms != [] && !ScheduleThrows(alarms[0]) {
      ScheduleAllFrame(ScheduledTable(table, alarms[0], now, denied), alarms[1..], now, denied, k);
    }
  }

  /** A platform that denies setAlarmClock keeps the whole table. */
  lemma {:induction false} ScheduleAllDenied(table: map<int, PendingAlarm>, alarms: seq<Alarm>, now: LocalDateTime)
    ensures ScheduleAll(table, alarms, now, true) == table
    decreases |alarms|
  {
    if alarms != [] && !ScheduleThrows(alarms[0]) {
      ScheduleAllDenied(ScheduledTable(table, alarms[0], now, true), alarms[1..], now);
    }
  }

  /** With no throwing alarm and distinct keys, each alarm's regular key ends at its own next trigger. */
  lemma {:induction false} ScheduleAllArmsEach(table: map<int, PendingAlarm>, alarms: seq<Alarm>, now: LocalDateTime, a: Alarm)
    requires forall b :: b in alarms ==> b.isEnabled && IsValidHourMinute(b.hour, b.minute)
    requires DistinctKeys(alarms)
    requires a in alarms
    ensures var r := ScheduleAll(table, alarms, now, false);
      RegularKey(a.id) in r && r[RegularKey(a.id)] == RegularAlarm(a, now)
    decreases |alarms|
  {
    var next := ScheduledTable(table, alarms[0], now, false);
    if a == alarms[0] {
      forall b | b in alarms[1..] ensures RegularKey(b.id) != RegularKey(a.id) {
        var j :| 0 <= j < |alarms[1..]| && alarms[1..][j] == b;
        assert alarms[j + 1] == b;
      }
      ScheduleAllFrame(next, alarms[1..], now, false, RegularKey(a.id));
    } else {
      assert a in alarms[1..];
      assert forall b :: b in alarms[1..] ==> b in alarms;
      assert DistinctKeys(alarms[1..]) by {
        forall i, j | 0 <= i < j < |alarms[1..]| ensures RegularKey(alarms[1..][i].id) != RegularKey(alarms[1..][j].id) {
          assert alarms[1..][i] == alarms[i + 1] && alarms[1..][j] == alarms[j + 1];
        }
      }
      ScheduleAllArmsEach(next, alarms[1..], now, a);
    }
  }

  /**
   * The order of the enabled list does not matter: regular keys are per
   * alarm and distinct, so any permutation leaves the same table.
   */
  lemma {:induction false} ScheduleAllOrderIrrelevant(table: map<int, PendingAlarm>, xs: seq<Alarm>, ys: seq<Alarm>, now: LocalDateTime, denied: bool)
    requires forall b :: b in xs ==> b.isEnabled && IsValidHourMinute(b.hour, b.minute)
    requires DistinctKeys(xs) && DistinctKeys(ys)
    requires multiset(xs) == multiset(ys)
    ensures ScheduleAll(table, xs, now, denied) == ScheduleAll(table, ys, now, denied)
  {
    assert forall b :: b in xs <==> b in ys by {
      forall b ensures b in xs <==> b in ys {
        assert b in xs <==> b in multiset(xs);
        assert b in ys <==> b in multiset(ys);
      }
    }
    var r1, r2 := ScheduleAll(table, xs, now, denied), ScheduleAll(table, ys, now, denied);
    if denied {
      ScheduleAllDenied(table, xs, now);
      ScheduleAllDenied(table, ys, now);
      return;
    }
    forall k ensures (k in r1 <==> k in r2) && (k in r1 ==> r1[k] == r2[k]) {
      if a :| a in xs && RegularKey(a.id) == k {
        ScheduleAllArmsEach(table, xs, now, a);
        ScheduleAllArmsEach(table, ys, now, a);
      } else {
        ScheduleAllFrame(table, xs, now, denied, k);
        ScheduleAllFrame(table, ys, now, denied, k);
      }
    }
  }

  /** Two rows of a table with unique ids that share an id are the same row. */
  lemma SameIdSameRow(rows: seq<Alarm>, a: Alarm, b: Alarm)
    requires UniqueAlarmIds(rows) && a in rows && b in rows && a.id == b.id
    ensures a == b
  {
    FindAlarmIsTheRow(rows, a);
    FindAlarmIsTheRow(rows, b);
  }

  /** Boot never touches the key of a disabled alarm (ids in the Int range, so keys are the ids). */
  lemma {:induction false} BootLeavesDisabledAlarms(db: Database, table: map<int, PendingAlarm>, now: LocalDateTime, denied: bool, a: Alarm)
    requires db.Valid()
    requires forall b :: b in db.alarms ==> 0 <= b.id < TWO_31
    requires a in db.alarms && !a.isEnabled
    ensures var r := ScheduleAll(table, GetEnabledAlarms(db), now, denied);
      (RegularKey(a.id) in r <==> RegularKey(a.id) in table) &&
      (RegularKey(a.id) in r ==> r[RegularKey(a.id)] == table[RegularKey(a.id)])
  {
    forall e | e in GetEnabledAlarms(db) ensures RegularKey(e.id) != RegularKey(a.id) {
      if e.id == a.id {
        SameIdSameRow(db.alarms, e, a);
      }
    }
    ScheduleAllFrame(table, GetEnabledAlarms(db), now, denied, RegularKey(a.id));
  }
}
