/** AlarmDao: the queries and updates of the `alarms` table. */
module AlarmDao {
  import opened Wrappers
  import opened AlarmModel
  import opened AlarmGroupModel
  import opened Store
  import opened Sorting

  /** AlarmWithGroup: an alarm and the group its `group_id` names. */
  type AlarmWithGroup = (Alarm, AlarmGroup)

  /** ORDER BY hour ASC, minute ASC. */
  predicate ByTime(p: AlarmWithGroup, q: AlarmWithGroup)
  {
    p.0.hour < q.0.hour || (p.0.hour == q.0.hour && p.0.minute <= q.0.minute)
  }

  lemma ByTimeIsTotalPreorder()
    ensures IsTotalPreorder(ByTime)
  {
  }

  /** Each row paired with its group, in table order. */
  function WithGroups(rows: seq<Alarm>, groups: seq<AlarmGroup>): (r: seq<AlarmWithGroup>)
    requires forall a :: a in rows ==> a.groupId in GroupIds(groups)
    ensures |r| == |rows|
    ensures forall i :: 0 <= i < |rows| ==> r[i].0 == rows[i] && r[i].1 in groups && r[i].1.id == rows[i].groupId
  {
    if rows == [] then []
    else [(rows[0], FindGroup(groups, rows[0].groupId).value)] + WithGroups(rows[1..], groups)
  }

  /**
   * getAllAlarmsWithGroup: every row once, each with the group of its `group_id`,
   * in ascending (hour, minute) order.
   */
  function GetAllAlarmsWithGroup(db: Database): (r: seq<AlarmWithGroup>)
    reads db
    requires db.Valid()
    ensures IsSortedBy(r, ByTime)
    ensures multiset(r) == multiset(WithGroups(db.alarms, db.groups))
    ensures forall p :: p in r ==> p.0 in db.alarms && p.1 in db.groups && p.1.id == p.0.groupId
  {
    ByTimeIsTotalPreorder();
    var r := SortBy(WithGroups(db.alarms, db.groups), ByTime);
    assert forall p :: p in r ==> p in multiset(WithGroups(db.alarms, db.groups));
    r
  }

  /** getAlarmById: the row with that id, or null. */
  function GetAlarmById(db: Database, id: int): (r: Option<Alarm>)
    reads db
    ensures r.Some? ==> r.value in db.alarms && r.value.id == id
    ensures r.None? <==> id !in AlarmIds(db.alarms)
  {
    FindAlarm(db.alarms, id)
  }

  /** getAlarmWithGroupById: the row with that id and its group, or null. */
  function GetAlarmWithGroupById(db: Database, id: int): (r: Option<AlarmWithGroup>)
    reads db
    requires db.Valid()
    ensures r.None? <==> id !in AlarmIds(db.alarms)
    ensures r.Some? ==> r.value.0 == GetAlarmById(db, id).value && r.value.1 in db.groups && r.value.1.id == r.value.0.groupId
  {
    match GetAlarmById(db, id)
    case None => None
    case Some(a) => Some((a, FindGroup(db.groups, a.groupId).value))
  }

  /** The enabled rows, in table order. */
  function EnabledRows(rows: seq<Alarm>): (r: seq<Alarm>)
    ensures forall a :: a in r <==> a in rows && a.isEnabled
    ensures |r| <= |rows|
  {
    if rows == [] then []
    else
      assert forall a :: a in rows <==> a == rows[0] || a in rows[1..] by { assert rows == [rows[0]] + rows[1..]; }
      (if rows[0].isEnabled then [rows[0]] else []) + EnabledRows(rows[1..])
  }

  /** getEnabledAlarms: exactly the rows whose `is_enabled` is true. */
  function GetEnabledAlarms(db: Database): (r: seq<Alarm>)
    reads db
    ensures forall a :: a in r <==> a in db.alarms && a.isEnabled
  {
    EnabledRows(db.alarms)
  }

  /**
   * insert: an id of 0 means "not set" and takes the next autoincrement id; a
   * given id that is taken, or a `group_id` with no group, aborts the statement
   * (None) and leaves the table as it was.
   */
  method Insert(db: Database, alarm: Alarm) returns (newId: Option<int>)
    requires db.Valid()
    modifies db
    ensures db.Valid()
    ensures db.groups == old(db.groups) && db.groupSeq == old(db.groupSeq)
    ensures newId.Some? <==>
      alarm.groupId in GroupIds(old(db.groups)) && (alarm.id == 0 || alarm.id !in AlarmIds(old(db.alarms)))
    ensures newId.None? ==> db.alarms == old(db.alarms) && db.alarmSeq == old(db.alarmSeq)
    ensures newId.Some? ==>
      && newId.value == (if alarm.id == 0 then old(db.alarmSeq) + 1 else alarm.id)
      && newId.value !in AlarmIds(old(db.alarms))
      && db.alarms == old(db.alarms) + [alarm.(id := newId.value)]
      && db.alarmSeq == if newId.value > old(db.alarmSeq) then newId.value else old(db.alarmSeq)
  {
    if alarm.groupId !in GroupIds(db.groups) || (alarm.id != 0 && alarm.id in AlarmIds(db.alarms)) {
      return None;
    }
    var id := if alarm.id == 0 then db.alarmSeq + 1 else alarm.id;
    var row := alarm.(id := id);
    AppendAlarmKeepsUnique(db.alarms, row);
    db.alarms := db.alarms + [row];
    if id > db.alarmSeq {
      db.alarmSeq := id;
    }
    newId := Some(id);
  }

  /**
   * update: the row with the same id becomes `alarm`; no such row changes
   * nothing; a `group_id` with no group aborts (false) with nothing changed.
   */
  method Update(db: Database, alarm: Alarm) returns (ok: bool)
    requires db.Valid()
    modifies db
    ensures db.Valid()
    ensures db.groups == old(db.groups) && db.alarmSeq == old(db.alarmSeq) && db.groupSeq == old(db.groupSeq)
    ensures ok <==> alarm.id !in AlarmIds(old(db.alarms)) || alarm.groupId in GroupIds(old(db.groups))
    ensures db.alarms == if ok then ReplaceAlarm(old(db.alarms), alarm) else old(db.alarms)
  {
    ok := alarm.id !in AlarmIds(db.alarms) || alarm.groupId in GroupIds(db.groups);
    if ok {
      ReplaceAlarmKeepsIds(db.alarms, alarm);
      ReplaceAlarmFits(db.alarms, alarm, db.groups, db.alarmSeq);
      db.alarms := ReplaceAlarm(db.alarms, alarm);
    }
  }

  /** delete: removes the row with the alarm's id, if there is one. */
  method Delete(db: Database, alarm: Alarm)
    requires db.Valid()
    modifies db
    ensures db.Valid()
    ensures db.groups == old(db.groups) && db.alarmSeq == old(db.alarmSeq) && db.groupSeq == old(db.groupSeq)
    ensures db.alarms == RemoveAlarm(old(db.alarms), alarm.id)
  {
    db.alarms := RemoveAlarm(db.alarms, alarm.id);
  }

  /** The table after `UPDATE alarms SET is_enabled = :enabled WHERE id = :alarmId`. */
  function WithEnabled(rows: seq<Alarm>, alarmId: int, enabled: bool): (r: seq<Alarm>)
    ensures |r| == |rows|
    ensures forall i :: 0 <= i < |rows| ==> r[i].id == rows[i].id
    ensures forall i :: 0 <= i < |rows| && rows[i].id == alarmId ==> r[i].isEnabled == enabled
  {
    match FindAlarm(rows, alarmId)
    case None => rows
    case Some(a) => ReplaceAlarm(rows, a.(isEnabled := enabled))
  }

  /** setEnabled changes `is_enabled` of row `alarmId` only: every other row and field stays. */
  lemma {:induction false} SetEnabledTouchesOneField(rows: seq<Alarm>, alarmId: int, enabled: bool)
    requires UniqueAlarmIds(rows)
    ensures var r := WithEnabled(rows, alarmId, enabled);
      && |r| == |rows|
      && forall i :: 0 <= i < |rows| ==>
           r[i] == if rows[i].id == alarmId then rows[i].(isEnabled := enabled) else rows[i]
  {
    match FindAlarm(rows, alarmId)
    case None =>
    case Some(a) =>
      forall i | 0 <= i < |rows| && rows[i].id == alarmId
        ensures rows[i] == a
      {
        FindAlarmIsTheRow(rows, rows[i]);
      }
  }

  /** setEnabled. */
  method SetEnabled(db: Database, alarmId: int, enabled: bool)
    requires db.Valid()
    modifies db
    ensures db.Valid()
    ensures db.groups == old(db.groups) && db.alarmSeq == old(db.alarmSeq) && db.groupSeq == old(db.groupSeq)
    ensures db.alarms == WithEnabled(old(db.alarms), alarmId, enabled)
  {
    match FindAlarm(db.alarms, alarmId)
    case None =>
    case Some(a) =>
      var row := a.(isEnabled := enabled);
      ReplaceAlarmKeepsIds(db.alarms, row);
      ReplaceAlarmFits(db.alarms, row, db.groups, db.alarmSeq);
      db.alarms := ReplaceAlarm(db.alarms, row);
  }
}
