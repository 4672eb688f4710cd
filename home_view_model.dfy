/**
 * HomeViewModel: the group list of the home screen and the actions on it.
 * The combined flow of groups and alarms is a snapshot field that Collect
 * refreshes from the store.
 */
module HomeViewModel {
  import opened Wrappers
  import opened JavaTime
  import opened AlarmModel
  import opened AlarmGroupModel
  import opened Platform
  import opened AlarmScheduler
  import opened Store
  import opened Sorting
  import AlarmDao
  import AlarmGroupDao
  import AlarmRepository

  /** A group and its alarms, as one card of the list. */
  datatype GroupWithAlarms = GroupWithAlarms(group: AlarmGroup, alarms: seq<Alarm>)

  const DEFAULT_GROUP_NAME := "General"

  /** The alarms of `rows` whose `groupId` is `groupId`, in the order of `rows`. */
  function AlarmsOfGroup(rows: seq<AlarmDao.AlarmWithGroup>, groupId: int): (r: seq<Alarm>)
    ensures forall a :: a in r <==> a.groupId == groupId && exists p :: p in rows && p.0 == a
    ensures |r| <= |rows|
  {
    if rows == [] then []
    else
      var rest := AlarmsOfGroup(rows[1..], groupId);
      assert forall p :: p in rows <==> p == rows[0] || p in rows[1..] by { assert rows == [rows[0]] + rows[1..]; }
      if rows[0].0.groupId == groupId then [rows[0].0] + rest else rest
  }

  /** `groups.map { GroupWithAlarms(it, alarms of it) }`: one card per group, in the order of `groups`. */
  function GroupsWithAlarms(groups: seq<AlarmGroup>, rows: seq<AlarmDao.AlarmWithGroup>): (r: seq<GroupWithAlarms>)
    ensures |r| == |groups|
    ensures forall i :: 0 <= i < |r| ==> r[i].group == groups[i] && r[i].alarms == AlarmsOfGroup(rows, groups[i].id)
  {
    if groups == [] then []
    else [GroupWithAlarms(groups[0], AlarmsOfGroup(rows, groups[0].id))] + GroupsWithAlarms(groups[1..], rows)
  }

  /** The list as the store shows it now: groups by name, alarms by time. */
  function Snapshot(db: Database): (r: seq<GroupWithAlarms>)
    reads db
    requires db.Valid()
    ensures |r| == |db.groups|
  {
    var groups := AlarmGroupDao.GetAllGroups(db);
    assert |groups| == |multiset(groups)| == |multiset(db.groups)| == |db.groups|;
    GroupsWithAlarms(groups, AlarmDao.GetAllAlarmsWithGroup(db))
  }

  /** The alarms of the listing query are exactly the stored alarms. */
  lemma {:induction false} ListedAlarmsAreStored(db: Database, a: Alarm)
    requires db.Valid()
    ensures a in db.alarms <==> exists p :: p in AlarmDao.GetAllAlarmsWithGroup(db) && p.0 == a
  {
    var rows := AlarmDao.GetAllAlarmsWithGroup(db);
    if a in db.alarms {
      var paired := AlarmDao.WithGroups(db.alarms, db.groups);
      var k :| 0 <= k < |db.alarms| && db.alarms[k] == a;
      assert paired[k] in multiset(rows);
      assert paired[k] in rows && paired[k].0 == a;
    }
  }

  /** The card at position i of a snapshot is the i-th group by name and its alarms are the group's. */
  lemma {:induction false} SnapshotCard(db: Database, i: int, a: Alarm)
    requires db.Valid() && 0 <= i < |Snapshot(db)|
    ensures Snapshot(db)[i].group == AlarmGroupDao.GetAllGroups(db)[i]
    ensures a in Snapshot(db)[i].alarms <==> a in db.alarms && a.groupId == Snapshot(db)[i].group.id
  {
    ListedAlarmsAreStored(db, a);
  }

  /**
   * The snapshot partitions the alarms: each stored alarm is on the card of
   * its own group and on no other, and that group has a card.
   */
  lemma {:induction false} SnapshotPartitionsAlarms(db: Database, a: Alarm)
    requires db.Valid() && a in db.alarms
    ensures var s := Snapshot(db);
      && (exists i :: 0 <= i < |s| && s[i].group.id == a.groupId)
      && forall i :: 0 <= i < |s| ==> (a in s[i].alarms <==> s[i].group.id == a.groupId)
  {
    var s := Snapshot(db);
    var groups := AlarmGroupDao.GetAllGroups(db);
    var g := FindGroup(db.groups, a.groupId).value;
    assert g in multiset(groups);
    var i :| 0 <= i < |groups| && groups[i] == g;
    SnapshotCard(db, i, a);
    forall j | 0 <= j < |s| ensures a in s[j].alarms <==> s[j].group.id == a.groupId {
      SnapshotCard(db, j, a);
    }
  }

  /** (hour, minute) order on alarms. */
  predicate TimeLe(a: Alarm, b: Alarm)
  {
    a.hour < b.hour || (a.hour == b.hour && a.minute <= b.minute)
  }

  /** An alarm no later than every row is no later than every alarm a group takes from them. */
  lemma {:induction false} BeforeAllRowsBeforeGroup(x: Alarm, rows: seq<AlarmDao.AlarmWithGroup>, groupId: int)
    requires forall i :: 0 <= i < |rows| ==> TimeLe(x, rows[i].0)
    ensures forall b :: b in AlarmsOfGroup(rows, groupId) ==> TimeLe(x, b)
  {
    if rows != [] {
      BeforeAllRowsBeforeGroup(x, rows[1..], groupId);
    }
  }

  /** A snapshot lists each group's alarms in time order, as the query returns them. */
  lemma {:induction false} AlarmsOfGroupInTimeOrder(rows: seq<AlarmDao.AlarmWithGroup>, groupId: int)
    requires IsSortedBy(rows, AlarmDao.ByTime)
    ensures IsSortedBy(AlarmsOfGroup(rows, groupId), TimeLe)
  {
    if rows != [] {
      assert IsSortedBy(rows[1..], AlarmDao.ByTime);
      AlarmsOfGroupInTimeOrder(rows[1..], groupId);
      var rest := AlarmsOfGroup(rows[1..], groupId);
      assert forall i :: 0 <= i < |rows[1..]| ==> AlarmDao.ByTime(rows[0], rows[1..][i]);
      BeforeAllRowsBeforeGroup(rows[0].0, rows[1..], groupId);
      if rows[0].0.groupId == groupId {
        assert AlarmsOfGroup(rows, groupId) == [rows[0].0] + rest;
        ConsKeepsTimeOrder(rows[0].0, rest);
      } else {
        assert AlarmsOfGroup(rows, groupId) == rest;
      }
    }
  }

  lemma ConsKeepsTimeOrder(x: Alarm, rest: seq<Alarm>)
    requires IsSortedBy(rest, TimeLe)
    requires forall b :: b in rest ==> TimeLe(x, b)
    ensures IsSortedBy([x] + rest, TimeLe)
  {
    var r := [x] + rest;
    forall i, j | 0 <= i < j < |r| ensures TimeLe(r[i], r[j]) {
      assert r[j] == rest[j - 1];
      if i > 0 {
        assert r[i] == rest[i - 1];
      } else {
        assert rest[j - 1] in rest;
      }
    }
  }

  /** `groupsWithAlarms.value.find { it.group.id == groupId }` */
  function FindCard(cards: seq<GroupWithAlarms>, groupId: int): (r: Option<GroupWithAlarms>)
    ensures r.Some? ==> r.value in cards && r.value.group.id == groupId
    ensures r.None? <==> forall c :: c in cards ==> c.group.id != groupId
  {
    if cards == [] then None
    else if cards[0].group.id == groupId then Some(cards[0])
    else
      assert forall c :: c in cards <==> c == cards[0] || c in cards[1..] by { assert cards == [cards[0]] + cards[1..]; }
      FindCard(cards[1..], groupId)
  }

  /** The regular keys of a list of alarms. */
  function KeysOf(alarms: seq<Alarm>): set<int>
  {
    set a | a in alarms :: RegularKey(a.id)
  }

  /** On a fresh snapshot, the card of a stored group lists exactly the group's stored alarms. */
  lemma {:induction false} FreshCardIsTheGroup(db: Database, g: AlarmGroup, a: Alarm)
    requires db.Valid() && g in db.groups
    ensures FindCard(Snapshot(db), g.id).Some?
    ensures a in FindCard(Snapshot(db), g.id).value.alarms <==> a in db.alarms && a.groupId == g.id
  {
    var s := Snapshot(db);
    var groups := AlarmGroupDao.GetAllGroups(db);
    assert g in multiset(groups);
    var i :| 0 <= i < |groups| && groups[i] == g;
    SnapshotCard(db, i, a);
    assert s[i] in s;
    var card := FindCard(s, g.id);
    assert card.Some?;
    var j := FindCardIndex(s, g.id);
    SnapshotCard(db, j, a);
  }

  /** Where FindCard found its card. */
  lemma {:induction false} FindCardIndex(cards: seq<GroupWithAlarms>, groupId: int) returns (j: int)
    requires FindCard(cards, groupId).Some?
    ensures 0 <= j < |cards| && cards[j] == FindCard(cards, groupId).value
  {
    if cards[0].group.id == groupId {
      j := 0;
    } else {
      j := FindCardIndex(cards[1..], groupId);
      j := j + 1;
    }
  }

  class HomeViewModel {
    var showGroupDialog: bool
    var editingGroup: Option<AlarmGroup>
    /** The last value of the combined flow; empty until the store first emits. */
    var groupsWithAlarms: seq<GroupWithAlarms>

    constructor()
      ensures !showGroupDialog && editingGroup.None? && groupsWithAlarms == []
    {
      showGroupDialog := false;
      editingGroup := None;
      groupsWithAlarms := [];
    }

    /** The combined flow emits: the snapshot is the store's current list. */
    method Collect(db: Database)
      requires db.Valid()
      modifies this
      ensures groupsWithAlarms == Snapshot(db)
      ensures showGroupDialog == old(showGroupDialog) && editingGroup == old(editingGroup)
    {
      groupsWithAlarms := GroupsWithAlarms(AlarmGroupDao.GetAllGroups(db), AlarmDao.GetAllAlarmsWithGroup(db));
    }

    /**
     * toggleAlarm: flips the stored flag; a now-enabled alarm is armed (as a
     * copy with isEnabled = true), a now-disabled one cancelled. `threw` is
     * the DateTimeException of an out-of-range time, which nothing catches.
     */
    method ToggleAlarm(db: Database, am: AlarmManager, alarm: Alarm, now: LocalDateTime) returns (threw: bool)
      requires db.Valid()
      modifies db, am
      ensures db.Valid()
      ensures db.groups == old(db.groups)
      ensures db.alarms == AlarmDao.WithEnabled(old(db.alarms), alarm.id, !alarm.isEnabled)
      ensures db.alarmSeq == old(db.alarmSeq) && db.groupSeq == old(db.groupSeq)
      ensures am.denied == old(am.denied)
      ensures threw <==> !alarm.isEnabled && !IsValidHourMinute(alarm.hour, alarm.minute)
      ensures am.pending == if alarm.isEnabled then old(am.pending) - {RegularKey(alarm.id)}
                            else ScheduledTable(old(am.pending), alarm.(isEnabled := true), now, am.denied)
    {
      var newEnabled := !alarm.isEnabled;
      AlarmDao.SetEnabled(db, alarm.id, newEnabled);
      threw := false;
      if newEnabled {
        threw := Schedule(am, alarm.(isEnabled := true), now);
      } else {
        Cancel(am, alarm);
      }
    }

    /** deleteAlarm: cancels the regular key, then removes the row. */
    method DeleteAlarm(db: Database, am: AlarmManager, alarm: Alarm)
      requires db.Valid()
      modifies db, am
      ensures db.Valid()
      ensures db.groups == old(db.groups)
      ensures db.alarms == RemoveAlarm(old(db.alarms), alarm.id)
      ensures db.alarmSeq == old(db.alarmSeq) && db.groupSeq == old(db.groupSeq)
      ensures am.denied == old(am.denied)
      ensures am.pending == old(am.pending) - {RegularKey(alarm.id)}
    {
      Cancel(am, alarm);
      AlarmDao.Delete(db, alarm);
    }

    method ShowCreateGroupDialog()
      modifies this
      ensures showGroupDialog && editingGroup.None?
      ensures groupsWithAlarms == old(groupsWithAlarms)
    {
      editingGroup := None;
      showGroupDialog := true;
    }

    method ShowEditGroupDialog(group: AlarmGroup)
      modifies this
      ensures showGroupDialog && editingGroup == Some(group)
      ensures groupsWithAlarms == old(groupsWithAlarms)
    {
      editingGroup := Some(group);
      showGroupDialog := true;
    }

    /** dismissGroupDialog: closes the dialog and forgets the group being edited. */
    method DismissGroupDialog()
      modifies this
      ensures !showGroupDialog && editingGroup.None?
      ensures groupsWithAlarms == old(groupsWithAlarms)
    {
      showGroupDialog := false;
      editingGroup := None;
    }

    /** saveGroup: renames the group being edited, or inserts a new one; then closes the dialog. */
    method SaveGroup(db: Database, name: string)
      requires db.Valid()
      modifies this, db
      ensures db.Valid()
      ensures db.alarms == old(db.alarms)
      ensures db.alarmSeq == old(db.alarmSeq)
      ensures old(editingGroup).Some? ==>
        && db.groups == ReplaceGroup(old(db.groups), old(editingGroup).value.(name := name))
        && db.groupSeq == old(db.groupSeq)
      ensures old(editingGroup).None? ==>
        && db.groups == old(db.groups) + [AlarmGroup(old(db.groupSeq) + 1, name, None)]
        && |db.groups| == |old(db.groups)| + 1
        && db.groupSeq == old(db.groupSeq) + 1
      ensures !showGroupDialog && editingGroup.None?
      ensures groupsWithAlarms == old(groupsWithAlarms)
    {
      var editing := editingGroup;
      if editing.Some? {
        AlarmGroupDao.Update(db, editing.value.(name := name));
      } else {
        var _ := AlarmGroupDao.Insert(db, AlarmGroup(name := name));
      }
      DismissGroupDialog();
    }

    /** toggleGroupSilence: a group silenced today is un-silenced (date cleared), any other is silenced for today. */
    method ToggleGroupSilence(db: Database, group: AlarmGroup, today: int)
      requires db.Valid()
      modifies db
      ensures db.Valid()
      ensures db.alarms == old(db.alarms)
      ensures db.alarmSeq == old(db.alarmSeq) && db.groupSeq == old(db.groupSeq)
      ensures db.groups == if IsSilencedToday(group, today) then ReplaceGroup(old(db.groups), group.(silencedDate := None))
                           else AlarmGroupDao.WithSilencedDate(old(db.groups), group.id, today)
      ensures group.id in GroupIds(old(db.groups)) ==> AlarmRepository.IsGroupSilencedToday(db, group.id, today) == !IsSilencedToday(group, today)
    {
      if IsSilencedToday(group, today) {
        AlarmGroupDao.Update(db, group.(silencedDate := None));
        if group.id in GroupIds(old(db.groups)) {
          var h :| h in old(db.groups) && h.id == group.id;
          var i :| 0 <= i < |old(db.groups)| && old(db.groups)[i] == h;
          assert db.groups[i] == group.(silencedDate := None);
          AlarmRepository.AgreesWithStoredGroup(db, group.(silencedDate := None), today);
        }
      } else {
        AlarmRepository.SilenceGroupForToday(db, group.id, today);
      }
    }

    /**
     * deleteGroup: cancels the regular key of every alarm on the group's card
     * in the snapshot, then deletes the group; the store cascades to its alarms.
     */
    method DeleteGroup(db: Database, am: AlarmManager, group: AlarmGroup)
      requires db.Valid()
      modifies db, am
      ensures db.Valid()
      ensures db.groups == RemoveGroup(old(db.groups), group.id)
      ensures db.alarms == RemoveAlarmsOfGroup(old(db.alarms), group.id)
      ensures db.alarmSeq == old(db.alarmSeq) && db.groupSeq == old(db.groupSeq)
      ensures am.denied == old(am.denied)
      ensures var card := FindCard(groupsWithAlarms, group.id);
        am.pending == old(am.pending) - (if card.Some? then KeysOf(card.value.alarms) else {})
    {
      var card := FindCard(groupsWithAlarms, group.id);
      var allAlarms := if card.Some? then card.value.alarms else [];
      for i := 0 to |allAlarms|
        modifies am
        invariant am.denied == old(am.denied)
        invariant am.pending == old(am.pending) - KeysOf(allAlarms[..i])
      {
        Cancel(am, allAlarms[i]);
        assert KeysOf(allAlarms[..i + 1]) == KeysOf(allAlarms[..i]) + {RegularKey(allAlarms[i].id)} by {
          assert allAlarms[..i + 1] == allAlarms[..i] + [allAlarms[i]];
        }
      }
      assert allAlarms[..|allAlarms|] == allAlarms;
      AlarmGroupDao.Delete(db, group);
    }

    /** ensureDefaultGroup: a store without groups gets "General"; otherwise nothing changes. */
    method EnsureDefaultGroup(db: Database)
      requires db.Valid()
      modifies db
      ensures db.Valid()
      ensures db.alarms == old(db.alarms)
      ensures db.alarmSeq == old(db.alarmSeq)
      ensures |old(db.groups)| == 0 ==>
        db.groups == [AlarmGroup(old(db.groupSeq) + 1, DEFAULT_GROUP_NAME, None)] && db.groupSeq == old(db.groupSeq) + 1
      ensures |old(db.groups)| != 0 ==> db.groups == old(db.groups) && db.groupSeq == old(db.groupSeq)
      ensures |db.groups| >= 1
    {
      var count := AlarmGroupDao.GetCount(db);
      if count == 0 {
        var _ := AlarmGroupDao.Insert(db, AlarmGroup(name := DEFAULT_GROUP_NAME));
      }
    }
  }
}
