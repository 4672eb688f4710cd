/**
 * The Room database behind AlarmDao and AlarmGroupDao as two in-memory tables.
 * Rows are kept in insertion order; ids are unique, never above the table's
 * autoincrement counter, and every alarm's `group_id` names an existing group
 * (the foreign key of Alarm.kt, which cascades on delete).
 */
module Store {
  import opened Wrappers
  import opened AlarmModel
  import opened AlarmGroupModel

  function AlarmIds(rows: seq<Alarm>): set<int>
  {
    set a | a in rows :: a.id
  }

  function GroupIds(rows: seq<AlarmGroup>): set<int>
  {
    set g | g in rows :: g.id
  }

  predicate UniqueAlarmIds(rows: seq<Alarm>)
  {
    rows == [] || (rows[0].id !in AlarmIds(rows[1..]) && UniqueAlarmIds(rows[1..]))
  }

  predicate UniqueGroupIds(rows: seq<AlarmGroup>)
  {
    rows == [] || (rows[0].id !in GroupIds(rows[1..]) && UniqueGroupIds(rows[1..]))
  }

  class Database {
    var alarms: seq<Alarm>
    var groups: seq<AlarmGroup>
    /** sqlite_sequence of `alarms`: the largest id handed out so far. */
    var alarmSeq: int
    /** sqlite_sequence of `alarm_groups`. */
    var groupSeq: int

    ghost predicate Valid()
      reads this
    {
      && UniqueAlarmIds(alarms) && UniqueGroupIds(groups)
      && 0 <= alarmSeq && 0 <= groupSeq
      && (forall a :: a in alarms ==> a.id <= alarmSeq)
      && (forall g :: g in groups ==> g.id <= groupSeq)
      && (forall a :: a in alarms ==> a.groupId in GroupIds(groups))
    }

    constructor ()
      ensures Valid()
      ensures alarms == [] && groups == [] && alarmSeq == 0 && groupSeq == 0
    {
      alarms, groups := [], [];
      alarmSeq, groupSeq := 0, 0;
    }
  }

  /** The row with a given id, if any (`WHERE id = :id`). */
  function FindAlarm(rows: seq<Alarm>, id: int): (r: Option<Alarm>)
    ensures r.Some? ==> r.value in rows && r.value.id == id
    ensures r.None? <==> id !in AlarmIds(rows)
  {
    if rows == [] then None
    else if rows[0].id == id then Some(rows[0])
    else
      assert AlarmIds(rows) == {rows[0].id} + AlarmIds(rows[1..]) by {
        assert rows == [rows[0]] + rows[1..];
      }
      FindAlarm(rows[1..], id)
  }

  function FindGroup(rows: seq<AlarmGroup>, id: int): (r: Option<AlarmGroup>)
    ensures r.Some? ==> r.value in rows && r.value.id == id
    ensures r.None? <==> id !in GroupIds(rows)
  {
    if rows == [] then None
    else if rows[0].id == id then Some(rows[0])
    else
      assert GroupIds(rows) == {rows[0].id} + GroupIds(rows[1..]) by {
        assert rows == [rows[0]] + rows[1..];
      }
      FindGroup(rows[1..], id)
  }

  /** With unique ids, the row found for an id is the only row with that id. */
  lemma {:induction false} FindAlarmIsTheRow(rows: seq<Alarm>, a: Alarm)
    requires UniqueAlarmIds(rows) && a in rows
    ensures FindAlarm(rows, a.id) == Some(a)
  {
    if rows[0] != a {
      assert a in rows[1..];
      assert a.id in AlarmIds(rows[1..]);
      FindAlarmIsTheRow(rows[1..], a);
    }
  }

  lemma {:induction false} FindGroupIsTheRow(rows: seq<AlarmGroup>, g: AlarmGroup)
    requires UniqueGroupIds(rows) && g in rows
    ensures FindGroup(rows, g.id) == Some(g)
  {
    if rows[0] != g {
      assert g in rows[1..];
      assert g.id in GroupIds(rows[1..]);
      FindGroupIsTheRow(rows[1..], g);
    }
  }

  lemma {:induction false} AppendAlarmKeepsUnique(rows: seq<Alarm>, x: Alarm)
    requires UniqueAlarmIds(rows) && x.id !in AlarmIds(rows)
    ensures UniqueAlarmIds(rows + [x])
  {
    if rows != [] {
      assert (rows + [x])[1..] == rows[1..] + [x];
      assert AlarmIds(rows[1..] + [x]) == AlarmIds(rows[1..]) + {x.id};
      AppendAlarmKeepsUnique(rows[1..], x);
    } else {
      assert (rows + [x])[1..] == [];
    }
  }

  lemma {:induction false} AppendGroupKeepsUnique(rows: seq<AlarmGroup>, x: AlarmGroup)
    requires UniqueGroupIds(rows) && x.id !in GroupIds(rows)
    ensures UniqueGroupIds(rows + [x])
  {
    if rows != [] {
      assert (rows + [x])[1..] == rows[1..] + [x];
      assert GroupIds(rows[1..] + [x]) == GroupIds(rows[1..]) + {x.id};
      AppendGroupKeepsUnique(rows[1..], x);
    } else {
      assert (rows + [x])[1..] == [];
    }
  }

  /** The table after `UPDATE ... WHERE id = x.id` writes the whole row x. */
  function ReplaceAlarm(rows: seq<Alarm>, x: Alarm): (r: seq<Alarm>)
    ensures |r| == |rows|
    ensures forall i :: 0 <= i < |rows| ==> r[i] == if rows[i].id == x.id then x else rows[i]
  {
    if rows == [] then [] else [if rows[0].id == x.id then x else rows[0]] + ReplaceAlarm(rows[1..], x)
  }

  /** Rewriting rows in place keeps the set of ids and their uniqueness. */
  lemma {:induction false} ReplaceAlarmKeepsIds(rows: seq<Alarm>, x: Alarm)
    ensures AlarmIds(ReplaceAlarm(rows, x)) == AlarmIds(rows)
    ensures UniqueAlarmIds(rows) ==> UniqueAlarmIds(ReplaceAlarm(rows, x))
  {
    if rows != [] {
      var r := ReplaceAlarm(rows, x);
      var tail := ReplaceAlarm(rows[1..], x);
      ReplaceAlarmKeepsIds(rows[1..], x);
      assert r == [r[0]] + tail;
      AlarmIdsCons(r[0], tail);
      assert rows == [rows[0]] + rows[1..];
      AlarmIdsCons(rows[0], rows[1..]);
    }
  }

  /** A rewritten table still has every id within the counter and every group_id naming a group. */
  lemma ReplaceAlarmFits(rows: seq<Alarm>, x: Alarm, groups: seq<AlarmGroup>, alarmSeq: int)
    requires forall a :: a in rows ==> a.id <= alarmSeq
    requires forall a :: a in rows ==> a.groupId in GroupIds(groups)
    requires x.id in AlarmIds(rows) ==> x.groupId in GroupIds(groups)
    ensures forall a :: a in ReplaceAlarm(rows, x) ==> a.id <= alarmSeq
    ensures forall a :: a in ReplaceAlarm(rows, x) ==> a.groupId in GroupIds(groups)
  {
    ReplaceAlarmRows(rows, x);
    if x.id in AlarmIds(rows) {
      var b :| b in rows && b.id == x.id;
    }
  }

  lemma AlarmIdsCons(x: Alarm, rows: seq<Alarm>)
    ensures AlarmIds([x] + rows) == {x.id} + AlarmIds(rows)
  {
    assert forall a :: a in [x] + rows <==> a == x || a in rows;
  }

  /** Every row after the rewrite is x or an old row; with no row of x's id nothing changes. */
  lemma {:induction false} ReplaceAlarmRows(rows: seq<Alarm>, x: Alarm)
    ensures forall a :: a in ReplaceAlarm(rows, x) ==> a == x || a in rows
    ensures x.id !in AlarmIds(rows) ==> ReplaceAlarm(rows, x) == rows
  {
    var r := ReplaceAlarm(rows, x);
    forall a | a in r ensures a == x || a in rows {
      var i :| 0 <= i < |r| && r[i] == a;
    }
    if x.id !in AlarmIds(rows) {
      forall i | 0 <= i < |rows| ensures r[i] == rows[i] {
        assert rows[i] in rows;
      }
    }
  }

  function ReplaceGroup(rows: seq<AlarmGroup>, x: AlarmGroup): (r: seq<AlarmGroup>)
    ensures |r| == |rows|
    ensures forall i :: 0 <= i < |rows| ==> r[i] == if rows[i].id == x.id then x else rows[i]
  {
    if rows == [] then [] else [if rows[0].id == x.id then x else rows[0]] + ReplaceGroup(rows[1..], x)
  }

  /** Rewriting rows in place keeps the set of ids and their uniqueness. */
  lemma {:induction false} ReplaceGroupKeepsIds(rows: seq<AlarmGroup>, x: AlarmGroup)
    ensures GroupIds(ReplaceGroup(rows, x)) == GroupIds(rows)
    ensures UniqueGroupIds(rows) ==> UniqueGroupIds(ReplaceGroup(rows, x))
  {
    if rows != [] {
      var r := ReplaceGroup(rows, x);
      var tail := ReplaceGroup(rows[1..], x);
      ReplaceGroupKeepsIds(rows[1..], x);
      assert r == [r[0]] + tail;
      GroupIdsCons(r[0], tail);
      assert rows == [rows[0]] + rows[1..];
      GroupIdsCons(rows[0], rows[1..]);
    }
  }

  lemma GroupIdsCons(x: AlarmGroup, rows: seq<AlarmGroup>)
    ensures GroupIds([x] + rows) == {x.id} + GroupIds(rows)
  {
    assert forall g :: g in [x] + rows <==> g == x || g in rows;
  }

  /** Every row after the rewrite is x or an old row; with no row of x's id nothing changes. */
  lemma {:induction false} ReplaceGroupRows(rows: seq<AlarmGroup>, x: AlarmGroup)
    ensures forall g :: g in ReplaceGroup(rows, x) ==> g == x || g in rows
    ensures x.id !in GroupIds(rows) ==> ReplaceGroup(rows, x) == rows
  {
    var r := ReplaceGroup(rows, x);
    forall g | g in r ensures g == x || g in rows {
      var i :| 0 <= i < |r| && r[i] == g;
    }
    if x.id !in GroupIds(rows) {
      forall i | 0 <= i < |rows| ensures r[i] == rows[i] {
        assert rows[i] in rows;
      }
    }
  }

  /** The table after `DELETE ... WHERE id = :id`. */
  function RemoveAlarm(rows: seq<Alarm>, id: int): (r: seq<Alarm>)
    ensures forall a :: a in r <==> a in rows && a.id != id
    ensures AlarmIds(r) == AlarmIds(rows) - {id}
    ensures UniqueAlarmIds(rows) ==> UniqueAlarmIds(r)
  {
    if rows == [] then []
    else
      var tail := RemoveAlarm(rows[1..], id);
      assert AlarmIds(rows) == {rows[0].id} + AlarmIds(rows[1..]) by { assert rows == [rows[0]] + rows[1..]; }
      assert forall a :: a in rows <==> a == rows[0] || a in rows[1..] by { assert rows == [rows[0]] + rows[1..]; }
      if rows[0].id == id then tail
      else
        var r := [rows[0]] + tail;
        assert r[1..] == tail;
        assert AlarmIds(r) == {rows[0].id} + AlarmIds(tail);
        r
  }

  function RemoveGroup(rows: seq<AlarmGroup>, id: int): (r: seq<AlarmGroup>)
    ensures forall g :: g in r <==> g in rows && g.id != id
    ensures GroupIds(r) == GroupIds(rows) - {id}
    ensures UniqueGroupIds(rows) ==> UniqueGroupIds(r)
  {
    if rows == [] then []
    else
      var tail := RemoveGroup(rows[1..], id);
      assert GroupIds(rows) == {rows[0].id} + GroupIds(rows[1..]) by { assert rows == [rows[0]] + rows[1..]; }
      assert forall g :: g in rows <==> g == rows[0] || g in rows[1..] by { assert rows == [rows[0]] + rows[1..]; }
      if rows[0].id == id then tail
      else
        var r := [rows[0]] + tail;
        assert r[1..] == tail;
        assert GroupIds(r) == {rows[0].id} + GroupIds(tail);
        r
  }

  /** The alarm rows left when the foreign key cascades the deletion of group `groupId`. */
  function RemoveAlarmsOfGroup(rows: seq<Alarm>, groupId: int): (r: seq<Alarm>)
    ensures forall a :: a in r <==> a in rows && a.groupId != groupId
    ensures UniqueAlarmIds(rows) ==> UniqueAlarmIds(r)
  {
    if rows == [] then []
    else
      var tail := RemoveAlarmsOfGroup(rows[1..], groupId);
      assert forall a :: a in rows <==> a == rows[0] || a in rows[1..] by { assert rows == [rows[0]] + rows[1..]; }
      if rows[0].groupId == groupId then tail
      else
        var r := [rows[0]] + tail;
        assert r[1..] == tail;
        assert AlarmIds(tail) <= AlarmIds(rows[1..]);
        r
  }
}
