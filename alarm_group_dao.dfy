/** AlarmGroupDao: the queries and updates of the `alarm_groups` table. */
module AlarmGroupDao {
  import opened Wrappers
  import opened AlarmModel
  import opened AlarmGroupModel
  import opened Store
  import opened Sorting

  /** ORDER BY name ASC, under the BINARY collation. */
  predicate ByName(g: AlarmGroup, h: AlarmGroup)
  {
    StringLe(g.name, h.name)
  }

  lemma ByNameIsTotalPreorder()
    ensures IsTotalPreorder(ByName)
  {
    forall g: AlarmGroup, h: AlarmGroup ensures ByName(g, h) || ByName(h, g) {
      StringLeTotal(g.name, h.name);
    }
    forall g: AlarmGroup, h: AlarmGroup, k: AlarmGroup | ByName(g, h) && ByName(h, k) ensures ByName(g, k) {
      StringLeTransitive(g.name, h.name, k.name);
    }
  }

  /** getAllGroups: every group once, in ascending name order. */
  function GetAllGroups(db: Database): (r: seq<AlarmGroup>)
    reads db
    ensures IsSortedBy(r, ByName)
    ensures multiset(r) == multiset(db.groups)
  {
    ByNameIsTotalPreorder();
    SortBy(db.groups, ByName)
  }

  /** getGroupById: the row with that id, or null. */
  function GetGroupById(db: Database, id: int): (r: Option<AlarmGroup>)
    reads db
    ensures r.Some? ==> r.value in db.groups && r.value.id == id
    ensures r.None? <==> id !in GroupIds(db.groups)
  {
    FindGroup(db.groups, id)
  }

  /** getSilencedDate: the stored date of that group; null for no date and for no group. */
  function GetSilencedDate(db: Database, groupId: int): (r: Option<int>)
    reads db
    ensures groupId !in GroupIds(db.groups) ==> r.None?
    ensures r.Some? ==> exists g :: g in db.groups && g.id == groupId && g.silencedDate == r
  {
    match FindGroup(db.groups, groupId)
    case None => None
    case Some(g) => g.silencedDate
  }

  /** With unique ids, the date read back is exactly the stored row's `silenced_date`. */
  lemma SilencedDateIsTheRows(db: Database, g: AlarmGroup)
    requires UniqueGroupIds(db.groups) && g in db.groups
    ensures GetSilencedDate(db, g.id) == g.silencedDate
  {
    FindGroupIsTheRow(db.groups, g);
  }

  /** getCount: the number of group rows. */
  function GetCount(db: Database): (n: nat)
    reads db
    ensures n == |db.groups|
  {
    |db.groups|
  }

  /** insert: id 0 takes the next autoincrement id; a taken id aborts (None) with nothing changed. */
  method Insert(db: Database, group: AlarmGroup) returns (newId: Option<int>)
    requires db.Valid()
    modifies db
    ensures db.Valid()
    ensures db.alarms == old(db.alarms) && db.alarmSeq == old(db.alarmSeq)
    ensures newId.Some? <==> group.id == 0 || group.id !in GroupIds(old(db.groups))
    ensures newId.None? ==> db.groups == old(db.groups) && db.groupSeq == old(db.groupSeq)
    ensures newId.Some? ==>
      && newId.value == (if group.id == 0 then old(db.groupSeq) + 1 else group.id)
      && newId.value !in GroupIds(old(db.groups))
      && db.groups == old(db.groups) + [group.(id := newId.value)]
      && db.groupSeq == if newId.value > old(db.groupSeq) then newId.value else old(db.groupSeq)
    ensures newId.Some? ==> GetCount(db) == old(GetCount(db)) + 1
  {
    if group.id != 0 && group.id in GroupIds(db.groups) {
      return None;
    }
    var id := if group.id == 0 then db.groupSeq + 1 else group.id;
    var row := group.(id := id);
    AppendGroupKeepsUnique(db.groups, row);
    db.groups := db.groups + [row];
    if id > db.groupSeq {
      db.groupSeq := id;
    }
    newId := Some(id);
  }

  /** update: the row with the same id becomes `group`; no such row changes nothing. */
  method Update(db: Database, group: AlarmGroup)
    requires db.Valid()
    modifies db
    ensures db.Valid()
    ensures db.alarms == old(db.alarms) && db.alarmSeq == old(db.alarmSeq) && db.groupSeq == old(db.groupSeq)
    ensures db.groups == ReplaceGroup(old(db.groups), group)
  {
    ReplaceGroupKeepsIds(db.groups, group);
    ReplaceGroupRows(db.groups, group);
    db.groups := ReplaceGroup(db.groups, group);
  }

  /** delete: removes the group row, and the foreign key removes every alarm of that group. */
  method Delete(db: Database, group: AlarmGroup)
    requires db.Valid()
    modifies db
    ensures db.Valid()
    ensures db.alarmSeq == old(db.alarmSeq) && db.groupSeq == old(db.groupSeq)
    ensures db.groups == RemoveGroup(old(db.groups), group.id)
    ensures db.alarms == RemoveAlarmsOfGroup(old(db.alarms), group.id)
  {
    db.alarms := RemoveAlarmsOfGroup(db.alarms, group.id);
    db.groups := RemoveGroup(db.groups, group.id);
  }

  /** The table after `UPDATE alarm_groups SET silenced_date = :date WHERE id = :groupId`. */
  function WithSilencedDate(rows: seq<AlarmGroup>, groupId: int, date: int): (r: seq<AlarmGroup>)
    ensures |r| == |rows|
    ensures forall i :: 0 <= i < |rows| ==> r[i].id == rows[i].id
    ensures forall i :: 0 <= i < |rows| && rows[i].id == groupId ==> r[i].silencedDate == Some(date)
  {
    match FindGroup(rows, groupId)
    case None => rows
    case Some(g) => ReplaceGroup(rows, g.(silencedDate := Some(date)))
  }

  /** silenceGroupForDate sets `silenced_date` of row `groupId` only: names and other rows stay. */
  lemma {:induction false} SilenceTouchesOneField(rows: seq<AlarmGroup>, groupId: int, date: int)
    requires UniqueGroupIds(rows)
    ensures var r := WithSilencedDate(rows, groupId, date);
      && |r| == |rows|
      && forall i :: 0 <= i < |rows| ==>
           r[i] == if rows[i].id == groupId then rows[i].(silencedDate := Some(date)) else rows[i]
  {
    match FindGroup(rows, groupId)
    case None =>
    case Some(g) =>
      forall i | 0 <= i < |rows| && rows[i].id == groupId
        ensures rows[i] == g
      {
        FindGroupIsTheRow(rows, rows[i]);
      }
  }

  /** silenceGroupForDate keeps the set of group ids and their uniqueness. */
  lemma SilenceKeepsIds(rows: seq<AlarmGroup>, groupId: int, date: int)
    ensures GroupIds(WithSilencedDate(rows, groupId, date)) == GroupIds(rows)
    ensures UniqueGroupIds(rows) ==> UniqueGroupIds(WithSilencedDate(rows, groupId, date))
  {
    match FindGroup(rows, groupId)
    case None =>
    case Some(g) => ReplaceGroupKeepsIds(rows, g.(silencedDate := Some(date)));
  }

  /** silenceGroupForDate. */
  method SilenceGroupForDate(db: Database, groupId: int, date: int)
    requires db.Valid()
    modifies db
    ensures db.Valid()
    ensures db.alarms == old(db.alarms) && db.alarmSeq == old(db.alarmSeq) && db.groupSeq == old(db.groupSeq)
    ensures db.groups == WithSilencedDate(old(db.groups), groupId, date)
  {
    match FindGroup(db.groups, groupId)
    case None =>
    case Some(g) =>
      var row := g.(silencedDate := Some(date));
      ReplaceGroupKeepsIds(db.groups, row);
      ReplaceGroupRows(db.groups, row);
      db.groups := ReplaceGroup(db.groups, row);
  }

  /** After silencing an existing group for a date, its stored date is that date. */
  lemma {:induction false} SilenceThenRead(rows: seq<AlarmGroup>, groupId: int, date: int)
    requires UniqueGroupIds(rows) && groupId in GroupIds(rows)
    ensures FindGroup(WithSilencedDate(rows, groupId, date), groupId).Some?
    ensures FindGroup(WithSilencedDate(rows, groupId, date), groupId).value.silencedDate == Some(date)
  {
    var g := FindGroup(rows, groupId).value;
    var row := g.(silencedDate := Some(date));
    var r := ReplaceGroup(rows, row);
    ReplaceGroupKeepsIds(rows, row);
    var i :| 0 <= i < |rows| && rows[i] == g;
    assert r[i] == row;
    FindGroupIsTheRow(r, row);
  }
}
