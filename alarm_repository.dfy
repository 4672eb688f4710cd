/**
 * AlarmRepository: the app's single door to the store. Its pass-through
 * methods are the DAO members themselves; the two members that read the
 * clock take today's date (an epoch day) as a parameter.
 */
module AlarmRepository {
  import opened Wrappers
  import opened AlarmGroupModel
  import opened Store
  import AlarmGroupDao

  /** silenceGroupForToday: stores today's date on the group row. */
  method SilenceGroupForToday(db: Database, groupId: int, today: int)
    requires db.Valid()
    modifies db
    ensures db.Valid()
    ensures db.alarms == old(db.alarms) && db.alarmSeq == old(db.alarmSeq) && db.groupSeq == old(db.groupSeq)
    ensures db.groups == AlarmGroupDao.WithSilencedDate(old(db.groups), groupId, today)
    ensures groupId in GroupIds(old(db.groups)) ==> IsGroupSilencedToday(db, groupId, today)
  {
    AlarmGroupDao.SilenceGroupForDate(db, groupId, today);
    if groupId in GroupIds(old(db.groups)) {
      SilenceThenCheck(db, old(db.groups), groupId, today);
    }
  }

  /** isGroupSilencedToday: the stored date equals today; no row or no date means not silenced. */
  function IsGroupSilencedToday(db: Database, groupId: int, today: int): (b: bool)
    reads db
    ensures b ==> exists g :: g in db.groups && g.id == groupId && IsSilencedToday(g, today)
    ensures groupId !in GroupIds(db.groups) ==> !b
  {
    AlarmGroupDao.GetSilencedDate(db, groupId) == Some(today)
  }

  /** The repository check agrees with AlarmGroup.isSilencedToday on the stored row. */
  lemma AgreesWithStoredGroup(db: Database, g: AlarmGroup, today: int)
    requires UniqueGroupIds(db.groups) && g in db.groups
    ensures IsGroupSilencedToday(db, g.id, today) == IsSilencedToday(g, today)
  {
    AlarmGroupDao.SilencedDateIsTheRows(db, g);
  }

  /** Silencing an existing group makes the check true on the same day. */
  lemma SilenceThenCheck(db: Database, rows: seq<AlarmGroup>, groupId: int, today: int)
    requires UniqueGroupIds(rows) && groupId in GroupIds(rows)
    requires db.groups == AlarmGroupDao.WithSilencedDate(rows, groupId, today)
    ensures IsGroupSilencedToday(db, groupId, today)
  {
    AlarmGroupDao.SilenceThenRead(rows, groupId, today);
  }

  /** Silencing one group changes no other group's answer, on any day. */
  lemma {:induction false} SilenceLeavesOtherGroups(db: Database, rows: seq<AlarmGroup>, groupId: int, other: int, today: int, day: int)
    requires UniqueGroupIds(rows) && other != groupId
    requires db.groups == AlarmGroupDao.WithSilencedDate(rows, groupId, today)
    ensures IsGroupSilencedToday(db, other, day) == (FindGroup(rows, other).Some? && FindGroup(rows, other).value.silencedDate == Some(day))
  {
    AlarmGroupDao.SilenceTouchesOneField(rows, groupId, today);
    AlarmGroupDao.SilenceKeepsIds(rows, groupId, today);
    match FindGroup(rows, other)
    case None =>
    case Some(h) =>
      var i :| 0 <= i < |rows| && rows[i] == h;
      assert db.groups[i] == h;
      FindGroupIsTheRow(db.groups, h);
  }
}
