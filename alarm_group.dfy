/** The alarm group record (table `alarm_groups`) and its "silenced today" test. */
module AlarmGroupModel {
  import opened Wrappers

  /**
   * One group. `silencedDate` is the ISO date text the code stores; since only its
   * equality with today's text is ever used, it is the epoch day it names.
   */
  datatype AlarmGroup = AlarmGroup(id: int := 0, name: string, silencedDate: Option<int> := None)

  /** AlarmGroup.isSilencedToday: the stored date is today's date. */
  function IsSilencedToday(g: AlarmGroup, today: int): (r: bool)
    ensures r ==> g.silencedDate.Some?
    ensures g.silencedDate.None? ==> !r
  {
    g.silencedDate == Some(today)
  }

  /** A group with no stored date is never silenced. */
  lemma NoDateNotSilenced(g: AlarmGroup, today: int)
    requires g.silencedDate.None?
    ensures !IsSilencedToday(g, today)
  {
  }

  /** A group is silenced exactly on the day it stores, and on no other (a stale date counts as none). */
  lemma SilencedOnlyOnStoredDay(g: AlarmGroup, date: int, today: int)
    requires g.silencedDate == Some(date)
    ensures IsSilencedToday(g, today) <==> date == today
  {
  }

  /** Only the stored date and today matter: the id and the name do not. */
  lemma SilenceIgnoresIdAndName(g: AlarmGroup, h: AlarmGroup, today: int)
    requires g.silencedDate == h.silencedDate
    ensures IsSilencedToday(g, today) == IsSilencedToday(h, today)
  {
  }
}
