/**
 * The Android services the alarm code drives, reduced to the state the code
 * observes: the AlarmManager's table of pending alarm clocks and the
 * NotificationManager's posted notifications.
 */
module Platform {
  import opened JavaTime

  /** A content URI, kept as its string form. */
  type Uri = string

  /** When a pending alarm clock fires: a local date-time, or an absolute epoch-millisecond instant. */
  datatype When = AtLocal(at: LocalDateTime) | AtEpochMillis(millis: int)

  /** An armed alarm clock: its time and the extras of the AlarmReceiver intent it delivers. */
  datatype PendingAlarm = PendingAlarm(when: When, alarmId: int, isSnooze: bool)

  /**
   * The AlarmManager. Alarm clocks are keyed by the request code of their
   * PendingIntent, so setting a key replaces whatever was armed under it.
   * `denied` stands for a platform that throws SecurityException on setAlarmClock.
   */
  class AlarmManager {
    var pending: map<int, PendingAlarm>
    var denied: bool

    constructor(denied: bool)
      ensures pending == map[] && this.denied == denied
    {
      pending := map[];
      this.denied := denied;
    }
  }

  /** What a notification shows: its title, its text and the alarm its actions act on. */
  datatype Notification = Notification(title: string, text: string, alarmId: int)

  /** The NotificationManager: posted notifications by id; posting an id replaces it. */
  class NotificationManager {
    var posted: map<int, Notification>

    constructor()
      ensures posted == map[]
    {
      posted := map[];
    }

    /** notify(id, n) */
    method Notify(id: int, n: Notification)
      modifies this
      ensures posted == old(posted)[id := n]
    {
      posted := posted[id := n];
    }

    /** cancel(id): removes that notification; an absent id changes nothing. */
    method Cancel(id: int)
      modifies this
      ensures posted == old(posted) - {id}
    {
      posted := posted - {id};
    }
  }
}
