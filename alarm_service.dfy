/**
 * AlarmService: the foreground service that rings an alarm. It decides
 * between aborting, skipping a silenced group and ringing; it holds the
 * MediaPlayer, the Ringtone and the vibrator while the alarm sounds.
 */
module AlarmService {
  import opened Wrappers
  import opened JavaTime
  import opened AlarmModel
  import opened AlarmGroupModel
  import opened Platform
  import opened AlarmScheduler
  import opened Store
  import opened AlarmDao

  const ACTION_DISMISS := "com.groupalarm.ACTION_DISMISS"
  const ACTION_SNOOZE := "com.groupalarm.ACTION_SNOOZE"
  const ACTION_SILENCE_GROUP := "com.groupalarm.ACTION_SILENCE_GROUP"
  const NOTIFICATION_ID := 1001
  /** The value getLongExtra yields when the intent carries no alarm id. */
  const NO_ALARM_ID := -1
  const DEFAULT_TITLE := "Alarma"

  /** What onStartCommand does once the alarm has been looked up. */
  datatype Decision =
    | Abort                       // alarm missing, or disabled on a regular firing
    | SkipSilenced(rearm: bool)   // its group is silenced today
    | Ring(rearm: bool)           // sound, notification and the full-screen activity

  /** The decision of the service coroutine, from the looked-up alarm and group, the snooze flag and today's date. */
  function Decide(isSnooze: bool, found: Option<AlarmWithGroup>, today: int): (d: Decision)
    ensures d.Abort? <==> found.None? || (!found.value.0.isEnabled && !isSnooze)
    ensures d.SkipSilenced? <==> found.Some? && found.value.0.isEnabled && !isSnooze && IsSilencedToday(found.value.1, today)
    ensures d.SkipSilenced? ==> d.rearm == (found.value.0.daysOfWeek != 0)
    ensures d.Ring? ==> d.rearm == (found.value.0.daysOfWeek != 0 && !isSnooze)
  {
    match found
    case None => Abort
    case Some((alarm, group)) =>
      if !alarm.isEnabled && !isSnooze then Abort
      else if !isSnooze && IsSilencedToday(group, today) then SkipSilenced(alarm.daysOfWeek != 0)
      else Ring(alarm.daysOfWeek != 0 && !isSnooze)
  }

  /** A snooze firing always rings an existing alarm, enabled or not, and never re-arms its regular key. */
  lemma SnoozeRingsWithoutRearm(found: Option<AlarmWithGroup>, today: int)
    requires found.Some?
    ensures Decide(true, found, today) == Ring(false)
  {
  }

  /** A regular firing of an enabled repeating alarm re-arms it, whether its group is silenced or not. */
  lemma RepeatingAlarmStaysArmed(alarm: Alarm, group: AlarmGroup, today: int)
    requires alarm.isEnabled && alarm.daysOfWeek != 0
    ensures Decide(false, Some((alarm, group)), today) in {SkipSilenced(true), Ring(true)}
  {
  }

  /** Silence lasts one day: a group silenced on `day` lets its alarms ring on any other day. */
  lemma SilenceEndsWithTheDay(alarm: Alarm, group: AlarmGroup, day: int, other: int)
    requires alarm.isEnabled && group.silencedDate == Some(day) && other != day
    ensures Decide(false, Some((alarm, group)), day).SkipSilenced?
    ensures Decide(false, Some((alarm, group)), other).Ring?
  {
  }

  /** buildNotification: the title falls back to "Alarma", the text names the group when there is one. */
  function BuildNotification(alarmId: int, labelText: string, groupName: string): (n: Notification)
    ensures n.alarmId == alarmId
    ensures n.title != ""
    ensures labelText != "" ==> n.title == labelText
    ensures labelText == "" ==> n.title == DEFAULT_TITLE
    ensures n.text == "" <==> groupName == ""
    ensures groupName != "" ==> |n.text| > 7 && n.text[..7] == "Grupo: " && n.text[7..] == groupName
  {
    var title := if labelText != "" then labelText else DEFAULT_TITLE;
    var text := if groupName != "" then "Grupo: " + groupName else "";
    Notification(title, text, alarmId)
  }

  /** RingtoneManager.getDefaultUri for the alarm, notification and ringtone types; None where the device has none. */
  datatype DefaultSounds = DefaultSounds(alarm: Option<Uri>, notification: Option<Uri>, ringtone: Option<Uri>)

  /** The platform as the service sees it. */
  datatype Device = Device(
    sounds: DefaultSounds,
    mediaPlayable: set<Uri>,     // URIs a MediaPlayer can prepare and start
    ringtonePlayable: set<Uri>,  // URIs getRingtone opens
    hasVibrator: bool,
    canStartForeground: bool)

  /** The first present URI of an ordered list of candidates. */
  function FirstPresent(candidates: seq<Option<Uri>>): (r: Option<Uri>)
    ensures r.Some? <==> exists i :: 0 <= i < |candidates| && candidates[i].Some?
    ensures r.Some? ==> exists i :: 0 <= i < |candidates| && candidates[i] == r && forall j :: 0 <= j < i ==> candidates[j].None?
  {
    if candidates == [] then None
    else if candidates[0].Some? then candidates[0]
    else
      var r := FirstPresent(candidates[1..]);
      assert forall i :: 1 <= i < |candidates| ==> candidates[i] == candidates[1..][i - 1];
      r
  }

  /** The first present of three candidates. */
  lemma FirstPresentOfThree(a: Option<Uri>, b: Option<Uri>, c: Option<Uri>)
    ensures FirstPresent([a, b, c]) == if a.Some? then a else if b.Some? then b else c
  {
    assert [c][1..] == [];
    assert FirstPresent([c]) == c;
    assert [b, c][1..] == [c];
    assert FirstPresent([b, c]) == if b.Some? then b else c;
    assert [a, b, c][1..] == [b, c];
  }

  /** Uri.parse of a configured sound; an empty setting means none. */
  function ConfiguredUri(soundUri: string): Option<Uri>
  {
    if soundUri != "" then Some(soundUri) else None
  }

  /** The MediaPlayer's URI: the configured sound, else the default alarm, else the default notification. */
  function PrimaryUri(soundUri: Option<Uri>, d: DefaultSounds): (r: Option<Uri>)
    ensures r == FirstPresent([soundUri, d.alarm, d.notification])
  {
    FirstPresentOfThree(soundUri, d.alarm, d.notification);
    if soundUri.Some? then soundUri else if d.alarm.Some? then d.alarm else d.notification
  }

  /** The Ringtone fallback ignores the configured sound: default alarm, else notification, else ringtone. */
  function FallbackUri(d: DefaultSounds): (r: Option<Uri>)
    ensures r == FirstPresent([d.alarm, d.notification, d.ringtone])
  {
    FirstPresentOfThree(d.alarm, d.notification, d.ringtone);
    if d.alarm.Some? then d.alarm else if d.notification.Some? then d.notification else d.ringtone
  }

  /** A configured sound is tried first; when there is none the two fallbacks start alike. */
  lemma PrimaryAndFallbackAgree(soundUri: Option<Uri>, d: DefaultSounds)
    ensures soundUri.Some? ==> PrimaryUri(soundUri, d) == soundUri
    ensures soundUri.None? && (d.alarm.Some? || d.notification.Some?) ==> PrimaryUri(soundUri, d) == FallbackUri(d)
  {
  }

  /** What the service holds of the alarm sound: its MediaPlayer, its Ringtone, and how many of them it lost hold of. */
  datatype Sound = Sound(player: Option<Uri>, ringtone: Option<Uri>, abandoned: nat)

  /** A MediaPlayer on this URI prepares and starts. */
  predicate PlayerPlays(uri: Option<Uri>, device: Device)
  {
    uri.Some? && uri.value in device.mediaPlayable
  }

  /**
   * playSound, from the sound held before. A MediaPlayer on the primary URI
   * when it plays, overwriting the player field. When the new player fails it
   * is never assigned: the previously held player is released, the field is
   * cleared and the failed player dropped; then, when a fallback URI exists, the ringtone field is
   * overwritten with its Ringtone, or null when that cannot play. An
   * overwritten player or ringtone is still sounding but lost: `abandoned`
   * counts it.
   */
  function PlayOutcome(soundUri: Option<Uri>, device: Device, s: Sound): (r: Sound)
    ensures s.abandoned <= r.abandoned <= s.abandoned + 1
  {
    var primary := PrimaryUri(soundUri, device.sounds);
    if PlayerPlays(primary, device) then
      Sound(primary, s.ringtone, if s.player.Some? then s.abandoned + 1 else s.abandoned)
    else
      var player := if primary.Some? then None else s.player;
      var fallback := FallbackUri(device.sounds);
      if fallback.Some? then
        var tone := if fallback.value in device.ringtonePlayable then fallback else None;
        Sound(player, tone, if s.ringtone.Some? then s.abandoned + 1 else s.abandoned)
      else
        Sound(player, s.ringtone, s.abandoned)
  }

  /**
   * playSound makes a sound whenever something can play: the configured
   * sound when a MediaPlayer takes it, else the first default a MediaPlayer
   * takes, else the fallback Ringtone.
   */
  lemma PlaySoundPlays(soundUri: Option<Uri>, device: Device, s: Sound)
    ensures var r := PlayOutcome(soundUri, device, s);
      && (PlayerPlays(soundUri, device) ==> r.player == soundUri)
      && (PlayerPlays(PrimaryUri(soundUri, device.sounds), device) ==> r.player == PrimaryUri(soundUri, device.sounds))
      && (!PlayerPlays(PrimaryUri(soundUri, device.sounds), device) && RingtonePlays(device) ==> r.ringtone == FallbackUri(device.sounds))
      && (PlayerPlays(PrimaryUri(soundUri, device.sounds), device) || RingtonePlays(device) ==> r.player.Some? || r.ringtone.Some?)
  {
  }

  /** The fallback Ringtone opens and plays. */
  predicate RingtonePlays(device: Device)
  {
    FallbackUri(device.sounds).Some? && FallbackUri(device.sounds).value in device.ringtonePlayable
  }

  /**
   * When the new MediaPlayer fails, the player held before is released and the
   * field cleared, so it is not counted as lost; the failed player is dropped.
   */
  lemma FailureReleasesHeldPlayer(soundUri: Option<Uri>, device: Device, s: Sound)
    requires PrimaryUri(soundUri, device.sounds).Some? && !PlayerPlays(PrimaryUri(soundUri, device.sounds), device)
    ensures PlayOutcome(soundUri, device, s).player.None?
    ensures s.ringtone.None? ==> PlayOutcome(soundUri, device, s).abandoned == s.abandoned
  {
  }

  /**
   * Playing while a sound is held loses the held one: a new player that
   * plays overwrites a held player, and a fallback overwrites a held ringtone.
   * Nothing is lost when nothing was held.
   */
  lemma PlayWhileHeldLeaks(soundUri: Option<Uri>, device: Device, s: Sound)
    ensures s.player.Some? && PlayerPlays(PrimaryUri(soundUri, device.sounds), device) ==>
      PlayOutcome(soundUri, device, s).abandoned == s.abandoned + 1
    ensures s.ringtone.Some? && !PlayerPlays(PrimaryUri(soundUri, device.sounds), device) && FallbackUri(device.sounds).Some? ==>
      PlayOutcome(soundUri, device, s).abandoned == s.abandoned + 1
    ensures s.player.None? && s.ringtone.None? ==> PlayOutcome(soundUri, device, s).abandoned == s.abandoned
  {
  }

  class AlarmService {
    /** Started and not yet destroyed. */
    var running: bool
    /** The looping MediaPlayer and its data source, when one is held. */
    var mediaPlayer: Option<Uri>
    /** The Ringtone and its URI, when one is held. */
    var ringtone: Option<Uri>
    /** The vibrator field is set and vibrating. */
    var vibrating: bool
    /** Players and ringtones whose field was overwritten while they were held: nothing stops them any more. */
    var abandoned: nat
    /** Alarm ids of the AlarmActivity launches, oldest first. */
    var launchedActivities: seq<int>

    constructor()
      ensures !running && mediaPlayer.None? && ringtone.None? && !vibrating
      ensures abandoned == 0 && launchedActivities == []
    {
      running := false;
      mediaPlayer := None;
      ringtone := None;
      vibrating := false;
      abandoned := 0;
      launchedActivities := [];
    }

    /** Some sound is held. */
    predicate Sounding()
      reads this
    {
      mediaPlayer.Some? || ringtone.Some?
    }

    /** No player, no ringtone, no vibration. */
    predicate Released()
      reads this
    {
      mediaPlayer.None? && ringtone.None? && !vibrating
    }

    /** The sound held, with the count of lost players and ringtones. */
    function SoundOf(): Sound
      reads this
    {
      Sound(mediaPlayer, ringtone, abandoned)
    }

    /**
     * playSound: a MediaPlayer on the primary URI; if there is none or it
     * fails (the player held before is released and the field cleared, the
     * failed one dropped), a Ringtone on the fallback URI.
     */
    method PlaySound(soundUri: Option<Uri>, device: Device)
      requires soundUri != Some("")
      modifies this
      ensures running == old(running) && vibrating == old(vibrating) && launchedActivities == old(launchedActivities)
      ensures SoundOf() == PlayOutcome(soundUri, device, old(SoundOf()))
    {
      var uri := if soundUri.Some? then soundUri
        else if device.sounds.alarm.Some? then device.sounds.alarm
        else device.sounds.notification;
      if uri.Some? {
        if uri.value in device.mediaPlayable {
          if mediaPlayer.Some? {
            abandoned := abandoned + 1;
          }
          mediaPlayer := uri;
          return;
        }
        mediaPlayer := None;
      }
      var fallbackUri := if device.sounds.alarm.Some? then device.sounds.alarm
        else if device.sounds.notification.Some? then device.sounds.notification
        else device.sounds.ringtone;
      if fallbackUri.Some? {
        if ringtone.Some? {
          abandoned := abandoned + 1;
        }
        ringtone := if fallbackUri.value in device.ringtonePlayable then fallbackUri else None;
      }
    }

    /** startVibration: the vibrator field is the device's vibrator, repeating the 0/500/500 ms waveform. */
    method StartVibration(hasVibrator: bool)
      modifies this
      ensures vibrating == hasVibrator
      ensures running == old(running) && mediaPlayer == old(mediaPlayer) && ringtone == old(ringtone)
      ensures abandoned == old(abandoned) && launchedActivities == old(launchedActivities)
    {
      vibrating := hasVibrator;
    }

    /** onDestroy: stops and drops the player, the ringtone and the vibrator; a second call finds nothing to do. */
    method OnDestroy()
      modifies this
      ensures Released()
      ensures running == old(running) && abandoned == old(abandoned) && launchedActivities == old(launchedActivities)
    {
      mediaPlayer := None;
      ringtone := None;
      vibrating := false;
    }

    /** stopSelf / stopService: a running service is destroyed; a stopped one is left alone. */
    method Stop()
      modifies this
      ensures !running
      ensures old(running) ==> Released()
      ensures !old(running) ==> mediaPlayer == old(mediaPlayer) && ringtone == old(ringtone) && vibrating == old(vibrating)
      ensures abandoned == old(abandoned) && launchedActivities == old(launchedActivities)
    {
      if running {
        OnDestroy();
        running := false;
      }
    }

    /**
     * The service coroutine after the lookup: stop on Abort; re-arm a
     * repeating alarm and stop on SkipSilenced; on Ring post the detailed
     * notification, play the sound, re-arm unless snoozed, launch the activity.
     */
    method HandleDecision(alarmId: int, isSnooze: bool, found: Option<AlarmWithGroup>, am: AlarmManager, nm: NotificationManager, device: Device, now: LocalDateTime)
      returns (threw: bool)
      modifies this, am, nm
      ensures am.denied == old(am.denied)
      ensures match Decide(isSnooze, found, now.date)
        case Abort =>
          && !running && !threw
          && (old(running) ==> Released())
          && (!old(running) ==> mediaPlayer == old(mediaPlayer) && ringtone == old(ringtone) && vibrating == old(vibrating))
          && abandoned == old(abandoned)
          && am.pending == old(am.pending) && nm.posted == old(nm.posted)
          && launchedActivities == old(launchedActivities)
        case SkipSilenced(rearm) =>
          && (threw <==> rearm && !IsValidHourMinute(found.value.0.hour, found.value.0.minute))
          && am.pending == (if rearm then ScheduledTable(old(am.pending), found.value.0, now, am.denied) else old(am.pending))
          && nm.posted == old(nm.posted)
          && launchedActivities == old(launchedActivities)
          && abandoned == old(abandoned)
          && (!threw ==> !running && (old(running) ==> Released()))
          && (threw || !old(running) ==> mediaPlayer == old(mediaPlayer) && ringtone == old(ringtone) && vibrating == old(vibrating))
          && (threw ==> running == old(running))
        case Ring(rearm) =>
          && (threw <==> rearm && !IsValidHourMinute(found.value.0.hour, found.value.0.minute))
          && am.pending == (if rearm then ScheduledTable(old(am.pending), found.value.0, now, am.denied) else old(am.pending))
          && nm.posted == old(nm.posted)[NOTIFICATION_ID := BuildNotification(alarmId, found.value.0.labelText, found.value.1.name)]
          && SoundOf() == PlayOutcome(ConfiguredUri(found.value.0.soundUri), device, old(SoundOf()))
          && running == old(running) && vibrating == old(vibrating)
          && launchedActivities == old(launchedActivities) + (if threw then [] else [alarmId])
    {
      threw := false;
      match Decide(isSnooze, found, now.date)
      case Abort =>
        Stop();
      case SkipSilenced(rearm) =>
        var alarm := found.value.0;
        if rearm {
          threw := Schedule(am, alarm, now);
          if threw {
            return;
          }
        }
        Stop();
      case Ring(rearm) =>
        var alarm := found.value.0;
        var group := found.value.1;
        var title := if alarm.labelText != "" then alarm.labelText else DEFAULT_TITLE;
        nm.Notify(NOTIFICATION_ID, BuildNotification(alarmId, title, group.name));
        PlaySound(ConfiguredUri(alarm.soundUri), device);
        if rearm {
          threw := Schedule(am, alarm, now);
          if threw {
            return;
          }
        }
        launchedActivities := launchedActivities + [alarmId];
    }

    /**
     * onStartCommand, with its coroutine run to completion. `threw` is the
     * DateTimeException of a re-arm with an out-of-range time: it ends the
     * coroutine, so neither stopSelf nor the activity launch follows it.
     */
    method OnStartCommand(alarmId: int, isSnooze: bool, db: Database, am: AlarmManager, nm: NotificationManager, device: Device, now: LocalDateTime)
      returns (threw: bool)
      requires db.Valid()
      modifies this, am, nm
      ensures am.denied == old(am.denied)
      ensures alarmId == NO_ALARM_ID || !device.canStartForeground ==>
        && !running && Released() && !threw && abandoned == old(abandoned)
        && am.pending == old(am.pending) && nm.posted == old(nm.posted)
        && launchedActivities == old(launchedActivities)
      ensures alarmId != NO_ALARM_ID && device.canStartForeground ==>
        var found := GetAlarmWithGroupById(db, alarmId);
        var placeholder := old(nm.posted)[NOTIFICATION_ID := BuildNotification(alarmId, DEFAULT_TITLE, "")];
        match Decide(isSnooze, found, now.date)
        case Abort =>
          && !running && Released() && !threw && abandoned == old(abandoned)
          && am.pending == old(am.pending) && nm.posted == placeholder
          && launchedActivities == old(launchedActivities)
        case SkipSilenced(rearm) =>
          && (threw <==> rearm && !IsValidHourMinute(found.value.0.hour, found.value.0.minute))
          && am.pending == (if rearm then ScheduledTable(old(am.pending), found.value.0, now, am.denied) else old(am.pending))
          && nm.posted == placeholder
          && launchedActivities == old(launchedActivities)
          && abandoned == old(abandoned)
          && (!threw ==> !running && Released())
          && (threw ==> running && vibrating == device.hasVibrator && mediaPlayer == old(mediaPlayer) && ringtone == old(ringtone))
        case Ring(rearm) =>
          && (threw <==> rearm && !IsValidHourMinute(found.value.0.hour, found.value.0.minute))
          && am.pending == (if rearm then ScheduledTable(old(am.pending), found.value.0, now, am.denied) else old(am.pending))
          && nm.posted == placeholder[NOTIFICATION_ID := BuildNotification(alarmId, found.value.0.labelText, found.value.1.name)]
          && SoundOf() == PlayOutcome(ConfiguredUri(found.value.0.soundUri), device, old(SoundOf()))
          && running && vibrating == device.hasVibrator
          && launchedActivities == old(launchedActivities) + (if threw then [] else [alarmId])
    {
      running := true;
      if alarmId == NO_ALARM_ID {
        Stop();
        return false;
      }
      var placeholder := BuildNotification(alarmId, DEFAULT_TITLE, "");
      if !device.canStartForeground {
        Stop();
        return false;
      }
      nm.Notify(NOTIFICATION_ID, placeholder);
      StartVibration(device.hasVibrator);
      var found := GetAlarmWithGroupById(db, alarmId);
      threw := HandleDecision(alarmId, isSnooze, found, am, nm, device, now);
    }
  }
}
