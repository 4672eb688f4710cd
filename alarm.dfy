/**
 * The alarm record (table `alarms`) with its defaults, the weekday bits of
 * `daysOfWeek` and the two small functions the record carries.
 */
module AlarmModel {

  /**
   * One alarm. `daysOfWeek` is the Kotlin Int bitmask (Monday = 1 ... Sunday = 64),
   * kept as 32 bits; 0 means a one-time alarm. The Kotlin field `label` is
   * `labelText` here, `label` being a Dafny keyword.
   */
  datatype Alarm = Alarm(
    id: int := 0,
    groupId: int,
    hour: int,
    minute: int,
    daysOfWeek: bv32 := 0,
    isEnabled: bool := true,
    soundUri: string := "",
    labelText: string := "")

  const MONDAY: bv32 := 1
  const TUESDAY: bv32 := 2
  const WEDNESDAY: bv32 := 4
  const THURSDAY: bv32 := 8
  const FRIDAY: bv32 := 16
  const SATURDAY: bv32 := 32
  const SUNDAY: bv32 := 64
  const ALL_DAYS: bv32 := 127

  const DAY_VALUES: seq<bv32> := [MONDAY, TUESDAY, WEDNESDAY, THURSDAY, FRIDAY, SATURDAY, SUNDAY]
  const DAY_LABELS: seq<string> := ["Lun", "Mar", "Mi\U{e9}", "Jue", "Vie", "S\U{e1}b", "Dom"]

  /** A new alarm built with only the required fields takes every default. */
  lemma NewAlarmDefaults(groupId: int, hour: int, minute: int)
    ensures var a := Alarm(groupId := groupId, hour := hour, minute := minute);
      && a.id == 0 && a.daysOfWeek == 0 && a.isEnabled
      && a.soundUri == "" && a.labelText == ""
  {
  }

  /** The day constants are seven distinct single bits, Monday lowest, and together make ALL_DAYS. */
  lemma DayConstants()
    ensures |DAY_VALUES| == 7 && |DAY_LABELS| == 7
    ensures forall i :: 0 <= i < 7 ==> DAY_VALUES[i] == 1 << i
    ensures forall i, j :: 0 <= i < j < 7 ==> DAY_VALUES[i] & DAY_VALUES[j] == 0
    ensures MONDAY | TUESDAY | WEDNESDAY | THURSDAY | FRIDAY | SATURDAY | SUNDAY == ALL_DAYS
    ensures DAY_VALUES[0] == MONDAY && DAY_LABELS[0] == "Lun"
    ensures DAY_VALUES[6] == SUNDAY && DAY_LABELS[6] == "Dom"
  {
  }

  /** Alarm.isDayEnabled. */
  function IsDayEnabled(a: Alarm, day: bv32): (r: bool)
    ensures r ==> a.daysOfWeek != 0 && day != 0
  {
    a.daysOfWeek & day != 0
  }

  /** isDayEnabled of a single day constant reads exactly that day's bit of the mask. */
  lemma IsDayEnabledReadsBit(a: Alarm, i: nat)
    requires i < 7
    ensures IsDayEnabled(a, DAY_VALUES[i]) <==> (a.daysOfWeek >> i) & 1 == 1
  {
  }

  /** One decimal digit as a character. */
  function Digit(d: nat): char
    requires d < 10
  {
    ('0' as int + d) as char
  }

  /** The decimal digits of a natural number, most significant first. */
  function Digits(n: nat): (s: string)
    ensures |s| >= 1
    ensures n < 10 <==> |s| == 1
    ensures n < 100 ==> |s| <= 2
  {
    if n < 10 then [Digit(n)] else Digits(n / 10) + [Digit(n % 10)]
  }

  /** The "%02d" conversion: zero-padded to two characters; a sign takes a place. */
  function Pad2(n: int): (s: string)
    ensures 0 <= n < 100 ==> |s| == 2
    ensures n >= 0 ==> |s| >= 2
    ensures n < 0 ==> |s| >= 2 && s[0] == '-'
  {
    if 0 <= n < 10 then ['0', Digit(n)]
    else if n < 0 then "-" + Digits(-n)
    else Digits(n)
  }

  /** Alarm.timeFormatted: "%02d:%02d" of hour and minute (a locale with ASCII digits). */
  function TimeFormatted(a: Alarm): (s: string)
    ensures 0 <= a.hour < 100 && 0 <= a.minute < 100 ==> |s| == 5 && s[2] == ':'
  {
    Pad2(a.hour) + ":" + Pad2(a.minute)
  }

  /** The value of a two-digit decimal text. */
  function ParseTwoDigits(s: string): int
    requires |s| == 2
  {
    DigitValue(s[0]) * 10 + DigitValue(s[1])
  }

  function DigitValue(c: char): int
  {
    c as int - '0' as int
  }

  predicate IsDigit(c: char)
  {
    '0' <= c <= '9'
  }

  /** For 0..99, "%02d" gives two digits that read back as the number. */
  lemma {:induction false} Pad2RoundTrip(n: int)
    requires 0 <= n < 100
    ensures |Pad2(n)| == 2 && IsDigit(Pad2(n)[0]) && IsDigit(Pad2(n)[1])
    ensures ParseTwoDigits(Pad2(n)) == n
  {
    if n >= 10 {
      var hi, lo := n / 10, n % 10;
      assert Digits(n) == [Digit(hi), Digit(lo)];
      assert DigitValue(Digit(hi)) == hi && DigitValue(Digit(lo)) == lo;
      assert hi * 10 + lo == n;
    } else {
      assert DigitValue(Digit(n)) == n;
    }
  }

  /** timeFormatted of hour and minute in 0..99 is "HH:MM", five characters that read back as both. */
  lemma {:induction false} TimeFormattedRoundTrip(a: Alarm)
    requires 0 <= a.hour < 100 && 0 <= a.minute < 100
    ensures var s := TimeFormatted(a);
      && |s| == 5 && s[2] == ':'
      && ParseTwoDigits(s[..2]) == a.hour && ParseTwoDigits(s[3..]) == a.minute
  {
    Pad2RoundTrip(a.hour);
    Pad2RoundTrip(a.minute);
    var s := TimeFormatted(a);
    assert s[..2] == Pad2(a.hour);
    assert s[3..] == Pad2(a.minute);
  }
}
