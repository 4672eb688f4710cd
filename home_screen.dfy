/**
 * HomeScreen: the only logic of the home screen, the summary of an
 * alarm's repeat mask shown on its card.
 */
module HomeScreen {
  import opened AlarmModel

  const ONCE_TEXT := "Una vez"
  const EVERY_DAY_TEXT := "Todos los d\U{ed}as"
  const WEEKDAYS_TEXT := "Lun a Vie"
  const WEEKEND_TEXT := "S\U{e1}b y Dom"
  const WEEKDAYS: bv32 := MONDAY | TUESDAY | WEDNESDAY | THURSDAY | FRIDAY
  const WEEKEND: bv32 := SATURDAY | SUNDAY
  const SEPARATOR := ", "

  /** The labels of the days from index i on whose bit is set in d, Monday to Sunday. */
  function LabelsFrom(d: bv32, i: nat): (r: seq<string>)
    requires i <= 7
    ensures |r| <= 7 - i
    ensures forall l :: l in r ==> |l| == 3
    decreases 7 - i
  {
    if i == 7 then []
    else if d & DAY_VALUES[i] != 0 then [DAY_LABELS[i]] + LabelsFrom(d, i + 1)
    else LabelsFrom(d, i + 1)
  }

  /** The zip/filter of the day values with their labels. */
  function SetLabels(d: bv32): (r: seq<string>)
    ensures forall l :: l in r ==> |l| == 3
  {
    LabelsFrom(d, 0)
  }

  /** joinToString(", "). */
  function JoinComma(parts: seq<string>): (s: string)
    ensures parts == [] ==> s == ""
    ensures |parts| > 0 ==> parts[0] <= s
  {
    if parts == [] then ""
    else if |parts| == 1 then parts[0]
    else parts[0] + SEPARATOR + JoinComma(parts[1..])
  }

  /** Joining k labels of three letters gives 5k-2 characters (none when k is 0). */
  lemma {:induction false} JoinCommaLength(parts: seq<string>)
    requires forall l :: l in parts ==> |l| == 3
    ensures |parts| == 0 ==> |JoinComma(parts)| == 0
    ensures |parts| > 0 ==> |JoinComma(parts)| == 5 * |parts| - 2
  {
    if |parts| > 1 {
      JoinCommaLength(parts[1..]);
    }
  }

  /** daysText: the four named masks first, then the labels of the set bits. */
  function DaysText(d: bv32): (r: string)
    ensures r == ONCE_TEXT <==> d == 0
    ensures r == EVERY_DAY_TEXT <==> d == ALL_DAYS
    ensures r == "" <==> d != 0 && d & ALL_DAYS == 0
  {
    if d == 0 then ONCE_TEXT
    else if d == ALL_DAYS then EVERY_DAY_TEXT
    else if d == WEEKDAYS then WEEKDAYS_TEXT
    else if d == WEEKEND then WEEKEND_TEXT
    else
      var s := JoinComma(SetLabels(d));
      JoinCommaLength(SetLabels(d));
      SetLabelsEmpty(d);
      s
  }

  // ---------------------------------------------------------------------
  // Reading a summary back

  /** The day bit a label stands for; 0 for any other text. */
  function BitOfLabel(l: string): bv32
  {
    if l == DAY_LABELS[0] then DAY_VALUES[0]
    else if l == DAY_LABELS[1] then DAY_VALUES[1]
    else if l == DAY_LABELS[2] then DAY_VALUES[2]
    else if l == DAY_LABELS[3] then DAY_VALUES[3]
    else if l == DAY_LABELS[4] then DAY_VALUES[4]
    else if l == DAY_LABELS[5] then DAY_VALUES[5]
    else if l == DAY_LABELS[6] then DAY_VALUES[6]
    else 0
  }

  function MaskOfLabels(labels: seq<string>): bv32
  {
    if labels == [] then 0 else BitOfLabel(labels[0]) | MaskOfLabels(labels[1..])
  }

  /** Splits a join of three-letter labels back into its labels. */
  function SplitLabels(s: string): seq<string>
    decreases |s|
  {
    if |s| < 5 then (if s == "" then [] else [s])
    else [s[..3]] + SplitLabels(s[5..])
  }

  /** The inverse of DaysText on masks of the seven day bits. */
  function ParseDaysText(s: string): bv32
  {
    if s == ONCE_TEXT then 0
    else if s == EVERY_DAY_TEXT then ALL_DAYS
    else if s == WEEKDAYS_TEXT then WEEKDAYS
    else if s == WEEKEND_TEXT then WEEKEND
    else MaskOfLabels(SplitLabels(s))
  }

  /** The bits of d from index i on. */
  function LowBitsFrom(d: bv32, i: nat): bv32
    requires i <= 7
    decreases 7 - i
  {
    if i == 7 then 0 else (d & DAY_VALUES[i]) | LowBitsFrom(d, i + 1)
  }

  /** One day's bit lies within ALL_DAYS. */
  lemma DayWithinAllDays(d: bv32, i: nat)
    requires i < 7
    ensures (d & ALL_DAYS) & DAY_VALUES[i] == d & DAY_VALUES[i]
  {
    if i == 0 { assert DAY_VALUES[i] == 1; }
    else if i == 1 { assert DAY_VALUES[i] == 2; }
    else if i == 2 { assert DAY_VALUES[i] == 4; }
    else if i == 3 { assert DAY_VALUES[i] == 8; }
    else if i == 4 { assert DAY_VALUES[i] == 16; }
    else if i == 5 { assert DAY_VALUES[i] == 32; }
    else { assert DAY_VALUES[i] == 64; }
  }

  /** Each day's label stands for that day's bit. */
  lemma LabelNamesDay(i: nat)
    requires i < 7
    ensures BitOfLabel(DAY_LABELS[i]) == DAY_VALUES[i]
  {
  }

  lemma ZeroOr(w: bv32)
    ensures 0 | w == w
  {
  }

  lemma AndDistributes(d: bv32, v: bv32, w: bv32)
    ensures (d & v) | (d & w) == d & (v | w)
  {
  }

  /** The union of the day bits from index i on. */
  function DaysFrom(i: nat): bv32
    requires i <= 7
    decreases 7 - i
  {
    if i == 7 then 0 else DAY_VALUES[i] | DaysFrom(i + 1)
  }

  lemma {:induction false} LowBitsAreMasked(d: bv32, i: nat)
    requires i <= 7
    ensures LowBitsFrom(d, i) == d & DaysFrom(i)
    decreases 7 - i
  {
    if i < 7 {
      LowBitsAreMasked(d, i + 1);
      AndDistributes(d, DAY_VALUES[i], DaysFrom(i + 1));
    }
  }

  /** The seven day bits together are ALL_DAYS. */
  lemma DaysFromZero()
    ensures DaysFrom(0) == ALL_DAYS
  {
    assert DaysFrom(6) == 64;
    assert DaysFrom(5) == 96;
    assert DaysFrom(4) == 112;
    assert DaysFrom(3) == 120;
    assert DaysFrom(2) == 124;
    assert DaysFrom(1) == 126;
  }

  lemma LowBitsAreTheMask(d: bv32)
    ensures LowBitsFrom(d, 0) == d & ALL_DAYS
  {
    LowBitsAreMasked(d, 0);
    DaysFromZero();
  }

  lemma {:induction false} LabelsFromMask(d: bv32, i: nat)
    requires i <= 7
    ensures MaskOfLabels(LabelsFrom(d, i)) == LowBitsFrom(d, i)
    decreases 7 - i
  {
    if i < 7 {
      LabelsFromMask(d, i + 1);
      DayIsOneBit(i);
      LabelNamesDay(i);
      ConsStep(d, DAY_VALUES[i], DAY_LABELS[i], LabelsFrom(d, i + 1), LowBitsFrom(d, i + 1));
    }
  }

  /** One day in front of the later ones: its label is listed exactly when its bit adds to the mask. */
  lemma ConsStep(d: bv32, v: bv32, l: string, rest: seq<string>, below: bv32)
    requires v != 0 && v & (v - 1) == 0
    requires BitOfLabel(l) == v
    requires MaskOfLabels(rest) == below
    ensures MaskOfLabels(if d & v != 0 then [l] + rest else rest) == (d & v) | below
  {
    if d & v != 0 {
      MaskOfCons(l, rest);
      SingleBitSetOrClear(d, v);
    } else {
      ZeroOr(below);
    }
  }

  lemma SingleBitSetOrClear(d: bv32, v: bv32)
    requires v != 0 && v & (v - 1) == 0
    ensures d & v == 0 || d & v == v
  {
  }

  /** Each day constant is a single bit. */
  lemma DayIsOneBit(i: nat)
    requires i < 7
    ensures DAY_VALUES[i] != 0 && DAY_VALUES[i] & (DAY_VALUES[i] - 1) == 0
  {
    if i == 0 { assert DAY_VALUES[i] == 1; }
    else if i == 1 { assert DAY_VALUES[i] == 2; }
    else if i == 2 { assert DAY_VALUES[i] == 4; }
    else if i == 3 { assert DAY_VALUES[i] == 8; }
    else if i == 4 { assert DAY_VALUES[i] == 16; }
    else if i == 5 { assert DAY_VALUES[i] == 32; }
    else { assert DAY_VALUES[i] == 64; }
  }

  lemma MaskOfCons(l: string, rest: seq<string>)
    ensures MaskOfLabels([l] + rest) == BitOfLabel(l) | MaskOfLabels(rest)
  {
    assert ([l] + rest)[1..] == rest;
  }

  /** The labels shown name exactly the set bits among the seven days. */
  lemma LabelsNameTheMask(d: bv32)
    ensures MaskOfLabels(SetLabels(d)) == d & ALL_DAYS
  {
    LabelsFromMask(d, 0);
    LowBitsAreTheMask(d);
  }

  lemma SetLabelsEmpty(d: bv32)
    ensures SetLabels(d) == [] <==> d & ALL_DAYS == 0
  {
    LabelsNameTheMask(d);
    if d & ALL_DAYS == 0 {
      SameLabelsFrom(d, 0);
      NoLabelsFrom(0);
    }
  }

  /** The empty mask has no labels. */
  lemma {:induction false} NoLabelsFrom(i: nat)
    requires i <= 7
    ensures LabelsFrom(0, i) == []
    decreases 7 - i
  {
    if i < 7 {
      NoLabelsFrom(i + 1);
    }
  }

  lemma {:induction false} SplitJoin(parts: seq<string>)
    requires forall l :: l in parts ==> |l| == 3
    ensures SplitLabels(JoinComma(parts)) == parts
  {
    if |parts| > 1 {
      var rest := parts[1..];
      JoinCommaLength(rest);
      var s := JoinComma(parts);
      assert s == parts[0] + SEPARATOR + JoinComma(rest);
      assert s[..3] == parts[0];
      assert s[5..] == JoinComma(rest);
      SplitJoin(rest);
    }
  }

  /**
   * No information is lost: the summary determines the seven day bits of
   * the mask, so two masks within ALL_DAYS never share a summary.
   */
  lemma DaysTextRoundTrip(d: bv32)
    ensures ParseDaysText(DaysText(d)) == d & ALL_DAYS
  {
    if d != 0 && d != ALL_DAYS && d != WEEKDAYS && d != WEEKEND {
      var parts := SetLabels(d);
      JoinCommaLength(parts);
      SplitJoin(parts);
      LabelsNameTheMask(d);
    }
  }

  lemma DaysTextInjective(d1: bv32, d2: bv32)
    requires d1 & ALL_DAYS == d1 && d2 & ALL_DAYS == d2
    requires DaysText(d1) == DaysText(d2)
    ensures d1 == d2
  {
    DaysTextRoundTrip(d1);
    DaysTextRoundTrip(d2);
  }

  /**
   * Bits above SUNDAY add no label, and change the text only by missing
   * one of the four named masks.
   */
  lemma HighBitsAddNoLabel(d: bv32)
    ensures SetLabels(d) == SetLabels(d & ALL_DAYS)
  {
    SameLabelsFrom(d, 0);
  }

  lemma {:induction false} SameLabelsFrom(d: bv32, i: nat)
    requires i <= 7
    ensures LabelsFrom(d, i) == LabelsFrom(d & ALL_DAYS, i)
    decreases 7 - i
  {
    if i < 7 {
      DayWithinAllDays(d, i);
      SameLabelsFrom(d, i + 1);
    }
  }

  /** The named masks have the values 31 and 96. */
  lemma NamedMasks()
    ensures DaysText(WEEKDAYS) == WEEKDAYS_TEXT && WEEKDAYS == 31
    ensures DaysText(WEEKEND) == WEEKEND_TEXT && WEEKEND == 96
  {
  }

  /** A mask outside the named four lists its days in week order: Monday and Wednesday give "Lun", "Mi\U{e9}". */
  lemma MondayAndWednesday()
    ensures SetLabels(MONDAY | WEDNESDAY) == [DAY_LABELS[0], DAY_LABELS[2]]
  {
    var d: bv32 := 5;
    assert MONDAY | WEDNESDAY == d;
    assert LabelsFrom(d, 6) == [];
    assert LabelsFrom(d, 4) == [];
    assert LabelsFrom(d, 3) == [];
    assert LabelsFrom(d, 2) == [DAY_LABELS[2]];
    assert LabelsFrom(d, 1) == [DAY_LABELS[2]];
  }
}
