/** The time-slot table of the availability screen: 96 labels at 15-minute
    steps from midnight, each the `h:mm a` rendering of its time of day, and
    the `h:mm a` parse that turns a label back into minutes after midnight. */
module TimeSlots {
  import opened Wrappers

  /** Number of entries in the table (one per quarter hour of a day). */
  const SlotCount: int := 96
  /** Minutes between two neighbouring slots. */
  const SlotMinutes: int := 15
  const MinutesPerDay: int := 1440

  /** A slot is a position in the table. */
  type Slot = i: int | 0 <= i < SlotCount

  /** A time of day, in minutes after midnight. */
  type TimeOfDay = m: int | 0 <= m < MinutesPerDay

  // ---------------------------------------------------------------------------
  // Characters

  predicate IsDigit(c: char) {
    '0' <= c <= '9'
  }

  function Digit(d: int): (c: char)
    requires 0 <= d < 10
    ensures IsDigit(c) && DigitValue(c) == d
  {
    (('0' as int) + d) as char
  }

  function DigitValue(c: char): int
    requires IsDigit(c)
  {
    c as int - '0' as int
  }

  // ---------------------------------------------------------------------------
  // Formatting with `h:mm a`

  /** The hour as `h` shows it: 12 for midnight and noon, otherwise hour24 mod 12. */
  function Hour12(hour24: int): (h: int)
    requires 0 <= hour24 < 24
    ensures 1 <= h <= 12 && h % 12 == hour24 % 12
  {
    if hour24 % 12 == 0 then 12 else hour24 % 12
  }

  /** `h`: the hour without a leading zero. */
  function HourText(h: int): (t: string)
    requires 1 <= h <= 12
    ensures |t| == if h < 10 then 1 else 2
  {
    if h < 10 then [Digit(h)] else ['1', Digit(h - 10)]
  }

  /** `mm`: the minute as two digits. */
  function MinuteText(m: int): (t: string)
    requires 0 <= m < 60
    ensures |t| == 2
  {
    [Digit(m / 10), Digit(m % 10)]
  }

  /** `a`: the lower-case meridiem. */
  function Meridiem(hour24: int): string {
    if hour24 < 12 then "am" else "pm"
  }

  /** The `h:mm a` rendering of `m` minutes after midnight (start of day plus
      `m` minutes, formatted). */
  function FormatTime(m: TimeOfDay): (s: string)
    ensures 7 <= |s| <= 8
  {
    HourText(Hour12(m / 60)) + [':'] + MinuteText(m % 60) + [' '] + Meridiem(m / 60)
  }

  // ---------------------------------------------------------------------------
  // Parsing with `h:mm a`

  /** The hour field: one digit 1..9, or two digits 10..12. */
  function ParseHour(t: string): (r: Option<int>)
    ensures r.Some? ==> 1 <= r.value <= 12
  {
    if |t| == 1 && IsDigit(t[0]) && t[0] != '0' then Some(DigitValue(t[0]))
    else if |t| == 2 && t[0] == '1' && '0' <= t[1] <= '2' then Some(10 + DigitValue(t[1]))
    else None
  }

  /** Minutes after midnight denoted by an `h:mm a` string, or None when the
      string is not of that form. */
  function ParseTime(s: string): (r: Option<int>)
    ensures r.Some? ==> 0 <= r.value < MinutesPerDay
  {
    if |s| < 7 || |s| > 8 then None
    else
      var k := |s| - 6;
      var hour := ParseHour(s[..k]);
      if hour.None? || s[k] != ':' || !IsDigit(s[k + 1]) || !IsDigit(s[k + 2]) || s[k + 3] != ' ' then None
      else
        var minute := 10 * DigitValue(s[k + 1]) + DigitValue(s[k + 2]);
        var suffix := s[k + 4..];
        if minute >= 60 || (suffix != "am" && suffix != "pm") then None
        else Some((hour.value % 12 + (if suffix == "pm" then 12 else 0)) * 60 + minute)
  }

  lemma HourRoundTrip(h: int)
    requires 1 <= h <= 12
    ensures ParseHour(HourText(h)) == Some(h)
  {
  }

  lemma HourTextOfParse(t: string)
    requires ParseHour(t).Some?
    ensures HourText(ParseHour(t).value) == t
  {
  }

  /** The pieces of a rendering that `ParseTime` looks at. */
  lemma FormatPieces(m: TimeOfDay)
    ensures var s := FormatTime(m);
            var k := |HourText(Hour12(m / 60))|;
            |s| == k + 6 && s[..k] == HourText(Hour12(m / 60)) && s[k] == ':' &&
            s[k + 1] == Digit((m % 60) / 10) && s[k + 2] == Digit((m % 60) % 10) &&
            s[k + 3] == ' ' && s[k + 4..] == Meridiem(m / 60)
  {
  }

  /** Parsing a rendering gives back its time of day. */
  lemma FormatParse(m: TimeOfDay)
    ensures ParseTime(FormatTime(m)) == Some(m)
  {
    var hour24 := m / 60;
    var h := Hour12(hour24);
    FormatPieces(m);
    HourRoundTrip(h);
    assert h % 12 + (if hour24 < 12 then 0 else 12) == hour24;
  }

  /** Every string the parse accepts is the rendering of what it denotes. */
  lemma ParseFormat(s: string)
    requires ParseTime(s).Some?
    ensures 0 <= ParseTime(s).value < MinutesPerDay
    ensures FormatTime(ParseTime(s).value) == s
  {
    var k := |s| - 6;
    var hour := ParseHour(s[..k]).value;
    var minute := 10 * DigitValue(s[k + 1]) + DigitValue(s[k + 2]);
    var suffix := s[k + 4..];
    var m := (hour % 12 + (if suffix == "pm" then 12 else 0)) * 60 + minute;
    assert m / 60 == hour % 12 + (if suffix == "pm" then 12 else 0) && m % 60 == minute;
    HourTextOfParse(s[..k]);
    assert MinuteText(minute) == s[k + 1..k + 3];
    assert s == s[..k] + [':'] + s[k + 1..k + 3] + [' '] + suffix;
  }

  /** `ParseTime` and `FormatTime` are inverse: a string parses to `m`
      exactly when it is the rendering of `m`. */
  lemma ParseIffFormat(s: string, m: int)
    ensures ParseTime(s) == Some(m) <==> 0 <= m < MinutesPerDay && s == FormatTime(m)
  {
    if ParseTime(s) == Some(m) {
      ParseFormat(s);
    }
    if 0 <= m < MinutesPerDay && s == FormatTime(m) {
      FormatParse(m);
    }
  }

  // ---------------------------------------------------------------------------
  // The table

  /** Minutes after midnight of slot `i`. */
  function Minutes(i: Slot): TimeOfDay {
    i * SlotMinutes
  }

  /** The label of slot `i`, the rendering of `i*15` minutes after midnight.
      Parsing it with `h:mm a`, as the validator does, yields the slot's time
      of day, so comparing parsed labels is comparing `Minutes`. */
  function Label(i: Slot): (s: string)
    ensures ParseTime(s) == Some(Minutes(i))
  {
    FormatParse(i * SlotMinutes);
    FormatTime(i * SlotMinutes)
  }

  /** Slot `i` shows hour `i/4` and minute `(i%4)*15`, with the 12-hour
      display hour and the am/pm suffix. */
  lemma LabelFields(i: Slot)
    ensures Label(i) == HourText(Hour12(i / 4)) + [':'] + MinuteText((i % 4) * 15) + [' '] + Meridiem(i / 4)
  {
    var m := i * SlotMinutes;
    assert m / 60 == i / 4 && m % 60 == (i % 4) * 15;
    assert Label(i) == FormatTime(m);
  }

  /** Two slots share a label only when they are the same slot. */
  lemma LabelInjective(i: Slot, j: Slot)
    ensures Label(i) == Label(j) <==> i == j
  {
  }

  /** The table entries are exactly the renderings of quarter hours. */
  lemma LabelsAreQuarterHours(s: string)
    ensures (exists i: Slot :: Label(i) == s) <==> IsQuarterHour(s)
  {
    if exists i: Slot :: Label(i) == s {
      var i: Slot :| Label(i) == s;
      LabelIsQuarterHour(i);
    }
    if IsQuarterHour(s) {
      QuarterHourIsLabel(s);
    }
  }

  /** `s` parses to a multiple of 15 minutes after midnight. */
  predicate IsQuarterHour(s: string) {
    var r := ParseTime(s);
    r.Some? && r.value % SlotMinutes == 0
  }

  lemma LabelIsQuarterHour(i: Slot)
    ensures IsQuarterHour(Label(i))
  {
  }

  lemma QuarterHourIsLabel(s: string)
    requires IsQuarterHour(s)
    ensures exists i: Slot :: Label(i) == s
  {
    var m := ParseTime(s).value;
    ParseFormat(s);
    var i: Slot := m / SlotMinutes;
    assert i * SlotMinutes == m;
    assert Label(i) == s;
  }

  /** The fixed corner entries and the screen's two default labels. */
  lemma NamedLabels()
    ensures Label(0) == "12:00 am" && Label(24) == "6:00 am" && Label(32) == "8:00 am"
    ensures Label(48) == "12:00 pm" && Label(95) == "11:45 pm"
  {
    NamedRenderings();
    assert Label(0) == FormatTime(0) && Label(24) == FormatTime(360) && Label(32) == FormatTime(480);
    assert Label(48) == FormatTime(720) && Label(95) == FormatTime(1425);
  }

  lemma NamedRenderings()
    ensures FormatTime(0) == "12:00 am" && FormatTime(360) == "6:00 am" && FormatTime(480) == "8:00 am"
    ensures FormatTime(720) == "12:00 pm" && FormatTime(1425) == "11:45 pm"
  {
  }

  /** `times` is the slot table: entry `i` is the label of slot `i`. */
  ghost predicate IsSlotTable(times: seq<string>) {
    |times| == SlotCount && forall i :: 0 <= i < SlotCount ==> times[i] == Label(i)
  }

  /** Table construction: 96 entries pushed one by one, entry `i` being the
      label of `i*15` minutes after midnight. */
  method GenerateTimeSlots() returns (times: seq<string>)
    ensures IsSlotTable(times)
    ensures forall i :: 0 <= i < SlotCount ==> ParseTime(times[i]) == Some(i * SlotMinutes)
    ensures forall i, j :: 0 <= i < j < SlotCount ==> times[i] != times[j]
  {
    times := [];
    for i := 0 to SlotCount
      invariant |times| == i
      invariant forall j :: 0 <= j < i ==> times[j] == Label(j)
    {
      times := times + [FormatTime(i * SlotMinutes)];
    }
    forall i | 0 <= i < SlotCount
      ensures ParseTime(times[i]) == Some(i * SlotMinutes)
    {
      FormatParse(i * SlotMinutes);
    }
    forall i, j | 0 <= i < j < SlotCount
      ensures times[i] != times[j]
    {
      LabelInjective(i, j);
    }
  }

  /** `findIndex` with an equality test: the first position holding `s`, or
      -1 when there is none. */
  method FindIndex(times: seq<string>, s: string) returns (k: int)
    ensures -1 <= k < |times|
    ensures k == -1 <==> s !in times
    ensures k >= 0 ==> times[k] == s && forall j :: 0 <= j < k ==> times[j] != s
  {
    k := 0;
    while k < |times|
      invariant 0 <= k <= |times|
      invariant forall j :: 0 <= j < k ==> times[j] != s
    {
      if times[k] == s {
        return;
      }
      k := k + 1;
    }
    k := -1;
  }

  /** Looking up a label in the generated table finds its own slot. */
  lemma TableIndexOfLabel(times: seq<string>, i: Slot)
    requires IsSlotTable(times)
    ensures times[i] == Label(i)
    ensures forall j :: 0 <= j < i ==> times[j] != Label(i)
  {
    forall j | 0 <= j < i
      ensures times[j] != Label(i)
    {
      LabelInjective(j, i);
    }
  }
}
