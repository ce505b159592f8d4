/**
 * The records the downloader builds: one per matched timing line
 * (tagDownload.py lines 110-123) and the closing summary record
 * (lines 131-135). A record is the dictionary the source builds, with one
 * field per key; the CSV columns are those keys.
 */
module Records {
  import opened Wrappers
  import opened Text
  import opened Calendar
  import opened Patterns

  /** `THLineType`: the description of each line-type code. */
  const LineTypes: map<string, string> := map[
    "ID" := "Serial",
    "DL" := "Download",
    "AN" := "Original Time",
    "A-" := "Time With Removed Identification",
    "A*" := "Time With A new Identification",
    "A+" := "Inserted Time",
    "A=" := "Duplicated Time",
    "AC" := "Cancelled Time"
  ]

  /** The label a record carries for a code: `THLineType.get(code, "N/A")`.
      A code gets the fallback label exactly when the table does not know it. */
  function LineTypeOf(code: string): (r: string)
    ensures r == "N/A" <==> code !in LineTypes
    ensures code in LineTypes ==> r == LineTypes[code]
    ensures r in LineTypes.Values || r == "N/A"
  {
    if code in LineTypes then LineTypes[code] else "N/A"
  }

  /** The codes a timing line can carry start with `A`; of those the table
      describes six, and every other one is labelled "N/A". */
  lemma TimingLabels(code: string)
    requires IsTimingCode(code)
    ensures code in LineTypes <==> code in {"AN", "A-", "A*", "A+", "A=", "AC"}
    ensures code !in {"AN", "A-", "A*", "A+", "A=", "AC"} ==> LineTypeOf(code) == "N/A"
  {
    assert "ID"[0] != 'A' && "DL"[0] != 'A';
  }

  /** A downloaded row: a timing record (the keys of lines 110-122) or the
      summary record appended after the last line (lines 131-135). */
  datatype Record =
    | Timing(lineType: string, candidate: string, sequence: string, channel: string,
             hours: string, minutes: string, seconds: string, decimal: string, days: string,
             date: CivilDate, time: string)
    | Info(lineType: string, candidate: string, sequence: string)

  /** The labels a timing line can receive: the six timing descriptions of
      the table and the fallback. */
  const TimingDescriptions: set<string> := {
    "Original Time", "Time With Removed Identification", "Time With A new Identification",
    "Inserted Time", "Duplicated Time", "Cancelled Time", "N/A"
  }

  /** A timing code is labelled with one of the timing descriptions. */
  lemma TimingLabelKnown(code: string)
    requires IsTimingCode(code)
    ensures LineTypeOf(code) in TimingDescriptions
  {
    TimingLabels(code);
  }

  /** What a timing record built from a matched line holds: a timing label,
      each column with the shape its group of the pattern captures, the
      `Time` joined from the clock columns, and the date its day count names. */
  predicate IsTimingRecord(r: Record) {
    r.Timing? && r.lineType in TimingDescriptions &&
    |r.candidate| <= 4 && AllIn(Digit, r.candidate) &&
    IsDigits(r.sequence) && IsChannel(r.channel) &&
    IsDigits(r.hours) && IsDigits(r.minutes) && IsDigits(r.seconds) && IsDigits(r.decimal) &&
    IsDigits(r.days) && r.time == ClockText(r.hours, r.minutes, r.seconds, r.decimal) &&
    DayNumber(r.date) == DecimalValue(r.days)
  }

  /** The `Time` key: `Hours:Minutes:Seconds.Decimal`. */
  function ClockText(hours: string, minutes: string, seconds: string, decimal: string): (r: string)
    ensures |r| == |hours| + |minutes| + |seconds| + |decimal| + 3
    ensures r[|hours|] == ':' && r[|hours| + |minutes| + 1] == ':' &&
            r[|hours| + |minutes| + |seconds| + 2] == '.'
  {
    hours + ":" + minutes + ":" + seconds + "." + decimal
  }

  /** The digits at the front of `t` and what follows the character `c` after
      them, when `c` follows them. */
  function NumberThen(t: string, c: char): Option<(string, string)> {
    var e := RunEnd(Digit, t, 0);
    if e < |t| && t[e] == c then Some((t[..e], t[e + 1..])) else None
  }

  /** A clock text split back into its four numbers. */
  function SplitClock(t: string): Option<seq<string>> {
    var (hours, r1) :- NumberThen(t, ':');
    var (minutes, r2) :- NumberThen(r1, ':');
    var (seconds, decimal) :- NumberThen(r2, '.');
    if AllIn(Digit, decimal) then Some([hours, minutes, seconds, decimal]) else None
  }

  /** A digit string `w` written at `i` and followed by a non-digit (or by the
      end of `t`) is the digit run there. */
  lemma DigitRunAt(t: string, i: nat, w: string)
    requires i + |w| <= |t| && t[i..i + |w|] == w && AllIn(Digit, w)
    requires i + |w| == |t| || !IsDigit(t[i + |w|])
    ensures RunEnd(Digit, t, i) == i + |w|
  {
    RangeSlice(Digit, t, i, i + |w|);
    RunEndAt(Digit, t, i, i + |w|);
  }

  lemma NumberThenRead(w: string, c: char, rest: string)
    requires AllIn(Digit, w) && !IsDigit(c)
    ensures NumberThen(w + [c] + rest, c) == Some((w, rest))
  {
    var t := w + [c] + rest;
    assert t[..|w|] == w && t[|w|] == c && t[|w| + 1..] == rest;
    DigitRunAt(t, 0, w);
  }

  lemma NumberThenSound(t: string, c: char)
    requires NumberThen(t, c).Some?
    ensures AllIn(Digit, NumberThen(t, c).value.0)
    ensures t == NumberThen(t, c).value.0 + [c] + NumberThen(t, c).value.1
  {
    var e := RunEnd(Digit, t, 0);
    RangeSlice(Digit, t, 0, e);
    assert t == t[..e] + [t[e]] + t[e + 1..];
  }

  /** Splitting the clock text gives back the four numbers it was written from. */
  lemma ClockRoundTrip(hours: string, minutes: string, seconds: string, decimal: string)
    requires AllIn(Digit, hours) && AllIn(Digit, minutes)
    requires AllIn(Digit, seconds) && AllIn(Digit, decimal)
    ensures SplitClock(ClockText(hours, minutes, seconds, decimal)) ==
            Some([hours, minutes, seconds, decimal])
  {
    var r2 := seconds + ['.'] + decimal;
    var r1 := minutes + [':'] + r2;
    ClockNested(hours, minutes, seconds, decimal);
    NumberThenRead(hours, ':', r1);
    NumberThenRead(minutes, ':', r2);
    NumberThenRead(seconds, '.', decimal);
  }

  /** Whatever splits is the clock text of its parts. */
  lemma SplitClockSound(t: string)
    requires SplitClock(t).Some?
    ensures var p := SplitClock(t).value;
            |p| == 4 && ClockText(p[0], p[1], p[2], p[3]) == t
  {
    var x := NumberThen(t, ':').value;
    NumberThenSound(t, ':');
    var y := NumberThen(x.1, ':').value;
    NumberThenSound(x.1, ':');
    var z := NumberThen(y.1, '.').value;
    NumberThenSound(y.1, '.');
    assert SplitClock(t).value == [x.0, y.0, z.0, z.1];
    ClockNested(x.0, y.0, z.0, z.1);
  }

  /** The clock text written from the right. */
  lemma ClockNested(hours: string, minutes: string, seconds: string, decimal: string)
    ensures ClockText(hours, minutes, seconds, decimal) ==
            hours + [':'] + (minutes + [':'] + (seconds + ['.'] + decimal))
  {
  }

  /** The record of a matched timing line (lines 110-122), or None where the
      date `THStartDate + timedelta(days=Days)` lies past 9999-12-31 and
      Python raises OverflowError. */
  function BuildRecord(f: TimingFields): (r: Option<Record>)
    requires IsTimingFields(f)
    ensures r.Some? <==> DecimalValue(f.days) <= MaxDays
    ensures r.Some? ==> r.value.Timing? && DayNumber(r.value.date) == DecimalValue(f.days)
    ensures r.Some? ==> IsTimingRecord(r.value)
  {
    TimingLabelKnown(f.code);
    var date :- DaysAfterEpoch(DecimalValue(f.days));
    Some(Timing(LineTypeOf(f.code), f.candidate, f.sequence, f.channel, f.hours, f.minutes,
                f.seconds, f.decimal, f.days, date, ClockText(f.hours, f.minutes, f.seconds, f.decimal)))
  }

  /** A timing record keeps the groups of its line; its label is the table's
      description of the code and its `Time` splits back into the clock columns. */
  lemma RecordColumns(f: TimingFields)
    requires IsTimingFields(f) && BuildRecord(f).Some?
    ensures var r := BuildRecord(f).value;
            r.lineType == LineTypeOf(f.code) &&
            [r.candidate, r.sequence, r.channel, r.days] == [f.candidate, f.sequence, f.channel, f.days] &&
            SplitClock(r.time) == Some([r.hours, r.minutes, r.seconds, r.decimal]) &&
            [r.hours, r.minutes, r.seconds, r.decimal] == [f.hours, f.minutes, f.seconds, f.decimal]
  {
    ClockRoundTrip(f.hours, f.minutes, f.seconds, f.decimal);
  }

  /** A larger day count gives a later date. */
  lemma LaterDays(f: TimingFields, g: TimingFields)
    requires IsTimingFields(f) && IsTimingFields(g)
    requires BuildRecord(f).Some? && BuildRecord(g).Some?
    requires DecimalValue(f.days) < DecimalValue(g.days)
    ensures Before(BuildRecord(f).value.date, BuildRecord(g).value.date)
  {
    MoreDaysLater(DecimalValue(f.days), DecimalValue(g.days));
  }

  /** The sample line of the source's comment, `AN  700    3 M4 19:20:15.83400  7749`. */
  const SampleFields := TimingFields("AN", "700", "3", "M4", "19", "20", "15", "83400", "7749")

  /** Its record: an original time taken on 2021-03-20. */
  lemma SampleValid()
    ensures IsTimingFields(SampleFields)
  {
    assert "M4"[1..] == "4";
  }

  /** The sample day count as Python's `int` reads it. */
  lemma SampleDays()
    ensures AllIn(Digit, "7749") && DecimalValue("7749") == 7749
  {
    assert "7749"[..3] == "774" && "774"[..2] == "77" && "77"[..1] == "7" && "7"[..0] == "";
  }

  lemma SampleRecord()
    ensures IsTimingFields(SampleFields)
    ensures BuildRecord(SampleFields) ==
            Some(Timing("Original Time", "700", "3", "M4", "19", "20", "15", "83400", "7749",
                        Date(2021, 3, 20), "19:20:15.83400"))
  {
    SampleValid();
    SampleDays();
    SampleDayCount();
    SampleClock();
  }

  lemma SampleClock()
    ensures ClockText("19", "20", "15", "83400") == "19:20:15.83400"
  {
  }

  const SerialLabel := "Device Serial: "
  const RunLabel := "Device Run Number: "

  /** The summary record appended after the last line (lines 131-135). */
  function InfoRecord(serial: string, run: string): (r: Record)
    ensures r.Info? && r.lineType == "Download INFO"
  {
    Info("Download INFO", SerialLabel + serial, RunLabel + run)
  }

  /** The serial and run numbers are read back from the summary record. */
  lemma InfoReadBack(serial: string, run: string)
    ensures var r := InfoRecord(serial, run);
            StartsWith(r.candidate, SerialLabel) && r.candidate[|SerialLabel|..] == serial &&
            StartsWith(r.sequence, RunLabel) && r.sequence[|RunLabel|..] == run
  {
    var r := InfoRecord(serial, run);
    assert r.candidate[..|SerialLabel|] == SerialLabel;
    assert r.sequence[..|RunLabel|] == RunLabel;
  }
}
