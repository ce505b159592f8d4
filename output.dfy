/**
 * The name of the CSV file `writeTAGCSV` writes (tagDownload.py lines
 * 146-152): `TAGPY_`, the serial number and `_` when there is one, `RUN_`, the
 * run number and `_` when there is one, the date of the first record, and
 * `.csv`. Writing the file itself is not part of this model.
 */
module Output {
  import opened Wrappers
  import opened Text
  import opened Calendar
  import opened Records
  import opened Session

  predicate EndsWith(s: string, suffix: string) {
    |suffix| <= |s| && s[|s| - |suffix|..] == suffix
  }

  /** `str(record.get('Date', ""))`: the ISO date of a timing record; the
      summary record has no date. */
  function DateText(r: Record): string {
    if r.Timing? then IsoFormat(r.date) else ""
  }

  function SerialPart(serial: string): string {
    if serial != "" then serial + "_" else ""
  }

  function RunPart(run: string): string {
    if run != "" then "RUN_" + run + "_" else ""
  }

  /** The file name for `data`, or None where `data[0]` raises IndexError. */
  function FileName(data: seq<Record>, serial: string, run: string): (name: Option<string>)
    ensures name.Some? <==> data != []
    ensures name.Some? ==> StartsWith(name.value, "TAGPY_") && EndsWith(name.value, ".csv")
  {
    if data == [] then None
    else
      var name := "TAGPY_" + (SerialPart(serial) + RunPart(run) + DateText(data[0])) + ".csv";
      assert name[..6] == "TAGPY_" && name[|name| - 4..] == ".csv";
      Some(name)
  }

  /** A non-empty number and what follows the `_` after it, or nothing and all
      of `t`. */
  function NumberPart(t: string): (string, string) {
    match NumberThen(t, '_')
    case Some((n, rest)) => if n != "" then (n, rest) else ("", t)
    case None => ("", t)
  }

  /** The run number after `RUN_` and what follows it, or nothing and all of `t`. */
  function RunNumberPart(t: string): (string, string) {
    if StartsWith(t, "RUN_") && NumberPart(t[4..]).0 != "" then NumberPart(t[4..]) else ("", t)
  }

  /** The serial number, run number and date text a file name was made from. */
  function ParseFileName(name: string): Option<(string, string, string)> {
    if !(|name| >= 10 && StartsWith(name, "TAGPY_") && EndsWith(name, ".csv")) then None
    else
      var (serial, rest) := NumberPart(name[6..|name| - 4]);
      var (run, date) := RunNumberPart(rest);
      Some((serial, run, date))
  }

  /** The date text is empty or an ISO date. */
  predicate IsDateText(d: string) {
    d == "" || (|d| == 10 && AllIn(Digit, d[..4]) && d[4] == '-')
  }

  lemma DateTextShape(r: Record)
    ensures IsDateText(DateText(r))
  {
  }

  /** A date text does not start with a number followed by `_`, nor with `RUN_`. */
  lemma DateTextInert(d: string)
    requires IsDateText(d)
    ensures NumberPart(d) == ("", d)
    ensures !StartsWith(d, "RUN_")
  {
    if d != "" {
      DigitRunAt(d, 0, d[..4]);
      assert d[0] == d[..4][0];
    }
  }

  /** A number followed by `_` is split off whole. */
  lemma NumberPartRead(n: string, rest: string)
    requires IsDigits(n)
    ensures NumberPart(n + "_" + rest) == (n, rest)
  {
    assert n + "_" + rest == n + ['_'] + rest;
    NumberThenRead(n, '_', rest);
  }

  /** The run part and date text, split back apart. */
  lemma RunPartRead(run: string, d: string)
    requires (run == "" || IsDigits(run)) && IsDateText(d)
    ensures RunNumberPart(RunPart(run) + d) == (run, d)
    ensures run != "" ==> NumberPart(RunPart(run) + d) == ("", RunPart(run) + d)
  {
    DateTextInert(d);
    if run != "" {
      var t := RunPart(run) + d;
      assert t == "RUN_" + (run + "_" + d);
      assert t[..4] == "RUN_" && t[4..] == run + "_" + d;
      NumberPartRead(run, d);
      assert t[0] == 'R';
      assert RunEnd(Digit, t, 0) == 0;
    } else {
      assert RunPart(run) + d == d;
    }
  }

  /** The part between `TAGPY_` and `.csv`, split back apart. */
  lemma MiddleRead(serial: string, run: string, d: string)
    requires (serial == "" || IsDigits(serial)) && (run == "" || IsDigits(run)) && IsDateText(d)
    ensures NumberPart(SerialPart(serial) + RunPart(run) + d) == (serial, RunPart(run) + d)
    ensures RunNumberPart(RunPart(run) + d) == (run, d)
  {
    RunPartRead(run, d);
    AppendAssoc(SerialPart(serial), RunPart(run), d);
    if serial != "" {
      NumberPartRead(serial, RunPart(run) + d);
    } else if run == "" {
      assert SerialPart(serial) + RunPart(run) + d == d && RunPart(run) + d == d;
      DateTextInert(d);
    } else {
      assert SerialPart(serial) + RunPart(run) + d == RunPart(run) + d;
    }
  }

  /** Parsing a file name parses the part between `TAGPY_` and `.csv`. */
  lemma ParseFrame(mid: string)
    ensures ParseFileName("TAGPY_" + mid + ".csv") ==
            Some((NumberPart(mid).0, RunNumberPart(NumberPart(mid).1).0, RunNumberPart(NumberPart(mid).1).1))
  {
    var name := "TAGPY_" + mid + ".csv";
    Between("TAGPY_", mid, ".csv");
    assert name[..6] == "TAGPY_" && name[|name| - 4..] == ".csv";
  }

  /** The file name gives back the serial number, run number and date text it
      was made from. */
  lemma FileNameRoundTrip(data: seq<Record>, serial: string, run: string)
    requires data != [] && (serial == "" || IsDigits(serial)) && (run == "" || IsDigits(run))
    ensures ParseFileName(FileName(data, serial, run).value) == Some((serial, run, DateText(data[0])))
  {
    var d := DateText(data[0]);
    var mid := SerialPart(serial) + RunPart(run) + d;
    assert FileName(data, serial, run).value == "TAGPY_" + mid + ".csv";
    ParseFrame(mid);
    DateTextShape(data[0]);
    MiddleRead(serial, run, d);
  }

  /** Different serial numbers, run numbers or dates give different file
      names. */
  lemma FileNameInjective(a: seq<Record>, serial: string, run: string,
                          b: seq<Record>, serial': string, run': string)
    requires a != [] && (serial == "" || IsDigits(serial)) && (run == "" || IsDigits(run))
    requires b != [] && (serial' == "" || IsDigits(serial')) && (run' == "" || IsDigits(run'))
    requires FileName(a, serial, run) == FileName(b, serial', run')
    ensures serial == serial' && run == run' && DateText(a[0]) == DateText(b[0])
  {
    FileNameRoundTrip(a, serial, run);
    FileNameRoundTrip(b, serial', run');
  }

  /** The file of a completed download names its serial and run numbers, and
      the date of its first time, or no date when it has no times. */
  lemma DownloadFileName(lines: seq<string>)
    requires Download(lines).Success?
    ensures var out := Download(lines).value;
            FileName(out.data, out.serial, out.run) ==
              Some("TAGPY_" + out.serial + "_RUN_" + out.run + "_" + DateText(out.data[0]) + ".csv") &&
            (DateText(out.data[0]) == "" <==> |out.data| == 1)
  {
    var out := Download(lines).value;
    DownloadShape(lines);
    NamedFile(out.data, out.serial, out.run);
  }

  /** Timing records closed by the summary record of two digit strings are
      written to `TAGPY_<serial>_RUN_<run>_<date>.csv`, with no date when there
      are no timing records. */
  lemma NamedFile(data: seq<Record>, serial: string, run: string)
    requires |data| >= 1 && data[|data| - 1] == InfoRecord(serial, run)
    requires forall k :: 0 <= k < |data| - 1 ==> data[k].Timing?
    requires IsDigits(serial) && IsDigits(run)
    ensures FileName(data, serial, run) ==
              Some("TAGPY_" + serial + "_RUN_" + run + "_" + DateText(data[0]) + ".csv")
    ensures DateText(data[0]) == "" <==> |data| == 1
  {
    NumberParts(serial, run);
    JoinName(serial, run, DateText(data[0]));
    if |data| > 1 {
      DateNotEmpty(data[0]);
    }
  }

  /** Two digit strings give both parts of the name. */
  lemma NumberParts(serial: string, run: string)
    requires IsDigits(serial) && IsDigits(run)
    ensures SerialPart(serial) + RunPart(run) == serial + "_RUN_" + run + "_"
  {
    assert SerialPart(serial) == serial + "_" && RunPart(run) == "RUN_" + run + "_";
  }

  /** The name read as one concatenation. */
  lemma JoinName(serial: string, run: string, date: string)
    ensures "TAGPY_" + (serial + "_RUN_" + run + "_" + date) + ".csv" ==
            "TAGPY_" + serial + "_RUN_" + run + "_" + date + ".csv"
  {
  }

  /** A timing record always names a date. */
  lemma DateNotEmpty(r: Record)
    requires r.Timing?
    ensures DateText(r) != ""
  {
    assert |IsoFormat(r.date)| == 10;
  }
}
