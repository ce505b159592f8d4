/**
 * `processData` (tagDownload.py lines 70-136): the download loop.
 *
 * The serial port is replaced by the sequence `lines` of what its `readline`
 * returns, already decoded from UTF-8; an empty string is a read that timed
 * out. The loop reads until a line starting with `DE`. Every way the source
 * ends without a result is a `Failure`: an exception it raises, or `lines`
 * running out before `DE`, where the source goes on waiting for the device.
 *
 * `Download` states the outcome as a function of the reads, one read at a
 * time (`Step`); `ProcessData` is the loop itself, proved to compute it.
 */
module Session {
  import opened Wrappers
  import opened Text
  import opened Calendar
  import opened Patterns
  import opened Records
  import opened Layout

  /** Why a download gives no result. */
  datatype Failure =
    | SerialNotMatched  // an `ID` line the serial pattern does not match: `.group` on None (line 91)
    | RunNotMatched     // the same for a `DS` line (line 96)
    | DateOutOfRange    // day count past 9999-12-31 (line 120): OverflowError, or ValueError from `int` for an absurdly long count
    | SerialUnbound     // `devSerial` never assigned (line 133)
    | RunUnbound        // `runNumber` never assigned (line 134)
    | EndNeverSeen      // the reads ran out before a `DE` line

  /** What the loop has gathered: `devSerial` and `runNumber` once assigned,
      `downloadData`, and whether `DE` was seen (`ctrl` is false). */
  datatype State = State(serial: Option<string>, run: Option<string>, data: seq<Record>, ended: bool)

  const Start: State := State(None, None, [], false)

  /** What `processData` returns: the records, the serial and the run number. */
  datatype Outcome = Outcome(data: seq<Record>, serial: string, run: string)

  /** Lines 90-91: an `ID` line sets the serial number, a digit string; any
      other line passes through. */
  function SerialStep(st: State, line: string): (r: Result<State, Failure>)
    ensures !StartsWith(line, "ID") ==> r == Success(st)
    ensures r.Failure? ==> r.error == SerialNotMatched
    ensures r.Success? ==> r.value.(serial := st.serial) == st
    ensures r.Success? && StartsWith(line, "ID") ==> r.value.serial.Some? && IsDigits(r.value.serial.value)
  {
    if !StartsWith(line, "ID") then Success(st)
    else
      match Find(SerialPattern, line)
      case None => Failure(SerialNotMatched)
      case Some(m) =>
        MatchAtShape(SerialPattern, line, m.start);
        Success(st.(serial := Some(m.groups[0])))
  }

  /** Lines 94-96: a `DS` line sets the run number, a digit string; any other
      line passes through. */
  function RunStep(st: State, line: string): (r: Result<State, Failure>)
    ensures !StartsWith(line, "DS") ==> r == Success(st)
    ensures r.Failure? ==> r.error == RunNotMatched
    ensures r.Success? ==> r.value.(run := st.run) == st
    ensures r.Success? && StartsWith(line, "DS") ==> r.value.run.Some? && IsDigits(r.value.run.value)
  {
    if !StartsWith(line, "DS") then Success(st)
    else
      match Find(RunPattern, line)
      case None => Failure(RunNotMatched)
      case Some(m) =>
        MatchAtShape(RunPattern, line, m.start);
        Success(st.(run := Some(m.groups[0])))
  }

  /** Lines 101-123: a line starting with `A` that the timing pattern matches
      adds its record; one it does not match is passed over. Only the date can
      fail, and only on a line the pattern matches. */
  function TimingStep(st: State, line: string): (r: Result<State, Failure>)
    ensures !StartsWith(line, "A") ==> r == Success(st)
    ensures r.Failure? ==> r.error == DateOutOfRange && Find(TimingPattern, line).Some?
    ensures r.Success? ==> r.value.(data := st.data) == st
    ensures r.Success? ==> r.value.data == st.data ||
                           (|r.value.data| == |st.data| + 1 && r.value.data[..|st.data|] == st.data &&
                            IsTimingRecord(r.value.data[|st.data|]) && Find(TimingPattern, line).Some?)
  {
    if !StartsWith(line, "A") then Success(st)
    else
      match Find(TimingPattern, line)
      case None => Success(st)
      case Some(m) =>
        MatchAtShape(TimingPattern, line, m.start);
        match BuildRecord(FieldsOf(m.groups))
        case None => Failure(DateOutOfRange)
        case Some(r) => Success(st.(data := st.data + [r]))
  }

  /** Lines 124-125: a `DE` line ends the loop, and changes nothing else. */
  function EndStep(st: State, line: string): (r: State)
    ensures r.ended <==> st.ended || StartsWith(line, "DE")
    ensures r.(ended := st.ended) == st
  {
    if StartsWith(line, "DE") then st.(ended := true) else st
  }

  /** One read (lines 88-125): an empty read changes nothing; otherwise the
      four tests in the order of the source. Only a line with one of the three
      pattern prefixes can fail; a read adds at most one record and ends the
      loop on `DE`. */
  function Step(st: State, line: string): (r: Result<State, Failure>)
    ensures line == "" ==> r == Success(st)
    ensures r.Failure? ==> StartsWith(line, "ID") || StartsWith(line, "DS") || StartsWith(line, "A")
    ensures r.Success? ==> st.data <= r.value.data && |r.value.data| <= |st.data| + 1
    ensures r.Success? ==> (r.value.ended <==> st.ended || StartsWith(line, "DE"))
  {
    if line == "" then Success(st)
    else
      var st1 :- SerialStep(st, line);
      var st2 :- RunStep(st1, line);
      var st3 :- TimingStep(st2, line);
      Success(EndStep(st3, line))
  }

  /** The loop from state `st` over the reads `lines`, stopping once `DE` is
      seen: records are only ever appended, at most one per read. */
  function Consume(st: State, lines: seq<string>): (r: Result<State, Failure>)
    ensures st.ended ==> r == Success(st)
    ensures r.Success? ==> st.data <= r.value.data && |r.value.data| <= |st.data| + |lines|
    ensures r.Success? && st.ended == false && r.value.ended ==> lines != []
    decreases |lines|
  {
    if st.ended || lines == [] then Success(st)
    else
      var next :- Step(st, lines[0]);
      Consume(next, lines[1..])
  }

  /** The outcome of a download (lines 131-136): the records with the summary
      record of the returned serial and run numbers appended; at most one
      record per read before it. */
  function Download(lines: seq<string>): (r: Result<Outcome, Failure>)
    ensures lines == [] ==> r == Failure(EndNeverSeen)
    ensures r.Success? ==> 1 <= |r.value.data| <= |lines| + 1 &&
                           r.value.data[|r.value.data| - 1] == InfoRecord(r.value.serial, r.value.run)
  {
    var st :- Consume(Start, lines);
    if !st.ended then Failure(EndNeverSeen)
    else if st.serial.None? then Failure(SerialUnbound)
    else if st.run.None? then Failure(RunUnbound)
    else Success(Outcome(st.data + [InfoRecord(st.serial.value, st.run.value)], st.serial.value, st.run.value))
  }

  /** `processData`: the read loop over the reads `lines`. */
  method ProcessData(lines: seq<string>) returns (r: Result<Outcome, Failure>)
    ensures r == Download(lines)
  {
    var ctrl := true;
    var downloadData: seq<Record> := [];
    var devSerial: Option<string> := None;
    var runNumber: Option<string> := None;
    var i := 0;
    while ctrl
      invariant i <= |lines|
      invariant Consume(Start, lines) == Consume(State(devSerial, runNumber, downloadData, !ctrl), lines[i..])
      decreases |lines| - i
    {
      if i == |lines| {
        return Failure(EndNeverSeen);
      }
      var line := lines[i];
      assert lines[i..][1..] == lines[i + 1..];
      i := i + 1;
      if line != "" {
        if StartsWith(line, "ID") {
          var m := Find(SerialPattern, line);
          if m.None? {
            return Failure(SerialNotMatched);
          }
          devSerial := Some(m.value.groups[0]);
        }
        if StartsWith(line, "DS") {
          var m := Find(RunPattern, line);
          if m.None? {
            return Failure(RunNotMatched);
          }
          runNumber := Some(m.value.groups[0]);
        }
        if StartsWith(line, "A") {
          var m := Find(TimingPattern, line);
          if m.Some? {
            MatchAtShape(TimingPattern, line, m.value.start);
            var rec := BuildRecord(FieldsOf(m.value.groups));
            if rec.None? {
              return Failure(DateOutOfRange);
            }
            downloadData := downloadData + [rec.value];
          }
        }
        if StartsWith(line, "DE") {
          ctrl := false;
        }
      }
    }
    if devSerial.None? {
      return Failure(SerialUnbound);
    }
    if runNumber.None? {
      return Failure(RunUnbound);
    }
    r := Success(Outcome(downloadData + [InfoRecord(devSerial.value, runNumber.value)],
                         devSerial.value, runNumber.value));
  }

  /** The loop over two runs of reads is the loop over the first, then over the
      second from where the first left off. */
  lemma {:induction false} ConsumeAppend(st: State, a: seq<string>, b: seq<string>)
    ensures Consume(st, a + b) ==
            match Consume(st, a)
            case Failure(e) => Failure(e)
            case Success(mid) => Consume(mid, b)
    decreases |a|
  {
    if st.ended {
    } else if a == [] {
      assert a + b == b;
    } else {
      assert (a + b)[0] == a[0];
      assert (a + b)[1..] == a[1..] + b;
      match Step(st, a[0])
      case Failure(e) =>
      case Success(next) =>
        ConsumeAppend(next, a[1..], b);
    }
  }

  /** Once `DE` has been read, nothing read after it matters (the loop has
      stopped). */
  lemma AfterEnd(a: seq<string>, b: seq<string>)
    requires Consume(Start, a).Success? && Consume(Start, a).value.ended
    ensures Download(a + b) == Download(a)
  {
    ConsumeAppend(Start, a, b);
  }

  /** Line 88: a read that timed out changes nothing. */
  lemma TimeoutIgnored(a: seq<string>, b: seq<string>)
    ensures Download(a + [""] + b) == Download(a + b)
  {
    assert a + [""] + b == a + ([""] + b);
    ConsumeAppend(Start, a, [""] + b);
    ConsumeAppend(Start, a, b);
    match Consume(Start, a)
    case Failure(e) =>
    case Success(mid) =>
      assert ([""] + b)[1..] == b;
  }

  /** The outcome when nothing arrives but timeouts, and when the device sends
      only `DE`: line 133 finds `devSerial` unassigned. */
  lemma EmptyDownloads(n: nat)
    ensures Download(seq(n, _ => "")) == Failure(EndNeverSeen)
    ensures Download(["DE"]) == Failure(SerialUnbound)
  {
    TimeoutsKeep(Start, n);
    assert StartsWith("DE", "DE");
  }

  lemma {:induction false} TimeoutsKeep(st: State, n: nat)
    ensures Consume(st, seq(n, _ => "")) == Success(st)
    decreases n
  {
    if n > 0 && !st.ended {
      assert seq(n, _ => "")[1..] == seq(n - 1, _ => "");
      TimeoutsKeep(st, n - 1);
    }
  }

  /** The serial number a line sets: the group of the serial pattern in an
      `ID` line. */
  function SerialOf(line: string): seq<string> {
    if !StartsWith(line, "ID") then []
    else
      match Find(SerialPattern, line)
      case None => []
      case Some(m) => [m.groups[0]]
  }

  /** The run number a line sets: the group of the run pattern in a `DS` line. */
  function RunOf(line: string): seq<string> {
    if !StartsWith(line, "DS") then []
    else
      match Find(RunPattern, line)
      case None => []
      case Some(m) => [m.groups[0]]
  }

  /** The record a line adds: that of the timing pattern's match in a line
      starting with `A`. */
  function RecordOf(line: string): seq<Record> {
    if !StartsWith(line, "A") then []
    else
      match Find(TimingPattern, line)
      case None => []
      case Some(m) =>
        MatchAtShape(TimingPattern, line, m.start);
        match BuildRecord(FieldsOf(m.groups))
        case None => []
        case Some(r) => [r]
  }

  /** The last of `xs`, or `prev` when there is none. */
  function LastOr(prev: Option<string>, xs: seq<string>): Option<string> {
    if xs == [] then prev else Some(xs[|xs| - 1])
  }

  /** What one read does to the state, when it does not fail. */
  lemma StepEffect(st: State, line: string)
    requires Step(st, line).Success?
    ensures Step(st, line).value ==
            State(LastOr(st.serial, SerialOf(line)), LastOr(st.run, RunOf(line)),
                  st.data + RecordOf(line), st.ended || StartsWith(line, "DE"))
  {
    if line != "" {
      var st1 := SerialStep(st, line).value;
      assert st1 == st.(serial := LastOr(st.serial, SerialOf(line)));
      var st2 := RunStep(st1, line).value;
      assert st2 == st1.(run := LastOr(st.run, RunOf(line)));
      var st3 := TimingStep(st2, line).value;
      assert st3 == st2.(data := st.data + RecordOf(line));
    } else {
      assert st.data + [] == st.data;
    }
  }

  /** When one read fails: an `ID` or `DS` line its pattern does not match, or
      a timing line whose date is out of range. */
  lemma StepFailure(st: State, line: string)
    ensures Step(st, line).Failure? <==>
            (StartsWith(line, "ID") && Find(SerialPattern, line).None?) ||
            (StartsWith(line, "DS") && Find(RunPattern, line).None?) ||
            (StartsWith(line, "A") && Find(TimingPattern, line).Some? &&
             IsTimingGroups(Find(TimingPattern, line).value.groups) &&
             BuildRecord(FieldsOf(Find(TimingPattern, line).value.groups)).None?)
  {
    var m := Find(TimingPattern, line);
    if m.Some? {
      MatchAtShape(TimingPattern, line, m.value.start);
    }
    StartsNotBoth(line);
  }

  /** A line starts with at most one of the four prefixes the loop tests. */
  lemma StartsNotBoth(line: string)
    ensures StartsWith(line, "ID") ==> !StartsWith(line, "DS") && !StartsWith(line, "A") && !StartsWith(line, "DE")
    ensures StartsWith(line, "DS") ==> !StartsWith(line, "A") && !StartsWith(line, "DE")
    ensures StartsWith(line, "A") ==> !StartsWith(line, "DE")
  {
    if StartsWith(line, "ID") {
      assert line[0] == line[..2][0];
    }
    if StartsWith(line, "DS") {
      assert line[0] == line[..2][0] && line[1] == line[..2][1];
    }
    if StartsWith(line, "A") {
      assert line[0] == line[..1][0];
    }
  }

  /** What the state holds at every point of the loop: serial and run numbers
      are digit strings, and every record gathered is a timing record with the
      shapes of the groups it was built from. */
  predicate Gathered(st: State) {
    (st.serial.Some? ==> IsDigits(st.serial.value)) &&
    (st.run.Some? ==> IsDigits(st.run.value)) &&
    forall k :: 0 <= k < |st.data| ==> IsTimingRecord(st.data[k])
  }

  lemma StepGathers(st: State, line: string)
    requires Gathered(st) && Step(st, line).Success?
    ensures Gathered(Step(st, line).value)
  {
    StepEffect(st, line);
    if SerialOf(line) != [] {
      MatchAtShape(SerialPattern, line, Find(SerialPattern, line).value.start);
    }
    if RunOf(line) != [] {
      MatchAtShape(RunPattern, line, Find(RunPattern, line).value.start);
    }
  }

  lemma {:induction false} ConsumeGathers(st: State, lines: seq<string>)
    requires Gathered(st) && Consume(st, lines).Success?
    ensures Gathered(Consume(st, lines).value)
    decreases |lines|
  {
    if !st.ended && lines != [] {
      StepGathers(st, lines[0]);
      ConsumeGathers(Step(st, lines[0]).value, lines[1..]);
    }
  }

  /** A completed download: timing records followed by the summary record,
      which names the serial and run numbers returned beside the records. */
  lemma DownloadShape(lines: seq<string>)
    requires Download(lines).Success?
    ensures var out := Download(lines).value;
            |out.data| >= 1 && out.data[|out.data| - 1] == InfoRecord(out.serial, out.run) &&
            (forall k :: 0 <= k < |out.data| - 1 ==> IsTimingRecord(out.data[k])) &&
            IsDigits(out.serial) && IsDigits(out.run)
  {
    ConsumeGathers(Start, lines);
  }

  /** The serial numbers set by `lines`, in order. */
  function SerialsIn(lines: seq<string>): seq<string>
    decreases |lines|
  {
    if lines == [] then [] else SerialOf(lines[0]) + SerialsIn(lines[1..])
  }

  /** The run numbers set by `lines`, in order. */
  function RunsIn(lines: seq<string>): seq<string>
    decreases |lines|
  {
    if lines == [] then [] else RunOf(lines[0]) + RunsIn(lines[1..])
  }

  /** The records added by `lines`, in order. */
  function RecordsIn(lines: seq<string>): seq<Record>
    decreases |lines|
  {
    if lines == [] then [] else RecordOf(lines[0]) + RecordsIn(lines[1..])
  }

  lemma LastOrAppend(prev: Option<string>, xs: seq<string>, ys: seq<string>)
    ensures LastOr(LastOr(prev, xs), ys) == LastOr(prev, xs + ys)
  {
    if ys != [] {
      assert (xs + ys)[|xs + ys| - 1] == ys[|ys| - 1];
    } else {
      assert xs + ys == xs;
    }
  }

  /** No `DE` among `lines`. */
  predicate NoEnd(lines: seq<string>) {
    forall k :: 0 <= k < |lines| ==> !StartsWith(lines[k], "DE")
  }

  /** One read, then the rest. */
  lemma ConsumeFirst(st: State, lines: seq<string>)
    requires !st.ended && lines != [] && Consume(st, lines).Success?
    ensures Step(st, lines[0]).Success?
    ensures Consume(Step(st, lines[0]).value, lines[1..]) == Consume(st, lines)
  {
  }

  lemma {:induction false} SerialsKept(st: State, lines: seq<string>)
    requires !st.ended && Consume(st, lines).Success? && NoEnd(lines)
    ensures var last := Consume(st, lines).value;
            !last.ended && last.serial == LastOr(st.serial, SerialsIn(lines))
    decreases |lines|
  {
    if lines != [] {
      ConsumeFirst(st, lines);
      StepEffect(st, lines[0]);
      SerialsKept(Step(st, lines[0]).value, lines[1..]);
      LastOrAppend(st.serial, SerialOf(lines[0]), SerialsIn(lines[1..]));
    }
  }

  lemma {:induction false} RunsKept(st: State, lines: seq<string>)
    requires !st.ended && Consume(st, lines).Success? && NoEnd(lines)
    ensures Consume(st, lines).value.run == LastOr(st.run, RunsIn(lines))
    decreases |lines|
  {
    if lines != [] {
      ConsumeFirst(st, lines);
      StepEffect(st, lines[0]);
      RunsKept(Step(st, lines[0]).value, lines[1..]);
      LastOrAppend(st.run, RunOf(lines[0]), RunsIn(lines[1..]));
    }
  }

  lemma {:induction false} RecordsKept(st: State, lines: seq<string>)
    requires !st.ended && Consume(st, lines).Success? && NoEnd(lines)
    ensures Consume(st, lines).value.data == st.data + RecordsIn(lines)
    decreases |lines|
  {
    if lines != [] {
      ConsumeFirst(st, lines);
      StepEffect(st, lines[0]);
      RecordsKept(Step(st, lines[0]).value, lines[1..]);
      AppendAssoc(st.data, RecordOf(lines[0]), RecordsIn(lines[1..]));
    }
  }


  /** Before `DE`, the loop keeps the serial number of the last `ID` line and
      the run number of the last `DS` line (lines 90-96), and appends the
      record of every matching timing line in order (line 123). */
  lemma Characterised(st: State, lines: seq<string>)
    requires !st.ended && Consume(st, lines).Success? && NoEnd(lines)
    ensures var last := Consume(st, lines).value;
            !last.ended &&
            last.serial == LastOr(st.serial, SerialsIn(lines)) &&
            last.run == LastOr(st.run, RunsIn(lines)) &&
            last.data == st.data + RecordsIn(lines)
  {
    SerialsKept(st, lines);
    RunsKept(st, lines);
    RecordsKept(st, lines);
  }

  /** Reads that change nothing (lines 88, 101 and 109): an empty read, a line
      with none of the prefixes `ID`, `DS`, `A` and `DE`, and a line starting
      with `A` that the timing pattern does not match. */
  lemma IgnoredLines(st: State, line: string)
    requires line == "" ||
             (!StartsWith(line, "ID") && !StartsWith(line, "DS") && !StartsWith(line, "A") &&
              !StartsWith(line, "DE")) ||
             (StartsWith(line, "A") && Find(TimingPattern, line).None?)
    ensures Step(st, line) == Success(st)
  {
    StartsNotBoth(line);
  }

  /** Without a `DE` line the download never completes. */
  lemma NoEndNoDownload(lines: seq<string>)
    requires NoEnd(lines)
    ensures Download(lines).Failure?
  {
    if Consume(Start, lines).Success? {
      SerialsKept(Start, lines);
    }
  }

  /** A completed download, read up to its first `DE` line `d`: the records of
      the timing lines before `d` in their order, then the summary record of the
      serial number of the last `ID` line and the run number of the last `DS`
      line before `d` (lines 83-136). */
  lemma DownloadCharacterised(a: seq<string>, d: string, b: seq<string>)
    requires NoEnd(a) && StartsWith(d, "DE") && Download(a + [d] + b).Success?
    ensures var out := Download(a + [d] + b).value;
            Some(out.serial) == LastOr(None, SerialsIn(a)) &&
            Some(out.run) == LastOr(None, RunsIn(a)) &&
            out.data == RecordsIn(a) + [InfoRecord(out.serial, out.run)]
  {
    ReadsToEnd(a, d, b);
    Characterised(Start, a);
    assert Start.data + RecordsIn(a) == RecordsIn(a);
  }

  /** How a download up to its first `DE` ends: with the failure of a read
      before it, else with the `NameError` of lines 133-134 when no `ID` line
      (then no `DS` line) set a number, and otherwise successfully. */
  lemma DownloadOutcome(a: seq<string>, d: string, b: seq<string>)
    requires NoEnd(a) && StartsWith(d, "DE")
    ensures Consume(Start, a).Failure? ==> Download(a + [d] + b) == Failure(Consume(Start, a).error)
    ensures Consume(Start, a).Success? ==>
              (Download(a + [d] + b) == Failure(SerialUnbound) <==> SerialsIn(a) == [])
    ensures Consume(Start, a).Success? ==>
              (Download(a + [d] + b) == Failure(RunUnbound) <==> SerialsIn(a) != [] && RunsIn(a) == [])
    ensures Consume(Start, a).Success? ==>
              (Download(a + [d] + b).Success? <==> SerialsIn(a) != [] && RunsIn(a) != [])
  {
    ReadsToEnd(a, d, b);
    if Consume(Start, a).Success? {
      Characterised(Start, a);
      var mid := Consume(Start, a).value;
      NumbersAtEnd(a + [d] + b, mid.(ended := true));
    }
  }

  /** The reads up to the first `DE`: their failure, or their state with the
      end flag set. */
  lemma ReadsToEnd(a: seq<string>, d: string, b: seq<string>)
    requires NoEnd(a) && StartsWith(d, "DE")
    ensures Consume(Start, a).Failure? ==> Consume(Start, a + [d] + b) == Failure(Consume(Start, a).error)
    ensures Consume(Start, a).Success? ==>
              Consume(Start, a + [d] + b) == Success(Consume(Start, a).value.(ended := true))
  {
    assert a + [d] + b == a + ([d] + b);
    ConsumeAppend(Start, a, [d] + b);
    if Consume(Start, a).Success? {
      var mid := Consume(Start, a).value;
      SerialsKept(Start, a);
      assert d == "DE" + d[2..];
      EndLineStep(mid, d[2..]);
      ConsumeStep(mid, d, b, mid.(ended := true));
    }
  }

  /** A download whose reads end in `st` fails for an unset serial, then for
      an unset run, and succeeds when both are set. */
  lemma NumbersAtEnd(lines: seq<string>, st: State)
    requires Consume(Start, lines) == Success(st) && st.ended
    ensures Download(lines) == Failure(SerialUnbound) <==> st.serial.None?
    ensures Download(lines) == Failure(RunUnbound) <==> st.serial.Some? && st.run.None?
    ensures Download(lines).Success? <==> st.serial.Some? && st.run.Some?
  {
  }

  /** A line that starts with the two characters `c`. */
  lemma LineHead(c: string, ps: seq<string>)
    requires |c| == 2
    ensures var line := Join([c] + ps);
            StartsWith(line, c) && StartsWith(line, [c[0]]) && line[0] == c[0] && line[1] == c[1]
  {
    var line := Join([c] + ps);
    assert ([c] + ps)[1..] == ps;
    assert line == c + Join(ps);
    assert line[..2] == c;
    assert line[..1] == [c[0]];
  }

  /** An `ID` line sets the serial number it carries and nothing else. */
  lemma SerialLineStep(st: State, serial: string, w: string, rest: string)
    requires IsDigits(serial) && AllIn(Space, w)
    ensures Step(st, SerialLine(serial, w, rest)) == Success(st.(serial := Some(serial)))
  {
    var line := SerialLine(serial, w, rest);
    LineHead("ID", [w, serial, "\t", rest]);
    assert ["ID"] + [w, serial, "\t", rest] == ["ID", w, serial, "\t", rest];
    SerialLineRead(serial, w, rest);
    StartsNotBoth(line);
  }

  /** A `DS` line sets the run number it carries and nothing else. */
  lemma RunLineStep(st: State, run: string, w: string, rest: string)
    requires IsDigits(run) && AllIn(Space, w) && (rest == "" || !IsDigit(rest[0]))
    ensures Step(st, RunLine(run, w, rest)) == Success(st.(run := Some(run)))
  {
    var line := RunLine(run, w, rest);
    LineHead("DS", [w, run, rest]);
    assert ["DS"] + [w, run, rest] == ["DS", w, run, rest];
    RunLineRead(run, w, rest);
    StartsNotBoth(line);
  }

  /** A timing line adds the record of its fields, or fails when its date is
      out of range. */
  lemma TimingLineStep(st: State, f: TimingFields, gaps: seq<string>, trailer: string)
    requires IsTimingFields(f) && AreGaps(gaps)
    ensures Step(st, TimingLine(f, gaps, trailer)) ==
            match BuildRecord(f)
            case None => Failure(DateOutOfRange)
            case Some(r) => Success(st.(data := st.data + [r]))
  {
    var ps := TimingPieces(f, gaps, trailer);
    var line := TimingLine(f, gaps, trailer);
    LineHead(f.code, ps[1..]);
    assert [f.code] + ps[1..] == ps;
    TimingLineFound(f, gaps, trailer);
    FieldsOfGroups(f);
    StartsNotBoth(line);
    assert !StartsWith(line, "ID") && !StartsWith(line, "DS");
  }

  /** A `DE` line ends the download and changes nothing else. */
  lemma EndLineStep(st: State, rest: string)
    ensures Step(st, "DE" + rest) == Success(st.(ended := true))
  {
    var line := "DE" + rest;
    assert line[..2] == "DE";
    assert line[0] == 'D' && line[1] == 'E';
    StartsNotBoth(line);
    assert !StartsWith(line, "ID") && !StartsWith(line, "DS");
  }

  /** A read that succeeds, then the rest. */
  lemma ConsumeStep(st: State, line: string, rest: seq<string>, next: State)
    requires !st.ended && Step(st, line) == Success(next)
    ensures Consume(st, [line] + rest) == Consume(next, rest)
  {
    assert ([line] + rest)[1..] == rest;
  }

  /** A download of one time: an `ID` line, a `DS` line, a timing line and a
      `DE` line; whatever follows `DE` is never looked at. */
  lemma OneTime(serial: string, run: string, f: TimingFields, gaps: seq<string>, trailer: string,
                rest: string, after: seq<string>)
    requires IsDigits(serial) && IsDigits(run) && IsTimingFields(f) && AreGaps(gaps)
    requires BuildRecord(f).Some?
    ensures Download([SerialLine(serial, " ", "\r\n")] + ([RunLine(run, " ", "\r\n")] +
                     ([TimingLine(f, gaps, trailer)] + (["DE" + rest] + after)))) ==
            Success(Outcome([BuildRecord(f).value, InfoRecord(serial, run)], serial, run))
  {
    var r := BuildRecord(f).value;
    var s1 := Start.(serial := Some(serial));
    var s2 := s1.(run := Some(run));
    var s3 := s2.(data := [r]);
    assert AllIn(Space, " ");
    SerialLineStep(Start, serial, " ", "\r\n");
    ConsumeStep(Start, SerialLine(serial, " ", "\r\n"),
                [RunLine(run, " ", "\r\n")] + ([TimingLine(f, gaps, trailer)] + (["DE" + rest] + after)), s1);
    RunLineStep(s1, run, " ", "\r\n");
    ConsumeStep(s1, RunLine(run, " ", "\r\n"), [TimingLine(f, gaps, trailer)] + (["DE" + rest] + after), s2);
    TimingLineStep(s2, f, gaps, trailer);
    assert s2.data + [r] == [r];
    ConsumeStep(s2, TimingLine(f, gaps, trailer), ["DE" + rest] + after, s3);
    EndLineStep(s3, rest);
    var s4 := s3.(ended := true);
    ConsumeStep(s3, "DE" + rest, after, s4);
    assert Consume(s4, after) == Success(s4);
    var lines := [SerialLine(serial, " ", "\r\n")] + ([RunLine(run, " ", "\r\n")] +
                 ([TimingLine(f, gaps, trailer)] + (["DE" + rest] + after)));
    assert Consume(Start, lines) == Success(s4);
    DownloadOf(lines, s4);
    assert s4.data + [InfoRecord(serial, run)] == [r, InfoRecord(serial, run)];
  }

  /** The outcome of a loop that ended in `st`. */
  lemma DownloadOf(lines: seq<string>, st: State)
    requires Consume(Start, lines) == Success(st) && st.ended && st.serial.Some? && st.run.Some?
    ensures Download(lines) ==
            Success(Outcome(st.data + [InfoRecord(st.serial.value, st.run.value)], st.serial.value, st.run.value))
  {
  }
}
