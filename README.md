# TAG Heuer Minitimer download parser

`tagDownload.py` reads a download from a TAG Heuer Minitimer over a serial
line. It recognises four kinds of line:

- an `ID` line sets the device serial number;
- a `DS` line sets the run number;
- a line starting with `A` carries one time. It becomes a record with a
  line-type label, the nine fields of the line, a `Date` (2000-01-01 plus the
  day count) and a `Time` string;
- a `DE` line ends the download. A summary record naming the serial and run
  numbers is then appended.

The records are written to a CSV file named after the serial number, the run
number and the date of the first record.

The project is a Dafny model of that parser. It has these modules:

- `Text`: character classes, digit strings and Python's `int` of a digit
  string.
- `Calendar`: proleptic Gregorian dates, the day counter from 2000-01-01
  (`THStartDate`), and `str(date)`.
- `Patterns`: the three regular expressions as hand-written matchers that
  resolve Python's backtracking, and `re.search` as a leftmost scan.
- `Layout`: lines built from their fields, and what the matchers read back
  from them.
- `Matched`: the converse. Every line a matcher accepts is a line of its
  pattern's shape, with the captured groups in their places.
- `Records`: the `THLineType` table, the timing record and the summary record.
- `Session`: the `processData` loop. `Download` is the outcome as a function
  of the reads. `ProcessData` is the imperative loop, proved to compute the
  same outcome.
- `Output`: the file name `writeTAGCSV` builds.
- `Wrappers`: `Option` and `Result`.

The serial port is a sequence of strings, one per `readline`, already decoded.
An empty string is a read that timed out.

Every way `processData` ends without a result is a `Session.Failure`:

- `.group(1)` on a failed `ID` or `DS` search;
- a day count past 9999-12-31: the date addition overflows (`OverflowError`; `int` raises `ValueError` first for a day count of absurd length);
- `devSerial` or `runNumber` never assigned (`NameError`);
- the reads running out before `DE`.

Last-seen-wins, input order and "nothing after `DE` is read" are proved with
lemmas about `Download`.

## Model

| member | source | states |
|---|---|---|
| Patterns.MatchSerial | tagDownload.py:91 | a match of `ID\s*(\d+)\t.*` captures exactly one group, a non-empty digit string; Matched.MatchedSerialLine and Layout.SerialLineRead show it matches exactly the lines of that shape |
| Patterns.MatchRun | tagDownload.py:96 | a match of `DS\s*(\d+)\s*.*` captures exactly one group, a non-empty digit string; Matched.MatchedRunLine and Layout.RunLineRead show it matches exactly the lines of that shape |
| Patterns.MatchTiming | tagDownload.py:108 | a match of the timing pattern starts with `A` and has room for the two-character code; its groups are stated by Patterns.MatchTimingShape, and the lines it matches by Matched.MatchedTimingLine and Layout.TimingLineRead |
| Matched.MatchedSerialLine | tagDownload.py:91 | whatever the serial pattern matches at `i` is, from `i` on, `ID`, a whitespace run, the captured serial number, a tab and any text |
| Matched.MatchedRunLine | tagDownload.py:96 | whatever the run pattern matches at `i` is, from `i` on, `DS`, a whitespace run, the captured run number and text that is empty or does not start with a digit |
| Matched.MatchedTimingLine | tagDownload.py:108 | whatever the timing pattern matches at `p` is, from `p` on, the nine captured fields with non-empty whitespace runs between them, `:`, `:` and `.` inside the clock, and any text after the run that follows the days |
| Patterns.MatchTimingShape | tagDownload.py:108 | every match of the timing pattern has nine groups: the code is `A` plus a character other than a newline, and equals the two characters where the match starts; the candidate is 0 to 4 digits; the channel is an optional word character followed by digits; sequence, hours, minutes, seconds, decimal and days are non-empty digit strings |
| Patterns.Search | tagDownload.py:91-108 | the reported start matches with the reported groups, and no earlier position from `from` matches; None only when no position up to the end of the line matches |
| Patterns.Find | tagDownload.py:91-108 | `re.search`: the leftmost match position in the whole line and its groups, or None when the pattern matches nowhere |
| Layout.TimingLineRead | tagDownload.py:108 | a line written as the nine fields with any non-empty whitespace runs between them and any text after the last run is matched at position 0 and gives back exactly those fields |
| Layout.TimingLineFound | tagDownload.py:108 | `re.search` finds such a line at position 0, with the nine fields as groups 1 to 9 |
| Layout.NoDecimalRejected | tagDownload.py:108 | a timing line whose clock lacks the `.decimal` part does not match at its start |
| Layout.NoDecimalNotFound | tagDownload.py:108 | such a line with no other `A` in it is not found anywhere by `re.search` |
| Layout.SerialLineRead | tagDownload.py:91 | `ID`, optional whitespace, a serial number, a tab and anything: `re.search` finds it at 0 with the serial number as group 1 |
| Layout.RunLineRead | tagDownload.py:96 | `DS`, optional whitespace, a run number and text not continuing the number: found at 0 with the run number as group 1 |
| Calendar.DaysAfterEpoch | tagDownload.py:120 | `THStartDate + timedelta(days=n)` exists exactly when n is at most 2921939 (up to 9999-12-31), and then lies n days after 2000-01-01 |
| Calendar.DayZeroIsEpoch | tagDownload.py:31 | day 0 is `Epoch`, the date 2000-01-01 of `THStartDate` |
| Calendar.MoreDaysLater | tagDownload.py:120 | a larger day count gives a strictly later date |
| Calendar.EveryDateReached | tagDownload.py:120 | every date from 2000-01-01 to 9999-12-31 is reached by exactly its own day count |
| Calendar.SampleDayCount | tagDownload.py:107 | the day count 7749 of the sample line is 2021-03-20 |
| Calendar.IsoFormat | tagDownload.py:151 | `str(date)` is `YYYY-MM-DD`: ten characters, dashes at 4 and 7, and digit groups whose values are the year, month and day |
| Records.LineTypeOf | tagDownload.py:111 | a code in the `THLineType` table (`LineTypes`) gets its table entry; it is labelled "N/A" exactly when the table does not contain it |
| Records.TimingLabels | tagDownload.py:32-41 | of the codes a timing line can carry, exactly `AN`, `A-`, `A*`, `A+`, `A=` and `AC` are in the table; every other one is labelled "N/A" |
| Records.ClockText | tagDownload.py:122 | the `Time` string is the four numbers' lengths plus three characters long, with `:` after the hours, `:` after the minutes and `.` after the seconds |
| Records.ClockRoundTrip | tagDownload.py:122 | the `Time` string splits back into exactly the hours, minutes, seconds and decimal it was built from |
| Records.SplitClockSound | tagDownload.py:122 | whatever splits into four numbers is the `Time` string of those four numbers |
| Records.BuildRecord | tagDownload.py:110-122 | a record exists exactly when the day count is in Python's date range; then it is a timing record whose date lies `int(Days)` days after 2000-01-01, whose label is one of the timing descriptions or "N/A", whose columns have the shapes the pattern's groups capture and whose `Time` joins the clock columns (`IsTimingRecord`) |
| Records.RecordColumns | tagDownload.py:110-122 | the record's label is the table value of the code (or "N/A"), it keeps the captured groups unchanged, and its `Time` splits back into its hours, minutes, seconds and decimal |
| Records.LaterDays | tagDownload.py:120 | of two records, the one with the larger day count has the later date |
| Records.SampleRecord | tagDownload.py:107-122 | the sample line's fields give an "Original Time" record dated 2021-03-20 with `Time` 19:20:15.83400 |
| Records.InfoRecord | tagDownload.py:131-135 | the summary record has line type "Download INFO" |
| Records.InfoReadBack | tagDownload.py:133-134 | the summary record's candidate is "Device Serial: " followed by the serial number, and its sequence is "Device Run Number: " followed by the run number |
| Session.SerialStep | tagDownload.py:90-91 | a line not starting with `ID` passes through; an `ID` line fails only with `SerialNotMatched`, and otherwise sets the serial number to a digit string and changes nothing else |
| Session.RunStep | tagDownload.py:94-96 | the same for `DS` lines and the run number, failing only with `RunNotMatched` |
| Session.TimingStep | tagDownload.py:101-123 | a line not starting with `A` passes through; otherwise it fails only with `DateOutOfRange` on a line the pattern finds, and on success appends nothing or one timing record with the shapes of `IsTimingRecord` (only when the pattern finds the line) and changes nothing else |
| Session.EndStep | tagDownload.py:124-125 | the loop has ended exactly when it had before or the line starts with `DE`; nothing else changes |
| Session.Step | tagDownload.py:88-125 | an empty read changes nothing; only `ID`, `DS` and `A` lines can fail; a read keeps the records gathered, adds at most one, and ends the loop exactly on `DE` |
| Session.Consume | tagDownload.py:83-125 | once ended, nothing changes; records are only appended, at most one per read; the loop ends only by reading something |
| Session.Download | tagDownload.py:131-136 | no reads give `EndNeverSeen`; a completed download ends with the summary record of the returned serial and run numbers and has at most one record per read before it; which failure a download up to its first `DE` returns, and when it succeeds, is `Session.DownloadOutcome` |
| Session.ProcessData | tagDownload.py:70-136 | the imperative loop over the reads returns exactly `Download(lines)`: the same records, serial and run numbers, or the same failure |
| Session.ConsumeAppend | tagDownload.py:83-125 | reading `a` then `b` is reading `a` and continuing from where it left off |
| Session.AfterEnd | tagDownload.py:124-125 | once a `DE` line has been read, nothing read after it changes the outcome |
| Session.TimeoutIgnored | tagDownload.py:88 | removing an empty read from anywhere leaves the outcome unchanged |
| Session.IgnoredLines | tagDownload.py:101-109 | an empty read, a line with no recognised prefix, or an `A` line the pattern does not match leaves the state unchanged |
| Session.EmptyDownloads | tagDownload.py:131-133 | timeouts alone never complete a download; `DE` alone fails because `devSerial` is unbound |
| Session.StepEffect | tagDownload.py:88-125 | one successful read keeps the last serial number and run number it carries, appends the record it carries, and ends the loop exactly when it starts with `DE` |
| Session.StepFailure | tagDownload.py:90-120 | one read fails exactly for an `ID` or `DS` line its pattern does not find, or a matching timing line whose date is out of range |
| Session.Characterised | tagDownload.py:83-125 | over reads without `DE`, the loop holds the last serial number and last run number read, and every record of the matching timing lines in input order |
| Session.NoEndNoDownload | tagDownload.py:83-125 | reads with no `DE` line never complete a download |
| Session.DownloadOutcome | tagDownload.py:83-136 | a download whose first `DE` follows the reads `a` fails with the failure of a read in `a` when one fails; otherwise it fails with `SerialUnbound` exactly when no `ID` line in `a` set a serial, with `RunUnbound` exactly when one did but no `DS` line set a run, and succeeds exactly when both were set |
| Session.DownloadCharacterised | tagDownload.py:83-136 | a download completed at its first `DE` returns the serial number of the last `ID` line and the run number of the last `DS` line before it, and the records of the matching timing lines before it in input order, followed by exactly one summary record of those numbers |
| Session.DownloadShape | tagDownload.py:131-136 | a completed download ends with the summary record of the returned serial and run numbers, every earlier record is a timing record whose columns have the shapes of the pattern's groups, whose `Time` joins its clock columns and whose date is its day count (`IsTimingRecord`), and both numbers are digit strings |
| Session.SerialLineStep | tagDownload.py:90-91 | an `ID` line sets the serial number it carries and changes nothing else |
| Session.RunLineStep | tagDownload.py:94-96 | a `DS` line sets the run number it carries and changes nothing else |
| Session.TimingLineStep | tagDownload.py:101-123 | a timing line appends the record of its fields, or fails when its date is out of range |
| Session.EndLineStep | tagDownload.py:124-125 | a `DE` line ends the loop and changes nothing else |
| Session.OneTime | tagDownload.py:70-136 | `ID`, `DS`, one timing line and `DE`, followed by anything, give that time's record, then the summary record, with the serial and run numbers |
| Output.FileName | tagDownload.py:146-152 | a name exists exactly when there is a first record (`data[0]`); it starts with `TAGPY_` and ends with `.csv` |
| Output.FileNameRoundTrip | tagDownload.py:146-152 | the name gives back the serial number, the run number and the first record's date text it was built from, each of them possibly empty |
| Output.FileNameInjective | tagDownload.py:146-152 | different serial numbers, run numbers or first dates give different names |
| Output.DownloadFileName | tagDownload.py:146-152 | a completed download's name is `TAGPY_<serial>_RUN_<run>_<date>.csv`; the date text is empty exactly when the download has no times |

## Left out

- The serial port is not modelled: `listPorts`, `setupSerial`, `readline`, `close` and UTF-8 decoding. The reads are given as a sequence of decoded strings, and a timed-out read is the empty string.
- Session.Download: when the reads run out before a `DE` line, the source would keep waiting for the device. The model reports `EndNeverSeen` instead.
- Session.Download: Python's `NameError` for an unassigned `devSerial` or `runNumber` is modelled as `SerialUnbound` or `RunUnbound`. The `AttributeError` of `.group(1)` on a failed search is modelled as `SerialNotMatched` or `RunNotMatched`. None of these carries the exception's message.
- Text.IsDigit: `\d` is restricted to ASCII digits, because the Unicode digit tables are not part of this model. The device emits ASCII.
- Text.IsWord: `\w` is restricted to ASCII letters, digits and `_`, for the same reason. `\s` follows Python's full Unicode whitespace set.
- Console output (`print`, `flush`), `docopt` argument handling and the `__main__` block are not modelled.
- Opening the CSV file and the `csv.DictWriter` header and rows (lines 153-157) are not modelled. Only the file name is.
- Records.Record: a record is a datatype with one field per dictionary key. The key order that becomes the CSV column order is not modelled.
- Records.LineTypes: the `A*` label is "Time With A new Identification", as the code has it.
- Patterns.MatchTiming: the matcher does not try the `\s{0,4}` alternative of the candidate group. The comment on `MatchTiming` argues that this alternative can never give the first successful match, so the candidate is always 0 to 4 digits. That argument is not proved.
