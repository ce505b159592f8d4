/**
 * The three regular expressions of the downloader (tagDownload.py lines 91, 96
 * and 108) as hand-written matchers, and `re.search` over them.
 *
 * A matcher reads a pattern at a position of the line and returns its capture
 * groups. Python's `re` backtracks and reports the first success in priority
 * order (greedy repetitions try the longest run first, alternatives are tried
 * left to right). Each matcher below fixes that first success directly; the
 * comment on each one says why the other choices cannot win. The patterns have
 * no anchors, and `re.search` reports the leftmost position at which the
 * pattern matches.
 */
module Patterns {
  import opened Wrappers
  import opened Text

  /** The bounds of a captured group: the text `s[start..end]`. */
  datatype Group = Group(start: nat, end: nat)

  predicate Within(s: string, g: Group) {
    g.start <= g.end <= |s|
  }

  /** The text a group captured. */
  function Captured(s: string, g: Group): string
    requires Within(s, g)
  {
    s[g.start..g.end]
  }

  /** `g` holds a non-empty run of digits: what `(\d+)` captures. */
  predicate DigitsAt(s: string, g: Group) {
    g.start < g.end <= |s| && AllInRange(Digit, s, g.start, g.end)
  }

  /** `g` holds what `(\w{0,1}\d+)` captures: at most one word character, then digits. */
  predicate ChannelAt(s: string, g: Group) {
    g.start < g.end <= |s| &&
    (AllInRange(Digit, s, g.start, g.end) ||
     (g.start + 2 <= g.end && IsWord(s[g.start]) && AllInRange(Digit, s, g.start + 1, g.end)))
  }

  /** `\s+`, greedy: the position after the whole whitespace run at `i`. */
  function Spaces1(s: string, i: nat): (r: Option<nat>)
    requires i <= |s|
    ensures r.Some? <==> i < |s| && IsSpace(s[i])
    ensures r.Some? ==> i < r.value <= |s|
  {
    var e := RunEnd(Space, s, i);
    if e == i then None else Some(e)
  }

  /** `(\d+)`, greedy: the whole digit run at `i`. */
  function Digits1(s: string, i: nat): (r: Option<Group>)
    requires i <= |s|
    ensures r.Some? <==> i < |s| && IsDigit(s[i])
    ensures r.Some? ==> r.value.start == i && DigitsAt(s, r.value)
  {
    var e := RunEnd(Digit, s, i);
    if e == i then None else Some(Group(i, e))
  }

  /** One literal character at `i`. */
  function Char(c: char, s: string, i: nat): (r: Option<nat>)
    requires i <= |s|
    ensures r.Some? <==> i < |s| && s[i] == c
    ensures r.Some? ==> r.value == i + 1 <= |s|
  {
    if i < |s| && s[i] == c then Some(i + 1) else None
  }

  /** `(\w{0,1}\d+)`. The greedy choice takes a leading word character when digits
      follow it; otherwise the digits start at once. When the first character is a
      digit both choices end at the same place, so a later failure cannot be
      repaired by the other one. */
  function Channel(s: string, i: nat): (r: Option<Group>)
    requires i <= |s|
    ensures r.Some? ==> r.value.start == i && ChannelAt(s, r.value)
  {
    var w := if i < |s| && IsWord(s[i]) && RunEnd(Digit, s, i + 1) > i + 1 then 1 else 0;
    var e := RunEnd(Digit, s, i + w);
    if e == i + w then None else Some(Group(i, e))
  }

  /** `ID\s*(\d+)\t.*` (line 91) at position `i`. The whitespace run and the digit
      run are each followed by a character outside their class, so the greedy runs
      are the only choice. */
  function MatchSerial(s: string, i: nat): (r: Option<seq<string>>)
    requires i <= |s|
    ensures r.Some? ==> |r.value| == 1 && IsDigits(r.value[0])
  {
    if !(i + 2 <= |s| && s[i] == 'I' && s[i + 1] == 'D') then None
    else
      var serial :- Digits1(s, RunEnd(Space, s, i + 2));
      var tab :- Char('\t', s, serial.end);
      RangeSlice(Digit, s, serial.start, serial.end);
      Some([Captured(s, serial)])
  }

  /** `DS\s*(\d+)\s*.*` (line 96) at position `i`; the trailing `\s*.*` accepts
      anything, so the digit run is taken whole. */
  function MatchRun(s: string, i: nat): (r: Option<seq<string>>)
    requires i <= |s|
    ensures r.Some? ==> |r.value| == 1 && IsDigits(r.value[0])
  {
    if !(i + 2 <= |s| && s[i] == 'D' && s[i + 1] == 'S') then None
    else
      var run :- Digits1(s, RunEnd(Space, s, i + 2));
      RangeSlice(Digit, s, run.start, run.end);
      Some([Captured(s, run)])
  }

  /** Hours, minutes, seconds and decimal. */
  datatype ClockGroups = ClockGroups(hours: Group, minutes: Group, seconds: Group, decimal: Group)

  /** Groups 3 to 9 of the timing pattern. */
  datatype TailGroups = TailGroups(sequence: Group, channel: Group, clock: ClockGroups, days: Group)

  predicate TailAt(s: string, t: TailGroups) {
    DigitsAt(s, t.sequence) && ChannelAt(s, t.channel) &&
    DigitsAt(s, t.clock.hours) && DigitsAt(s, t.clock.minutes) &&
    DigitsAt(s, t.clock.seconds) && DigitsAt(s, t.clock.decimal) && DigitsAt(s, t.days)
  }

  /** What comes before a group of the tail: `\s+` or a literal character. */
  datatype Sep = Gap | Mark(c: char)

  /** What a group of the tail captures: `(\d+)` or `(\w{0,1}\d+)`. */
  datatype Kind = Number | ChannelCode

  /** A separator and the group after it. */
  datatype Field = Field(sep: Sep, kind: Kind)

  function Separator(sep: Sep, s: string, i: nat): (r: Option<nat>)
    requires i <= |s|
    ensures r.Some? ==> i < r.value <= |s|
  {
    match sep
    case Gap => Spaces1(s, i)
    case Mark(c) => Char(c, s, i)
  }

  /** What a group of kind `kind` holds. */
  predicate Fits(kind: Kind, s: string, g: Group) {
    match kind
    case Number => DigitsAt(s, g)
    case ChannelCode => ChannelAt(s, g)
  }

  function Value(kind: Kind, s: string, i: nat): (r: Option<Group>)
    requires i <= |s|
    ensures r.Some? ==> r.value.start == i && Fits(kind, s, r.value)
  {
    match kind
    case Number => Digits1(s, i)
    case ChannelCode => Channel(s, i)
  }

  /** Fields `fs` read one after the other from `i`: one group per field. Every
      run is followed by a character that the next step cannot take into it
      (digits after whitespace, whitespace, `:` or `.` after digits), so a
      shorter run never lets the rest match: the greedy run is the only choice. */
  function ReadFields(fs: seq<Field>, s: string, i: nat): (r: Option<seq<Group>>)
    requires i <= |s|
    ensures r.Some? ==> |r.value| == |fs|
    ensures r.Some? && fs != [] ==> r.value[|fs| - 1].end <= |s|
    decreases |fs|
  {
    if fs == [] then Some([])
    else
      var j :- Separator(fs[0].sep, s, i);
      var g :- Value(fs[0].kind, s, j);
      var rest :- ReadFields(fs[1..], s, g.end);
      Some([g] + rest)
  }

  /** Each group read holds what its field's kind captures. */
  lemma {:induction false} ReadFieldsFit(fs: seq<Field>, s: string, i: nat, k: nat)
    requires i <= |s| && ReadFields(fs, s, i).Some? && k < |fs|
    ensures Fits(fs[k].kind, s, ReadFields(fs, s, i).value[k])
    decreases |fs|
  {
    var j := Separator(fs[0].sep, s, i).value;
    var g := Value(fs[0].kind, s, j).value;
    if k > 0 {
      ReadFieldsFit(fs[1..], s, g.end, k - 1);
    }
  }

  /** `\s+(\d+)\s+(\w{0,1}\d+)\s+(\d+):(\d+):(\d+)\.(\d+)\s+(\d+)`: sequence, channel,
      hours, minutes, seconds, decimal and days. */
  const TailFields: seq<Field> :=
    [Field(Gap, Number), Field(Gap, ChannelCode), Field(Gap, Number), Field(Mark(':'), Number),
     Field(Mark(':'), Number), Field(Mark('.'), Number), Field(Gap, Number)]

  /** Groups 3 to 9 of the timing pattern read from `i`, then the `\s+` after the
      days; the final `.*` accepts anything. The outcome does not depend on where
      inside the first whitespace run the reading begins. */
  function Tail(s: string, i: nat): (r: Option<TailGroups>)
    requires i <= |s|
    ensures r.Some? ==> TailAt(s, r.value)
  {
    var g :- ReadFields(TailFields, s, i);
    ReadFieldsFit(TailFields, s, i, 6);
    var after :- Spaces1(s, g[6].end);
    ReadFieldsFit(TailFields, s, i, 0);
    ReadFieldsFit(TailFields, s, i, 1);
    ReadFieldsFit(TailFields, s, i, 2);
    ReadFieldsFit(TailFields, s, i, 3);
    ReadFieldsFit(TailFields, s, i, 4);
    ReadFieldsFit(TailFields, s, i, 5);
    Some(TailGroups(g[0], g[1], ClockGroups(g[2], g[3], g[4], g[5]), g[6]))
  }

  /** What `(A.)` captures: `A` and any character but a newline. */
  predicate IsTimingCode(c: string) {
    |c| == 2 && c[0] == 'A' && c[1] != '\n'
  }

  /** What `(\w{0,1}\d+)` captures, as a string. */
  predicate IsChannel(c: string) {
    IsDigits(c) || (|c| >= 2 && IsWord(c[0]) && IsDigits(c[1..]))
  }

  /** The nine groups of a timing line, by name. */
  datatype TimingFields = TimingFields(code: string, candidate: string, sequence: string,
                                       channel: string, hours: string, minutes: string,
                                       seconds: string, decimal: string, days: string)

  /** The fields as `re` numbers them: groups 1 to 9. */
  function Groups(f: TimingFields): (g: seq<string>)
    ensures |g| == 9
  {
    [f.code, f.candidate, f.sequence, f.channel, f.hours, f.minutes, f.seconds, f.decimal, f.days]
  }

  /** What each group of the timing pattern can capture: type code, candidate
      (0 to 4 digits), sequence, channel, hours, minutes, seconds, decimal, days. */
  predicate IsTimingFields(f: TimingFields) {
    IsTimingCode(f.code) && |f.candidate| <= 4 && AllIn(Digit, f.candidate) &&
    IsDigits(f.sequence) && IsChannel(f.channel) &&
    IsDigits(f.hours) && IsDigits(f.minutes) && IsDigits(f.seconds) && IsDigits(f.decimal) &&
    IsDigits(f.days)
  }

  /** The fields behind nine groups. */
  function FieldsOf(g: seq<string>): TimingFields
    requires |g| == 9
  {
    TimingFields(g[0], g[1], g[2], g[3], g[4], g[5], g[6], g[7], g[8])
  }

  /** Nine groups that `IsTimingFields` describes. */
  predicate IsTimingGroups(g: seq<string>) {
    |g| == 9 && IsTimingFields(FieldsOf(g))
  }

  /** Naming the groups and numbering the fields are inverse. */
  lemma FieldsOfGroups(f: TimingFields)
    ensures FieldsOf(Groups(f)) == f
  {
  }

  /** The texts of the code at `p`, the candidate group and the tail groups. */
  function Fields(s: string, p: nat, candidate: Group, t: TailGroups): TimingFields
    requires p + 2 <= |s| && Within(s, candidate) && TailAt(s, t)
  {
    TimingFields(s[p..p + 2], Captured(s, candidate), Captured(s, t.sequence),
                 Captured(s, t.channel), Captured(s, t.clock.hours), Captured(s, t.clock.minutes),
                 Captured(s, t.clock.seconds), Captured(s, t.clock.decimal), Captured(s, t.days))
  }

  lemma DigitsText(s: string, g: Group)
    requires DigitsAt(s, g)
    ensures IsDigits(Captured(s, g))
  {
    RangeSlice(Digit, s, g.start, g.end);
  }

  lemma ChannelText(s: string, g: Group)
    requires ChannelAt(s, g)
    ensures IsChannel(Captured(s, g))
  {
    var c := Captured(s, g);
    if AllInRange(Digit, s, g.start, g.end) {
      RangeSlice(Digit, s, g.start, g.end);
    } else {
      assert c[0] == s[g.start];
      assert c[1..] == s[g.start + 1..g.end];
      RangeSlice(Digit, s, g.start + 1, g.end);
    }
  }

  /** The fields read from a line have the shapes of their groups. */
  lemma FieldsFit(s: string, p: nat, candidate: Group, t: TailGroups)
    requires p + 2 <= |s| && s[p] == 'A' && s[p + 1] != '\n'
    requires Within(s, candidate) && candidate.end - candidate.start <= 4
    requires AllInRange(Digit, s, candidate.start, candidate.end) && TailAt(s, t)
    ensures IsTimingFields(Fields(s, p, candidate, t))
  {
    assert s[p..p + 2][0] == s[p] && s[p..p + 2][1] == s[p + 1];
    RangeSlice(Digit, s, candidate.start, candidate.end);
    DigitsText(s, t.sequence);
    ChannelText(s, t.channel);
    DigitsText(s, t.clock.hours);
    DigitsText(s, t.clock.minutes);
    DigitsText(s, t.clock.seconds);
    DigitsText(s, t.clock.decimal);
    DigitsText(s, t.days);
  }

  /** One way of reading the candidate group: the group, and where `Tail` is then
      read from. */
  datatype Attempt = Attempt(candidate: Group, from: nat)

  /** Backtracking over `attempts`, in priority order: the first one after which
      the tail matches, with the tail's groups. */
  function FirstTail(s: string, attempts: seq<Attempt>): (r: Option<(Attempt, TailGroups)>)
    requires forall k :: 0 <= k < |attempts| ==> attempts[k].from <= |s|
    ensures r.Some? ==> r.value.0 in attempts && TailAt(s, r.value.1)
    decreases |attempts|
  {
    if attempts == [] then None
    else
      var t := Tail(s, attempts[0].from);
      if t.Some? then Some((attempts[0], t.value)) else FirstTail(s, attempts[1..])
  }

  /** The ways of reading the candidate group, in the order backtracking tries
      them, when the first whitespace run after the type code at `p` ends at `q`
      and the digit run after it ends at `d`. */
  function Attempts(p: nat, q: nat, d: nat): (r: seq<Attempt>)
    requires p + 2 <= q <= d
    ensures forall k :: 0 <= k < |r| ==> r[k].from <= d
  {
    (if 1 <= d - q <= 4 then [Attempt(Group(q, d), d)] else []) +
    (if q - (p + 2) >= 2 then [Attempt(Group(q - 1, q - 1), q - 1)] else [])
  }

  /**
   * `(A.)\s+(\d{0,4}|\s{0,4})\s+` followed by `Tail` (line 108), at position `p`.
   *
   * Let the first whitespace run end at `q` and let the digit run after it end
   * at `d`. Backtracking succeeds first in one of two ways:
   *  - the first `\s+` takes the whole run, `\d{0,4}` takes all the digits (only
   *    possible when there are 1 to 4 of them, since the next `\s+` needs
   *    whitespace), and the tail matches after them; or else
   *  - the first `\s+` gives back one character, `\d{0,4}` captures nothing (the run
   *    must have length 2 or more) and the tail matches from that character.
   * The alternative `\s{0,4}` is never the first success: it is tried only after
   * the empty `\d{0,4}` at the same position, whose continuation reaches every
   * position it could. So the candidate group always holds 0 to 4 digits.
   */
  function MatchTiming(s: string, p: nat): (r: Option<TimingFields>)
    requires p <= |s|
    ensures r.Some? ==> p + 2 <= |s| && s[p] == 'A'
  {
    if p + 2 > |s| || s[p] != 'A' || s[p + 1] == '\n' then None
    else
      var q := RunEnd(Space, s, p + 2);
      if q == p + 2 then None
      else
        var d := RunEnd(Digit, s, q);
        var found :- FirstTail(s, Attempts(p, q, d));
        Some(Fields(s, p, found.0.candidate, found.1))
  }

  /** Every match of the timing pattern has the shapes of its groups, and its type
      code is the two characters where it starts. */
  lemma MatchTimingShape(s: string, p: nat)
    requires p <= |s| && MatchTiming(s, p).Some?
    ensures IsTimingFields(MatchTiming(s, p).value) && MatchTiming(s, p).value.code == s[p..p + 2]
  {
    var q := RunEnd(Space, s, p + 2);
    var d := RunEnd(Digit, s, q);
    var found := FirstTail(s, Attempts(p, q, d)).value;
    FieldsFit(s, p, found.0.candidate, found.1);
  }

  datatype Pattern = SerialPattern | RunPattern | TimingPattern

  function GroupCount(p: Pattern): nat {
    if p == TimingPattern then 9 else 1
  }

  /** Pattern `pat` matched at position `i` of `line`: its capture groups 1, 2, .... */
  function MatchAt(pat: Pattern, line: string, i: nat): (r: Option<seq<string>>)
    requires i <= |line|
    ensures r.Some? ==> |r.value| == GroupCount(pat)
  {
    match pat
    case SerialPattern => MatchSerial(line, i)
    case RunPattern => MatchRun(line, i)
    case TimingPattern =>
      var f :- MatchTiming(line, i);
      Some(Groups(f))
  }

  /** The groups of every match have the shapes the pattern gives them. */
  lemma MatchAtShape(pat: Pattern, line: string, i: nat)
    requires i <= |line| && MatchAt(pat, line, i).Some?
    ensures pat == TimingPattern ==> IsTimingGroups(MatchAt(pat, line, i).value)
    ensures pat != TimingPattern ==> IsDigits(MatchAt(pat, line, i).value[0])
  {
    if pat == TimingPattern {
      MatchTimingShape(line, i);
      FieldsOfGroups(MatchTiming(line, i).value);
    }
  }

  /** A successful `re.search`: where the match starts and its groups. */
  datatype Found = Found(start: nat, groups: seq<string>)

  /** Pattern `pat` matches at none of the positions `from` up to `to - 1`. */
  predicate NoMatchIn(pat: Pattern, line: string, from: nat, to: nat)
    requires to <= |line| + 1
    decreases (to as int) - from
  {
    from >= to || (MatchAt(pat, line, from).None? && NoMatchIn(pat, line, from + 1, to))
  }

  /** A position inside a range without matches does not match. */
  lemma {:induction false} NoMatchInAt(pat: Pattern, line: string, from: nat, to: nat, j: nat)
    requires to <= |line| + 1 && NoMatchIn(pat, line, from, to) && from <= j < to
    ensures MatchAt(pat, line, j).None?
    decreases j - from
  {
    if from < j {
      NoMatchInAt(pat, line, from + 1, to, j);
    }
  }

  /** A range whose every position fails has no match. */
  lemma {:induction false} NoMatchInFrom(pat: Pattern, line: string, from: nat, to: nat)
    requires to <= |line| + 1
    requires forall j :: from <= j < to ==> MatchAt(pat, line, j).None?
    ensures NoMatchIn(pat, line, from, to)
    decreases (to as int) - from
  {
    if from < to {
      NoMatchInFrom(pat, line, from + 1, to);
    }
  }

  /** `re.search(pat, line)` scanning from position `from`: the leftmost position
      at which the pattern matches. */
  function Search(pat: Pattern, line: string, from: nat): (r: Option<Found>)
    requires from <= |line|
    ensures r.Some? ==> from <= r.value.start <= |line|
    ensures r.Some? ==> MatchAt(pat, line, r.value.start) == Some(r.value.groups)
    ensures r.Some? ==> NoMatchIn(pat, line, from, r.value.start)
    ensures r.None? ==> NoMatchIn(pat, line, from, |line| + 1)
    decreases |line| - from
  {
    var here := MatchAt(pat, line, from);
    if here.Some? then Some(Found(from, here.value))
    else if from == |line| then None
    else Search(pat, line, from + 1)
  }

  /** `re.search(pat, line)`. */
  function Find(pat: Pattern, line: string): (r: Option<Found>)
    ensures r.Some? ==> r.value.start <= |line| && MatchAt(pat, line, r.value.start) == Some(r.value.groups)
    ensures r.Some? ==> NoMatchIn(pat, line, 0, r.value.start)
    ensures r.None? ==> NoMatchIn(pat, line, 0, |line| + 1)
  {
    Search(pat, line, 0)
  }
}
