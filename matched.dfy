/**
 * The converse of the read-back lemmas of `Layout`: whatever a matcher of
 * `Patterns` accepts is a line of the shape the pattern describes, with the
 * captured groups in their places. Together with `Layout.SerialLineRead`,
 * `Layout.RunLineRead` and `Layout.TimingLineRead`, the matchers accept
 * exactly the lines of their patterns.
 */
module Matched {
  import opened Wrappers
  import opened Text
  import opened Patterns
  import opened Layout

  /** A whitespace run that `\s+` takes: a non-empty run of whitespace. */
  lemma GapText(s: string, a: nat, b: nat)
    requires a <= |s| && Spaces1(s, a) == Some(b)
    ensures a < b <= |s| && IsSpaces(s[a..b])
  {
    RangeSlice(Space, s, a, b);
  }

  /** Where a whitespace run that `\s+` takes ends. */
  lemma GapBound(s: string, a: nat, b: nat)
    requires a <= |s| && Spaces1(s, a) == Some(b)
    ensures a < b <= |s| && b == RunEnd(Space, s, a)
  {
  }

  /** A literal character that `Char` takes. */
  lemma MarkText(c: char, s: string, a: nat, b: nat)
    requires a <= |s| && Char(c, s, a) == Some(b)
    ensures b == a + 1 <= |s| && s[a..b] == [c]
  {
  }

  /** The two characters `c` at position `i`. */
  lemma PairText(s: string, i: nat, c: string)
    requires |c| == 2 && i + 2 <= |s| && s[i] == c[0] && s[i + 1] == c[1]
    ensures s[i..i + 2] == c
  {
  }

  /** A match of `ID\s*(\d+)\t.*` at `i` is an identification line: `ID`,
      whitespace, the captured serial number, a tab and anything at all. */
  lemma MatchedSerialLine(s: string, i: nat)
    requires i <= |s| && MatchSerial(s, i).Some?
    ensures exists w, rest :: AllIn(Space, w) && s[i..] == SerialLine(MatchSerial(s, i).value[0], w, rest)
  {
    var e := RunEnd(Space, s, i + 2);
    var g := Digits1(s, e).value;
    RangeSlice(Space, s, i + 2, e);
    PairText(s, i, "ID");
    var w, rest := s[i + 2..e], s[g.end + 1..];
    var ps := ["ID", w, s[g.start..g.end], "\t", rest];
    var o := [i, i + 2, e, g.end, g.end + 1, |s|];
    assert s[g.end..g.end + 1] == "\t";
    forall k | 0 <= k < |ps| ensures CutAt(s, ps, o, k) {
    }
    JoinCuts(s, ps, o, 0);
    assert ps[0..] == ps;
    assert AllIn(Space, w) && s[i..] == SerialLine(MatchSerial(s, i).value[0], w, rest);
  }

  /** A match of `DS\s*(\d+)\s*.*` at `i` is a run line: `DS`, whitespace, the
      captured run number and anything that does not continue the number. */
  lemma MatchedRunLine(s: string, i: nat)
    requires i <= |s| && MatchRun(s, i).Some?
    ensures exists w, rest :: AllIn(Space, w) && (rest == "" || !IsDigit(rest[0])) &&
                              s[i..] == RunLine(MatchRun(s, i).value[0], w, rest)
  {
    var e := RunEnd(Space, s, i + 2);
    var g := Digits1(s, e).value;
    RangeSlice(Space, s, i + 2, e);
    PairText(s, i, "DS");
    var w, rest := s[i + 2..e], s[g.end..];
    var ps := ["DS", w, s[g.start..g.end], rest];
    var o := [i, i + 2, e, g.end, |s|];
    forall k | 0 <= k < |ps| ensures CutAt(s, ps, o, k) {
    }
    JoinCuts(s, ps, o, 0);
    assert ps[0..] == ps;
    assert rest != "" ==> rest[0] == s[g.end];
    assert AllIn(Space, w) && (rest == "" || !IsDigit(rest[0])) &&
           s[i..] == RunLine(MatchRun(s, i).value[0], w, rest);
  }

  /** Backtracking reports the tail that `Tail` reads after the chosen attempt. */
  lemma {:induction false} FirstTailFrom(s: string, attempts: seq<Attempt>)
    requires forall k :: 0 <= k < |attempts| ==> attempts[k].from <= |s|
    requires FirstTail(s, attempts).Some?
    ensures var r := FirstTail(s, attempts).value;
            r.0.from <= |s| && Tail(s, r.0.from) == Some(r.1)
    decreases |attempts|
  {
    if Tail(s, attempts[0].from).None? {
      FirstTailFrom(s, attempts[1..]);
    }
  }

  /** A successful read of fields is its first group followed by the read of
      the remaining fields from where that group ends. */
  lemma ReadFieldsCons(fs: seq<Field>, s: string, i: nat, j: nat, g: Group)
    requires i <= |s| && fs != [] && ReadFields(fs, s, i).Some?
    requires Separator(fs[0].sep, s, i) == Some(j) && Value(fs[0].kind, s, j) == Some(g)
    ensures g.end <= |s| && ReadFields(fs[1..], s, g.end).Some?
    ensures ReadFields(fs, s, i).value == [g] + ReadFields(fs[1..], s, g.end).value
  {
  }

  /** Each group that `ReadFields` reads starts where the separator before it
      ends; the separator starts where the previous group ends. */
  lemma {:induction false} ReadFieldsSep(fs: seq<Field>, s: string, i: nat, k: nat)
    requires i <= |s| && ReadFields(fs, s, i).Some? && k < |fs|
    ensures var gs := ReadFields(fs, s, i).value;
            var prev := if k == 0 then i else gs[k - 1].end;
            prev <= |s| && Separator(fs[k].sep, s, prev) == Some(gs[k].start)
    decreases |fs|
  {
    var j := Separator(fs[0].sep, s, i).value;
    var g := Value(fs[0].kind, s, j).value;
    ReadFieldsCons(fs, s, i, j, g);
    if k > 0 {
      ReadFieldsSep(fs[1..], s, g.end, k - 1);
    }
  }

  /** Where the groups `t` of a tail read from `i` lie: one after the other,
      with `:`, `:` and `.` inside the clock, and `after` past the days. */
  predicate TailShape(s: string, i: nat, t: TailGroups, after: nat) {
    var c := t.clock;
    TailAt(s, t) && i < t.sequence.start && t.sequence.end < t.channel.start &&
    t.channel.end < c.hours.start && c.minutes.start == c.hours.end + 1 &&
    c.seconds.start == c.minutes.end + 1 && c.decimal.start == c.seconds.end + 1 &&
    c.decimal.end < t.days.start && t.days.end < after <= |s| &&
    s[c.hours.end] == ':' && s[c.minutes.end] == ':' && s[c.seconds.end] == '.'
  }

  /** The runs between the groups of such a tail are whitespace. */
  predicate TailSpaced(s: string, i: nat, t: TailGroups, after: nat)
    requires TailShape(s, i, t, after)
  {
    var c := t.clock;
    IsSpaces(s[i..t.sequence.start]) && IsSpaces(s[t.sequence.end..t.channel.start]) &&
    IsSpaces(s[t.channel.end..c.hours.start]) &&
    IsSpaces(s[c.decimal.end..t.days.start]) && IsSpaces(s[t.days.end..after])
  }

  /** Where the whitespace run after the days of the tail read from `i` ends. */
  function TailEnd(s: string, i: nat): nat
    requires i <= |s| && Tail(s, i).Some?
  {
    RunEnd(Space, s, Tail(s, i).value.days.end)
  }

  /** The tail read from `i` lies as `TailShape` says. */
  lemma TailBounds(s: string, i: nat)
    requires i <= |s| && Tail(s, i).Some?
    ensures TailShape(s, i, Tail(s, i).value, TailEnd(s, i))
  {
    var g := ReadFields(TailFields, s, i).value;
    ReadFieldsSep(TailFields, s, i, 0);
    ReadFieldsSep(TailFields, s, i, 1);
    ReadFieldsSep(TailFields, s, i, 2);
    ReadFieldsSep(TailFields, s, i, 3);
    ReadFieldsSep(TailFields, s, i, 4);
    ReadFieldsSep(TailFields, s, i, 5);
    ReadFieldsSep(TailFields, s, i, 6);
    assert Tail(s, i).value == TailGroups(g[0], g[1], ClockGroups(g[2], g[3], g[4], g[5]), g[6]);
    GapBound(s, i, g[0].start);
    GapBound(s, g[0].end, g[1].start);
    GapBound(s, g[1].end, g[2].start);
    MarkText(':', s, g[2].end, g[3].start);
    MarkText(':', s, g[3].end, g[4].start);
    MarkText('.', s, g[4].end, g[5].start);
    GapBound(s, g[5].end, g[6].start);
    GapBound(s, g[6].end, Spaces1(s, g[6].end).value);
  }

  /** The runs of the tail read from `i` are whitespace. */
  lemma TailGaps(s: string, i: nat)
    requires i <= |s| && Tail(s, i).Some?
    ensures TailShape(s, i, Tail(s, i).value, TailEnd(s, i))
    ensures TailSpaced(s, i, Tail(s, i).value, TailEnd(s, i))
  {
    TailBounds(s, i);
    var g := ReadFields(TailFields, s, i).value;
    ReadFieldsSep(TailFields, s, i, 0);
    ReadFieldsSep(TailFields, s, i, 1);
    ReadFieldsSep(TailFields, s, i, 2);
    ReadFieldsSep(TailFields, s, i, 5);
    ReadFieldsSep(TailFields, s, i, 6);
    assert Tail(s, i).value == TailGroups(g[0], g[1], ClockGroups(g[2], g[3], g[4], g[5]), g[6]);
    GapText(s, i, g[0].start);
    GapText(s, g[0].end, g[1].start);
    GapText(s, g[1].end, g[2].start);
    GapText(s, g[5].end, g[6].start);
    GapText(s, g[6].end, Spaces1(s, g[6].end).value);
  }

  lemma CandidateBounds(p: nat, q: nat, d: nat, a: Attempt)
    requires p + 2 < q <= d && a in Attempts(p, q, d)
    ensures p + 2 < a.candidate.start <= a.candidate.end == a.from <= d
    ensures a.candidate.start == q || a.candidate.start == q - 1
  {
  }

  /** The head of a timing match: the whitespace after the type code up to the
      candidate group, which starts where the run ends or one character before. */
  lemma CandidateText(s: string, p: nat, q: nat, c: nat)
    requires p + 2 < c <= |s| && q == RunEnd(Space, s, p + 2) && (c == q || c == q - 1)
    ensures IsSpaces(s[p + 2..c])
  {
    if c == q {
      RangeSlice(Space, s, p + 2, q);
    } else {
      AllInRangeWithin(Space, s, p + 2, q, p + 2, q - 1);
      RangeSlice(Space, s, p + 2, q - 1);
    }
  }

  /** A string cut at twenty ascending positions into the pieces of a timing
      line is that timing line. */
  lemma TimingCuts(s: string, f: TimingFields, gaps: seq<string>, trailer: string, o: seq<nat>)
    requires |o| == 20 && |gaps| == 6 && o[19] == |s|
    requires o[0] <= o[1] <= o[2] <= o[3] <= o[4] <= o[5] <= o[6] <= o[7] <= o[8] <= o[9] <= o[10] <=
             o[11] <= o[12] <= o[13] <= o[14] <= o[15] <= o[16] <= o[17] <= o[18] <= o[19]
    requires f.code == s[o[0]..o[1]] && gaps[0] == s[o[1]..o[2]] && f.candidate == s[o[2]..o[3]] &&
             gaps[1] == s[o[3]..o[4]] && f.sequence == s[o[4]..o[5]] && gaps[2] == s[o[5]..o[6]] &&
             f.channel == s[o[6]..o[7]] && gaps[3] == s[o[7]..o[8]] && f.hours == s[o[8]..o[9]] &&
             s[o[9]..o[10]] == ":" && f.minutes == s[o[10]..o[11]] && s[o[11]..o[12]] == ":" &&
             f.seconds == s[o[12]..o[13]] && s[o[13]..o[14]] == "." && f.decimal == s[o[14]..o[15]] &&
             gaps[4] == s[o[15]..o[16]] && f.days == s[o[16]..o[17]] && gaps[5] == s[o[17]..o[18]] &&
             trailer == s[o[18]..o[19]]
    ensures s[o[0]..] == TimingLine(f, gaps, trailer)
  {
    var ps := TimingPieces(f, gaps, trailer);
    forall k | 0 <= k < |ps| ensures CutAt(s, ps, o, k) {
    }
    JoinCuts(s, ps, o, 0);
    assert ps[0..] == ps;
  }

  /** The whitespace runs of a timing line with type code at `p`, candidate
      `cand` and tail `t`. */
  function GapsOf(s: string, p: nat, cand: Group, t: TailGroups, after: nat): (gaps: seq<string>)
    requires p + 2 <= cand.start <= cand.end && TailShape(s, cand.end, t, after)
    ensures |gaps| == 6
  {
    [s[p + 2..cand.start], s[cand.end..t.sequence.start], s[t.sequence.end..t.channel.start],
     s[t.channel.end..t.clock.hours.start], s[t.clock.decimal.end..t.days.start], s[t.days.end..after]]
  }

  /** The positions where a timing line with type code at `p`, candidate
      `cand` and tail `t` changes from one piece to the next. */
  function CutsOf(s: string, p: nat, cand: Group, t: TailGroups, after: nat): (o: seq<nat>)
    ensures |o| == 20
  {
    var c := t.clock;
    [p, p + 2, cand.start, cand.end, t.sequence.start, t.sequence.end,
     t.channel.start, t.channel.end, c.hours.start, c.hours.end, c.minutes.start,
     c.minutes.end, c.seconds.start, c.seconds.end, c.decimal.start, c.decimal.end,
     t.days.start, t.days.end, after, |s|]
  }

  /** Those positions ascend to the end of the line. */
  lemma CutsOrdered(s: string, p: nat, cand: Group, t: TailGroups, after: nat)
    requires p + 2 <= cand.start <= cand.end && TailShape(s, cand.end, t, after)
    ensures var o := CutsOf(s, p, cand, t, after);
      o[19] == |s| &&
      o[0] <= o[1] <= o[2] <= o[3] <= o[4] <= o[5] <= o[6] <= o[7] <= o[8] <= o[9] <= o[10] <=
      o[11] <= o[12] <= o[13] <= o[14] <= o[15] <= o[16] <= o[17] <= o[18] <= o[19]
  {
  }

  /** The text from `p` is the timing line of the fields read there. */
  lemma PartsCut(s: string, p: nat, f: TimingFields, cand: Group, t: TailGroups, after: nat)
    requires p + 2 <= cand.start <= cand.end && TailShape(s, cand.end, t, after)
    requires f == Fields(s, p, cand, t)
    ensures s[p..] == TimingLine(f, GapsOf(s, p, cand, t, after), s[after..])
  {
    var o := CutsOf(s, p, cand, t, after);
    CutsOrdered(s, p, cand, t, after);
    assert s[o[9]..o[10]] == ":" && s[o[11]..o[12]] == ":" && s[o[13]..o[14]] == ".";
    TimingCuts(s, f, GapsOf(s, p, cand, t, after), s[after..], o);
  }

  /** Those runs are whitespace. */
  lemma PartsGaps(s: string, p: nat, cand: Group, t: TailGroups, after: nat)
    requires p + 2 < cand.start <= cand.end && TailShape(s, cand.end, t, after)
    requires TailSpaced(s, cand.end, t, after) && IsSpaces(s[p + 2..cand.start])
    ensures AreGaps(GapsOf(s, p, cand, t, after))
  {
  }

  /** The groups a timing match at `p` captured: a candidate group after
      whitespace, and the tail read where it ends. */
  lemma TimingHead(s: string, p: nat) returns (cand: Group, t: TailGroups)
    requires p <= |s| && MatchTiming(s, p).Some?
    ensures p + 2 < cand.start <= cand.end <= |s| && Tail(s, cand.end) == Some(t)
    ensures IsSpaces(s[p + 2..cand.start])
    ensures MatchTiming(s, p).value == Fields(s, p, cand, t)
  {
    var q := RunEnd(Space, s, p + 2);
    var d := RunEnd(Digit, s, q);
    FirstTailFrom(s, Attempts(p, q, d));
    var found := FirstTail(s, Attempts(p, q, d)).value;
    var a := found.0;
    cand, t := a.candidate, found.1;
    CandidateBounds(p, q, d, a);
    CandidateText(s, p, q, cand.start);
  }

  /** A match of the timing pattern at `p` is a timing line: the nine fields
      it captured, whitespace runs between them and anything after the run that
      follows the days. */
  lemma MatchedTimingLine(s: string, p: nat)
    requires p <= |s| && MatchTiming(s, p).Some?
    ensures exists gaps, trailer :: AreGaps(gaps) && s[p..] == TimingLine(MatchTiming(s, p).value, gaps, trailer)
  {
    var cand, t := TimingHead(s, p);
    var f := MatchTiming(s, p).value;
    TailGaps(s, cand.end);
    var after := TailEnd(s, cand.end);
    PartsCut(s, p, f, cand, t, after);
    PartsGaps(s, p, cand, t, after);
    var gaps := GapsOf(s, p, cand, t, after);
    assert AreGaps(gaps) && s[p..] == TimingLine(f, gaps, s[after..]);
  }
}
