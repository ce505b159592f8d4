/**
 * Lines laid out piece by piece, and what the matchers of `Patterns` read back
 * from them. A timing line is its nine fields separated by whitespace runs of
 * any length, as the device writes them
 * (`AN  700    3 M4 19:20:15.83400  7749    06C8`); reading such a line returns
 * exactly the fields it was built from. A line whose clock has no decimal
 * part is rejected, and the serial and run numbers are read back whole from
 * their lines. The converse, that every line a matcher accepts has this
 * shape, is module `Matched`.
 *
 * A line is described by its pieces `ps` and where each piece starts (`o`):
 * `Laid(s, ps, o)`. Every line written as `Join(ps)` is laid out that way
 * (`JoinLaid`), and the reading lemmas work on the layout alone.
 */
module Layout {
  import opened Wrappers
  import opened Text
  import opened Patterns

  /** The pieces written one after the other. */
  function Join(ps: seq<string>): string
    decreases |ps|
  {
    if ps == [] then "" else ps[0] + Join(ps[1..])
  }

  /** `w` is written in `s` from position `a` on. */
  predicate Placed(s: string, a: nat, w: string) {
    a + |w| <= |s| && forall j :: 0 <= j < |w| ==> s[a + j] == w[j]
  }

  /** `s` is the pieces `ps` one after the other, piece `k` starting at `o[k]`. */
  predicate Laid(s: string, ps: seq<string>, o: seq<nat>) {
    |o| == |ps| + 1 && o[0] == 0 && o[|ps|] == |s| && LaidFrom(s, ps, o, 0)
  }

  /** Pieces `k` onwards of `ps` are written in `s` at their offsets, each one
      ending where the next starts. */
  predicate LaidFrom(s: string, ps: seq<string>, o: seq<nat>, k: nat)
    requires |o| == |ps| + 1
    decreases |ps| - k
  {
    k >= |ps| || (o[k + 1] == o[k] + |ps[k]| && Placed(s, o[k], ps[k]) && LaidFrom(s, ps, o, k + 1))
  }

  lemma {:induction false} LaidFromAt(s: string, ps: seq<string>, o: seq<nat>, i: nat, k: nat)
    requires |o| == |ps| + 1 && LaidFrom(s, ps, o, i) && i <= k < |ps|
    ensures o[k + 1] == o[k] + |ps[k]| && Placed(s, o[k], ps[k])
    decreases k - i
  {
    if i < k {
      LaidFromAt(s, ps, o, i + 1, k);
    }
  }

  lemma {:induction false} LaidFromAll(s: string, ps: seq<string>, o: seq<nat>, k: nat)
    requires |o| == |ps| + 1
    requires forall j :: k <= j < |ps| ==> o[j + 1] == o[j] + |ps[j]| && Placed(s, o[j], ps[j])
    ensures LaidFrom(s, ps, o, k)
    decreases |ps| - k
  {
    if k < |ps| {
      LaidFromAll(s, ps, o, k + 1);
    }
  }

  /** Piece `k` of a laid-out line is written at its offset and ends where the next
      one starts. */
  lemma PieceAt(s: string, ps: seq<string>, o: seq<nat>, k: nat)
    requires Laid(s, ps, o) && k < |ps|
    ensures o[k + 1] == o[k] + |ps[k]| && Placed(s, o[k], ps[k])
  {
    LaidFromAt(s, ps, o, 0, k);
  }

  /** The offsets of the pieces after the first one, shifted past it. */
  function Shifted(rest: seq<nat>, h: nat): (o: seq<nat>)
    ensures |o| == |rest| + 1 && o[0] == 0
    ensures forall i :: 0 <= i < |rest| ==> o[i + 1] == rest[i] + h
  {
    [0] + seq(|rest|, i requires 0 <= i < |rest| => rest[i] + h)
  }

  /** A word written in `t` is written in `a + t`, `|a|` positions further on. */
  lemma PlacedAfter(a: string, t: string, r: nat, w: string)
    requires Placed(t, r, w)
    ensures Placed(a + t, |a| + r, w)
  {
    forall j | 0 <= j < |w| ensures (a + t)[|a| + r + j] == w[j] {
      assert (a + t)[|a| + (r + j)] == t[r + j];
    }
  }

  /** A later piece of a join sits where it sat in the join of the rest, shifted
      past the first piece. */
  lemma JoinPlaced(ps: seq<string>, rest: seq<nat>, k: nat)
    requires 0 < k < |ps| && Laid(Join(ps[1..]), ps[1..], rest)
    ensures var o := Shifted(rest, |ps[0]|);
            o[k + 1] == o[k] + |ps[k]| && Placed(Join(ps), o[k], ps[k])
  {
    assert Join(ps) == ps[0] + Join(ps[1..]);
    assert ps[k] == ps[1..][k - 1];
    ShiftedPiece(ps[0], Join(ps[1..]), ps[1..], rest, k - 1);
  }

  /** Piece `j` of a text `t` laid out at `rest` is piece `j + 1` of `h + t`
      laid out at the shifted offsets. */
  lemma ShiftedPiece(h: string, t: string, qs: seq<string>, rest: seq<nat>, j: nat)
    requires Laid(t, qs, rest) && j < |qs|
    ensures var o := Shifted(rest, |h|);
            o[j + 2] == o[j + 1] + |qs[j]| && Placed(h + t, o[j + 1], qs[j])
  {
    PieceAt(t, qs, rest, j);
    PlacedAfter(h, t, rest[j], qs[j]);
  }

  /** Joined pieces are laid out one after the other. */
  lemma {:induction false} JoinLaid(ps: seq<string>) returns (o: seq<nat>)
    ensures Laid(Join(ps), ps, o)
    decreases |ps|
  {
    if ps == [] {
      o := [0];
    } else {
      var rest := JoinLaid(ps[1..]);
      var s := Join(ps);
      o := Shifted(rest, |ps[0]|);
      assert s == ps[0] + Join(ps[1..]);
      forall k | 0 <= k < |ps| ensures o[k + 1] == o[k] + |ps[k]| && Placed(s, o[k], ps[k]) {
        if k == 0 {
          forall j | 0 <= j < |ps[0]| ensures s[j] == ps[0][j] {
          }
        } else {
          JoinPlaced(ps, rest, k);
        }
      }
      LaidFromAll(s, ps, o, 0);
    }
  }

  /** Piece `k` is the text of `s` between cuts `k` and `k + 1`. */
  predicate CutAt(s: string, ps: seq<string>, o: seq<nat>, k: nat)
    requires |o| == |ps| + 1 && k < |ps|
  {
    o[k] <= o[k + 1] <= |s| && ps[k] == s[o[k]..o[k + 1]]
  }

  /** Conversely, a string cut at ascending positions `o` is the join of the
      pieces between them: from cut `i` on, the join of pieces `i` onwards. */
  lemma {:induction false} JoinCuts(s: string, ps: seq<string>, o: seq<nat>, i: nat)
    requires |o| == |ps| + 1 && o[|ps|] == |s| && i <= |ps|
    requires forall k :: 0 <= k < |ps| ==> CutAt(s, ps, o, k)
    ensures o[i] <= |s| && Join(ps[i..]) == s[o[i]..]
    decreases |ps| - i
  {
    if i < |ps| {
      JoinCuts(s, ps, o, i + 1);
      assert CutAt(s, ps, o, i);
      assert ps[i..][0] == ps[i] && ps[i..][1..] == ps[i + 1..];
      assert s[o[i]..] == s[o[i]..o[i + 1]] + s[o[i + 1]..];
    }
  }

  /** The group that spans piece `k`. */
  function PieceGroup(o: seq<nat>, k: nat): Group
    requires k + 1 < |o|
  {
    Group(o[k], o[k + 1])
  }

  /** A run of class `cls` ends at `e`: at the end of `s` or before a character
      outside the class. */
  predicate Stops(cls: CharClass, s: string, e: nat) {
    e <= |s| && (e == |s| || !In(cls, s[e]))
  }

  /** Piece `k` is the last one, or the next piece starts outside class `cls`. */
  predicate EndsRun(cls: CharClass, ps: seq<string>, k: nat) {
    k + 1 == |ps| || (k + 1 < |ps| && |ps[k + 1]| > 0 && !In(cls, ps[k + 1][0]))
  }

  /** The first character of a non-empty piece. */
  lemma PieceHead(s: string, ps: seq<string>, o: seq<nat>, k: nat)
    requires Laid(s, ps, o) && k < |ps| && |ps[k]| > 0
    ensures o[k + 1] == o[k] + |ps[k]| && o[k] < |s| && s[o[k]] == ps[k][0]
  {
    PieceAt(s, ps, o, k);
    assert s[o[k] + 0] == ps[k][0];
  }

  lemma NextStops(cls: CharClass, s: string, ps: seq<string>, o: seq<nat>, k: nat)
    requires Laid(s, ps, o) && k < |ps| && EndsRun(cls, ps, k)
    ensures Stops(cls, s, o[k + 1])
  {
    if k + 1 < |ps| {
      PieceHead(s, ps, o, k + 1);
    }
  }

  /** A piece of one class is a run of that class. */
  lemma PieceRange(cls: CharClass, s: string, ps: seq<string>, o: seq<nat>, k: nat)
    requires Laid(s, ps, o) && k < |ps| && AllIn(cls, ps[k])
    ensures o[k + 1] == o[k] + |ps[k]| <= |s| && AllInRange(cls, s, o[k], o[k + 1])
  {
    PieceAt(s, ps, o, k);
    forall j | o[k] <= j < o[k + 1] ensures In(cls, s[j]) {
      assert s[o[k] + (j - o[k])] == ps[k][j - o[k]];
    }
    AllInRangeFrom(cls, s, o[k], o[k + 1]);
  }

  /** A greedy run started anywhere inside a piece of its class reaches the end
      of the piece, when the run stops there. */
  lemma PieceRun(cls: CharClass, s: string, ps: seq<string>, o: seq<nat>, k: nat, i: nat)
    requires Laid(s, ps, o) && k < |ps| && AllIn(cls, ps[k]) && EndsRun(cls, ps, k)
    requires o[k] <= i <= o[k] + |ps[k]|
    ensures o[k + 1] == o[k] + |ps[k]| <= |s| && RunEnd(cls, s, i) == o[k + 1]
  {
    PieceRange(cls, s, ps, o, k);
    AllInRangeWithin(cls, s, o[k], o[k + 1], i, o[k + 1]);
    NextStops(cls, s, ps, o, k);
    RunEndAt(cls, s, i, o[k + 1]);
  }

  /** The text of piece `k` is what the group spanning it captures. */
  lemma PieceText(s: string, ps: seq<string>, o: seq<nat>, k: nat)
    requires Laid(s, ps, o) && k < |ps|
    ensures o[k + 1] == o[k] + |ps[k]| && Within(s, PieceGroup(o, k)) && Captured(s, PieceGroup(o, k)) == ps[k]
  {
    PieceAt(s, ps, o, k);
    var c := Captured(s, PieceGroup(o, k));
    forall j | 0 <= j < |ps[k]| ensures c[j] == ps[k][j] {
      assert c[j] == s[o[k] + j];
    }
  }

  /** A non-empty whitespace run. */
  predicate IsSpaces(w: string) {
    |w| > 0 && AllIn(Space, w)
  }

  /** A whitespace piece read from any of its positions. */
  lemma SpacesPiece(s: string, ps: seq<string>, o: seq<nat>, k: nat, i: nat)
    requires Laid(s, ps, o) && k < |ps| && IsSpaces(ps[k]) && EndsRun(Space, ps, k)
    requires o[k] <= i < o[k] + |ps[k]|
    ensures i <= |s| && Spaces1(s, i) == Some(o[k + 1])
  {
    PieceRun(Space, s, ps, o, k, i);
  }

  /** A digit piece is read whole. */
  lemma DigitsPiece(s: string, ps: seq<string>, o: seq<nat>, k: nat)
    requires Laid(s, ps, o) && k < |ps| && IsDigits(ps[k]) && EndsRun(Digit, ps, k)
    ensures o[k] <= |s| && RunEnd(Digit, s, o[k]) == o[k + 1]
    ensures Digits1(s, o[k]) == Some(PieceGroup(o, k))
  {
    PieceAt(s, ps, o, k);
    PieceRun(Digit, s, ps, o, k, o[k]);
  }

  /** A one-character piece. */
  lemma CharPiece(c: char, s: string, ps: seq<string>, o: seq<nat>, k: nat)
    requires Laid(s, ps, o) && k < |ps| && ps[k] == [c]
    ensures o[k] <= |s| && Char(c, s, o[k]) == Some(o[k + 1])
  {
    PieceHead(s, ps, o, k);
  }

  /** A digit followed by digits is a run of digits. */
  lemma DigitsCons(c: string)
    ensures |c| > 0 && IsDigit(c[0]) && AllIn(Digit, c[1..]) ==> IsDigits(c)
  {
    if |c| > 0 && IsDigit(c[0]) && AllIn(Digit, c[1..]) {
      forall j | 0 <= j < |c| ensures In(Digit, c[j]) {
        if j > 0 {
          assert c[j] == c[1..][j - 1];
        }
      }
    }
  }

  /** The first character of a channel is a word character, and a digit only when
      the whole channel is digits. */
  lemma ChannelHead(c: string)
    requires IsChannel(c)
    ensures |c| > 0 && IsWord(c[0]) && !IsSpace(c[0])
    ensures !IsDigits(c) ==> !IsDigit(c[0])
    ensures !IsDigits(c) ==> AllIn(Digit, c[1..])
  {
    DigitsCons(c);
  }

  /** A channel piece is read whole. */
  lemma ChannelPiece(s: string, ps: seq<string>, o: seq<nat>, k: nat)
    requires Laid(s, ps, o) && k < |ps| && IsChannel(ps[k]) && EndsRun(Digit, ps, k)
    ensures o[k] <= |s| && Channel(s, o[k]) == Some(PieceGroup(o, k))
  {
    var a, b, w := o[k], o[k + 1], ps[k];
    ChannelHead(w);
    PieceAt(s, ps, o, k);
    assert AllInRange(Digit, s, a + 1, b) by {
      forall j | a + 1 <= j < b ensures In(Digit, s[j]) {
        assert s[a + (j - a)] == w[j - a];
        if !IsDigits(w) {
          assert w[j - a] == w[1..][j - a - 1];
        }
      }
      AllInRangeFrom(Digit, s, a + 1, b);
    }
    NextStops(Digit, s, ps, o, k);
    RunEndAt(Digit, s, a + 1, b);
    if IsDigits(w) {
      RunEndAt(Digit, s, a, b);
    }
  }


  /** What piece is written for a separator. */
  predicate SepFits(sep: Sep, w: string) {
    match sep
    case Gap => IsSpaces(w)
    case Mark(c) => w == [c] && !IsDigit(c)
  }

  /** What piece is written for a group. */
  predicate KindFits(kind: Kind, w: string) {
    match kind
    case Number => IsDigits(w)
    case ChannelCode => IsChannel(w)
  }

  /** Fields `fs` written as pieces from `k` on, separator and group in turn,
      and followed by at least one more piece. */
  predicate LaidFields(fs: seq<Field>, ps: seq<string>, k: nat)
    decreases |fs|
  {
    k + 2 * |fs| < |ps| &&
    (fs == [] ||
     (SepFits(fs[0].sep, ps[k]) && KindFits(fs[0].kind, ps[k + 1]) && LaidFields(fs[1..], ps, k + 2)))
  }

  /** Piece `m` starts with something other than a digit, so a group before it ends there. */
  predicate ClosedAt(ps: seq<string>, m: nat) {
    m < |ps| && |ps[m]| > 0 && !IsDigit(ps[m][0])
  }

  /** The groups of `n` fields written from piece `k` on: every second piece. */
  function FieldGroups(n: nat, o: seq<nat>, k: nat): (gs: seq<Group>)
    requires k + 2 * n < |o|
    ensures |gs| == n
  {
    seq(n, j requires 0 <= j < n => PieceGroup(o, k + 2 * j + 1))
  }

  /** The groups of the first field and of the rest. */
  lemma FieldGroupsNext(n: nat, o: seq<nat>, k: nat)
    requires 0 < n && k + 2 * n < |o|
    ensures FieldGroups(n, o, k) == [PieceGroup(o, k + 1)] + FieldGroups(n - 1, o, k + 2)
  {
    var gs, rest := FieldGroups(n, o, k), FieldGroups(n - 1, o, k + 2);
    forall j | 0 <= j < n ensures gs[j] == ([PieceGroup(o, k + 1)] + rest)[j] {
      if j > 0 {
        assert rest[j - 1] == PieceGroup(o, k + 2 + 2 * (j - 1) + 1);
      }
    }
  }

  /** Reading the first field: its separator, from any of its positions when it
      is whitespace, and then its group. */
  lemma FirstField(fs: seq<Field>, s: string, ps: seq<string>, o: seq<nat>, k: nat, i: nat)
    requires Laid(s, ps, o) && LaidFields(fs, ps, k) && fs != []
    requires ClosedAt(ps, k + 2)
    requires o[k] <= i < o[k] + |ps[k]| && (i == o[k] || fs[0].sep == Gap)
    ensures i <= |s| && Separator(fs[0].sep, s, i) == Some(o[k + 1])
    ensures Value(fs[0].kind, s, o[k + 1]) == Some(PieceGroup(o, k + 1))
  {
    if fs[0].kind == Number {
      DigitsPiece(s, ps, o, k + 1);
    } else {
      ChannelHead(ps[k + 1]);
      ChannelPiece(s, ps, o, k + 1);
    }
    if fs[0].sep == Gap {
      ChannelHead(ps[k + 1]);
      SpacesPiece(s, ps, o, k, i);
    } else {
      CharPiece(fs[0].sep.c, s, ps, o, k);
    }
  }

  /** The piece after a laid-out field starts with something other than a digit. */
  lemma NextClosed(fs: seq<Field>, ps: seq<string>, k: nat)
    requires LaidFields(fs, ps, k) && 1 < |fs|
    ensures ClosedAt(ps, k + 2)
  {
    assert fs[1..][0] == fs[1];
  }

  /** Fields laid out as pieces are read back as the groups of those pieces. */
  lemma {:induction false} FieldsRead(fs: seq<Field>, s: string, ps: seq<string>, o: seq<nat>, k: nat, i: nat)
    requires Laid(s, ps, o) && LaidFields(fs, ps, k) && ClosedAt(ps, k + 2 * |fs|)
    requires fs != [] ==> o[k] <= i < o[k] + |ps[k]| && (i == o[k] || fs[0].sep == Gap)
    requires fs == [] ==> i <= |s|
    ensures i <= |s| && ReadFields(fs, s, i) == Some(FieldGroups(|fs|, o, k))
    decreases |fs|
  {
    if fs != [] {
      if 1 < |fs| {
        NextClosed(fs, ps, k);
      }
      FirstField(fs, s, ps, o, k, i);
      assert |fs[1..]| == |fs| - 1;
      PieceAt(s, ps, o, k + 2);
      FieldsRead(fs[1..], s, ps, o, k + 2, o[k + 2]);
      FieldGroupsNext(|fs|, o, k);
    }
  }

  /** When the first `n` fields are laid out as pieces and the rest cannot be read
      after them, the fields cannot be read. */
  lemma {:induction false} FieldsStop(fs: seq<Field>, s: string, ps: seq<string>, o: seq<nat>, k: nat,
                                      i: nat, n: nat)
    requires Laid(s, ps, o) && n <= |fs| && LaidFields(fs[..n], ps, k) && ClosedAt(ps, k + 2 * n)
    requires n > 0 ==> o[k] <= i < o[k] + |ps[k]| && (i == o[k] || fs[0].sep == Gap)
    requires n == 0 ==> i == o[k]
    requires o[k + 2 * n] <= |s| && ReadFields(fs[n..], s, o[k + 2 * n]).None?
    ensures i <= |s| && ReadFields(fs, s, i).None?
    decreases n
  {
    if n == 0 {
      assert fs[0..] == fs;
    } else {
      assert fs[..n][0] == fs[0];
      if 1 < n {
        NextClosed(fs[..n], ps, k);
      }
      FirstField(fs[..n], s, ps, o, k, i);
      LaidRest(fs, ps, k, n);
      PieceAt(s, ps, o, k + 2);
      FieldsStop(fs[1..], s, ps, o, k + 2, o[k + 2], n - 1);
      StopAfterFirst(fs, s, i, o[k + 1], PieceGroup(o, k + 1));
    }
  }

  /** The fields after the first of `n` laid-out fields are laid out from the
      next separator piece on. */
  lemma LaidRest(fs: seq<Field>, ps: seq<string>, k: nat, n: nat)
    requires 0 < n <= |fs| && LaidFields(fs[..n], ps, k)
    ensures LaidFields(fs[1..][..n - 1], ps, k + 2) && fs[1..][n - 1..] == fs[n..]
  {
    assert fs[..n][1..] == fs[1..][..n - 1];
  }

  /** The fields cannot be read when the first one is read and the rest cannot
      be read after it. */
  lemma StopAfterFirst(fs: seq<Field>, s: string, i: nat, j: nat, g: Group)
    requires i <= |s| && fs != [] && Separator(fs[0].sep, s, i) == Some(j)
    requires Value(fs[0].kind, s, j) == Some(g) && g.end <= |s| && ReadFields(fs[1..], s, g.end).None?
    ensures ReadFields(fs, s, i).None?
  {
  }

  /** The fields cannot be read when the separator of the first one is missing. */
  lemma SeparatorMissing(fs: seq<Field>, s: string, i: nat)
    requires i <= |s| && fs != [] && Separator(fs[0].sep, s, i).None?
    ensures ReadFields(fs, s, i).None?
  {
  }

  /** The fields cannot be read when the group of the first one is missing. */
  lemma ValueMissing(fs: seq<Field>, s: string, i: nat, j: nat)
    requires i <= |s| && fs != [] && Separator(fs[0].sep, s, i) == Some(j)
    requires Value(fs[0].kind, s, j).None?
    ensures ReadFields(fs, s, i).None?
  {
  }

  /** `Tail` read from its groups and the whitespace after the days. */
  lemma TailFrom(s: string, i: nat, g: seq<Group>)
    requires i <= |s| && ReadFields(TailFields, s, i) == Some(g)
    requires Spaces1(s, g[6].end).Some?
    ensures Tail(s, i) == Some(TailGroups(g[0], g[1], ClockGroups(g[2], g[3], g[4], g[5]), g[6]))
  {
  }

  /** `Tail` fails when its fields do. */
  lemma TailStops(s: string, i: nat)
    requires i <= |s| && ReadFields(TailFields, s, i).None?
    ensures Tail(s, i).None?
  {
  }

  /** `MatchTiming` when a candidate of 1 to 4 digits is followed by a tail. */
  lemma MatchWithCandidate(s: string, p: nat, q: nat, d: nat, t: TailGroups, f: TimingFields)
    requires p + 2 <= |s| && s[p] == 'A' && s[p + 1] != '\n'
    requires RunEnd(Space, s, p + 2) == q && q > p + 2 && RunEnd(Digit, s, q) == d
    requires 1 <= d - q <= 4 && Tail(s, d) == Some(t)
    requires Fields(s, p, Group(q, d), t) == f
    ensures MatchTiming(s, p) == Some(f)
  {
    var attempts := Attempts(p, q, d);
    assert attempts[0] == Attempt(Group(q, d), d);
    assert FirstTail(s, attempts) == Some((attempts[0], t));
  }

  /** `MatchTiming` when no candidate can be read and the whitespace run gives back
      its last character to the tail. */
  lemma MatchWithoutCandidate(s: string, p: nat, q: nat, d: nat, t: TailGroups, f: TimingFields)
    requires p + 2 <= |s| && s[p] == 'A' && s[p + 1] != '\n'
    requires RunEnd(Space, s, p + 2) == q && q >= p + 4 && RunEnd(Digit, s, q) == d
    requires !(1 <= d - q <= 4) || Tail(s, d).None?
    requires Tail(s, q - 1) == Some(t)
    requires Fields(s, p, Group(q - 1, q - 1), t) == f
    ensures MatchTiming(s, p) == Some(f)
  {
    LastAttemptFirst(s, p, q, d, t);
    MatchThrough(s, p, q, d, Attempt(Group(q - 1, q - 1), q - 1), t);
  }

  /** Backtracking reaches the attempt with an empty candidate when the digits
      (if any) are not followed by a tail and the tail follows the run's last
      character. */
  lemma LastAttemptFirst(s: string, p: nat, q: nat, d: nat, t: TailGroups)
    requires p + 4 <= q <= d <= |s|
    requires !(1 <= d - q <= 4) || Tail(s, d).None?
    requires Tail(s, q - 1) == Some(t)
    ensures FirstTail(s, Attempts(p, q, d)) == Some((Attempt(Group(q - 1, q - 1), q - 1), t))
  {
    if 1 <= d - q <= 4 {
      LastAfterDigits(s, p, q, d, t);
    } else {
      NoCandidateAttempts(p, q, d);
      LastAlone(s, p, q, t);
    }
  }

  /** The attempt with the digits as candidate fails, the next one succeeds. */
  lemma LastAfterDigits(s: string, p: nat, q: nat, d: nat, t: TailGroups)
    requires p + 4 <= q <= d <= |s| && 1 <= d - q <= 4
    requires Tail(s, d).None? && Tail(s, q - 1) == Some(t)
    ensures FirstTail(s, Attempts(p, q, d)) == Some((Attempt(Group(q - 1, q - 1), q - 1), t))
  {
    DigitsAttempts(p, q, d);
    FirstTailSecond(s, Attempt(Group(q, d), d), Attempt(Group(q - 1, q - 1), q - 1), t);
  }

  /** With 1 to 4 digits after a run of two or more, both candidates are tried. */
  lemma DigitsAttempts(p: nat, q: nat, d: nat)
    requires p + 4 <= q <= d && 1 <= d - q <= 4
    ensures Attempts(p, q, d) == [Attempt(Group(q, d), d), Attempt(Group(q - 1, q - 1), q - 1)]
  {
  }

  /** Backtracking passes over a first attempt after which no tail is read and
      stops at a second one after which a tail is read. */
  lemma FirstTailSecond(s: string, a: Attempt, b: Attempt, t: TailGroups)
    requires a.from <= |s| && b.from <= |s|
    requires Tail(s, a.from).None? && Tail(s, b.from) == Some(t)
    ensures FirstTail(s, [a, b]) == Some((b, t))
  {
    assert [a, b][1..] == [b];
    FirstTailHit(s, [b], t);
  }

  /** Without a candidate of 1 to 4 digits only the empty candidate is tried,
      as when there are no digits at all. */
  lemma NoCandidateAttempts(p: nat, q: nat, d: nat)
    requires p + 4 <= q <= d && !(1 <= d - q <= 4)
    ensures Attempts(p, q, d) == Attempts(p, q, q)
  {
  }

  /** With no digits after the run, the only attempt, with an empty candidate,
      succeeds. */
  lemma LastAlone(s: string, p: nat, q: nat, t: TailGroups)
    requires p + 4 <= q <= |s| && Tail(s, q - 1) == Some(t)
    ensures FirstTail(s, Attempts(p, q, q)) == Some((Attempt(Group(q - 1, q - 1), q - 1), t))
  {
    AloneAttempt(p, q);
    FirstTailHit(s, Attempts(p, q, q), t);
  }

  /** With no digits after a run of two or more, one attempt: the empty candidate. */
  lemma AloneAttempt(p: nat, q: nat)
    requires p + 4 <= q
    ensures |Attempts(p, q, q)| == 1 && Attempts(p, q, q)[0] == Attempt(Group(q - 1, q - 1), q - 1)
  {
  }

  /** Backtracking stops at an attempt after which a tail is read. */
  lemma FirstTailHit(s: string, attempts: seq<Attempt>, t: TailGroups)
    requires forall k :: 0 <= k < |attempts| ==> attempts[k].from <= |s|
    requires attempts != [] && Tail(s, attempts[0].from) == Some(t)
    ensures FirstTail(s, attempts) == Some((attempts[0], t))
  {
  }

  /** `MatchTiming` gives the fields of the first attempt after which a tail is read. */
  lemma MatchThrough(s: string, p: nat, q: nat, d: nat, a: Attempt, t: TailGroups)
    requires p + 2 <= |s| && s[p] == 'A' && s[p + 1] != '\n'
    requires RunEnd(Space, s, p + 2) == q && q > p + 2 && RunEnd(Digit, s, q) == d
    requires FirstTail(s, Attempts(p, q, d)) == Some((a, t))
    ensures Within(s, a.candidate)
    ensures MatchTiming(s, p) == Some(Fields(s, p, a.candidate, t))
  {
  }

  /** `MatchTiming` fails when neither way of reading the candidate leads to a tail. */
  lemma MatchFails(s: string, p: nat, q: nat, d: nat)
    requires p + 2 <= |s|
    requires RunEnd(Space, s, p + 2) == q && RunEnd(Digit, s, q) == d
    requires !(1 <= d - q <= 4) || Tail(s, d).None?
    requires !(q - (p + 2) >= 2) || Tail(s, q - 1).None?
    ensures MatchTiming(s, p).None?
  {
    var attempts := Attempts(p, q, d);
    var last := Attempt(Group(q - 1, q - 1), q - 1);
    if q - (p + 2) >= 2 {
      assert FirstTail(s, [last]).None?;
      if 1 <= d - q <= 4 {
        assert attempts == [Attempt(Group(q, d), d), last];
        assert attempts[1..] == [last];
      } else {
        assert attempts == [last];
      }
    } else if 1 <= d - q <= 4 {
      assert attempts == [Attempt(Group(q, d), d)];
      assert attempts[1..] == [];
    } else {
      assert attempts == [];
    }
    assert FirstTail(s, attempts).None?;
  }

  /** The pieces of a timing line, from its type code to the whitespace after the
      days; `trailer` is anything at all. */
  function TimingPieces(f: TimingFields, gaps: seq<string>, trailer: string): (ps: seq<string>)
    requires |gaps| == 6
    ensures |ps| == 19
  {
    [f.code, gaps[0], f.candidate, gaps[1], f.sequence, gaps[2], f.channel, gaps[3],
     f.hours, ":", f.minutes, ":", f.seconds, ".", f.decimal, gaps[4], f.days, gaps[5], trailer]
  }

  /** The timing line with fields `f`, whitespace runs `gaps` between them and
      anything at all after the last run. */
  function TimingLine(f: TimingFields, gaps: seq<string>, trailer: string): string
    requires |gaps| == 6
  {
    Join(TimingPieces(f, gaps, trailer))
  }

  /** Six non-empty whitespace runs. */
  predicate AreGaps(gaps: seq<string>) {
    |gaps| == 6 && IsSpaces(gaps[0]) && IsSpaces(gaps[1]) && IsSpaces(gaps[2]) &&
    IsSpaces(gaps[3]) && IsSpaces(gaps[4]) && IsSpaces(gaps[5])
  }

  /** What the pieces of a timing line hold: a type code, the nine groups in the
      shapes the timing pattern gives them, whitespace runs between them and the
      literal `:`, `:` and `.` of the clock. */
  predicate TimingShaped(ps: seq<string>) {
    |ps| == 19 && IsTimingCode(ps[0]) && IsSpaces(ps[1]) && |ps[2]| <= 4 && AllIn(Digit, ps[2]) &&
    IsSpaces(ps[3]) && IsDigits(ps[4]) && IsSpaces(ps[5]) && IsChannel(ps[6]) && IsSpaces(ps[7]) &&
    IsDigits(ps[8]) && ps[9] == ":" && IsDigits(ps[10]) && ps[11] == ":" && IsDigits(ps[12]) &&
    ps[13] == "." && IsDigits(ps[14]) && IsSpaces(ps[15]) && IsDigits(ps[16]) && IsSpaces(ps[17])
  }

  /** The fields written in the pieces of a timing line. */
  function PieceFields(ps: seq<string>): TimingFields
    requires |ps| == 19
  {
    TimingFields(ps[0], ps[2], ps[4], ps[6], ps[8], ps[10], ps[12], ps[14], ps[16])
  }

  lemma TimingPiecesShaped(f: TimingFields, gaps: seq<string>, trailer: string)
    requires IsTimingFields(f) && AreGaps(gaps)
    ensures TimingShaped(TimingPieces(f, gaps, trailer))
    ensures PieceFields(TimingPieces(f, gaps, trailer)) == f
  {
  }

  /** The tail fields of a timing line are written from its fourth piece on. */
  lemma TailLaid(ps: seq<string>)
    requires TimingShaped(ps)
    ensures LaidFields(TailFields, ps, 3) && ClosedAt(ps, 17)
  {
    var fs := TailFields;
    assert LaidFields(fs[7..], ps, 17);
    assert fs[6..][1..] == fs[7..];
    assert LaidFields(fs[6..], ps, 15);
    assert fs[5..][1..] == fs[6..];
    assert LaidFields(fs[5..], ps, 13);
    assert fs[4..][1..] == fs[5..];
    assert LaidFields(fs[4..], ps, 11);
    assert fs[3..][1..] == fs[4..];
    assert LaidFields(fs[3..], ps, 9);
    assert fs[2..][1..] == fs[3..];
    assert LaidFields(fs[2..], ps, 7);
    assert fs[1..][1..] == fs[2..];
    assert LaidFields(fs[1..], ps, 5);
  }

  /** The tail groups where a laid-out timing line has them. */
  function TailGroupsOf(o: seq<nat>): TailGroups
    requires |o| == 20
  {
    TailGroups(PieceGroup(o, 4), PieceGroup(o, 6),
               ClockGroups(PieceGroup(o, 8), PieceGroup(o, 10), PieceGroup(o, 12), PieceGroup(o, 14)),
               PieceGroup(o, 16))
  }

  /** The tail of a laid-out timing line is read from any position of the
      whitespace run before the sequence number. */
  lemma TailPieces(s: string, ps: seq<string>, o: seq<nat>, i: nat)
    requires TimingShaped(ps) && Laid(s, ps, o)
    requires o[3] <= i < o[3] + |ps[3]|
    ensures i <= |s| && Tail(s, i) == Some(TailGroupsOf(o))
  {
    TailLaid(ps);
    FieldsRead(TailFields, s, ps, o, 3, i);
    PieceHead(s, ps, o, 17);
    TailFrom(s, i, FieldGroups(7, o, 3));
  }

  /** The fields of a laid-out timing line, read back from their groups. */
  lemma FieldsAtPieces(s: string, ps: seq<string>, o: seq<nat>, candidate: Group)
    requires |ps| == 19 && |ps[0]| == 2 && 2 <= |s| && Laid(s, ps, o)
    requires Within(s, candidate) && Captured(s, candidate) == ps[2]
    requires TailAt(s, TailGroupsOf(o))
    ensures Fields(s, 0, candidate, TailGroupsOf(o)) == PieceFields(ps)
  {
    PieceText(s, ps, o, 0);
    PieceText(s, ps, o, 4);
    PieceText(s, ps, o, 6);
    PieceText(s, ps, o, 8);
    PieceText(s, ps, o, 10);
    PieceText(s, ps, o, 12);
    PieceText(s, ps, o, 14);
    PieceText(s, ps, o, 16);
  }

  /** The line starts with an `A`, and not with `A` and a newline. */
  lemma CodeHead(s: string, ps: seq<string>, o: seq<nat>)
    requires Laid(s, ps, o) && |ps| > 0 && IsTimingCode(ps[0])
    ensures o[1] == 2 && 2 <= |s| && s[0] == 'A' && s[1] != '\n'
  {
    PieceAt(s, ps, o, 0);
    assert s[0 + 1] == ps[0][1];
  }

  /** Two whitespace pieces with an empty piece between them are one run. */
  lemma BlankRun(s: string, ps: seq<string>, o: seq<nat>)
    requires Laid(s, ps, o) && |ps| > 4 && |ps[0]| == 2
    requires IsSpaces(ps[1]) && ps[2] == "" && IsSpaces(ps[3]) && EndsRun(Space, ps, 3)
    ensures 2 <= |s| && RunEnd(Space, s, 2) == o[4] && o[4] == o[3] + |ps[3]| && o[4] >= 4
  {
    PieceAt(s, ps, o, 0);
    PieceAt(s, ps, o, 2);
    PieceRange(Space, s, ps, o, 1);
    PieceAt(s, ps, o, 3);
    PieceRun(Space, s, ps, o, 3, o[3]);
    AllInRangeJoin(Space, s, 2, o[3], o[4]);
    RunEndAt(Space, s, 2, o[4]);
  }

  /** When the candidate is blank, the sequence number is first tried as the
      candidate. The tail after it then takes the channel for the sequence number
      and the hours for the channel, and finds a `:` where whitespace must
      follow; a channel with a letter already fails as a sequence number. */
  lemma ShiftedTailFails(s: string, ps: seq<string>, o: seq<nat>, k: nat)
    requires Laid(s, ps, o) && k + 5 < |ps|
    requires IsSpaces(ps[k]) && IsChannel(ps[k + 1]) && IsSpaces(ps[k + 2])
    requires IsDigits(ps[k + 3]) && ps[k + 4] == ":"
    ensures o[k] <= |s| && Tail(s, o[k]).None?
  {
    var fs := TailFields;
    ChannelHead(ps[k + 1]);
    SpacesPiece(s, ps, o, k, o[k]);
    if IsDigits(ps[k + 1]) {
      assert LaidFields(fs[..2], ps, k) by {
        assert LaidFields(fs[..2][2..], ps, k + 4);
        assert fs[..2][1..][1..] == fs[..2][2..];
        assert LaidFields(fs[..2][1..], ps, k + 2);
      }
      PieceHead(s, ps, o, k + 4);
      SeparatorMissing(fs[2..], s, o[k + 4]);
      FieldsStop(fs, s, ps, o, k, o[k], 2);
    } else {
      PieceHead(s, ps, o, k + 1);
      ValueMissing(fs, s, o[k], o[k + 1]);
    }
    TailStops(s, o[k]);
  }

  /** The runs `MatchTiming` scans in a laid-out timing line with a candidate
      number: the whitespace run ends where the candidate starts and the digit
      run where it ends. */
  lemma CandidateLaid(s: string, ps: seq<string>, o: seq<nat>)
    requires Laid(s, ps, o) && |ps| > 4 && IsTimingCode(ps[0]) && IsSpaces(ps[1])
    requires 0 < |ps[2]| <= 4 && AllIn(Digit, ps[2]) && IsSpaces(ps[3])
    ensures 2 <= |s| && s[0] == 'A' && s[1] != '\n'
    ensures RunEnd(Space, s, 2) == o[2] && o[2] == o[1] + |ps[1]| && o[2] > 2
    ensures RunEnd(Digit, s, o[2]) == o[3] && o[3] == o[2] + |ps[2]| && 1 <= o[3] - o[2] <= 4
  {
    CodeHead(s, ps, o);
    PieceAt(s, ps, o, 1);
    PieceRun(Space, s, ps, o, 1, 2);
    DigitsPiece(s, ps, o, 2);
    PieceAt(s, ps, o, 2);
  }

  /** Read after the candidate number, the tail of a laid-out timing line gives
      back its fields. */
  lemma CandidateTail(s: string, ps: seq<string>, o: seq<nat>)
    requires TimingShaped(ps) && Laid(s, ps, o)
    ensures 2 <= |s| && o[2] <= o[3] <= |s| && Tail(s, o[3]) == Some(TailGroupsOf(o))
    ensures Fields(s, 0, Group(o[2], o[3]), TailGroupsOf(o)) == PieceFields(ps)
  {
    CodeHead(s, ps, o);
    TailPieces(s, ps, o, o[3]);
    PieceText(s, ps, o, 2);
    FieldsAtPieces(s, ps, o, Group(o[2], o[3]));
  }

  /** A laid-out timing line with a candidate number. */
  lemma ReadWithCandidate(s: string, ps: seq<string>, o: seq<nat>)
    requires TimingShaped(ps) && Laid(s, ps, o) && ps[2] != ""
    ensures MatchTiming(s, 0) == Some(PieceFields(ps))
  {
    CandidateLaid(s, ps, o);
    CandidateTail(s, ps, o);
    MatchWithCandidate(s, 0, o[2], o[3], TailGroupsOf(o), PieceFields(ps));
  }

  /** The runs `MatchTiming` scans in a laid-out timing line with a blank
      candidate: the whitespace run reaches the sequence number, which cannot be
      read as a candidate. */
  lemma BlankLaid(s: string, ps: seq<string>, o: seq<nat>)
    requires Laid(s, ps, o) && 10 < |ps| && IsTimingCode(ps[0]) && IsSpaces(ps[1]) && ps[2] == ""
    requires IsSpaces(ps[3]) && IsDigits(ps[4]) && IsSpaces(ps[5]) && IsChannel(ps[6])
    requires IsSpaces(ps[7]) && IsDigits(ps[8]) && ps[9] == ":"
    ensures 2 <= |s| && s[0] == 'A' && s[1] != '\n'
    ensures RunEnd(Space, s, 2) == o[4] && o[4] == o[3] + |ps[3]| && o[4] >= 4
    ensures RunEnd(Digit, s, o[4]) == o[5]
    ensures !(1 <= o[5] - o[4] <= 4) || Tail(s, o[5]).None?
  {
    CodeHead(s, ps, o);
    BlankRun(s, ps, o);
    DigitsPiece(s, ps, o, 4);
    ShiftedTailFails(s, ps, o, 5);
  }

  /** Read from the last whitespace character before the sequence number, the
      tail of a laid-out timing line with a blank candidate gives back its fields. */
  lemma BlankTail(s: string, ps: seq<string>, o: seq<nat>)
    requires TimingShaped(ps) && Laid(s, ps, o) && ps[2] == ""
    ensures 4 <= o[4] <= |s| && Tail(s, o[4] - 1) == Some(TailGroupsOf(o))
    ensures Fields(s, 0, Group(o[4] - 1, o[4] - 1), TailGroupsOf(o)) == PieceFields(ps)
  {
    CodeHead(s, ps, o);
    BlankRun(s, ps, o);
    TailPieces(s, ps, o, o[4] - 1);
    FieldsAtPieces(s, ps, o, Group(o[4] - 1, o[4] - 1));
  }

  /** A laid-out timing line whose candidate number is blank. */
  lemma ReadWithoutCandidate(s: string, ps: seq<string>, o: seq<nat>)
    requires TimingShaped(ps) && Laid(s, ps, o) && ps[2] == ""
    ensures MatchTiming(s, 0) == Some(PieceFields(ps))
  {
    BlankLaid(s, ps, o);
    BlankTail(s, ps, o);
    MatchWithoutCandidate(s, 0, o[4], o[5], TailGroupsOf(o), PieceFields(ps));
  }

  /** A laid-out timing line is read back field for field. */
  lemma TimingLineRead(f: TimingFields, gaps: seq<string>, trailer: string)
    requires IsTimingFields(f) && AreGaps(gaps)
    ensures MatchTiming(TimingLine(f, gaps, trailer), 0) == Some(f)
  {
    var ps := TimingPieces(f, gaps, trailer);
    TimingPiecesShaped(f, gaps, trailer);
    var o := JoinLaid(ps);
    if ps[2] != "" {
      ReadWithCandidate(Join(ps), ps, o);
    } else {
      ReadWithoutCandidate(Join(ps), ps, o);
    }
  }

  /** `re.search` reports a match at the start of the line when there is one. */
  lemma FindAtStart(pat: Pattern, line: string)
    requires MatchAt(pat, line, 0).Some?
    ensures Find(pat, line) == Some(Found(0, MatchAt(pat, line, 0).value))
  {
  }

  /** A laid-out timing line is found at its start by `re.search`, with the nine
      fields as its groups. */
  lemma TimingLineFound(f: TimingFields, gaps: seq<string>, trailer: string)
    requires IsTimingFields(f) && AreGaps(gaps)
    ensures Find(TimingPattern, TimingLine(f, gaps, trailer)) == Some(Found(0, Groups(f)))
  {
    TimingLineRead(f, gaps, trailer);
    FindAtStart(TimingPattern, TimingLine(f, gaps, trailer));
  }

  /** A timing line whose clock has no decimal part: `HH:MM:SS` followed by the
      whitespace before the days. */
  function NoDecimalPieces(f: TimingFields, gaps: seq<string>, trailer: string): (ps: seq<string>)
    requires |gaps| == 6
    ensures |ps| == 17
  {
    [f.code, gaps[0], f.candidate, gaps[1], f.sequence, gaps[2], f.channel, gaps[3],
     f.hours, ":", f.minutes, ":", f.seconds, gaps[4], f.days, gaps[5], trailer]
  }

  /** What the pieces of a timing line without a decimal part hold. */
  predicate NoDecimalShaped(ps: seq<string>) {
    |ps| == 17 && IsTimingCode(ps[0]) && IsSpaces(ps[1]) && |ps[2]| <= 4 && AllIn(Digit, ps[2]) &&
    IsSpaces(ps[3]) && IsDigits(ps[4]) && IsSpaces(ps[5]) && IsChannel(ps[6]) && IsSpaces(ps[7]) &&
    IsDigits(ps[8]) && ps[9] == ":" && IsDigits(ps[10]) && ps[11] == ":" && IsDigits(ps[12]) &&
    IsSpaces(ps[13]) && IsDigits(ps[14]) && IsSpaces(ps[15])
  }

  lemma NoDecimalPiecesShaped(f: TimingFields, gaps: seq<string>, trailer: string)
    requires IsTimingFields(f) && AreGaps(gaps)
    ensures NoDecimalShaped(NoDecimalPieces(f, gaps, trailer))
  {
  }

  /** Read from the whitespace before the sequence number, the fields stop after
      the seconds, where the `.` is missing. */
  lemma NoDecimalTail(s: string, ps: seq<string>, o: seq<nat>, i: nat)
    requires NoDecimalShaped(ps) && Laid(s, ps, o)
    requires o[3] <= i < o[3] + |ps[3]|
    ensures i <= |s| && Tail(s, i).None?
  {
    var fs := TailFields;
    assert LaidFields(fs[..5], ps, 3) by {
      assert LaidFields(fs[..5][5..], ps, 13);
      assert fs[..5][4..][1..] == fs[..5][5..];
      assert LaidFields(fs[..5][4..], ps, 11);
      assert fs[..5][3..][1..] == fs[..5][4..];
      assert LaidFields(fs[..5][3..], ps, 9);
      assert fs[..5][2..][1..] == fs[..5][3..];
      assert LaidFields(fs[..5][2..], ps, 7);
      assert fs[..5][1..][1..] == fs[..5][2..];
      assert LaidFields(fs[..5][1..], ps, 5);
    }
    PieceHead(s, ps, o, 13);
    SeparatorMissing(fs[5..], s, o[13]);
    FieldsStop(fs, s, ps, o, 3, i, 5);
    TailStops(s, i);
  }

  /** Read from the last whitespace character before the candidate number, the
      fields take the candidate for the sequence number and the sequence number
      for the channel. A channel of digits is then taken for the hours, and a `:`
      is missing after it; a channel with a letter cannot be the hours. */
  lemma BackedUpTailFails(s: string, ps: seq<string>, o: seq<nat>, i: nat)
    requires Laid(s, ps, o) && 8 < |ps|
    requires IsSpaces(ps[1]) && IsDigits(ps[2]) && IsSpaces(ps[3]) && IsDigits(ps[4])
    requires IsSpaces(ps[5]) && IsChannel(ps[6]) && IsSpaces(ps[7])
    requires o[1] <= i < o[1] + |ps[1]|
    ensures i <= |s| && Tail(s, i).None?
  {
    var fs := TailFields;
    ChannelHead(ps[6]);
    if IsDigits(ps[6]) {
      assert LaidFields(fs[..3], ps, 1) by {
        assert LaidFields(fs[..3][3..], ps, 7);
        assert fs[..3][2..][1..] == fs[..3][3..];
        assert LaidFields(fs[..3][2..], ps, 5);
        assert fs[..3][1..][1..] == fs[..3][2..];
        assert LaidFields(fs[..3][1..], ps, 3);
      }
      PieceHead(s, ps, o, 7);
      SeparatorMissing(fs[3..], s, o[7]);
      FieldsStop(fs, s, ps, o, 1, i, 3);
    } else {
      assert LaidFields(fs[..2], ps, 1) by {
        assert LaidFields(fs[..2][2..], ps, 5);
        assert fs[..2][1..][1..] == fs[..2][2..];
        assert LaidFields(fs[..2][1..], ps, 3);
      }
      SpacesPiece(s, ps, o, 5, o[5]);
      PieceHead(s, ps, o, 6);
      ValueMissing(fs[2..], s, o[5], o[6]);
      FieldsStop(fs, s, ps, o, 1, i, 2);
    }
    TailStops(s, i);
  }

  /** Without a decimal part and with a candidate number, neither reading of the
      candidate reaches a complete clock. */
  lemma NoDecimalWithCandidate(s: string, ps: seq<string>, o: seq<nat>)
    requires NoDecimalShaped(ps) && Laid(s, ps, o) && ps[2] != ""
    ensures MatchTiming(s, 0).None?
  {
    CandidateLaid(s, ps, o);
    NoDecimalTail(s, ps, o, o[3]);
    if o[2] - 2 >= 2 {
      BackedUpTailFails(s, ps, o, o[2] - 1);
    }
    MatchFails(s, 0, o[2], o[3]);
  }

  /** Without a decimal part and with a blank candidate, neither reading of the
      candidate reaches a complete clock. */
  lemma NoDecimalWithoutCandidate(s: string, ps: seq<string>, o: seq<nat>)
    requires NoDecimalShaped(ps) && Laid(s, ps, o) && ps[2] == ""
    ensures MatchTiming(s, 0).None?
  {
    BlankLaid(s, ps, o);
    NoDecimalTail(s, ps, o, o[4] - 1);
    MatchFails(s, 0, o[4], o[5]);
  }

  /** A timing line without the decimal part of its clock does not match where
      it starts. */
  lemma NoDecimalRejected(f: TimingFields, gaps: seq<string>, trailer: string)
    requires IsTimingFields(f) && AreGaps(gaps)
    ensures MatchTiming(Join(NoDecimalPieces(f, gaps, trailer)), 0).None?
  {
    var ps := NoDecimalPieces(f, gaps, trailer);
    NoDecimalPiecesShaped(f, gaps, trailer);
    var o := JoinLaid(ps);
    if ps[2] != "" {
      NoDecimalWithCandidate(Join(ps), ps, o);
    } else {
      NoDecimalWithoutCandidate(Join(ps), ps, o);
    }
  }

  /** A line with no `A` after its first character and no match at its start is
      not a timing line anywhere. */
  lemma NotFoundElsewhere(line: string)
    requires MatchTiming(line, 0).None?
    requires forall j :: 0 < j < |line| ==> line[j] != 'A'
    ensures Find(TimingPattern, line).None?
  {
    forall j | 0 <= j <= |line| ensures MatchAt(TimingPattern, line, j).None? {
      assert MatchTiming(line, j).None?;
    }
    NoMatchInFrom(TimingPattern, line, 0, |line| + 1);
    if Find(TimingPattern, line).Some? {
      NoMatchInAt(TimingPattern, line, 0, |line| + 1, Find(TimingPattern, line).value.start);
    }
  }

  /** A timing line without the decimal part of its clock, and with no other `A`,
      is not found by `re.search`. */
  lemma NoDecimalNotFound(f: TimingFields, gaps: seq<string>, trailer: string)
    requires IsTimingFields(f) && AreGaps(gaps)
    requires var line := Join(NoDecimalPieces(f, gaps, trailer));
             forall j :: 0 < j < |line| ==> line[j] != 'A'
    ensures Find(TimingPattern, Join(NoDecimalPieces(f, gaps, trailer))).None?
  {
    NoDecimalRejected(f, gaps, trailer);
    NotFoundElsewhere(Join(NoDecimalPieces(f, gaps, trailer)));
  }

  /** An identification line: `ID`, optional whitespace, the serial number, a tab
      and anything at all. */
  function SerialLine(serial: string, w: string, rest: string): string {
    Join(["ID", w, serial, "\t", rest])
  }

  /** The serial number is read back from its line. */
  lemma SerialLineRead(serial: string, w: string, rest: string)
    requires IsDigits(serial) && AllIn(Space, w)
    ensures Find(SerialPattern, SerialLine(serial, w, rest)) == Some(Found(0, [serial]))
  {
    var ps := ["ID", w, serial, "\t", rest];
    var s := Join(ps);
    var o := JoinLaid(ps);
    PieceHead(s, ps, o, 0);
    assert s[1] == 'D' by {
      PieceAt(s, ps, o, 0);
      assert s[0 + 1] == ps[0][1];
    }
    PieceRun(Space, s, ps, o, 1, 2);
    DigitsPiece(s, ps, o, 2);
    CharPiece('\t', s, ps, o, 3);
    PieceText(s, ps, o, 2);
    assert MatchSerial(s, 0) == Some([serial]);
    FindAtStart(SerialPattern, s);
  }

  /** A run line: `DS`, optional whitespace, the run number, and anything that
      does not continue the number. */
  function RunLine(run: string, w: string, rest: string): string {
    Join(["DS", w, run, rest])
  }

  /** The run number is read back from its line. */
  lemma RunLineRead(run: string, w: string, rest: string)
    requires IsDigits(run) && AllIn(Space, w) && (rest == "" || !IsDigit(rest[0]))
    ensures Find(RunPattern, RunLine(run, w, rest)) == Some(Found(0, [run]))
  {
    var ps := ["DS", w, run, rest];
    var s := Join(ps);
    var o := JoinLaid(ps);
    PieceHead(s, ps, o, 0);
    assert s[1] == 'S' by {
      PieceAt(s, ps, o, 0);
      assert s[0 + 1] == ps[0][1];
    }
    PieceRun(Space, s, ps, o, 1, 2);
    PieceRange(Digit, s, ps, o, 2);
    if rest != "" {
      PieceHead(s, ps, o, 3);
    }
    PieceAt(s, ps, o, 3);
    RunEndAt(Digit, s, o[2], o[3]);
    PieceText(s, ps, o, 2);
    assert MatchRun(s, 0) == Some([run]);
    FindAtStart(RunPattern, s);
  }
}
