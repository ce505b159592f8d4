/**
 * Characters and strings as Python's `re` and `int` see them.
 *
 * `\s` is Python's whitespace class for `str` patterns (the characters for
 * which `str.isspace()` holds). `\d` and `\w` are restricted to ASCII: the
 * timing device only emits ASCII, and the Unicode digit and letter tables are
 * not part of this model.
 */
module Text {

  /** `\s`: Python's Unicode whitespace. */
  predicate IsSpace(c: char) {
    ('\t' <= c <= '\r') || ('\U{1C}' <= c <= '\U{1F}') || c == ' ' ||
    c == '\U{85}' || c == '\U{A0}' || c == '\U{1680}' ||
    ('\U{2000}' <= c <= '\U{200A}') || c == '\U{2028}' || c == '\U{2029}' ||
    c == '\U{202F}' || c == '\U{205F}' || c == '\U{3000}'
  }

  /** `\d` (ASCII). */
  predicate IsDigit(c: char) {
    '0' <= c <= '9'
  }

  /** `\w` (ASCII): letters, digits and the underscore. */
  predicate IsWord(c: char) {
    ('a' <= c <= 'z') || ('A' <= c <= 'Z') || IsDigit(c) || c == '_'
  }

  datatype CharClass = Space | Digit | Word

  predicate In(k: CharClass, c: char) {
    match k
    case Space => IsSpace(c)
    case Digit => IsDigit(c)
    case Word => IsWord(c)
  }

  predicate AllIn(k: CharClass, s: string) {
    forall j :: 0 <= j < |s| ==> In(k, s[j])
  }

  /** A non-empty run of digits: what `(\d+)` captures. */
  predicate IsDigits(s: string) {
    |s| > 0 && AllIn(Digit, s)
  }

  /** Every character of `s` at positions `i` up to `e` is of class `k`. */
  predicate AllInRange(k: CharClass, s: string, i: nat, e: nat)
    requires i <= e <= |s|
    decreases e - i
  {
    i == e || (In(k, s[i]) && AllInRange(k, s, i + 1, e))
  }

  /** Each character of a range of class `k` is of class `k`. */
  lemma {:induction false} AllInRangeAt(k: CharClass, s: string, i: nat, e: nat, j: nat)
    requires i <= e <= |s| && AllInRange(k, s, i, e) && i <= j < e
    ensures In(k, s[j])
    decreases j - i
  {
    if i < j {
      AllInRangeAt(k, s, i + 1, e, j);
    }
  }

  /** A range whose every character is of class `k`. */
  lemma {:induction false} AllInRangeFrom(k: CharClass, s: string, i: nat, e: nat)
    requires i <= e <= |s| && forall j :: i <= j < e ==> In(k, s[j])
    ensures AllInRange(k, s, i, e)
    decreases e - i
  {
    if i < e {
      AllInRangeFrom(k, s, i + 1, e);
    }
  }

  /** A part of a range of class `k` is of class `k`. */
  lemma AllInRangeWithin(k: CharClass, s: string, i: nat, e: nat, i': nat, e': nat)
    requires i <= i' <= e' <= e <= |s| && AllInRange(k, s, i, e)
    ensures AllInRange(k, s, i', e')
  {
    forall j | i' <= j < e' ensures In(k, s[j]) {
      AllInRangeAt(k, s, i, e, j);
    }
    AllInRangeFrom(k, s, i', e');
  }

  /** Two adjacent ranges of class `k` form one. */
  lemma {:induction false} AllInRangeJoin(k: CharClass, s: string, i: nat, m: nat, e: nat)
    requires i <= m <= e <= |s| && AllInRange(k, s, i, m) && AllInRange(k, s, m, e)
    ensures AllInRange(k, s, i, e)
    decreases m - i
  {
    if i < m {
      AllInRangeJoin(k, s, i + 1, m, e);
    }
  }

  /** Where the run of class-`k` characters that starts at position `i` of `s`
      ends: how far a greedy `k*` reaches from there. */
  function RunEnd(k: CharClass, s: string, i: nat): (e: nat)
    requires i <= |s|
    ensures i <= e <= |s|
    ensures AllInRange(k, s, i, e)
    ensures e == |s| || !In(k, s[e])
    decreases |s| - i
  {
    if i == |s| || !In(k, s[i]) then i else RunEnd(k, s, i + 1)
  }

  /** A run of class `k` from `i` to `e` followed by the end of `s` or by a
      character outside the class is exactly what `RunEnd` finds. */
  lemma {:induction false} RunEndAt(k: CharClass, s: string, i: nat, e: nat)
    requires i <= e <= |s| && AllInRange(k, s, i, e) && (e == |s| || !In(k, s[e]))
    ensures RunEnd(k, s, i) == e
    decreases e - i
  {
    if i < e {
      RunEndAt(k, s, i + 1, e);
    }
  }

  /** The range form and the string form of a class test agree. */
  lemma RangeSlice(k: CharClass, s: string, i: nat, e: nat)
    requires i <= e <= |s|
    ensures AllInRange(k, s, i, e) <==> AllIn(k, s[i..e])
  {
    if AllInRange(k, s, i, e) {
      forall j | 0 <= j < e - i ensures In(k, s[i..e][j]) {
        AllInRangeAt(k, s, i, e, i + j);
        assert s[i..e][j] == s[i + j];
      }
    }
    if AllIn(k, s[i..e]) {
      forall j | i <= j < e ensures In(k, s[j]) {
        assert s[j] == s[i..e][j - i];
      }
      AllInRangeFrom(k, s, i, e);
    }
  }

  lemma AppendAssoc<T>(a: seq<T>, b: seq<T>, c: seq<T>)
    ensures a + (b + c) == a + b + c
  {
  }

  /** The middle of three sequences written one after the other. */
  lemma Between<T>(a: seq<T>, m: seq<T>, b: seq<T>)
    ensures (a + m + b)[|a|..|a + m + b| - |b|] == m
  {
    var s := a + m + b;
    var x := s[|a|..|s| - |b|];
    forall j | 0 <= j < |m| ensures x[j] == m[j] {
      assert x[j] == s[|a| + j];
    }
  }

  predicate StartsWith(s: string, prefix: string) {
    |prefix| <= |s| && s[..|prefix|] == prefix
  }

  function DigitValue(c: char): (v: nat)
    requires IsDigit(c)
    ensures v < 10
  {
    c as int - '0' as int
  }

  function DigitChar(v: nat): (c: char)
    requires v < 10
    ensures IsDigit(c) && DigitValue(c) == v
  {
    ('0' as int + v) as char
  }

  /** Python's `int(s)` on a string of decimal digits. */
  function DecimalValue(s: string): nat
    requires AllIn(Digit, s)
  {
    if s == [] then 0
    else DecimalValue(s[..|s| - 1]) * 10 + DigitValue(s[|s| - 1])
  }

  function Pow10(w: nat): (p: nat)
    ensures p >= 1
  {
    if w == 0 then 1 else 10 * Pow10(w - 1)
  }

  /** `n` written in decimal with exactly `w` digits, zero-padded on the left
      (the `%0wd` of Python's date formatting). */
  function Padded(n: nat, w: nat): (s: string)
    requires n < Pow10(w)
    ensures |s| == w && AllIn(Digit, s)
    ensures DecimalValue(s) == n
  {
    if w == 0 then ""
    else
      var s := Padded(n / 10, w - 1) + [DigitChar(n % 10)];
      assert s[..|s| - 1] == Padded(n / 10, w - 1);
      s
  }
}
