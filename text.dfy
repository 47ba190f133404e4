/**
 * The few Python string operations the bot relies on: `str.strip()`,
 * `sub in s`, `str.split(sep)`, `int(s)` and `str(n)`, on strings modelled as
 * sequences of characters.
 */
module Text {
  import opened Wrappers

  /** Python's `str.isspace()` for a single character. */
  predicate IsSpace(c: char) {
    || c == ' '
    || ('\t' <= c <= '\r')
    || ('\U{1c}' <= c <= '\U{1f}')
    || c == '\U{85}' || c == '\U{a0}' || c == '\U{1680}'
    || ('\U{2000}' <= c <= '\U{200a}')
    || c == '\U{2028}' || c == '\U{2029}' || c == '\U{202f}' || c == '\U{205f}' || c == '\U{3000}'
  }

  /** `s.lstrip()`: drops the leading whitespace (`StripStartCuts` says it drops nothing else). */
  function StripStart(s: string): (r: string)
    ensures |r| <= |s|
    ensures r == [] || !IsSpace(r[0])
  {
    if s != [] && IsSpace(s[0]) then StripStart(s[1..]) else s
  }

  /** What `s.lstrip()` cuts is a run of whitespace, and what it keeps is the rest of `s`. */
  lemma {:induction false} StripStartCuts(s: string)
    ensures var r := StripStart(s); r == s[|s| - |r|..] && forall k :: 0 <= k < |s| - |r| ==> IsSpace(s[k])
  {
    if s != [] && IsSpace(s[0]) {
      StripStartCuts(s[1..]);
      var r := StripStart(s);
      assert s[1..][|s| - 1 - |r|..] == s[|s| - |r|..];
      forall k | 1 <= k < |s| - |r| ensures IsSpace(s[k]) {
        assert s[k] == s[1..][k - 1];
      }
    }
  }

  /** `s.rstrip()`: drops the trailing whitespace (`StripEndCuts` says it drops nothing else). */
  function StripEnd(s: string): (r: string)
    ensures |r| <= |s|
    ensures r == [] || !IsSpace(r[|r| - 1])
  {
    if s != [] && IsSpace(s[|s| - 1]) then StripEnd(s[..|s| - 1]) else s
  }

  /** What `s.rstrip()` cuts is a run of whitespace, and what it keeps is the start of `s`. */
  lemma {:induction false} StripEndCuts(s: string)
    ensures var r := StripEnd(s); r == s[..|r|] && forall k :: |r| <= k < |s| ==> IsSpace(s[k])
  {
    if s != [] && IsSpace(s[|s| - 1]) {
      var p := s[..|s| - 1];
      StripEndCuts(p);
      var r := StripEnd(s);
      assert p[..|r|] == s[..|r|];
      forall k | |r| <= k < |p| ensures IsSpace(s[k]) {
        assert s[k] == p[k];
      }
    }
  }

  /**
   * `r` is what remains of `s` once whitespace is cut from both ends, the cut
   * starting at index `i`.
   */
  predicate StrippedAt(s: string, i: int, r: string) {
    && 0 <= i <= |s| - |r|
    && r == s[i..i + |r|]
    && (forall k :: 0 <= k < i ==> IsSpace(s[k]))
    && (forall k :: i + |r| <= k < |s| ==> IsSpace(s[k]))
    && (r == [] || (!IsSpace(r[0]) && !IsSpace(r[|r| - 1])))
  }

  /**
   * `s.strip()`: whitespace cut from both ends; what remains neither starts nor
   * ends with whitespace (`StripIsInfix` shows it is the middle of `s`).
   */
  function Strip(s: string): (r: string)
    ensures |r| <= |s|
    ensures r == [] || (!IsSpace(r[0]) && !IsSpace(r[|r| - 1]))
  {
    var t := StripStart(s);
    var r := StripEnd(t);
    StripEndCuts(t);
    assert r == [] || r[0] == t[0];
    r
  }

  /** `s.strip()` is an infix of `s` with only whitespace before and after it. */
  lemma StripIsInfix(s: string)
    ensures exists i :: StrippedAt(s, i, Strip(s))
  {
    StripStartCuts(s);
    StripEndCuts(StripStart(s));
    CutBothEnds(s, StripStart(s), StripEnd(StripStart(s)));
    assert StrippedAt(s, |s| - |StripStart(s)|, Strip(s));
  }

  /** A suffix `t` of `s` after leading whitespace, and a prefix `r` of `t` before trailing whitespace. */
  lemma CutBothEnds(s: string, t: string, r: string)
    requires |t| <= |s| && t == s[|s| - |t|..]
    requires forall k :: 0 <= k < |s| - |t| ==> IsSpace(s[k])
    requires t == [] || !IsSpace(t[0])
    requires |r| <= |t| && r == t[..|r|]
    requires forall k :: |r| <= k < |t| ==> IsSpace(t[k])
    requires r == [] || !IsSpace(r[|r| - 1])
    ensures StrippedAt(s, |s| - |t|, r)
  {
    var i := |s| - |t|;
    assert r == s[i..i + |r|];
    forall k | i + |r| <= k < |s| ensures IsSpace(s[k]) {
      assert s[k] == t[k - i];
    }
    if r != [] {
      assert r[0] == t[0];
    }
  }

  /** Stripping an already stripped string changes nothing. */
  lemma {:induction false} StripIdempotent(s: string)
    ensures Strip(Strip(s)) == Strip(s)
  {
    StripNothing(Strip(s));
  }

  /** A string with no whitespace at either end is its own `strip()`. */
  lemma StripNothing(s: string)
    requires s == [] || (!IsSpace(s[0]) && !IsSpace(s[|s| - 1]))
    ensures Strip(s) == s
  {
    assert StripStart(s) == s;
    assert StripEnd(s) == s;
  }

  /** `sep` occurs in `s` starting at index `k`. */
  predicate OccursAt(s: string, sep: string, k: int) {
    0 <= k && k + |sep| <= |s| && s[k..k + |sep|] == sep
  }

  /** The lowest index at or after `from` where `sep` occurs in `s` (`s.find(sep, from)`). */
  function FindFrom(s: string, sep: string, from: nat): (r: Option<nat>)
    ensures r.Some? ==> from <= r.value && OccursAt(s, sep, r.value)
    ensures r.Some? ==> forall k :: from <= k < r.value ==> !OccursAt(s, sep, k)
    ensures r.None? ==> forall k :: from <= k ==> !OccursAt(s, sep, k)
    decreases |s| - from
  {
    if from + |sep| > |s| then None
    else if s[from..from + |sep|] == sep then Some(from)
    else FindFrom(s, sep, from + 1)
  }

  /** Python's `sub in s`. */
  predicate Contains(s: string, sub: string) {
    FindFrom(s, sub, 0).Some?
  }

  /** `sub in s` holds exactly when `sub` occurs at some index of `s`. */
  lemma ContainsIff(s: string, sub: string)
    ensures Contains(s, sub) <==> exists k :: OccursAt(s, sub, k)
  {
  }

  /**
   * Python's `s.split(sep)` for a non-empty separator: the pieces between the
   * non-overlapping occurrences of `sep`, found from left to right.
   */
  function Split(s: string, sep: string): (r: seq<string>)
    requires sep != []
    ensures |r| >= 1
    decreases |s|
  {
    match FindFrom(s, sep, 0)
    case None => [s]
    case Some(i) => [s[..i]] + Split(s[i + |sep|..], sep)
  }

  /** Python's `sep.join(pieces)`. */
  function Join(pieces: seq<string>, sep: string): string {
    if |pieces| == 0 then ""
    else if |pieces| == 1 then pieces[0]
    else pieces[0] + sep + Join(pieces[1..], sep)
  }

  /** Splitting loses nothing: joining the pieces with the separator gives back the string. */
  lemma {:induction false} JoinSplit(s: string, sep: string)
    requires sep != []
    ensures Join(Split(s, sep), sep) == s
    decreases |s|
  {
    match FindFrom(s, sep, 0)
    case None =>
    case Some(i) =>
      var rest := s[i + |sep|..];
      var tail := Split(rest, sep);
      JoinSplit(rest, sep);
      assert Split(s, sep) == [s[..i]] + tail;
      assert Join([s[..i]] + tail, sep) == s[..i] + sep + Join(tail, sep) by {
        assert ([s[..i]] + tail)[1..] == tail;
      }
      assert s[i..i + |sep|] == sep;
      assert s == s[..i] + s[i..i + |sep|] + rest;
  }

  /** No piece of a split contains the separator. */
  lemma {:induction false} SplitPiecesFree(s: string, sep: string)
    requires sep != []
    ensures forall p :: p in Split(s, sep) ==> !Contains(p, sep)
    decreases |s|
  {
    match FindFrom(s, sep, 0)
    case None =>
      forall k | OccursAt(s, sep, k) ensures false { }
    case Some(i) =>
      var rest := s[i + |sep|..];
      SplitPiecesFree(rest, sep);
      var head := s[..i];
      forall k | OccursAt(head, sep, k) ensures false {
        assert head[k..k + |sep|] == s[k..k + |sep|];
        assert OccursAt(s, sep, k) && k < i;
      }
      assert Split(s, sep) == [head] + Split(rest, sep);
  }

  /**
   * The first piece of a split ends at the leftmost occurrence of the separator:
   * followed by the separator, it finds that occurrence first.
   */
  lemma LeftmostCut(s: string, sep: string, i: nat)
    requires sep != [] && FindFrom(s, sep, 0) == Some(i)
    ensures FindFrom(s[..i] + sep, sep, 0) == Some(i)
  {
    var t := s[..i] + sep;
    assert t == s[..i + |sep|];
    assert OccursAt(t, sep, i);
    match FindFrom(t, sep, 0)
    case None =>
    case Some(j) =>
      if j < i {
        assert t[j..j + |sep|] == s[j..j + |sep|];
        assert OccursAt(s, sep, j);
      }
  }

  /**
   * Each cut is at the leftmost remaining occurrence, as Python's `split` makes
   * it: every piece but the last, followed by the separator, first contains the
   * separator exactly at its end. With a separator that overlaps itself, such as
   * `" | "`, this decides the pieces, which the round trip alone does not.
   */
  lemma {:induction false} SplitLeftmost(s: string, sep: string)
    requires sep != []
    ensures var r := Split(s, sep);
      forall i :: 0 <= i < |r| - 1 ==> FindFrom(r[i] + sep, sep, 0) == Some(|r[i]|)
    decreases |s|
  {
    match FindFrom(s, sep, 0)
    case None =>
    case Some(c) =>
      var rest := s[c + |sep|..];
      var r := Split(s, sep);
      SplitLeftmost(rest, sep);
      LeftmostCut(s, sep, c);
      assert r == [s[..c]] + Split(rest, sep);
      forall i | 0 <= i < |r| - 1
        ensures FindFrom(r[i] + sep, sep, 0) == Some(|r[i]|)
      {
        if i > 0 {
          assert r[i] == Split(rest, sep)[i - 1];
        }
      }
  }

  predicate IsDigit(c: char) {
    '0' <= c <= '9'
  }

  predicate IsDigits(s: string) {
    s != [] && forall k :: 0 <= k < |s| ==> IsDigit(s[k])
  }

  function DigitChar(d: nat): (c: char)
    requires d < 10
    ensures IsDigit(c)
  {
    "0123456789"[d]
  }

  function DigitValue(c: char): nat
    requires IsDigit(c)
  {
    c as int - '0' as int
  }

  /** The value of a run of decimal digits, most significant first. */
  function DigitsValue(s: string): nat
    requires forall k :: 0 <= k < |s| ==> IsDigit(s[k])
  {
    if s == [] then 0
    else DigitsValue(s[..|s| - 1]) * 10 + DigitValue(s[|s| - 1])
  }

  /** Python's `str(n)` for a non-negative integer. */
  function NatToString(n: nat): (r: string)
    ensures IsDigits(r)
  {
    if n < 10 then [DigitChar(n)] else NatToString(n / 10) + [DigitChar(n % 10)]
  }

  /** Python's `str(n)` for an integer. */
  function IntToString(n: int): string {
    if n < 0 then "-" + NatToString(-n) else NatToString(n)
  }

  /**
   * Python's `int(s)` on a string: surrounding whitespace is ignored, then an
   * optional sign and at least one decimal digit; anything else raises (`None`).
   */
  function ParseInt(s: string): Option<int> {
    var t := Strip(s);
    if t != [] && (t[0] == '+' || t[0] == '-') then
      if IsDigits(t[1..]) then
        var v: int := DigitsValue(t[1..]);
        Some(if t[0] == '-' then -v else v)
      else None
    else if IsDigits(t) then Some(DigitsValue(t))
    else None
  }

  lemma {:induction false} DigitsOfNat(n: nat)
    ensures DigitsValue(NatToString(n)) == n
  {
    if n < 10 {
      assert NatToString(n) == [DigitChar(n)];
      assert DigitValue(DigitChar(n)) == n by { DigitCharValue(n); }
    } else {
      DigitsOfNat(n / 10);
      var s := NatToString(n);
      assert s == NatToString(n / 10) + [DigitChar(n % 10)];
      assert s[..|s| - 1] == NatToString(n / 10);
      assert DigitValue(DigitChar(n % 10)) == n % 10 by { DigitCharValue(n % 10); }
    }
  }

  lemma DigitCharValue(d: nat)
    requires d < 10
    ensures DigitValue(DigitChar(d)) == d
  {
  }

  lemma DigitNotSpace(c: char)
    requires IsDigit(c)
    ensures !IsSpace(c)
  {
  }

  /** `int(str(n)) == n`: the catalog's ids survive being rendered as callback data. */
  lemma ParseIntRoundTrip(n: int)
    ensures ParseInt(IntToString(n)) == Some(n)
  {
    if n < 0 {
      NegativeRoundTrip(n);
    } else {
      NaturalRoundTrip(n);
    }
  }

  lemma NaturalRoundTrip(n: int)
    requires n >= 0
    ensures ParseInt(IntToString(n)) == Some(n)
  {
    var d := NatToString(n);
    assert IntToString(n) == d;
    DigitNotSpace(d[0]);
    DigitNotSpace(d[|d| - 1]);
    StripNothing(d);
    assert Strip(d) == d && IsDigits(d) && d[0] != '+' && d[0] != '-';
    DigitsOfNat(n);
  }

  lemma NegativeRoundTrip(n: int)
    requires n < 0
    ensures ParseInt(IntToString(n)) == Some(n)
  {
    var d := NatToString(-n);
    assert IntToString(n) == "-" + d;
    DigitsOfNat(-n);
    NegativeDigits(d, -n);
  }

  lemma NegativeDigits(d: string, m: int)
    requires IsDigits(d) && DigitsValue(d) == m
    ensures ParseInt("-" + d) == Some(-m)
  {
    var s := "-" + d;
    assert s[1..] == d && s[0] == '-' && s[|s| - 1] == d[|d| - 1];
    DigitNotSpace(d[|d| - 1]);
    StripNothing(s);
    NegativeValue(s, d, m);
  }

  lemma NegativeValue(s: string, d: string, m: int)
    requires Strip(s) == s && |s| >= 1 && s[0] == '-' && s[1..] == d && IsDigits(d) && DigitsValue(d) == m
    ensures ParseInt(s) == Some(-m)
  {
  }
}
