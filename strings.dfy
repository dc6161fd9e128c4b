/**
 * The handful of Python `str` operations the filter compiler relies on:
 * `sep in s`, `s.split(sep)`, `sep.join(parts)` and `s.replace(pat, '')`.
 */
module Strings {
  import opened Wrappers

  predicate IsDigit(c: char) { '0' <= c <= '9' }

  predicate AllDigits(s: string) { forall i :: 0 <= i < |s| ==> IsDigit(s[i]) }

  /** True when `sep` occurs in `s` at position `i`. */
  predicate OccursAt(s: string, sep: string, i: nat)
  {
    i + |sep| <= |s| && s[i..i + |sep|] == sep
  }

  /** Position of the leftmost occurrence of `sep` in `s` (Python's `s.find(sep)`). */
  function IndexOf(s: string, sep: string): (r: Option<nat>)
    requires |sep| > 0
    ensures r.Some? ==> OccursAt(s, sep, r.value)
    decreases |s|
  {
    if |s| < |sep| then None
    else if s[..|sep|] == sep then Some(0)
    else
      match IndexOf(s[1..], sep)
      case None => None
      case Some(k) =>
        assert s[1..][k..k + |sep|] == s[k + 1..k + 1 + |sep|];
        Some(k + 1)
  }

  /** The first occurrence of a one-character separator is at the first position holding that character. */
  lemma {:induction false} FirstCharAt(s: string, c: char, i: nat)
    requires i < |s| && s[i] == c && forall j :: 0 <= j < i ==> s[j] != c
    ensures IndexOf(s, [c]) == Some(i)
    decreases i
  {
    if i > 0 {
      assert s[..1][0] == s[0];
      FirstCharAt(s[1..], c, i - 1);
    } else {
      assert s[..1] == [c];
    }
  }

  /** `IndexOf` finds an occurrence when no earlier position holds one. */
  lemma {:induction false} FirstOccurrence(s: string, sep: string, i: nat)
    requires |sep| > 0 && OccursAt(s, sep, i)
    requires forall j :: 0 <= j < i ==> !OccursAt(s, sep, j)
    ensures IndexOf(s, sep) == Some(i)
    decreases i
  {
    if i > 0 {
      assert !OccursAt(s, sep, 0);
      forall j | 0 <= j < i - 1 ensures !OccursAt(s[1..], sep, j) {
        assert !OccursAt(s, sep, j + 1);
        assert s[1..][j..j + |sep|] == s[j + 1..j + 1 + |sep|];
      }
      assert s[1..][i - 1..i - 1 + |sep|] == s[i..i + |sep|];
      FirstOccurrence(s[1..], sep, i - 1);
    }
  }

  /** Python's `sub in s`. */
  predicate Contains(s: string, sub: string)
    requires |sub| > 0
  {
    IndexOf(s, sub).Some?
  }

  /** Python's `s.split(sep)` for a non-empty separator. */
  function Split(s: string, sep: string): (parts: seq<string>)
    requires |sep| > 0
    ensures |parts| >= 1
    decreases |s|
  {
    match IndexOf(s, sep)
    case None => [s]
    case Some(i) => [s[..i]] + Split(s[i + |sep|..], sep)
  }

  /** Python's `sep.join(parts)`. */
  function Join(parts: seq<string>, sep: string): string
  {
    if |parts| == 0 then ""
    else if |parts| == 1 then parts[0]
    else parts[0] + sep + Join(parts[1..], sep)
  }

  /** Joining the pieces of a split gives the original string back. */
  lemma {:induction false} JoinSplit(s: string, sep: string)
    requires |sep| > 0
    ensures Join(Split(s, sep), sep) == s
    decreases |s|
  {
    match IndexOf(s, sep)
    case None =>
    case Some(i) =>
      var rest := s[i + |sep|..];
      var tail := Split(rest, sep);
      JoinSplit(rest, sep);
      var parts := [s[..i]] + tail;
      assert Split(s, sep) == parts;
      assert |tail| >= 1 && parts[0] == s[..i] && parts[1..] == tail;
      calc {
        Join(parts, sep);
        parts[0] + sep + Join(parts[1..], sep);
        s[..i] + sep + rest;
        { assert s[i..i + |sep|] == sep; }
        s[..i] + s[i..i + |sep|] + s[i + |sep|..];
        s;
      }
  }

  /**
   * What `sep.join(s.split(sep)[1:])` yields: the text after the first `sep`.
   * It is strictly shorter than `s` whenever `sep` occurs in it, and it splits
   * into exactly the remaining pieces.
   */
  lemma TailAfterFirst(s: string, sep: string)
    requires |sep| > 0 && Contains(s, sep)
    ensures |Join(Split(s, sep)[1..], sep)| < |s|
    ensures Split(Join(Split(s, sep)[1..], sep), sep) == Split(s, sep)[1..]
  {
    var i := IndexOf(s, sep).value;
    var rest := s[i + |sep|..];
    assert Split(s, sep) == [s[..i]] + Split(rest, sep);
    assert Split(s, sep)[1..] == Split(rest, sep);
    JoinSplit(rest, sep);
  }

  /** Python's `s.replace(pat, '')` for a non-empty `pat`: every leftmost, non-overlapping occurrence removed. */
  function RemoveAll(s: string, pat: string): (r: string)
    requires |pat| > 0
    ensures |r| <= |s|
    decreases |s|
  {
    if |s| < |pat| then s
    else if s[..|pat|] == pat then RemoveAll(s[|pat|..], pat)
    else [s[0]] + RemoveAll(s[1..], pat)
  }

  /** Value of a string of decimal digits. */
  function DigitsValue(s: string): nat
    requires AllDigits(s)
  {
    if s == [] then 0 else DigitsValue(s[..|s| - 1]) * 10 + (s[|s| - 1] as int - '0' as int)
  }
}
