/** Character classes, ASCII case folding and the string splitting and joining the controller relies on. */
module Strings {

  /** ASCII lower-casing. A JavaScript regular expression with the `i` flag and without the `u`
      flag compares characters after upper-casing them, and never lets a non-ASCII character
      stand for an ASCII one, so for ASCII patterns this folding decides the same matches. */
  function Fold(c: char): (f: char)
    ensures 'A' <= c <= 'Z' ==> 'a' <= f <= 'z' && f as int == c as int + 32
    ensures !('A' <= c <= 'Z') ==> f == c
  {
    if 'A' <= c <= 'Z' then (c as int + 32) as char else c
  }

  /** The two strings are equal up to ASCII case. */
  predicate FoldEq(a: string, b: string) {
    |a| == |b| && forall i :: 0 <= i < |a| ==> Fold(a[i]) == Fold(b[i])
  }

  predicate IsDigit(c: char) {
    '0' <= c <= '9'
  }

  /** A member of the class `[0-9a-zA-Z ]`. */
  predicate IsNameChar(c: char) {
    IsDigit(c) || 'a' <= c <= 'z' || 'A' <= c <= 'Z' || c == ' '
  }

  predicate AllDigits(s: string) {
    forall i :: 0 <= i < |s| ==> IsDigit(s[i])
  }

  predicate AllNameChars(s: string) {
    forall i :: 0 <= i < |s| ==> IsNameChar(s[i])
  }

  /** Characters equal up to case are both digits or both not, and both in `[0-9a-zA-Z ]` or both not. */
  lemma FoldKeepsClasses(a: char, b: char)
    requires Fold(a) == Fold(b)
    ensures IsDigit(a) == IsDigit(b)
    ensures IsNameChar(a) == IsNameChar(b)
  {
  }

  /** The length of the longest run of digits at the front of `s`: what the greedy `[0-9]+` takes. */
  function DigitRun(s: string): (n: nat)
    ensures n <= |s|
    ensures AllDigits(s[..n])
    ensures n < |s| ==> !IsDigit(s[n])
  {
    if s != [] && IsDigit(s[0]) then
      var k := DigitRun(s[1..]);
      assert s[..k + 1] == [s[0]] + s[1..][..k];
      k + 1
    else 0
  }

  /** A run of digits that is followed by a non-digit is exactly the greedy run. */
  lemma {:induction false} DigitRunOf(d: string, rest: string)
    requires AllDigits(d)
    requires rest == [] || !IsDigit(rest[0])
    ensures DigitRun(d + rest) == |d|
  {
    if d != [] {
      assert (d + rest)[1..] == d[1..] + rest;
      DigitRunOf(d[1..], rest);
    } else {
      assert d + rest == rest;
    }
  }

  /** Strings equal up to case have digit runs of the same length. */
  lemma {:induction false} DigitRunIgnoresCase(a: string, b: string)
    requires FoldEq(a, b)
    ensures DigitRun(a) == DigitRun(b)
  {
    if a != [] {
      FoldKeepsClasses(a[0], b[0]);
      if IsDigit(a[0]) {
        DigitRunIgnoresCase(a[1..], b[1..]);
      }
    }
  }

  /** JavaScript's `s.split(c)` for a one-character separator: the fields between separators, in order. */
  function SplitOn(s: string, c: char): (fields: seq<string>)
    ensures |fields| >= 1
    ensures forall i :: 0 <= i < |fields| ==> c !in fields[i]
  {
    if s == [] then [[]]
    else
      var rest := SplitOn(s[1..], c);
      if s[0] == c then [[]] + rest
      else [[s[0]] + rest[0]] + rest[1..]
  }

  /** Splitting loses nothing: joining the fields back gives the original string. */
  lemma {:induction false} JoinSplitOn(s: string, c: char)
    ensures JoinWith(SplitOn(s, c), [c]) == s
  {
    if s != [] {
      var rest := SplitOn(s[1..], c);
      JoinSplitOn(s[1..], c);
      if s[0] != c {
        var fields := SplitOn(s, c);
        assert fields[0] == [s[0]] + rest[0];
        if |rest| == 1 {
          assert s == [s[0]] + s[1..];
        } else {
          assert fields[1..] == rest[1..];
          assert JoinWith(rest, [c]) == rest[0] + [c] + JoinWith(rest[1..], [c]);
          assert s == [s[0]] + s[1..];
        }
      } else {
        assert ([[]] + rest)[1..] == rest;
        assert s == [c] + s[1..];
      }
    }
  }

  /** A string without the separator is a single field. */
  lemma {:induction false} SplitOnNone(s: string, c: char)
    requires c !in s
    ensures SplitOn(s, c) == [s]
  {
    if s != [] {
      assert c !in s[1..];
      SplitOnNone(s[1..], c);
      assert [s[0]] + s[1..] == s;
    }
  }

  /** The first field is everything before the first separator; the rest is the split of what follows it. */
  lemma {:induction false} SplitOnFirst(m: string, c: char, rest: string)
    requires c !in m
    ensures SplitOn(m + [c] + rest, c) == [m] + SplitOn(rest, c)
  {
    if m == [] {
      assert m + [c] + rest == [c] + rest;
      assert ([c] + rest)[1..] == rest;
    } else {
      var s := m + [c] + rest;
      assert s[0] == m[0];
      assert s[1..] == m[1..] + [c] + rest;
      assert c !in m[1..];
      SplitOnFirst(m[1..], c, rest);
      assert [m[0]] + m[1..] == m;
    }
  }

  /** JavaScript's `parts.join(sep)`: the empty list joins to the empty string. */
  function JoinWith(parts: seq<string>, sep: string): string {
    if |parts| == 0 then ""
    else if |parts| == 1 then parts[0]
    else parts[0] + sep + JoinWith(parts[1..], sep)
  }
}
