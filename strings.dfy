/**
 * The handful of Python `str` operations that the analysis tool relies on,
 * written out over `seq<char>`: `strip`, `split` with a literal separator,
 * `join`, `splitlines`, `in` on substrings, ASCII `upper` and `str(int)`.
 */
module Strings {
  import opened Common

  /** Python's `str.isspace()` for one character (the Unicode white-space set). */
  predicate IsSpace(c: char) {
    c == ' ' || ('\t' <= c <= '\r') || ('\U{1c}' <= c <= '\U{1f}') ||
    c == '\U{85}' || c == '\U{a0}' || c == '\U{1680}' || ('\U{2000}' <= c <= '\U{200a}') ||
    c == '\U{2028}' || c == '\U{2029}' || c == '\U{202f}' || c == '\U{205f}' || c == '\U{3000}'
  }

  /** True when every character is white space (so `s.strip()` is falsy). */
  predicate IsBlank(s: string) {
    forall i :: 0 <= i < |s| ==> IsSpace(s[i])
  }

  function TrimLeft(s: string): (r: string)
    ensures |r| <= |s|
    ensures r != [] ==> !IsSpace(r[0])
  {
    if s != [] && IsSpace(s[0]) then TrimLeft(s[1..]) else s
  }

  /** `TrimLeft` keeps a suffix, and only white space is cut off on the left. */
  lemma {:induction false} TrimLeftCutsBlank(s: string)
    ensures TrimLeft(s) == s[|s| - |TrimLeft(s)|..]
    ensures IsBlank(s[..|s| - |TrimLeft(s)|])
  {
    if s != [] && IsSpace(s[0]) {
      var r := TrimLeft(s[1..]);
      TrimLeftCutsBlank(s[1..]);
      assert s[..|s| - |r|] == [s[0]] + s[1..][..|s| - 1 - |r|];
    }
  }

  function TrimRight(s: string): (r: string)
    ensures |r| <= |s|
    ensures r != [] ==> !IsSpace(r[|r| - 1])
  {
    if s != [] && IsSpace(s[|s| - 1]) then TrimRight(s[..|s| - 1]) else s
  }

  /** `TrimRight` keeps a prefix, and only white space is cut off on the right. */
  lemma {:induction false} TrimRightCutsBlank(s: string)
    ensures TrimRight(s) == s[..|TrimRight(s)|]
    ensures IsBlank(s[|TrimRight(s)|..])
  {
    if s != [] && IsSpace(s[|s| - 1]) {
      var r := TrimRight(s[..|s| - 1]);
      TrimRightCutsBlank(s[..|s| - 1]);
      assert s[|r|..] == s[..|s| - 1][|r|..] + [s[|s| - 1]];
    }
  }

  /** Python's `s.strip()`: neither end of the result is white space. */
  function Strip(s: string): (r: string)
    ensures |r| <= |s|
    ensures r != [] ==> !IsSpace(r[0]) && !IsSpace(r[|r| - 1])
  {
    var t := TrimLeft(s);
    TrimRightCutsBlank(t);
    TrimRight(t)
  }

  /** `s.strip()` is the slice of `s` at `i`, and only white space was cut off on either side. */
  lemma {:induction false} StripSlice(s: string) returns (i: nat)
    ensures i + |Strip(s)| <= |s| && Strip(s) == s[i..i + |Strip(s)|]
    ensures IsBlank(s[..i]) && IsBlank(s[i + |Strip(s)|..])
  {
    var t := TrimLeft(s);
    var r := TrimRight(t);
    i := |s| - |t|;
    TrimLeftCutsBlank(s);
    TrimRightCutsBlank(t);
    assert r == s[i..i + |r|];
    assert s[i + |r|..] == t[|r|..];
  }

  /** `s.strip()` is empty exactly when `s` is blank. */
  lemma {:induction false} StripEmptyIffBlank(s: string)
    ensures Strip(s) == [] <==> IsBlank(s)
  {
    var r := Strip(s);
    var i := StripSlice(s);
    if r == [] {
      forall k | 0 <= k < |s| ensures IsSpace(s[k]) {
        if k < i { assert s[..i][k] == s[k]; } else { assert s[i..][k - i] == s[k]; }
      }
    } else {
      assert s[i] == r[0];
    }
  }

  /** Python's `s.startswith(p)`. */
  predicate StartsWith(s: string, p: string) {
    |p| <= |s| && s[..|p|] == p
  }

  /** Python's `sub in s` for strings. */
  predicate Contains(s: string, sub: string) {
    exists i | 0 <= i <= |s| - |sub| :: OccursAt(s, sub, i)
  }

  /** `sub` occurs in `s` starting at index `i`. */
  predicate OccursAt(s: string, sub: string, i: int) {
    0 <= i <= |s| - |sub| && s[i..i + |sub|] == sub
  }

  /**
   * Python's `s.split(sep)` for a non-empty literal separator: the leftmost
   * non-overlapping occurrences of `sep` cut `s`; there is always one more
   * part than occurrences, and empty parts are kept.
   */
  function Split(s: string, sep: string): (parts: seq<string>)
    requires sep != []
    ensures |parts| >= 1
    decreases |s|
  {
    if |s| < |sep| then [s]
    else if s[..|sep|] == sep then [""] + Split(s[|sep|..], sep)
    else
      var rest := Split(s[1..], sep);
      [[s[0]] + rest[0]] + rest[1..]
  }

  /** Python's `sep.join(parts)`. */
  function Join(parts: seq<string>, sep: string): (r: string)
    ensures |parts| == 1 ==> r == parts[0]
  {
    if |parts| == 0 then ""
    else if |parts| == 1 then parts[0]
    else parts[0] + sep + Join(parts[1..], sep)
  }

  /** Joining the parts of a split with the same separator gives back the input. */
  lemma {:induction false} JoinSplit(s: string, sep: string)
    requires sep != []
    ensures Join(Split(s, sep), sep) == s
    decreases |s|
  {
    if |s| < |sep| {
    } else if s[..|sep|] == sep {
      JoinSplit(s[|sep|..], sep);
      JoinSplitAtSeparator(s, sep);
    } else {
      JoinSplit(s[1..], sep);
      JoinSplitAtChar(s, sep);
    }
  }

  /** The step of `JoinSplit` where `s` starts with the separator. */
  lemma {:induction false} JoinSplitAtSeparator(s: string, sep: string)
    requires sep != [] && |s| >= |sep| && s[..|sep|] == sep
    requires Join(Split(s[|sep|..], sep), sep) == s[|sep|..]
    ensures Join(Split(s, sep), sep) == s
  {
    var tail := s[|sep|..];
    var rest := Split(tail, sep);
    assert Split(s, sep) == [""] + rest;
    JoinCons("", rest, sep);
    assert "" + sep == sep;
    assert s == sep + tail;
  }

  /** The step of `JoinSplit` where `s` does not start with the separator. */
  lemma {:induction false} JoinSplitAtChar(s: string, sep: string)
    requires sep != [] && |s| >= |sep| && s[..|sep|] != sep
    requires Join(Split(s[1..], sep), sep) == s[1..]
    ensures Join(Split(s, sep), sep) == s
  {
    var tail := s[1..];
    var rest := Split(tail, sep);
    var head := [s[0]] + rest[0];
    var more := rest[1..];
    assert Split(s, sep) == [head] + more;
    if |rest| == 1 {
      assert [head] + more == [head];
      assert tail == rest[0];
    } else {
      JoinCons(head, more, sep);
      assert rest == [rest[0]] + more;
      JoinCons(rest[0], more, sep);
      assert tail == rest[0] + sep + Join(more, sep);
      AppendAssoc([s[0]], rest[0], sep);
      AppendAssoc([s[0]], rest[0] + sep, Join(more, sep));
    }
    assert s == [s[0]] + tail;
  }

  /** Joining a part in front of at least one other adds it and a separator. */
  lemma {:induction false} JoinCons(part: string, rest: seq<string>, sep: string)
    requires |rest| >= 1
    ensures Join([part] + rest, sep) == part + sep + Join(rest, sep)
  {
    assert ([part] + rest)[1..] == rest;
  }

  /** No part of a split contains the separator it was split on. */
  lemma {:induction false} SplitPartsAvoidSeparator(s: string, sep: string)
    requires sep != []
    ensures forall k :: 0 <= k < |Split(s, sep)| ==> !Contains(Split(s, sep)[k], sep)
    decreases |s|
  {
    if |s| < |sep| {
      forall i ensures !OccursAt(s, sep, i) { }
    } else if s[..|sep|] == sep {
      SplitPartsAvoidSeparator(s[|sep|..], sep);
      var rest := Split(s[|sep|..], sep);
      var parts := Split(s, sep);
      assert parts == [""] + rest;
      forall k | 0 <= k < |parts| ensures !Contains(parts[k], sep) {
        if k > 0 { assert parts[k] == rest[k - 1]; }
      }
    } else {
      SplitPartsAvoidSeparator(s[1..], sep);
      var rest := Split(s[1..], sep);
      var parts := Split(s, sep);
      assert parts == [[s[0]] + rest[0]] + rest[1..];
      FirstPartAvoidsSeparator(s, sep);
      forall k | 1 <= k < |parts| ensures !Contains(parts[k], sep) {
        assert parts[k] == rest[k];
      }
    }
  }

  /**
   * When `s` does not start with the separator, the first part of its split
   * (its first character in front of the first part of the rest) has no
   * occurrence of it either.
   */
  lemma {:induction false} FirstPartAvoidsSeparator(s: string, sep: string)
    requires sep != [] && |s| >= |sep| && s[..|sep|] != sep
    requires !Contains(Split(s[1..], sep)[0], sep)
    ensures !Contains([s[0]] + Split(s[1..], sep)[0], sep)
  {
    var rest := Split(s[1..], sep);
    var p := [s[0]] + rest[0];
    JoinSplit(s[1..], sep);
    forall i | 0 <= i <= |p| - |sep| ensures !OccursAt(p, sep, i) {
      if i == 0 {
        JoinPrefix(rest, sep);
        assert p[..|sep|] == s[..|sep|];
      } else {
        assert p[i..i + |sep|] == rest[0][i - 1..i - 1 + |sep|];
        assert !OccursAt(rest[0], sep, i - 1);
      }
    }
  }

  /** An occurrence past the first character is an occurrence in the rest, one place earlier. */
  lemma {:induction false} OccursShift(s: string, sub: string, i: int)
    requires s != [] && 1 <= i
    ensures OccursAt(s, sub, i) <==> OccursAt(s[1..], sub, i - 1)
  {
    if 0 <= i - 1 <= |s[1..]| - |sub| {
      assert s[1..][i - 1..i - 1 + |sub|] == s[i..i + |sub|];
    }
  }

  /**
   * `split` cuts at the leftmost occurrence: a single part means the
   * separator does not occur; otherwise it occurs right after the first part
   * and nowhere earlier, and the other parts are the split of what follows.
   */
  lemma {:induction false} SplitCutsAtFirst(s: string, sep: string)
    requires sep != []
    ensures var parts := Split(s, sep);
      (|parts| == 1 ==> parts[0] == s && !Contains(s, sep)) &&
      (|parts| >= 2 ==>
        OccursAt(s, sep, |parts[0]|) &&
        (forall k | 0 <= k < |parts[0]| :: !OccursAt(s, sep, k)) &&
        parts[1..] == Split(s[|parts[0]| + |sep|..], sep))
    decreases |s|
  {
    var parts := Split(s, sep);
    if |s| < |sep| {
    } else if s[..|sep|] == sep {
      assert parts == [""] + Split(s[|sep|..], sep);
      assert OccursAt(s, sep, 0);
    } else {
      var rest := Split(s[1..], sep);
      SplitCutsAtFirst(s[1..], sep);
      assert parts == [[s[0]] + rest[0]] + rest[1..];
      assert |parts[0]| == |rest[0]| + 1;
      if |rest| == 1 {
        assert s == [s[0]] + s[1..];
        forall k | 0 <= k <= |s| - |sep| ensures !OccursAt(s, sep, k) {
          if k > 0 { OccursShift(s, sep, k); }
        }
      } else {
        OccursShift(s, sep, |parts[0]|);
        forall k | 0 <= k < |parts[0]| ensures !OccursAt(s, sep, k) {
          if k > 0 { OccursShift(s, sep, k); }
        }
        assert s[1..][|rest[0]| + |sep|..] == s[|parts[0]| + |sep|..];
        assert parts[1..] == rest[1..];
      }
    }
  }

  /** The first part is a prefix of the joined string. */
  lemma {:induction false} JoinPrefix(parts: seq<string>, sep: string)
    requires |parts| >= 1
    ensures StartsWith(Join(parts, sep), parts[0])
  {
  }

  /** Python's `str.splitlines()` line boundaries. */
  predicate IsLineBreak(c: char) {
    c == '\n' || c == '\r' || c == '\U{0b}' || c == '\U{0c}' || ('\U{1c}' <= c <= '\U{1e}') ||
    c == '\U{85}' || c == '\U{2028}' || c == '\U{2029}'
  }

  /** Index of the first line boundary of `s`, or `|s|` when there is none. */
  function LineEnd(s: string): (i: nat)
    ensures i <= |s|
    ensures i < |s| ==> IsLineBreak(s[i])
    ensures forall k :: 0 <= k < i ==> !IsLineBreak(s[k])
  {
    if s == [] || IsLineBreak(s[0]) then 0 else 1 + LineEnd(s[1..])
  }

  /**
   * Python's `s.splitlines()`: lines without their terminators; `"\r\n"` ends
   * one line; a final terminator does not start an empty last line, and the
   * empty string has no lines.
   */
  function SplitLines(s: string): (lines: seq<string>)
    ensures forall k :: 0 <= k < |lines| ==> forall c :: c in lines[k] ==> !IsLineBreak(c)
    ensures s != [] <==> lines != []
    decreases |s|
  {
    if s == [] then []
    else
      var i := LineEnd(s);
      var line := s[..i];
      if i == |s| then [line]
      else [line] + SplitLines(s[NextLineStart(s)..])
  }

  /** Where the second line starts: after the first boundary, which `"\r\n"` makes two characters long. */
  function NextLineStart(s: string): (next: nat)
    requires LineEnd(s) < |s|
    ensures LineEnd(s) < next <= LineEnd(s) + 2 && next <= |s|
    ensures next == LineEnd(s) + 2 <==>
      s[LineEnd(s)] == '\r' && LineEnd(s) + 1 < |s| && s[LineEnd(s) + 1] == '\n'
    ensures forall k :: LineEnd(s) <= k < next ==> IsLineBreak(s[k])
  {
    var i := LineEnd(s);
    if s[i] == '\r' && i + 1 < |s| && s[i + 1] == '\n' then i + 2 else i + 1
  }

  /**
   * The lines are cut at the line boundaries: the first line is the text up
   * to the first boundary, and the others are the lines of the text after
   * that boundary.
   */
  lemma {:induction false} SplitLinesCuts(s: string)
    requires s != []
    ensures SplitLines(s)[0] == s[..LineEnd(s)]
    ensures LineEnd(s) == |s| ==> SplitLines(s) == [s]
    ensures LineEnd(s) < |s| ==> SplitLines(s)[1..] == SplitLines(s[NextLineStart(s)..])
  {
    if LineEnd(s) == |s| {
      assert s[..|s|] == s;
    }
  }

  /** The lines written one after another, with no terminators. */
  function Concat(lines: seq<string>): string {
    if lines == [] then [] else lines[0] + Concat(lines[1..])
  }

  /** The text with every line-boundary character removed. */
  function RemoveBreaks(s: string): string {
    if s == [] then [] else (if IsLineBreak(s[0]) then [] else [s[0]]) + RemoveBreaks(s[1..])
  }

  lemma {:induction false} RemoveBreaksAppend(a: string, b: string)
    ensures RemoveBreaks(a + b) == RemoveBreaks(a) + RemoveBreaks(b)
  {
    if a == [] {
      assert a + b == b;
    } else {
      assert (a + b)[1..] == a[1..] + b;
      RemoveBreaksAppend(a[1..], b);
      AppendAssoc(if IsLineBreak(a[0]) then [] else [a[0]], RemoveBreaks(a[1..]), RemoveBreaks(b));
    }
  }

  /** Text without boundaries is kept whole; text of boundaries only disappears. */
  lemma {:induction false} RemoveBreaksUniform(a: string)
    ensures (forall k :: 0 <= k < |a| ==> !IsLineBreak(a[k])) ==> RemoveBreaks(a) == a
    ensures (forall k :: 0 <= k < |a| ==> IsLineBreak(a[k])) ==> RemoveBreaks(a) == []
  {
    if a != [] {
      RemoveBreaksUniform(a[1..]);
      assert forall k :: 1 <= k < |a| ==> a[1..][k - 1] == a[k];
      assert a == [a[0]] + a[1..];
    }
  }

  /** Removing the boundaries from a text whose first line ends before its end. */
  lemma {:induction false} RemoveBreaksAtBoundary(s: string)
    requires s != [] && LineEnd(s) < |s|
    ensures RemoveBreaks(s) == s[..LineEnd(s)] + RemoveBreaks(s[NextLineStart(s)..])
  {
    var i := LineEnd(s);
    var next := NextLineStart(s);
    var head := s[..i];
    var mid := s[i..next];
    var rest := s[next..];
    RemoveBreaksUniform(head);
    RemoveBreaksUniform(mid);
    assert s == (head + mid) + rest;
    RemoveBreaksAppend(head + mid, rest);
    RemoveBreaksAppend(head, mid);
    assert RemoveBreaks(head + mid) == head;
  }

  /**
   * Reading the lines one after another gives the text with its line
   * boundaries removed: no character is lost, repeated or moved.
   */
  lemma {:induction false} SplitLinesConcat(s: string)
    ensures Concat(SplitLines(s)) == RemoveBreaks(s)
    decreases |s|
  {
    if s != [] {
      var i := LineEnd(s);
      var lines := SplitLines(s);
      if i == |s| {
        RemoveBreaksUniform(s);
        assert s[..i] == s;
        assert lines == [s];
        assert lines[1..] == [];
        assert Concat(lines) == s + Concat([]);
        assert s + [] == s;
      } else {
        var rest := s[NextLineStart(s)..];
        SplitLinesConcat(rest);
        RemoveBreaksAtBoundary(s);
        assert lines == [s[..i]] + SplitLines(rest);
        assert lines[1..] == SplitLines(rest);
      }
    }
  }

  /** Python's `str.upper()`, for the ASCII letters. */
  function UpperChar(c: char): (u: char)
    ensures 'a' <= c <= 'z' ==> 'A' <= u <= 'Z' && u as int == c as int - 32
    ensures !('a' <= c <= 'z') ==> u == c
  {
    if 'a' <= c <= 'z' then (c as int - 'a' as int + 'A' as int) as char else c
  }

  function Upper(s: string): (r: string)
    ensures |r| == |s|
    ensures forall i :: 0 <= i < |s| ==> r[i] == UpperChar(s[i])
  {
    if s == [] then [] else [UpperChar(s[0])] + Upper(s[1..])
  }

  /** Upper-casing twice is upper-casing once. */
  lemma {:induction false} UpperIdempotent(s: string)
    ensures Upper(Upper(s)) == Upper(s)
  {
    assert forall i :: 0 <= i < |s| ==> UpperChar(UpperChar(s[i])) == UpperChar(s[i]);
  }

  function DigitChar(d: nat): (c: char)
    requires d < 10
    ensures '0' <= c <= '9'
  {
    ('0' as int + d) as char
  }

  /** Python's `str(n)` for a non-negative integer: decimal, no leading zeros. */
  function NatToString(n: nat): (s: string)
    ensures |s| >= 1
    ensures forall i :: 0 <= i < |s| ==> '0' <= s[i] <= '9'
    ensures |s| > 1 ==> s[0] != '0'
  {
    if n < 10 then [DigitChar(n)] else NatToString(n / 10) + [DigitChar(n % 10)]
  }

  /** Reads a string of decimal digits back as a number. */
  function DigitsValue(s: string): nat
    requires forall i :: 0 <= i < |s| ==> '0' <= s[i] <= '9'
  {
    if s == [] then 0 else 10 * DigitsValue(s[..|s| - 1]) + (s[|s| - 1] as int - '0' as int)
  }

  /** The decimal rendering loses nothing: reading it back gives the number. */
  lemma {:induction false} NatToStringRoundTrip(n: nat)
    ensures DigitsValue(NatToString(n)) == n
  {
    if n >= 10 {
      NatToStringRoundTrip(n / 10);
      var s := NatToString(n);
      assert s[..|s| - 1] == NatToString(n / 10);
    }
  }
}
