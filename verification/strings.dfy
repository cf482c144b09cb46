/**
 * The string operations the signup handler relies on: JavaScript's
 * `String.prototype.split` with a one-character separator followed by
 * `pop()`, its inverse `join`, and ASCII `toLowerCase`.
 */
module Strings {

  /** Splits `s` at every occurrence of `sep`, as `s.split(sep)` does for a
      one-character separator: the result is never empty, and an empty string
      (or two adjacent separators) gives an empty part. */
  function Split(s: string, sep: char): (parts: seq<string>)
    ensures |parts| >= 1
    ensures |parts| == 1 ==> parts[0] == s
    decreases |s|
  {
    if |s| == 0 then [""]
    else
      var rest := Split(s[1..], sep);
      if s[0] == sep then [""] + rest
      else [[s[0]] + rest[0]] + rest[1..]
  }

  /** Concatenates `parts` with `sep` between neighbours, as `parts.join(sep)`. */
  function Join(parts: seq<string>, sep: char): string
  {
    if |parts| == 0 then ""
    else if |parts| == 1 then parts[0]
    else parts[0] + [sep] + Join(parts[1..], sep)
  }

  /** True when no part contains the separator. */
  ghost predicate SeparatorFree(parts: seq<string>, sep: char)
  {
    forall i :: 0 <= i < |parts| ==> sep !in parts[i]
  }

  /** Joining the parts of a split gives back the original string. */
  lemma {:induction false} JoinSplit(s: string, sep: char)
    ensures Join(Split(s, sep), sep) == s
    decreases |s|
  {
    if |s| > 0 {
      var rest := Split(s[1..], sep);
      JoinSplit(s[1..], sep);
      if s[0] == sep {
        assert Split(s, sep) == [""] + rest;
        assert ([""] + rest)[1..] == rest;
        assert Join(Split(s, sep), sep) == "" + [sep] + s[1..];
        assert [s[0]] + s[1..] == s;
      } else if |rest| == 1 {
        assert Join(Split(s, sep), sep) == [s[0]] + rest[0];
        assert [s[0]] + s[1..] == s;
      } else {
        var parts := [[s[0]] + rest[0]] + rest[1..];
        assert parts[1..] == rest[1..];
        assert Join(parts, sep) == [s[0]] + rest[0] + [sep] + Join(rest[1..], sep);
        assert Join(rest, sep) == rest[0] + [sep] + Join(rest[1..], sep);
        assert [s[0]] + s[1..] == s;
      }
    }
  }

  /** No part of a split contains the separator. */
  lemma {:induction false} SplitSeparatorFree(s: string, sep: char)
    ensures SeparatorFree(Split(s, sep), sep)
    decreases |s|
  {
    if |s| > 0 {
      var rest := Split(s[1..], sep);
      SplitSeparatorFree(s[1..], sep);
      if s[0] != sep {
        var parts := Split(s, sep);
        assert parts[0] == [s[0]] + rest[0];
        forall i | 0 <= i < |parts|
          ensures sep !in parts[i]
        {
          if i > 0 {
            assert parts[i] == rest[i];
          }
        }
      } else {
        var parts := Split(s, sep);
        forall i | 0 <= i < |parts|
          ensures sep !in parts[i]
        {
          if i > 0 {
            assert parts[i] == rest[i - 1];
          }
        }
      }
    }
  }

  /** A separator-free prefix is glued onto the first part of what follows. */
  lemma {:induction false} SplitFreePrefix(a: string, t: string, sep: char)
    requires sep !in a
    ensures Split(a + t, sep) == [a + Split(t, sep)[0]] + Split(t, sep)[1..]
    decreases |a|
  {
    if |a| > 0 {
      assert (a + t)[1..] == a[1..] + t;
      SplitFreePrefix(a[1..], t, sep);
      assert a[0] != sep;
      assert [a[0]] + (a[1..] + Split(t, sep)[0]) == a + Split(t, sep)[0];
    } else {
      var ps := Split(t, sep);
      assert a + t == t;
      assert a + ps[0] == ps[0];
      assert ps == [ps[0]] + ps[1..];
    }
  }

  /** Splitting the join of separator-free parts gives back those parts. */
  lemma {:induction false} SplitJoin(parts: seq<string>, sep: char)
    requires |parts| >= 1
    requires SeparatorFree(parts, sep)
    ensures Split(Join(parts, sep), sep) == parts
    decreases |parts|
  {
    if |parts| == 1 {
      SplitFreePrefix(parts[0], "", sep);
      assert parts[0] + "" == parts[0];
    } else {
      var tail := Join(parts[1..], sep);
      SplitJoin(parts[1..], sep);
      assert Split([sep] + tail, sep) == [""] + Split(tail, sep) by {
        assert ([sep] + tail)[1..] == tail;
      }
      SplitFreePrefix(parts[0], [sep] + tail, sep);
      assert parts[0] + [sep] + tail == parts[0] + ([sep] + tail);
      assert parts[0] + "" == parts[0];
      assert parts == [parts[0]] + parts[1..];
    }
  }

  /** Joining one more part appends the separator and that part. */
  lemma {:induction false} JoinSnoc(ps: seq<string>, p: string, sep: char)
    requires |ps| >= 1
    ensures Join(ps + [p], sep) == Join(ps, sep) + [sep] + p
    decreases |ps|
  {
    if |ps| == 1 {
      assert (ps + [p])[1..] == [p];
    } else {
      assert (ps + [p])[1..] == ps[1..] + [p];
      JoinSnoc(ps[1..], p, sep);
    }
  }

  /** `d` is the text after the last `sep` in `s`, or all of `s` when `s`
      holds no `sep`: this characterises the result of `s.split(sep).pop()`
      without mentioning `Split`. */
  ghost predicate IsLastSegment(s: string, d: string, sep: char)
  {
    && sep !in d
    && |d| <= |s|
    && s[|s| - |d|..] == d
    && (|d| == |s| || s[|s| - |d| - 1] == sep)
  }

  /** `s.split(sep).pop()`: the last part of the split. */
  function LastSegment(s: string, sep: char): (d: string)
    ensures IsLastSegment(s, d, sep)
    ensures d == s <==> sep !in s
  {
    var parts := Split(s, sep);
    LastSegmentProperties(s, sep);
    parts[|parts| - 1]
  }

  lemma LastSegmentProperties(s: string, sep: char)
    ensures IsLastSegment(s, Split(s, sep)[|Split(s, sep)| - 1], sep)
  {
    var parts := Split(s, sep);
    var d := parts[|parts| - 1];
    JoinSplit(s, sep);
    SplitSeparatorFree(s, sep);
    assert sep !in d;
    if |parts| > 1 {
      var init := parts[..|parts| - 1];
      assert init + [d] == parts;
      JoinSnoc(init, d, sep);
      assert s == Join(init, sep) + [sep] + d;
    }
  }

  /** At most one string is the last segment of `s`, so `IsLastSegment`
      pins down `LastSegment` exactly. */
  lemma LastSegmentUnique(s: string, d1: string, d2: string, sep: char)
    requires IsLastSegment(s, d1, sep) && IsLastSegment(s, d2, sep)
    ensures d1 == d2
  {
  }

  /** `LastSegment` is the one and only string meeting `IsLastSegment`. */
  lemma LastSegmentCharacterised(s: string, d: string, sep: char)
    ensures IsLastSegment(s, d, sep) <==> d == LastSegment(s, sep)
  {
  }

  predicate IsUpper(c: char)
  {
    'A' <= c <= 'Z'
  }

  /** ASCII lower-casing of one character. */
  function LowerChar(c: char): (r: char)
    ensures !IsUpper(r)
  {
    if IsUpper(c) then (c as int + 32) as char else c
  }

  /** No ASCII upper-case letter occurs in `s`. */
  predicate NoUpper(s: string)
  {
    forall i :: 0 <= i < |s| ==> !IsUpper(s[i])
  }

  /** ASCII `toLowerCase`: the result has no upper-case letter, differs from
      the input only in letter case, and leaves a string without upper-case
      letters as it is. */
  function Lower(s: string): (r: string)
    ensures NoUpper(r)
    ensures SameIgnoringCase(s, r)
    ensures NoUpper(s) ==> r == s
  {
    seq(|s|, i requires 0 <= i < |s| => LowerChar(s[i]))
  }

  /** Two characters are the same letter up to case, or simply equal. */
  predicate SameCharIgnoringCase(x: char, y: char)
  {
    || x == y
    || (IsUpper(x) && y as int == x as int + 32)
    || (IsUpper(y) && x as int == y as int + 32)
  }

  /** Two strings that differ only in the case of ASCII letters. */
  predicate SameIgnoringCase(a: string, b: string)
  {
    |a| == |b| && forall i :: 0 <= i < |a| ==> SameCharIgnoringCase(a[i], b[i])
  }

  /** Lower-casing identifies exactly the strings that differ only in
      letter case. */
  lemma LowerEqualIff(a: string, b: string)
    ensures Lower(a) == Lower(b) <==> SameIgnoringCase(a, b)
  {
  }
}
