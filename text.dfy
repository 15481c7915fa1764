/**
  * The ECMAScript string operations the components rely on: `startsWith`,
  * `split(sep).pop()` for a one-character separator, `toLowerCase` (on ASCII
  * letters) and `trim`.
  */
module Text {

  /** `s.startsWith(prefix)`: `s` is `prefix` followed by something. */
  predicate StartsWith(s: string, prefix: string): (b: bool)
    ensures b <==> exists t :: s == prefix + t
  {
    |prefix| <= |s| && (assert s == s[..|prefix|] + s[|prefix|..]; s[..|prefix|] == prefix)
  }

  /** `parts.join(sep)`: the parts with one `sep` between neighbours. */
  function Join(parts: seq<string>, sep: char): string
    requires |parts| >= 1
  {
    if |parts| == 1 then parts[0] else parts[0] + [sep] + Join(parts[1..], sep)
  }

  /** Extending the first part by a character extends the joined text by it. */
  lemma JoinGrowsFirstPart(c: char, parts: seq<string>, sep: char)
    requires |parts| >= 1
    ensures Join([[c] + parts[0]] + parts[1..], sep) == [c] + Join(parts, sep)
  {
    var grown := [[c] + parts[0]] + parts[1..];
    assert grown[0] == [c] + parts[0];
    assert grown[1..] == parts[1..];
  }

  /**
    * The parts of `s.split(sep)` for a one-character separator `sep`: the
    * pieces of `s` between separators, which joined with `sep` give `s` back.
    */
  function Split(s: string, sep: char): (parts: seq<string>)
    ensures |parts| >= 1
    ensures forall k :: 0 <= k < |parts| ==> sep !in parts[k]
    ensures Join(parts, sep) == s
    ensures sep !in s ==> parts == [s]
    ensures sep in s ==> |parts| >= 2
    decreases |s|
  {
    if s == [] then [""]
    else
      var rest := Split(s[1..], sep);
      if s[0] == sep then
        assert s == [sep] + s[1..];
        assert ([""] + rest)[1..] == rest;
        [""] + rest
      else
        assert s == [s[0]] + s[1..];
        JoinGrowsFirstPart(s[0], rest, sep);
        [[s[0]] + rest[0]] + rest[1..]
  }

  /** Splitting a separator-free word, a separator and a tail yields the word before the tail's parts. */
  lemma {:induction false} SplitAfterWord(w: string, sep: char, t: string)
    requires sep !in w
    ensures Split(w + [sep] + t, sep) == [w] + Split(t, sep)
    decreases |w|
  {
    var s := w + [sep] + t;
    if w == [] {
      assert s == [sep] + t;
      assert s[1..] == t;
    } else {
      assert s[0] == w[0];
      assert s[1..] == w[1..] + [sep] + t;
      SplitAfterWord(w[1..], sep, t);
      assert [w[0]] + w[1..] == w;
    }
  }

  /** Round trip: splitting the join of separator-free parts gives the parts back. */
  lemma {:induction false} SplitOfJoin(parts: seq<string>, sep: char)
    requires |parts| >= 1
    requires forall k :: 0 <= k < |parts| ==> sep !in parts[k]
    ensures Split(Join(parts, sep), sep) == parts
    decreases |parts|
  {
    if |parts| > 1 {
      SplitAfterWord(parts[0], sep, Join(parts[1..], sep));
      SplitOfJoin(parts[1..], sep);
      assert [parts[0]] + parts[1..] == parts;
    }
  }

  function Last<T>(xs: seq<T>): T
    requires |xs| > 0
  {
    xs[|xs| - 1]
  }

  /**
    * `r` is the final segment of `s` with respect to `sep`: a suffix of `s`
    * that holds no `sep` and is either all of `s` or preceded by a `sep`.
    */
  ghost predicate IsFinalSegment(s: string, sep: char, r: string) {
    |r| <= |s| && r == s[|s| - |r|..] && sep !in r &&
    (|r| < |s| ==> s[|s| - |r| - 1] == sep)
  }

  lemma {:induction false} FinalSegmentUnique(s: string, sep: char, r1: string, r2: string)
    requires IsFinalSegment(s, sep, r1) && IsFinalSegment(s, sep, r2)
    ensures r1 == r2
  {
    assert forall k :: |s| - |r1| <= k < |s| ==> s[k] == r1[k - (|s| - |r1|)];
    assert forall k :: |s| - |r2| <= k < |s| ==> s[k] == r2[k - (|s| - |r2|)];
    assert |r1| == |r2|;
  }

  /**
    * `s.split(sep).pop()`: the text after the last `sep`, or all of `s` when
    * it holds none (split always yields at least one part, so pop never
    * yields undefined).
    */
  function AfterLast(s: string, sep: char): (r: string)
    ensures IsFinalSegment(s, sep, r)
    decreases |s|
  {
    if s == [] then ""
    else if s[|s| - 1] == sep then ""
    else
      var init := s[..|s| - 1];
      var r := AfterLast(init, sep) + [s[|s| - 1]];
      assert init[|init| - |r| + 1..] + [s[|s| - 1]] == s[|s| - |r|..];
      r
  }

  /** The last part of a join follows the join of the others and one separator. */
  lemma {:induction false} JoinLast(parts: seq<string>, sep: char)
    requires |parts| >= 2
    ensures Join(parts, sep) == Join(parts[..|parts| - 1], sep) + [sep] + Last(parts)
    decreases |parts|
  {
    var init := parts[..|parts| - 1];
    assert init[0] == parts[0];
    if |parts| > 2 {
      JoinLast(parts[1..], sep);
      assert parts[1..][..|parts[1..]| - 1] == init[1..];
    }
  }

  lemma LastPartIsFinalSegment(s: string, sep: char)
    ensures IsFinalSegment(s, sep, Last(Split(s, sep)))
  {
    var parts := Split(s, sep);
    var last := Last(parts);
    if |parts| >= 2 {
      JoinLast(parts, sep);
      var stem := Join(parts[..|parts| - 1], sep);
      assert s == stem + [sep] + last;
      assert s[|s| - |last|..] == last;
      assert s[|s| - |last| - 1] == sep;
    }
  }

  /** The recursive definition agrees with `split(sep).pop()`. */
  lemma AfterLastIsLastPart(s: string, sep: char)
    ensures AfterLast(s, sep) == Last(Split(s, sep))
  {
    LastPartIsFinalSegment(s, sep);
    FinalSegmentUnique(s, sep, AfterLast(s, sep), Last(Split(s, sep)));
  }

  /** A name without the separator is its own final segment. */
  lemma AfterLastWithoutSep(s: string, sep: char)
    requires sep !in s
    ensures AfterLast(s, sep) == s
  {
    assert IsFinalSegment(s, sep, s);
    FinalSegmentUnique(s, sep, AfterLast(s, sep), s);
  }

  /** Joining a stem and a separator-free tail with `sep` makes the tail the final segment. */
  lemma AfterLastOfJoin(stem: string, sep: char, tail: string)
    requires sep !in tail
    ensures AfterLast(stem + [sep] + tail, sep) == tail
  {
    var s := stem + [sep] + tail;
    assert s[|s| - |tail|..] == tail;
    assert s[|s| - |tail| - 1] == sep;
    FinalSegmentUnique(s, sep, AfterLast(s, sep), tail);
  }

  /** `toLowerCase` on one character, for ASCII letters. */
  function LowerChar(c: char): char {
    if 'A' <= c <= 'Z' then (c as int - 'A' as int + 'a' as int) as char else c
  }

  /** `s.toLowerCase()`, character by character, for ASCII letters. */
  function Lower(s: string): (r: string)
    ensures |r| == |s|
    ensures forall i :: 0 <= i < |s| ==> r[i] == LowerChar(s[i])
  {
    if s == [] then [] else [LowerChar(s[0])] + Lower(s[1..])
  }

  /** The characters `String.prototype.trim` removes: white space and line terminators. */
  predicate IsJsWhitespace(c: char) {
    c == '\t' || c == '\n' || c == '\U{000B}' || c == '\U{000C}' || c == '\r' ||
    c == ' ' || c == '\U{00A0}' || c == '\U{1680}' || ('\U{2000}' <= c <= '\U{200A}') ||
    c == '\U{2028}' || c == '\U{2029}' || c == '\U{202F}' || c == '\U{205F}' ||
    c == '\U{3000}' || c == '\U{FEFF}'
  }

  function DropLeadingSpace(s: string): (r: string)
    ensures |r| <= |s| && r == s[|s| - |r|..]
    ensures r != [] ==> !IsJsWhitespace(r[0])
    ensures forall i :: 0 <= i < |s| - |r| ==> IsJsWhitespace(s[i])
  {
    if s != [] && IsJsWhitespace(s[0]) then DropLeadingSpace(s[1..]) else s
  }

  function DropTrailingSpace(s: string): (r: string)
    ensures |r| <= |s| && r == s[..|r|]
    ensures r != [] ==> !IsJsWhitespace(r[|r| - 1])
    ensures forall i :: |r| <= i < |s| ==> IsJsWhitespace(s[i])
  {
    if s != [] && IsJsWhitespace(s[|s| - 1]) then DropTrailingSpace(s[..|s| - 1]) else s
  }

  /**
    * `s.trim()`: the slice of `s` left once the white space before and
    * after it is removed. What is left neither starts nor ends with white
    * space, and it is empty exactly when `s` is all white space.
    */
  function Trim(s: string): (r: string)
    ensures exists a, b :: 0 <= a <= b <= |s| && r == s[a..b] &&
              (forall i :: 0 <= i < a ==> IsJsWhitespace(s[i])) &&
              (forall i :: b <= i < |s| ==> IsJsWhitespace(s[i]))
    ensures r == "" <==> forall i :: 0 <= i < |s| ==> IsJsWhitespace(s[i])
    ensures r != "" ==> !IsJsWhitespace(r[0]) && !IsJsWhitespace(r[|r| - 1])
  {
    var lead := DropLeadingSpace(s);
    var r := DropTrailingSpace(lead);
    StrippedSlice(s, lead, r);
    assert r == "" ==> lead == [];
    r
  }

  /** The white space the two helpers strip lies before and after one slice of `s`. */
  lemma StrippedSlice(s: string, lead: string, r: string)
    requires |lead| <= |s| && lead == s[|s| - |lead|..]
    requires forall i :: 0 <= i < |s| - |lead| ==> IsJsWhitespace(s[i])
    requires |r| <= |lead| && r == lead[..|r|]
    requires forall i :: |r| <= i < |lead| ==> IsJsWhitespace(lead[i])
    ensures exists a, b :: 0 <= a <= b <= |s| && r == s[a..b] &&
              (forall i :: 0 <= i < a ==> IsJsWhitespace(s[i])) &&
              (forall i :: b <= i < |s| ==> IsJsWhitespace(s[i]))
  {
    var a := |s| - |lead|;
    var b := a + |r|;
    assert r == s[a..b];
    forall i | b <= i < |s|
      ensures IsJsWhitespace(s[i])
    {
      assert s[i] == lead[i - a];
    }
  }
}
