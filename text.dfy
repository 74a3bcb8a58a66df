/**
 * The few Python string operations the modelled code relies on: `str.strip()`,
 * `str.rstrip("/")`, `sep.join(...)`, literal substring search (`x in s`,
 * `re.search(re.escape(x), s)`), case-insensitive search restricted to ASCII,
 * and the decimal rendering of a non-negative `int` inside an f-string.
 */
module Text {

  /** The characters Python's `str.isspace()` accepts, which `str.strip()` removes. */
  predicate IsSpace(c: char) {
    || ('\t' <= c <= '\r')
    || ('\U{1c}' <= c <= '\U{1f}')
    || c == ' ' || c == '\U{85}' || c == '\U{a0}' || c == '\U{1680}'
    || ('\U{2000}' <= c <= '\U{200a}')
    || c == '\U{2028}' || c == '\U{2029}' || c == '\U{202f}' || c == '\U{205f}' || c == '\U{3000}'
  }

  /** `s.lstrip()`. */
  function StripLeading(s: string): string {
    if s != [] && IsSpace(s[0]) then StripLeading(s[1..]) else s
  }

  /** `lstrip` keeps the longest suffix that does not start with whitespace. */
  lemma {:induction false} StripLeadingSpec(s: string)
    ensures |StripLeading(s)| <= |s| && StripLeading(s) == s[|s| - |StripLeading(s)|..]
    ensures forall k :: 0 <= k < |s| - |StripLeading(s)| ==> IsSpace(s[k])
    ensures StripLeading(s) == [] || !IsSpace(StripLeading(s)[0])
  {
    if s != [] && IsSpace(s[0]) {
      var t := s[1..];
      StripLeadingSpec(t);
      var r := StripLeading(t);
      assert StripLeading(s) == r;
      assert t[|t| - |r|..] == s[|s| - |r|..];
      forall k | 0 <= k < |s| - |r|
        ensures IsSpace(s[k])
      {
        if k > 0 {
          assert s[k] == t[k - 1];
        }
      }
    }
  }

  /** `s.rstrip()`. */
  function StripTrailing(s: string): string {
    if s != [] && IsSpace(s[|s| - 1]) then StripTrailing(s[..|s| - 1]) else s
  }

  /** `rstrip` keeps the longest prefix that does not end with whitespace. */
  lemma {:induction false} StripTrailingSpec(s: string)
    ensures |StripTrailing(s)| <= |s| && StripTrailing(s) == s[..|StripTrailing(s)|]
    ensures forall k :: |StripTrailing(s)| <= k < |s| ==> IsSpace(s[k])
    ensures StripTrailing(s) == [] || !IsSpace(StripTrailing(s)[|StripTrailing(s)| - 1])
  {
    if s != [] && IsSpace(s[|s| - 1]) {
      var t := s[..|s| - 1];
      StripTrailingSpec(t);
      var r := StripTrailing(t);
      assert StripTrailing(s) == r;
      assert t[..|r|] == s[..|r|];
      forall k | |r| <= k < |s|
        ensures IsSpace(s[k])
      {
        if k < |s| - 1 {
          assert s[k] == t[k];
        }
      }
    }
  }

  /** `s.strip()`. */
  function Strip(s: string): string {
    StripTrailing(StripLeading(s))
  }

  /**
   * `strip()` keeps an occurrence of `h` whole when a non-space character stands at
   * or before its start (position `j1`) and at or after its end (position `j2`).
   */
  lemma StripKeepsFlanked(s: string, h: string, i: int, j1: int, j2: int)
    requires OccursAt(s, h, i)
    requires 0 <= j1 <= i && j1 < |s| && !IsSpace(s[j1])
    requires j1 <= j2 < |s| && i + |h| - 1 <= j2 && !IsSpace(s[j2])
    ensures Contains(Strip(s), h)
  {
    var l := StripLeading(s);
    var d := LeadingCut(s, j1);
    assert l[j2 - d] == s[j2];
    var t := StripTrailing(l);
    TrailingKeep(l, j2 - d);
    assert t[i - d..i - d + |h|] == s[i..i + |h|];
    ContainsAt(t, h, i - d);
  }

  /** `lstrip` stops at the first non-space character: it removes a prefix of length `d`. */
  lemma LeadingCut(s: string, j: int) returns (d: int)
    requires 0 <= j < |s| && !IsSpace(s[j])
    ensures 0 <= d <= j && StripLeading(s) == s[d..]
  {
    StripLeadingSpec(s);
    d := |s| - |StripLeading(s)|;
  }

  /** `rstrip` keeps everything up to the last non-space character. */
  lemma TrailingKeep(s: string, j: int)
    requires 0 <= j < |s| && !IsSpace(s[j])
    ensures j < |StripTrailing(s)| <= |s| && StripTrailing(s) == s[..|StripTrailing(s)|]
  {
    StripTrailingSpec(s);
  }

  /** A block that starts and ends with a non-space character survives `strip()` wherever it stands. */
  lemma StripKeepsBlockAt(s: string, h: string, at: int)
    requires OccursAt(s, h, at)
    requires |h| >= 1 && !IsSpace(h[0]) && !IsSpace(h[|h| - 1])
    ensures Contains(Strip(s), h)
  {
    assert s[at] == h[0];
    assert s[at + |h| - 1] == h[|h| - 1];
    StripKeepsFlanked(s, h, at, at, at + |h| - 1);
  }

  /** `s.rstrip(c)` for a single character `c`. */
  function RStripChar(s: string, c: char): (r: string)
    ensures |r| <= |s| && r == s[..|r|]
    ensures forall k :: |r| <= k < |s| ==> s[k] == c
    ensures r == [] || r[|r| - 1] != c
  {
    if s != [] && s[|s| - 1] == c then RStripChar(s[..|s| - 1], c) else s
  }

  /** `sep.join(parts)`. */
  function Join(parts: seq<string>, sep: string): string {
    if |parts| == 0 then ""
    else if |parts| == 1 then parts[0]
    else parts[0] + sep + Join(parts[1..], sep)
  }

  /** A non-empty join starts with its first part. */
  lemma JoinStartsWithFirst(parts: seq<string>, sep: string)
    requires parts != []
    ensures |Join(parts, sep)| >= |parts[0]|
    ensures Join(parts, sep)[..|parts[0]|] == parts[0]
  {
    if |parts| > 1 {
      assert Join(parts, sep) == parts[0] + (sep + Join(parts[1..], sep));
    }
  }

  /** Every part of a join stands in the joined text whole: what precedes and follows it are returned. */
  lemma {:induction false} JoinAround(parts: seq<string>, sep: string, k: nat) returns (pre: string, post: string)
    requires k < |parts|
    ensures Join(parts, sep) == pre + parts[k] + post
  {
    if |parts| == 1 {
      pre, post := "", "";
    } else if k == 0 {
      pre, post := "", sep + Join(parts[1..], sep);
      assert Join(parts, sep) == parts[0] + (sep + Join(parts[1..], sep));
    } else {
      var p, q := JoinAround(parts[1..], sep, k - 1);
      assert parts[1..][k - 1] == parts[k];
      pre, post := parts[0] + sep + p, q;
    }
  }

  /** Literal substring search: `needle in hay`, equivalently `re.search(re.escape(needle), hay)`. */
  predicate Contains(hay: string, needle: string) {
    exists i :: 0 <= i <= |hay| - |needle| && OccursAt(hay, needle, i)
  }

  /** `needle` stands in `hay` starting at position `i`. */
  predicate OccursAt(hay: string, needle: string, i: int) {
    0 <= i && i + |needle| <= |hay| && hay[i..i + |needle|] == needle
  }

  /** A witness position establishes `Contains`. */
  lemma ContainsAt(hay: string, needle: string, i: nat)
    requires OccursAt(hay, needle, i)
    ensures Contains(hay, needle)
  {
  }

  /** An occurrence survives appending text on the right. */
  lemma OccursExtend(x: string, y: string, h: string, i: int)
    requires OccursAt(x, h, i)
    ensures OccursAt(x + y, h, i)
  {
    assert (x + y)[i..i + |h|] == x[i..i + |h|];
  }

  /** An occurrence moves right by the length of text prepended on the left. */
  lemma OccursShift(y: string, x: string, h: string, i: int)
    requires OccursAt(x, h, i)
    ensures OccursAt(y + x, h, |y| + i)
  {
    assert (y + x)[|y| + i..|y| + i + |h|] == x[i..i + |h|];
  }

  /** A suffix stands where the text before it ends. */
  lemma OccursAtEnd(pre: string, h: string)
    ensures OccursAt(pre + h, h, |pre|)
  {
    assert (pre + h)[|pre|..|pre| + |h|] == h;
  }

  /** A part stands where the text before it ends. */
  lemma OccursBetween(pre: string, h: string, post: string)
    ensures OccursAt(pre + h + post, h, |pre|)
  {
    assert (pre + h + post)[|pre|..|pre| + |h|] == h;
  }

  /** An occurrence inside an occurrence. */
  lemma OccursWithin(s: string, outer: string, at: int, inner: string, i: int)
    requires OccursAt(s, outer, at)
    requires OccursAt(outer, inner, i)
    ensures OccursAt(s, inner, at + i)
  {
    forall k | 0 <= k < |inner|
      ensures s[at + i + k] == inner[k]
    {
      assert inner[k] == outer[i..i + |inner|][k] == outer[i + k];
      assert outer[i + k] == s[at..at + |outer|][i + k] == s[at + i + k];
    }
    assert s[at + i..at + i + |inner|] == inner;
  }

  /** ASCII-only lower-casing (stands for the case folding of `re.I`). */
  function LowerChar(c: char): char {
    if 'A' <= c <= 'Z' then (c as int + 32) as char else c
  }

  function Lower(s: string): (r: string)
    ensures |r| == |s|
  {
    seq(|s|, i requires 0 <= i < |s| => LowerChar(s[i]))
  }

  /** `re.search(re.escape(needle), hay, re.I)` succeeds. */
  predicate ContainsCI(hay: string, needle: string) {
    Contains(Lower(hay), Lower(needle))
  }

  /** The empty pattern matches every text, case-insensitively or not. */
  lemma EmptyPatternMatches(hay: string)
    ensures ContainsCI(hay, "")
  {
    ContainsAt(Lower(hay), Lower(""), 0);
  }

  function DigitChar(d: nat): (c: char)
    requires d < 10
    ensures '0' <= c <= '9'
  {
    "0123456789"[d]
  }

  /** `str(n)` for a non-negative integer, as an f-string renders `len(...)`. */
  function NatToString(n: nat): (r: string)
    ensures r != []
    ensures forall k :: 0 <= k < |r| ==> '0' <= r[k] <= '9'
  {
    if n < 10 then [DigitChar(n)] else NatToString(n / 10) + [DigitChar(n % 10)]
  }
}
