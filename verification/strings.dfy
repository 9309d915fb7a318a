/** String helpers with the semantics of the JavaScript built-ins the source
    relies on (`startsWith`, `trim`, `slice`, `join`, `indexOf`). Strings are
    sequences of Unicode scalar values. JavaScript's `length` is modelled in
    UTF-16 code units (`Utf16Length`); `slice` is not, and cuts whole
    characters instead. */
module Strings {
  import opened Wrappers

  /** The characters matched by the regular-expression class `\s`, which are also
      the characters `String.prototype.trim` removes: the ECMAScript WhiteSpace
      and LineTerminator productions. */
  predicate IsJsWhitespace(c: char) {
    || c == ' ' || c == '\t' || c == '\n' || c == '\r'
    || c == '\U{000B}' || c == '\U{000C}' || c == '\U{00A0}' || c == '\U{1680}'
    || ('\U{2000}' <= c <= '\U{200A}')
    || c == '\U{2028}' || c == '\U{2029}' || c == '\U{202F}' || c == '\U{205F}'
    || c == '\U{3000}' || c == '\U{FEFF}'
  }

  predicate StartsWith(s: string, prefix: string) {
    |prefix| <= |s| && s[..|prefix|] == prefix
  }

  predicate EndsWith(s: string, suffix: string) {
    |suffix| <= |s| && s[|s| - |suffix|..] == suffix
  }

  /** `pat` occurs in `s` starting at index `i`. */
  predicate OccursAt(s: string, i: int, pat: string) {
    0 <= i && i + |pat| <= |s| && s[i..i + |pat|] == pat
  }

  /** `t` is a contiguous slice of `s`. */
  ghost predicate IsInfix(t: string, s: string) {
    exists i :: OccursAt(s, i, t)
  }

  /** `Array.prototype.join`. */
  function Join(xs: seq<string>, sep: string): string {
    if |xs| == 0 then ""
    else if |xs| == 1 then xs[0]
    else xs[0] + sep + Join(xs[1..], sep)
  }

  /** `s.slice(0, n)` for a non-negative `n`. */
  function Take(s: string, n: nat): (r: string)
    ensures |r| == if n < |s| then n else |s|
    ensures StartsWith(s, r)
  {
    if n < |s| then s[..n] else s
  }

  /** The UTF-16 code units of one character: two for a character outside
      the Basic Multilingual Plane, which JavaScript stores as a surrogate
      pair, one otherwise. */
  function Utf16Units(c: char): nat {
    if c as int < 0x1_0000 then 1 else 2
  }

  /** JavaScript's `length`: the number of UTF-16 code units. It is at least
      the number of characters and at most twice it, and equals it exactly
      when no character lies outside the Basic Multilingual Plane. */
  function Utf16Length(s: string): (n: nat)
    ensures |s| <= n <= 2 * |s|
    ensures n == |s| <==> forall i :: 0 <= i < |s| ==> s[i] as int < 0x1_0000
  {
    if s == [] then 0
    else
      var n := Utf16Units(s[0]) + Utf16Length(s[1..]);
      assert forall i :: 0 <= i < |s[1..]| ==> s[1..][i] == s[i + 1];
      n
  }

  /** Length of the run of whitespace at the start of `s`. */
  function LeadingWs(s: string): (n: nat)
    ensures n <= |s|
    ensures forall i :: 0 <= i < n ==> IsJsWhitespace(s[i])
    ensures n < |s| ==> !IsJsWhitespace(s[n])
  {
    if |s| == 0 || !IsJsWhitespace(s[0]) then 0 else 1 + LeadingWs(s[1..])
  }

  /** Length of the run of whitespace at the end of `s`. */
  function TrailingWs(s: string): (n: nat)
    ensures n <= |s|
    ensures forall i :: |s| - n <= i < |s| ==> IsJsWhitespace(s[i])
    ensures n < |s| ==> !IsJsWhitespace(s[|s| - n - 1])
  {
    if |s| == 0 || !IsJsWhitespace(s[|s| - 1]) then 0 else 1 + TrailingWs(s[..|s| - 1])
  }

  /** `String.prototype.trim`: the slice left after removing leading and
      trailing whitespace. */
  function Trim(s: string): (r: string)
    ensures LeadingWs(s) + |r| <= |s|
    ensures r == s[LeadingWs(s)..LeadingWs(s) + |r|]
    ensures r == [] || (!IsJsWhitespace(r[0]) && !IsJsWhitespace(r[|r| - 1]))
    ensures forall i :: 0 <= i < LeadingWs(s) ==> IsJsWhitespace(s[i])
    ensures forall i :: LeadingWs(s) + |r| <= i < |s| ==> IsJsWhitespace(s[i])
  {
    var a := LeadingWs(s);
    if a == |s| then ""
    else
      var b := TrailingWs(s);
      assert b <= |s| - a - 1;
      s[a..|s| - b]
  }

  /** Trimming a string that neither begins nor ends with whitespace gives the
      string back. */
  lemma TrimOfUnpadded(s: string)
    requires |s| > 0 && !IsJsWhitespace(s[0]) && !IsJsWhitespace(s[|s| - 1])
    ensures Trim(s) == s
  {
    assert LeadingWs(s) == 0;
    assert TrailingWs(s) == 0;
  }

  /** The result of `trim` is all whitespace-free at its ends, so trimming again
      changes nothing. */
  lemma TrimIdempotent(s: string)
    ensures Trim(Trim(s)) == Trim(s)
  {
    var t := Trim(s);
    if |t| > 0 {
      TrimOfUnpadded(t);
    }
  }

  /** Index of the first `c` in `s`, if any (`indexOf`). */
  function FirstIndexOf(s: string, c: char): (r: Option<nat>)
    ensures r.Some? ==> r.value < |s| && s[r.value] == c
    ensures r.Some? ==> forall i :: 0 <= i < r.value ==> s[i] != c
    ensures r.None? ==> forall i :: 0 <= i < |s| ==> s[i] != c
  {
    if |s| == 0 then None
    else if s[0] == c then Some(0)
    else match FirstIndexOf(s[1..], c)
      case None => None
      case Some(k) => Some(k + 1)
  }

  /** Index of the last `c` in `s`, if any (`lastIndexOf`). */
  function LastIndexOf(s: string, c: char): (r: Option<nat>)
    ensures r.Some? ==> r.value < |s| && s[r.value] == c
    ensures r.Some? ==> forall i :: r.value < i < |s| ==> s[i] != c
    ensures r.None? ==> forall i :: 0 <= i < |s| ==> s[i] != c
  {
    if |s| == 0 then None
    else if s[|s| - 1] == c then Some(|s| - 1)
    else LastIndexOf(s[..|s| - 1], c)
  }

  /** `s.includes(pat)` on strings: a substring search, which the empty
      pattern always passes. */
  function Includes(s: string, pat: string): (b: bool)
    ensures b <==> IsInfix(pat, s)
  {
    if |pat| == 0 then
      assert OccursAt(s, 0, pat);
      true
    else FindFrom(s, pat, 0).Some?
  }

  /** First index at or after `from` where `pat` occurs in `s`. */
  function FindFrom(s: string, pat: string, from: nat): (r: Option<nat>)
    requires |pat| > 0
    ensures r.Some? ==> from <= r.value && OccursAt(s, r.value, pat)
    ensures r.Some? ==> forall j :: from <= j < r.value ==> !OccursAt(s, j, pat)
    ensures r.None? ==> forall j :: from <= j ==> !OccursAt(s, j, pat)
    decreases |s| - from
  {
    if from + |pat| > |s| then None
    else if s[from..from + |pat|] == pat then Some(from)
    else FindFrom(s, pat, from + 1)
  }

  /** An occurrence inside a slice is an occurrence in the whole string. */
  lemma OccursInSlice(s: string, lo: int, hi: int, j: int, pat: string)
    requires 0 <= lo <= hi <= |s|
    requires OccursAt(s[lo..hi], j, pat)
    ensures OccursAt(s, lo + j, pat)
  {
    var t := s[lo..hi];
    forall k | 0 <= k < |pat| ensures s[lo + j + k] == pat[k] {
      assert t[j..j + |pat|][k] == pat[k];
    }
    assert s[lo + j..lo + j + |pat|] == pat;
  }

  /** Whether every character of `s` is whitespace. */
  predicate AllWhitespace(s: string) {
    forall i :: 0 <= i < |s| ==> IsJsWhitespace(s[i])
  }

  /** `trim` removes exactly the whitespace padding around a string whose ends
      are not whitespace. */
  lemma TrimOfPadded(w1: string, t: string, w2: string)
    requires AllWhitespace(w1) && AllWhitespace(w2)
    requires |t| > 0 && !IsJsWhitespace(t[0]) && !IsJsWhitespace(t[|t| - 1])
    ensures Trim(w1 + t + w2) == t
  {
    var s := w1 + t + w2;
    var n := LeadingWs(s);
    assert s[|w1|] == t[0];
    assert n == |w1|;
    assert s[n + |t| - 1] == t[|t| - 1];
    var r := Trim(s);
    assert |r| == |t|;
    assert s[n..n + |t|] == t;
  }

  /** `LeadingWs` is the only length whose prefix is whitespace and that stops
      at a non-whitespace character or the end. */
  lemma LeadingWsUnique(s: string, n: nat)
    requires n <= |s|
    requires forall i :: 0 <= i < n ==> IsJsWhitespace(s[i])
    requires n < |s| ==> !IsJsWhitespace(s[n])
    ensures LeadingWs(s) == n
  {
  }

  /** Appending text that starts with a non-whitespace character leaves the
      leading run unchanged. */
  lemma LeadingWsAppend(x: string, y: string)
    requires |y| > 0 && !IsJsWhitespace(y[0])
    ensures LeadingWs(x + y) == LeadingWs(x)
  {
    var n := LeadingWs(x);
    if n < |x| {
      assert (x + y)[n] == x[n];
    } else {
      assert (x + y)[n] == y[0];
    }
    LeadingWsUnique(x + y, n);
  }

  /** `FindFrom` returns the first occurrence at or after `from`. */
  lemma FindFromUnique(s: string, pat: string, from: nat, q: nat)
    requires |pat| > 0 && from <= q && OccursAt(s, q, pat)
    requires forall j :: from <= j < q ==> !OccursAt(s, j, pat)
    ensures FindFrom(s, pat, from) == Some(q)
  {
  }

  /** An occurrence in `a` is one in `a + b` at the same index. */
  lemma OccursInPrefix(a: string, b: string, i: int, pat: string)
    requires OccursAt(a, i, pat)
    ensures OccursAt(a + b, i, pat)
  {
    assert (a + b)[i..i + |pat|] == a[i..i + |pat|];
  }

  /** An occurrence in `b` is one in `a + b`, shifted by `|a|`. */
  lemma OccursInSuffix(a: string, b: string, i: int, pat: string)
    requires OccursAt(b, i, pat)
    ensures OccursAt(a + b, |a| + i, pat)
  {
    assert (a + b)[|a| + i..|a| + i + |pat|] == b[i..i + |pat|];
  }

  /** A string occurs at the end of anything it is appended to. */
  lemma OccursAtEnd(a: string, pat: string)
    ensures OccursAt(a + pat, |a|, pat)
  {
    assert (a + pat)[|a|..|a| + |pat|] == pat;
  }

  /** Slicing the middle part out of a concatenation. */
  lemma SliceOfMiddle(a: string, b: string, c: string, lo: nat)
    requires lo <= |b|
    ensures (a + (b + c))[|a| + lo..|a| + |b|] == b[lo..]
  {
    var s := a + (b + c);
    forall k | 0 <= k < |b| - lo ensures s[|a| + lo..|a| + |b|][k] == b[lo..][k] {
      assert s[|a| + lo + k] == b[lo + k];
    }
  }

  /** Where element `i` starts in `Join(xs, sep)`: past every earlier
      element and its separator. */
  function JoinOffset(xs: seq<string>, sep: string, i: nat): nat
    requires i <= |xs|
    decreases i
  {
    if i == 0 then 0 else |xs[0]| + |sep| + JoinOffset(xs[1..], sep, i - 1)
  }

  /** Every element sits at its offset in the joined string, and every
      element but the last is followed by the separator. */
  lemma {:induction false} JoinPlaces(xs: seq<string>, sep: string, i: nat)
    requires i < |xs|
    ensures OccursAt(Join(xs, sep), JoinOffset(xs, sep, i), xs[i])
    ensures i + 1 < |xs| ==> OccursAt(Join(xs, sep), JoinOffset(xs, sep, i) + |xs[i]|, sep)
    decreases i
  {
    if |xs| == 1 {
      assert Join(xs, sep)[0..|xs[0]|] == xs[0];
    } else {
      var rest := Join(xs[1..], sep);
      assert Join(xs, sep) == xs[0] + sep + rest;
      if i == 0 {
        assert Join(xs, sep)[0..|xs[0]|] == xs[0];
        assert Join(xs, sep)[|xs[0]|..|xs[0]| + |sep|] == sep;
      } else {
        JoinPlaces(xs[1..], sep, i - 1);
        assert xs[1..][i - 1] == xs[i];
        OccursInSuffix(xs[0] + sep, rest, JoinOffset(xs[1..], sep, i - 1), xs[i]);
        if i + 1 < |xs| {
          OccursInSuffix(xs[0] + sep, rest, JoinOffset(xs[1..], sep, i - 1) + |xs[i]|, sep);
        }
      }
    }
  }
}
