/** Text helpers shared by the model: JavaScript's `trim` and `toLowerCase`,
    `Array.prototype.join`, and "this string occurs inside that one". */
module Strings {

  /** A code point that `String.prototype.trim` removes: the WhiteSpace and
      LineTerminator characters of ECMAScript. */
  predicate IsWhitespace(c: char) {
    || c == '\t' || c == '\n' || c == '\U{000B}' || c == '\U{000C}' || c == '\r'
    || c == ' ' || c == '\U{00A0}' || c == '\U{1680}'
    || ('\U{2000}' <= c <= '\U{200A}')
    || c == '\U{2028}' || c == '\U{2029}' || c == '\U{202F}' || c == '\U{205F}'
    || c == '\U{3000}' || c == '\U{FEFF}'
  }

  predicate AllWhitespace(s: string) {
    forall k :: 0 <= k < |s| ==> IsWhitespace(s[k])
  }

  /** How many whitespace characters `s` starts with. */
  function LeadingWhitespace(s: string): (n: nat)
    ensures n <= |s|
    ensures forall k :: 0 <= k < n ==> IsWhitespace(s[k])
    ensures n < |s| ==> !IsWhitespace(s[n])
  {
    if s != [] && IsWhitespace(s[0]) then 1 + LeadingWhitespace(s[1..]) else 0
  }

  /** How many whitespace characters `s` ends with. */
  function TrailingWhitespace(s: string): (n: nat)
    ensures n <= |s|
    ensures forall k :: |s| - n <= k < |s| ==> IsWhitespace(s[k])
    ensures n < |s| ==> !IsWhitespace(s[|s| - 1 - n])
  {
    if s != [] && IsWhitespace(s[|s| - 1]) then 1 + TrailingWhitespace(s[..|s| - 1]) else 0
  }

  /** The whitespace run at the front is the longest one. */
  lemma LeadingWhitespaceUnique(s: string, n: nat)
    requires n <= |s|
    requires forall k :: 0 <= k < n ==> IsWhitespace(s[k])
    requires n < |s| ==> !IsWhitespace(s[n])
    ensures LeadingWhitespace(s) == n
  {
  }

  /** The whitespace run at the back is the longest one. */
  lemma TrailingWhitespaceUnique(s: string, n: nat)
    requires n <= |s|
    requires forall k :: |s| - n <= k < |s| ==> IsWhitespace(s[k])
    requires n < |s| ==> !IsWhitespace(s[|s| - 1 - n])
    ensures TrailingWhitespace(s) == n
  {
  }

  /** The front half of `trim`: drops the leading whitespace. */
  function TrimStart(s: string): (r: string)
    ensures |r| <= |s| && r == s[|s| - |r|..]
    ensures AllWhitespace(s[..|s| - |r|])
    ensures r != [] ==> !IsWhitespace(r[0])
  {
    s[LeadingWhitespace(s)..]
  }

  /** The back half of `trim`: drops the trailing whitespace. */
  function TrimEnd(s: string): (r: string)
    ensures |r| <= |s| && r == s[..|r|]
    ensures AllWhitespace(s[|r|..])
    ensures r != [] ==> !IsWhitespace(r[|r| - 1])
  {
    s[..|s| - TrailingWhitespace(s)]
  }

  /** `r` sits in `s` at offset `i` with nothing but whitespace around it. */
  predicate TrimmedAt(s: string, i: int, r: string) {
    && 0 <= i && i + |r| <= |s|
    && s[i..i + |r|] == r
    && AllWhitespace(s[..i])
    && AllWhitespace(s[i + |r|..])
  }

  /** `String.prototype.trim`: the slice of `s` left after removing the
      whitespace on both sides; empty exactly when `s` is all whitespace. */
  function Trim(s: string): (r: string)
    ensures r == [] <==> AllWhitespace(s)
    ensures r != [] ==> !IsWhitespace(r[0]) && !IsWhitespace(r[|r| - 1])
    ensures exists i :: TrimmedAt(s, i, r)
  {
    TrimLayout(s);
    TrimEmptyIff(s);
    TrimEnd(TrimStart(s))
  }

  /** Where the two halves of `trim` leave the result. */
  lemma TrimLayout(s: string)
    ensures TrimmedAt(s, |s| - |TrimStart(s)|, TrimEnd(TrimStart(s)))
  {
    TrimmedAtSuffixPrefix(s, TrimStart(s), TrimEnd(TrimStart(s)));
  }

  /** A prefix of a suffix, with whitespace cut off both sides, sits trimmed in `s`. */
  lemma TrimmedAtSuffixPrefix(s: string, front: string, r: string)
    requires |front| <= |s| && front == s[|s| - |front|..] && AllWhitespace(s[..|s| - |front|])
    requires |r| <= |front| && r == front[..|r|] && AllWhitespace(front[|r|..])
    ensures TrimmedAt(s, |s| - |front|, r)
  {
    var i := |s| - |front|;
    assert r == s[i..i + |r|];
    assert front[|r|..] == s[i + |r|..];
  }

  lemma AllWhitespaceAppend(a: string, b: string)
    requires AllWhitespace(a) && AllWhitespace(b)
    ensures AllWhitespace(a + b)
  {
    forall k | 0 <= k < |a + b|
      ensures IsWhitespace((a + b)[k])
    {
      if k < |a| {
        assert (a + b)[k] == a[k];
      } else {
        assert (a + b)[k] == b[k - |a|];
      }
    }
  }

  lemma TrimEmptyIff(s: string)
    ensures TrimEnd(TrimStart(s)) == [] <==> AllWhitespace(s)
  {
    var front := TrimStart(s);
    var i := |s| - |front|;
    if TrimEnd(front) == [] {
      assert front[0..] == front;
      assert s == s[..i] + front;
      AllWhitespaceAppend(s[..i], front);
    }
  }

  /** Some character of `s` is not whitespace. */
  predicate HasNonWhitespace(s: string) {
    !AllWhitespace(s)
  }

  /** JavaScript's truthiness of `s.trim()`: the trimmed text is non-empty
      exactly when some character is not whitespace. */
  lemma TrimTruthy(s: string)
    ensures Trim(s) != "" <==> HasNonWhitespace(s)
  {
  }

  /** A string with no whitespace at either end is its own trim. */
  lemma TrimOfTrimmed(s: string)
    requires s == [] || (!IsWhitespace(s[0]) && !IsWhitespace(s[|s| - 1]))
    ensures Trim(s) == s
  {
    LeadingWhitespaceUnique(s, 0);
    TrailingWhitespaceUnique(s, 0);
  }

  /** Trimming is idempotent: what `trim` returns has nothing left to trim. */
  lemma TrimIdempotent(s: string)
    ensures Trim(Trim(s)) == Trim(s)
  {
    TrimOfTrimmed(Trim(s));
  }

  /** Leading whitespace does not change what `TrimStart` returns. */
  lemma TrimStartSkipsWhitespace(w: string, s: string)
    requires AllWhitespace(w)
    ensures TrimStart(w + s) == TrimStart(s)
  {
    var n := LeadingWhitespace(s);
    var ws := w + s;
    forall k | 0 <= k < |w| + n
      ensures IsWhitespace(ws[k])
    {
      if k < |w| {
        assert ws[k] == w[k];
      } else {
        assert ws[k] == s[k - |w|];
      }
    }
    if |w| + n < |ws| {
      assert ws[|w| + n] == s[n];
    }
    LeadingWhitespaceUnique(ws, |w| + n);
    assert ws[|w| + n..] == s[n..];
  }

  /** Trailing whitespace does not change what `TrimEnd` returns. */
  lemma TrimEndSkipsWhitespace(s: string, w: string)
    requires AllWhitespace(w)
    ensures TrimEnd(s + w) == TrimEnd(s)
  {
    var n := TrailingWhitespace(s);
    var sw := s + w;
    forall k | |sw| - (|w| + n) <= k < |sw|
      ensures IsWhitespace(sw[k])
    {
      if k < |s| {
        assert sw[k] == s[k];
      } else {
        assert sw[k] == w[k - |s|];
      }
    }
    if |w| + n < |sw| {
      assert sw[|sw| - 1 - (|w| + n)] == s[|s| - 1 - n];
    }
    TrailingWhitespaceUnique(sw, |w| + n);
    assert sw[..|sw| - (|w| + n)] == s[..|s| - n];
  }

  /** Once the front is not whitespace, trimming the front leaves a suffix
      alone: `TrimStart` commutes with appending whitespace. */
  lemma TrimStartAppend(s: string, w: string)
    requires !AllWhitespace(s)
    ensures TrimStart(s + w) == TrimStart(s) + w
  {
    var n := LeadingWhitespace(s);
    var sw := s + w;
    forall k | 0 <= k < n
      ensures IsWhitespace(sw[k])
    {
      assert sw[k] == s[k];
    }
    assert sw[n] == s[n];
    LeadingWhitespaceUnique(sw, n);
    assert sw[n..] == s[n..] + w;
  }

  /** Surrounding whitespace does not change what `trim` returns. */
  lemma TrimIgnoresSurroundingWhitespace(w1: string, s: string, w2: string)
    requires AllWhitespace(w1) && AllWhitespace(w2)
    ensures Trim(w1 + s + w2) == Trim(s)
  {
    assert w1 + s + w2 == w1 + (s + w2);
    TrimStartSkipsWhitespace(w1, s + w2);
    if AllWhitespace(s) {
      assert AllWhitespace(s + w2);
    } else {
      TrimStartAppend(s, w2);
      TrimEndSkipsWhitespace(TrimStart(s), w2);
    }
  }

  /** `toLowerCase` on one character, for the ASCII letters. */
  function LowerChar(c: char): char {
    if 'A' <= c <= 'Z' then (c as int + 32) as char else c
  }

  /** `String.prototype.toLowerCase` restricted to ASCII case mapping. */
  function ToLower(s: string): (r: string)
    ensures |r| == |s|
    ensures forall k :: 0 <= k < |s| ==> r[k] == LowerChar(s[k])
  {
    if s == [] then [] else [LowerChar(s[0])] + ToLower(s[1..])
  }

  /** Two strings that differ only in the case of ASCII letters. */
  predicate EqualIgnoringCase(a: string, b: string) {
    |a| == |b| && forall k :: 0 <= k < |a| ==> LowerChar(a[k]) == LowerChar(b[k])
  }

  /** Lower-casing identifies exactly the strings that differ only in case. */
  lemma ToLowerEqualIff(a: string, b: string)
    ensures ToLower(a) == ToLower(b) <==> EqualIgnoringCase(a, b)
  {
    if EqualIgnoringCase(a, b) {
      assert forall k :: 0 <= k < |a| ==> ToLower(a)[k] == ToLower(b)[k];
    }
    if ToLower(a) == ToLower(b) {
      assert forall k :: 0 <= k < |a| ==> LowerChar(a[k]) == ToLower(a)[k];
    }
  }

  /** `Array.prototype.join(sep)` over strings. */
  function Join(xs: seq<string>, sep: string): string
  {
    if |xs| == 0 then "" else if |xs| == 1 then xs[0] else xs[0] + sep + Join(xs[1..], sep)
  }

  /** Where element `i` starts in `Join(xs, sep)`: the lengths of the elements
      before it, each followed by one separator. */
  function JoinOffset(xs: seq<string>, sep: string, i: nat): nat
    requires i <= |xs|
  {
    if i == 0 then 0 else JoinOffset(xs, sep, i - 1) + |xs[i - 1]| + |sep|
  }

  /** `x` occurs in `s` starting at index `k`. */
  predicate ContainsAt(s: string, k: int, x: string) {
    0 <= k && k + |x| <= |s| && s[k..k + |x|] == x
  }

  /** `x` occurs somewhere in `s` (JavaScript's `s.includes(x)`). */
  predicate Occurs(x: string, s: string) {
    exists k | 0 <= k <= |s| :: ContainsAt(s, k, x)
  }

  lemma ContainsAtMiddle(a: string, x: string, b: string)
    ensures ContainsAt(a + x + b, |a|, x)
  {
    assert (a + x + b)[|a|..|a| + |x|] == x;
  }

  lemma ContainsAtShift(p: string, s: string, k: int, x: string)
    requires ContainsAt(s, k, x)
    ensures ContainsAt(p + s, |p| + k, x)
  {
    assert (p + s)[|p| + k..|p| + k + |x|] == s[k..k + |x|];
  }

  lemma {:induction false} JoinOffsetShift(xs: seq<string>, sep: string, i: nat)
    requires 1 <= i <= |xs|
    ensures JoinOffset(xs, sep, i) == |xs[0]| + |sep| + JoinOffset(xs[1..], sep, i - 1)
  {
    if i > 1 {
      JoinOffsetShift(xs, sep, i - 1);
    }
  }

  /** `Join` lays the elements out in order: element `i` starts at
      `JoinOffset(xs, sep, i)` and, unless it is the last, is followed by one
      separator. */
  lemma {:induction false} JoinLayout(xs: seq<string>, sep: string, i: nat)
    requires i < |xs|
    ensures ContainsAt(Join(xs, sep), JoinOffset(xs, sep, i), xs[i])
    ensures i + 1 < |xs| ==> ContainsAt(Join(xs, sep), JoinOffset(xs, sep, i) + |xs[i]|, sep)
  {
    var j := Join(xs, sep);
    if |xs| == 1 {
      assert j[0..|xs[0]|] == xs[0];
    } else if i == 0 {
      ContainsAtMiddle([], xs[0], sep + Join(xs[1..], sep));
      assert j == xs[0] + sep + Join(xs[1..], sep);
      ContainsAtMiddle(xs[0], sep, Join(xs[1..], sep));
    } else {
      var p := xs[0] + sep;
      assert j == p + Join(xs[1..], sep);
      JoinLayout(xs[1..], sep, i - 1);
      JoinOffsetShift(xs, sep, i);
      ContainsAtShift(p, Join(xs[1..], sep), JoinOffset(xs[1..], sep, i - 1), xs[i]);
      if i + 1 < |xs| {
        ContainsAtShift(p, Join(xs[1..], sep), JoinOffset(xs[1..], sep, i - 1) + |xs[i]|, sep);
      }
    }
  }

  /** Every element occurs in the joined string. */
  lemma JoinOccurs(xs: seq<string>, sep: string, i: nat)
    requires i < |xs|
    ensures Occurs(xs[i], Join(xs, sep))
  {
    JoinLayout(xs, sep, i);
  }

  /** The elements and the separators between them fill the joined string
      exactly: nothing else is added. */
  lemma {:induction false} JoinLength(xs: seq<string>, sep: string)
    requires xs != []
    ensures |Join(xs, sep)| + |sep| == JoinOffset(xs, sep, |xs|)
  {
    if |xs| > 1 {
      JoinLength(xs[1..], sep);
      JoinOffsetShift(xs, sep, |xs|);
    }
  }
}
