/**
 * String operations the backend (Python `str`) and the front end (JavaScript
 * `String`) apply: slicing, stripping, searching, replacing and joining.
 * A `char` is a Unicode scalar value, so `|s|` is Python's `len(s)`.
 */
module Text {

  /** The language whose stripping is meant: Python's `str.strip()` or JavaScript's `String.prototype.trim()`. */
  datatype Runtime = Python | JavaScript

  /**
   * The whitespace each language strips.  Both strip tab, line feed, vertical
   * tab, form feed, carriage return, the Unicode space separators and the
   * line and paragraph separators; only Python strips the information
   * separators U+001C to U+001F and U+0085; only JavaScript strips U+FEFF.
   */
  predicate IsSpace(rt: Runtime, c: char) {
    || c == ' ' || '\t' <= c <= '\r' || c == '\U{A0}' || c == '\U{1680}' || '\U{2000}' <= c <= '\U{200A}'
    || c == '\U{2028}' || c == '\U{2029}' || c == '\U{202F}' || c == '\U{205F}' || c == '\U{3000}'
    || (rt == Python && ('\U{1C}' <= c <= '\U{1F}' || c == '\U{85}'))
    || (rt == JavaScript && c == '\U{FEFF}')
  }

  predicate StartsWith(s: string, prefix: string) {
    |prefix| <= |s| && s[..|prefix|] == prefix
  }

  predicate EndsWith(s: string, suffix: string) {
    |suffix| <= |s| && s[|s| - |suffix|..] == suffix
  }

  /** Python's `sub in s` / JavaScript's `s.includes(sub)`: `sub` occurs somewhere in `s`. */
  predicate Contains(s: string, sub: string)
    decreases |s|
  {
    StartsWith(s, sub) || (s != [] && Contains(s[1..], sub))
  }

  // ---------------------------------------------------------------------------
  // Prefixes

  /** Python's `s[:n]` and JavaScript's `s.slice(0, n)` for `n >= 0`. */
  function Take(s: string, n: nat): (r: string)
    ensures |r| == if n < |s| then n else |s|
    ensures StartsWith(s, r)
    ensures |s| <= n ==> r == s
  {
    if n < |s| then s[..n] else s
  }

  // ---------------------------------------------------------------------------
  // Stripping

  /** The number of whitespace characters at the start of `s`. */
  function LeadingSpaces(rt: Runtime, s: string): (k: nat)
    ensures k <= |s|
    ensures forall i :: 0 <= i < k ==> IsSpace(rt, s[i])
    ensures k < |s| ==> !IsSpace(rt, s[k])
  {
    if s == [] || !IsSpace(rt, s[0]) then 0 else 1 + LeadingSpaces(rt, s[1..])
  }

  /** The number of whitespace characters at the end of `s`. */
  function TrailingSpaces(rt: Runtime, s: string): (k: nat)
    ensures k <= |s|
    ensures forall i :: |s| - k <= i < |s| ==> IsSpace(rt, s[i])
    ensures k < |s| ==> !IsSpace(rt, s[|s| - k - 1])
  {
    if s == [] || !IsSpace(rt, s[|s| - 1]) then 0 else 1 + TrailingSpaces(rt, s[..|s| - 1])
  }

  /** Python's `s.strip()` (for `Python`) and JavaScript's `s.trim()` (for `JavaScript`). */
  function Strip(rt: Runtime, s: string): (r: string)
    ensures LeadingSpaces(rt, s) + |r| <= |s|
    ensures r == s[LeadingSpaces(rt, s)..LeadingSpaces(rt, s) + |r|]
    ensures forall i :: LeadingSpaces(rt, s) + |r| <= i < |s| ==> IsSpace(rt, s[i])
    ensures r == [] <==> forall i :: 0 <= i < |s| ==> IsSpace(rt, s[i])
    ensures r != [] ==> !IsSpace(rt, r[0]) && !IsSpace(rt, r[|r| - 1])
  {
    var t := s[LeadingSpaces(rt, s)..];
    if t == [] then t
    else
      assert !IsSpace(rt, t[0]);
      t[..|t| - TrailingSpaces(rt, t)]
  }

  /** Stripping a stripped string changes nothing. */
  lemma StripIdempotent(rt: Runtime, s: string)
    ensures Strip(rt, Strip(rt, s)) == Strip(rt, s)
  {
    var r := Strip(rt, s);
    if r != [] {
      assert LeadingSpaces(rt, r) == 0;
      var t := r[LeadingSpaces(rt, r)..];
      assert t == r;
      assert TrailingSpaces(rt, t) == 0;
    }
  }

  /** A text that starts and ends with non-whitespace is left as it is. */
  lemma StripUnchanged(rt: Runtime, s: string)
    requires s != [] && !IsSpace(rt, s[0]) && !IsSpace(rt, s[|s| - 1])
    ensures Strip(rt, s) == s
  {
    assert LeadingSpaces(rt, s) == 0;
    assert s[0..] == s;
    assert TrailingSpaces(rt, s) == 0;
  }

  /** A leading whitespace character is stripped from a text that ends in a non-whitespace one. */
  lemma StripLeadingSpace(rt: Runtime, c: char, d: char)
    requires IsSpace(rt, c) && !IsSpace(rt, d)
    ensures Strip(rt, [c, d]) == [d]
  {
    assert [c, d][1..] == [d];
    assert LeadingSpaces(rt, [c, d]) == 1;
  }

  /** A text that starts and ends with non-whitespace is left as it is. */
  lemma StripNoSpace(rt: Runtime, c: char, d: char)
    requires !IsSpace(rt, c) && !IsSpace(rt, d)
    ensures Strip(rt, [c, d]) == [c, d]
  {
  }

  /** The two languages strip differently: U+001C to U+001F and U+0085 are whitespace to Python only, U+FEFF to JavaScript only. */
  lemma StripsDiffer(d: char)
    requires !IsSpace(Python, d) && !IsSpace(JavaScript, d)
    ensures forall c :: '\U{1C}' <= c <= '\U{1F}' || c == '\U{85}' ==>
      Strip(Python, [c, d]) == [d] && Strip(JavaScript, [c, d]) == [c, d]
    ensures Strip(Python, ['\U{FEFF}', d]) == ['\U{FEFF}', d] && Strip(JavaScript, ['\U{FEFF}', d]) == [d]
  {
    forall c | '\U{1C}' <= c <= '\U{1F}' || c == '\U{85}'
      ensures Strip(Python, [c, d]) == [d] && Strip(JavaScript, [c, d]) == [c, d]
    {
      StripLeadingSpace(Python, c, d);
      StripNoSpace(JavaScript, c, d);
    }
    StripNoSpace(Python, '\U{FEFF}', d);
    StripLeadingSpace(JavaScript, '\U{FEFF}', d);
  }

  /** A prefix without whitespace survives stripping. */
  lemma StripKeepsPrefix(rt: Runtime, s: string, p: string)
    requires StartsWith(s, p)
    requires forall i :: 0 <= i < |p| ==> !IsSpace(rt, p[i])
    ensures StartsWith(Strip(rt, s), p)
  {
    if p != [] {
      assert s[0] == p[0];
      assert LeadingSpaces(rt, s) == 0;
      assert s[|p| - 1] == p[|p| - 1];
      assert |p| - 1 < |s| - TrailingSpaces(rt, s);
    }
  }

  // ---------------------------------------------------------------------------
  // Searching

  /** Python's `s.find(c)` for one character: the first index of `c`, or -1. */
  function Find(s: string, c: char): (r: int)
    ensures -1 <= r < |s|
    ensures r == -1 <==> c !in s
    ensures r >= 0 ==> s[r] == c && forall j :: 0 <= j < r ==> s[j] != c
  {
    if s == [] then -1
    else if s[0] == c then 0
    else
      var k := Find(s[1..], c);
      if k == -1 then -1 else k + 1
  }

  /** Python's `s.rfind(c)` for one character: the last index of `c`, or -1. */
  function RFind(s: string, c: char): (r: int)
    ensures -1 <= r < |s|
    ensures r == -1 <==> c !in s
    ensures r >= 0 ==> s[r] == c && forall j :: r < j < |s| ==> s[j] != c
  {
    if s == [] then -1
    else if s[|s| - 1] == c then |s| - 1
    else RFind(s[..|s| - 1], c)
  }

  /** Python's `s.split(c)[0]`: everything before the first `c`, or all of `s`. */
  function BeforeFirst(s: string, c: char): (r: string)
    ensures c !in r
    ensures StartsWith(s, r)
    ensures |r| < |s| ==> s[|r|] == c
  {
    var k := Find(s, c);
    if k == -1 then s else s[..k]
  }

  // ---------------------------------------------------------------------------
  // Replacing and case

  /** Python's `s.replace(a, b)` for single characters. */
  function ReplaceChar(s: string, a: char, b: char): (r: string)
    ensures |r| == |s|
    ensures forall i :: 0 <= i < |s| ==> r[i] == if s[i] == a then b else s[i]
    ensures a != b ==> a !in r
  {
    seq(|s|, i requires 0 <= i < |s| => if s[i] == a then b else s[i])
  }

  /**
   * Python's `s.replace(pat, rep)` for a non-empty pattern: occurrences are
   * found from the left and do not overlap.
   */
  function ReplaceAll(s: string, pat: string, rep: string): string
    requires pat != []
    decreases |s|
  {
    if |s| < |pat| then s
    else if s[..|pat|] == pat then rep + ReplaceAll(s[|pat|..], pat, rep)
    else [s[0]] + ReplaceAll(s[1..], pat, rep)
  }

  /** ASCII lower-casing of one character. */
  function LowerChar(c: char): (r: char)
    ensures 'A' <= c <= 'Z' ==> 'a' <= r <= 'z'
    ensures !('A' <= c <= 'Z') ==> r == c
  {
    if 'A' <= c <= 'Z' then (c as int + 32) as char else c
  }

  /** Python's `s.lower()` on the ASCII letters. */
  function Lower(s: string): (r: string)
    ensures |r| == |s|
    ensures forall i :: 0 <= i < |s| ==> r[i] == LowerChar(s[i])
  {
    seq(|s|, i requires 0 <= i < |s| => LowerChar(s[i]))
  }

  /** Python's `sep.join(xs)`. */
  function Join(xs: seq<string>, sep: string): string
  {
    if xs == [] then ""
    else if |xs| == 1 then xs[0]
    else xs[0] + sep + Join(xs[1..], sep)
  }

  /** Joining one more element adds the separator and that element. */
  lemma {:induction false} JoinSnoc(xs: seq<string>, x: string, sep: string)
    requires xs != []
    ensures Join(xs + [x], sep) == Join(xs, sep) + sep + x
  {
    if |xs| == 1 {
      assert xs + [x] == [xs[0], x];
    } else {
      assert (xs + [x])[1..] == xs[1..] + [x];
      JoinSnoc(xs[1..], x, sep);
    }
  }

  /** The decimal numeral of an integer, as JavaScript's `String(n)` writes it. */
  function Decimal(n: int): (r: string)
    ensures r != []
    decreases if n < 0 then -n + 1 else n
  {
    if n < 0 then "-" + Decimal(-n)
    else if n < 10 then [Digit(n)]
    else Decimal(n / 10) + [Digit(n % 10)]
  }

  function Digit(d: int): char
    requires 0 <= d < 10
  {
    ['0', '1', '2', '3', '4', '5', '6', '7', '8', '9'][d]
  }

  /** The number of occurrences of `c` in `s`. */
  function Count(s: string, c: char): nat
  {
    if s == [] then 0 else (if s[0] == c then 1 else 0) + Count(s[1..], c)
  }

  // ---------------------------------------------------------------------------
  // Facts about Count, Contains and ReplaceAll

  /** Occurrences in a concatenation add up. */
  lemma {:induction false} CountAppend(a: string, b: string, c: char)
    ensures Count(a + b, c) == Count(a, c) + Count(b, c)
  {
    if a == [] {
      assert a + b == b;
    } else {
      assert (a + b)[1..] == a[1..] + b;
      CountAppend(a[1..], b, c);
    }
  }

  /** Text free of `c` on both sides adds no occurrence of `c`. */
  lemma CountBetween(a: string, x: string, b: string, c: char)
    requires c !in a && c !in b
    ensures Count(a + x + b, c) == Count(x, c)
  {
    CountAbsent(a, c);
    CountAbsent(b, c);
    CountAppend(a, x, c);
    CountAppend(a + x, b, c);
  }

  /** A character that does not occur is counted zero times. */
  lemma {:induction false} CountAbsent(s: string, c: char)
    requires c !in s
    ensures Count(s, c) == 0
  {
    if s != [] {
      assert c !in s[1..];
      CountAbsent(s[1..], c);
    }
  }

  /** A string shorter than `sub` cannot contain it. */
  lemma {:induction false} ContainsTooShort(s: string, sub: string)
    requires |s| < |sub|
    ensures !Contains(s, sub)
  {
    if s != [] {
      ContainsTooShort(s[1..], sub);
    }
  }

  /** An occurrence in a suffix is an occurrence in the whole string. */
  lemma {:induction false} ContainsDrop(s: string, i: nat, sub: string)
    requires i <= |s|
    requires Contains(s[i..], sub)
    ensures Contains(s, sub)
  {
    if i > 0 {
      assert s[1..][i - 1..] == s[i..];
      ContainsDrop(s[1..], i - 1, sub);
    }
  }

  /** An occurrence in a prefix is an occurrence in the whole string. */
  lemma {:induction false} ContainsTake(s: string, j: nat, sub: string)
    requires j <= |s|
    requires Contains(s[..j], sub)
    ensures Contains(s, sub)
  {
    var t := s[..j];
    if StartsWith(t, sub) {
      assert s[..|sub|] == t[..|sub|];
    } else {
      assert t != [] && Contains(t[1..], sub);
      assert t[1..] == s[1..][..j - 1];
      ContainsTake(s[1..], j - 1, sub);
    }
  }

  /** An occurrence in a slice is an occurrence in the whole string. */
  lemma ContainsSlice(s: string, i: nat, j: nat, sub: string)
    requires i <= j <= |s|
    ensures Contains(s[i..j], sub) ==> Contains(s, sub)
  {
    if Contains(s[i..j], sub) {
      assert s[i..j] == s[..j][i..];
      ContainsDrop(s[..j], i, sub);
      ContainsTake(s, j, sub);
    }
  }

  /** A string occurs in any text built around it. */
  lemma ContainsPart(a: string, b: string, c: string)
    ensures Contains(a + b + c, b)
  {
    var s := a + b + c;
    assert s[|a|..|a| + |b|] == b;
    assert StartsWith(b, b);
    ContainsSlice(s, |a|, |a| + |b|, b);
  }

  /** Both strings set into a template occur in the result. */
  lemma ContainsBoth(a: string, x: string, b: string, y: string, c: string)
    ensures Contains(a + x + b + y + c, x) && Contains(a + x + b + y + c, y)
  {
    ContainsPart(a, x, b + y + c);
    assert a + x + (b + y + c) == a + x + b + y + c;
    ContainsPart(a + x + b, y, c);
  }

  /** Where the pattern does not start, `ReplaceAll` copies one character and goes on. */
  lemma ReplaceAllStep(s: string, pat: string, rep: string)
    requires pat != [] && s != [] && !StartsWith(s, pat)
    ensures ReplaceAll(s, pat, rep) == [s[0]] + ReplaceAll(s[1..], pat, rep)
  {
    if |s| < |pat| {
      assert ReplaceAll(s[1..], pat, rep) == s[1..];
      assert [s[0]] + s[1..] == s;
    }
  }

  /** A prefix without the pattern's first character is copied unchanged. */
  lemma {:induction false} ReplaceAllFree(x: string, y: string, pat: string, rep: string)
    requires pat != [] && pat[0] !in x
    ensures ReplaceAll(x + y, pat, rep) == x + ReplaceAll(y, pat, rep)
    decreases |x|
  {
    var s := x + y;
    if x == [] {
      assert s == y;
    } else {
      assert s[0] == x[0] && s[1..] == x[1..] + y;
      assert ReplaceAll(s, pat, rep) == [s[0]] + ReplaceAll(s[1..], pat, rep) by {
        ReplaceAllStep(s, pat, rep);
      }
      ReplaceAllFree(x[1..], y, pat, rep);
      assert [x[0]] + (x[1..] + ReplaceAll(y, pat, rep)) == x + ReplaceAll(y, pat, rep);
    }
  }

  /** An occurrence at the front is replaced, and the search goes on after it. */
  lemma ReplaceAllFront(pat: string, y: string, rep: string)
    requires pat != []
    ensures ReplaceAll(pat + y, pat, rep) == rep + ReplaceAll(y, pat, rep)
  {
    var s := pat + y;
    assert s[..|pat|] == pat && s[|pat|..] == y;
  }

  /**
   * One occurrence is replaced when the text before it has no character that
   * starts the pattern and the text after it is left unchanged.
   */
  lemma ReplaceAllOnce(x: string, pat: string, y: string, rep: string)
    requires pat != [] && pat[0] !in x && ReplaceAll(y, pat, rep) == y
    ensures ReplaceAll(x + pat + y, pat, rep) == x + rep + y
  {
    var tail := pat + y;
    assert x + pat + y == x + tail;
    ReplaceAllFree(x, tail, pat, rep);
    ReplaceAllFront(pat, y, rep);
    assert x + (rep + y) == x + rep + y;
  }

  /** Stripping cannot create an occurrence. */
  lemma StripContains(rt: Runtime, s: string, sub: string)
    ensures Contains(Strip(rt, s), sub) ==> Contains(s, sub)
  {
    var k, r := LeadingSpaces(rt, s), Strip(rt, s);
    assert r == s[k..k + |r|];
    ContainsSlice(s, k, k + |r|, sub);
  }

  const Fence := "```"

  /**
   * Removing every "```" from left to right leaves no "```" behind: a removal
   * never joins two back-tick runs into a new fence.
   */
  lemma {:induction false} NoFenceAfterRemoval(s: string)
    ensures !Contains(ReplaceAll(s, Fence, ""), Fence)
    decreases |s|
  {
    var r := ReplaceAll(s, Fence, "");
    if |s| < 3 {
      ContainsTooShort(s, Fence);
    } else if s[..3] == Fence {
      assert r == ReplaceAll(s[3..], Fence, "");
      NoFenceAfterRemoval(s[3..]);
    } else {
      var t := s[1..];
      var rt := ReplaceAll(t, Fence, "");
      assert r == [s[0]] + rt;
      NoFenceAfterRemoval(t);
      assert r[1..] == rt;
    }
  }
}
