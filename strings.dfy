/**
 * The JavaScript string operations the pages and forms rely on, over
 * `string` (a sequence of Unicode scalar values). Case mapping is ASCII only.
 */
module Strings {

  predicate IsDigit(c: char) { '0' <= c <= '9' }
  predicate IsUpper(c: char) { 'A' <= c <= 'Z' }
  predicate IsLower(c: char) { 'a' <= c <= 'z' }

  /**
   * The code points ECMAScript calls WhiteSpace or LineTerminator: exactly
   * what `String.prototype.trim` removes from both ends.
   */
  predicate IsJsWhitespace(c: char) {
    c == '\t' || c == '\n' || c == '\U{B}' || c == '\U{C}' || c == '\r' || c == ' '
    || c == '\U{A0}' || c == '\U{1680}' || '\U{2000}' <= c <= '\U{200A}'
    || c == '\U{2028}' || c == '\U{2029}' || c == '\U{202F}' || c == '\U{205F}'
    || c == '\U{3000}' || c == '\U{FEFF}'
  }

  function TrimStart(s: string): (r: string)
    ensures |r| <= |s| && r == s[|s| - |r|..]
    ensures IsBlank(s[..|s| - |r|])
    ensures r != [] ==> !IsJsWhitespace(r[0])
  {
    if s != [] && IsJsWhitespace(s[0]) then
      var r := TrimStart(s[1..]);
      assert s[..|s| - |r|] == [s[0]] + s[1..][..|s[1..]| - |r|];
      BlankAppend([s[0]], s[1..][..|s[1..]| - |r|]);
      r
    else s
  }

  function TrimEnd(s: string): (r: string)
    ensures |r| <= |s| && r == s[..|r|]
    ensures IsBlank(s[|r|..])
    ensures r != [] ==> !IsJsWhitespace(r[|r| - 1])
  {
    if s != [] && IsJsWhitespace(s[|s| - 1]) then
      var r := TrimEnd(s[..|s| - 1]);
      assert s[|r|..] == s[..|s| - 1][|r|..] + [s[|s| - 1]];
      BlankAppend(s[..|s| - 1][|r|..], [s[|s| - 1]]);
      r
    else s
  }

  /**
   * `s.trim()`: the middle of `s` between a whitespace prefix and a
   * whitespace suffix, starting and ending with non-whitespace.
   */
  function Trim(s: string): (r: string)
    ensures exists a, b :: 0 <= a <= b <= |s| && r == s[a..b] && IsBlank(s[..a]) && IsBlank(s[b..])
    ensures r == [] <==> IsBlank(s)
    ensures r != [] ==> !IsJsWhitespace(r[0]) && !IsJsWhitespace(r[|r| - 1])
  {
    var t := TrimStart(s);
    var r := TrimEnd(t);
    MiddleBetweenBlanks(s, t, r);
    r
  }

  /**
   * Trimming the start of `s` to `t` and then the end of `t` to `r` leaves
   * `r` between two blank pieces of `s`, with non-whitespace at both ends.
   */
  lemma MiddleBetweenBlanks(s: string, t: string, r: string)
    requires |t| <= |s| && t == s[|s| - |t|..] && IsBlank(s[..|s| - |t|])
    requires t != [] ==> !IsJsWhitespace(t[0])
    requires |r| <= |t| && r == t[..|r|] && IsBlank(t[|r|..])
    requires r != [] ==> !IsJsWhitespace(r[|r| - 1])
    ensures exists a, b :: 0 <= a <= b <= |s| && r == s[a..b] && IsBlank(s[..a]) && IsBlank(s[b..])
    ensures r == [] <==> IsBlank(s)
    ensures r != [] ==> !IsJsWhitespace(r[0]) && !IsJsWhitespace(r[|r| - 1])
  {
    var a, b := |s| - |t|, |s| - |t| + |r|;
    assert s[b..] == t[|r|..];
    assert r == s[a..b];
    if r != [] {
      assert r[0] == t[0] == s[a];
    } else {
      assert s[..|s| - |t|] == s;
    }
  }

  /** `!s.trim()`: the string is empty once trimmed, that is, it is all whitespace. */
  predicate IsBlank(s: string) { forall i :: 0 <= i < |s| ==> IsJsWhitespace(s[i]) }

  lemma BlankAppend(a: string, b: string)
    requires IsBlank(a) && IsBlank(b)
    ensures IsBlank(a + b)
  {
  }

  function LowerChar(c: char): char { if IsUpper(c) then (c as int + 32) as char else c }
  function UpperChar(c: char): char { if IsLower(c) then (c as int - 32) as char else c }

  /** `s.toLowerCase()`, ASCII letters only. */
  function Lower(s: string): (r: string)
    ensures |r| == |s| && forall i :: 0 <= i < |s| ==> r[i] == LowerChar(s[i])
  {
    seq(|s|, i requires 0 <= i < |s| => LowerChar(s[i]))
  }

  /** `s.toUpperCase()`, ASCII letters only. */
  function Upper(s: string): (r: string)
    ensures |r| == |s| && forall i :: 0 <= i < |s| ==> r[i] == UpperChar(s[i])
    ensures forall i :: 0 <= i < |r| ==> !IsLower(r[i])
  {
    seq(|s|, i requires 0 <= i < |s| => UpperChar(s[i]))
  }

  /** `n` occurs in `h` starting at index `i`. */
  predicate OccursAt(h: string, n: string, i: int) {
    0 <= i && i + |n| <= |h| && h[i..i + |n|] == n
  }

  /** `h.includes(n)`: `n` occurs in `h` as a contiguous block. */
  function Includes(h: string, n: string): (b: bool)
    ensures b <==> exists i :: OccursAt(h, n, i)
  {
    if n <= h then (assert OccursAt(h, n, 0); true)
    else if h == [] then false
    else
      var b := Includes(h[1..], n);
      assert forall i :: OccursAt(h[1..], n, i) <==> OccursAt(h, n, i + 1);
      assert !OccursAt(h, n, 0);
      assert forall i :: OccursAt(h, n, i) ==> i == 0 || OccursAt(h[1..], n, i - 1);
      b
  }

  /** `h.toLowerCase().includes(q.toLowerCase())`. */
  predicate IncludesIgnoringCase(h: string, q: string) { Includes(Lower(h), Lower(q)) }

  /** The empty query is found in every string, with or without case folding. */
  lemma EmptyQueryMatches(h: string)
    ensures Includes(h, "") && IncludesIgnoringCase(h, "")
  {
    assert Lower("") == "";
  }

  /** The index of the first `c` in `s`, or `|s|` when there is none. */
  function FirstIndex(s: string, c: char): (k: nat)
    ensures k <= |s|
    ensures forall i :: 0 <= i < k ==> s[i] != c
    ensures k < |s| ==> s[k] == c
  {
    if s == [] then 0 else if s[0] == c then 0 else 1 + FirstIndex(s[1..], c)
  }

  /** `s.replace(c, '')` with a one-character pattern: drops the first `c` only. */
  function RemoveFirst(s: string, c: char): (r: string)
    ensures c !in s ==> r == s
    ensures c in s ==> |r| == |s| - 1 && multiset(r) + multiset{c} == multiset(s)
    ensures c in s ==> r == s[..FirstIndex(s, c)] + s[FirstIndex(s, c) + 1..]
  {
    var k := FirstIndex(s, c);
    if k < |s| then
      assert s == s[..k] + [s[k]] + s[k + 1..];
      s[..k] + s[k + 1..]
    else
      assert c !in s;
      s
  }

  /** `s.split(d)` with a one-character separator. */
  function Split(s: string, d: char): (parts: seq<string>)
    ensures |parts| >= 1
    ensures forall i :: 0 <= i < |parts| ==> d !in parts[i]
    ensures parts[0] == s[..FirstIndex(s, d)]
    ensures |parts| > 1 <==> d in s
    decreases |s|
  {
    var k := FirstIndex(s, d);
    if k == |s| then
      assert s[..k] == s;
      [s]
    else
      assert d !in s[..k];
      [s[..k]] + Split(s[k + 1..], d)
  }

  /** `parts.join(sep)`. */
  function Join(parts: seq<string>, sep: string): string
  {
    if parts == [] then ""
    else if |parts| == 1 then parts[0]
    else parts[0] + sep + Join(parts[1..], sep)
  }

  /** The second segment of `s.split(d)`: what lies between the first and second `d`. */
  lemma SplitSecond(s: string, d: char)
    requires d in s
    ensures var k := FirstIndex(s, d);
            var rest := s[k + 1..];
            Split(s, d)[1] == rest[..FirstIndex(rest, d)]
  {
  }

  /** The first `n` characters, as an input with `maxLength={n}` keeps them. */
  function Take(s: string, n: nat): (r: string)
    ensures |r| <= n && r <= s
    ensures |s| <= n ==> r == s
  {
    if |s| <= n then s else s[..n]
  }
}
