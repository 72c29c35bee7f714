/** The JavaScript string operations the modelled code relies on, over `seq<char>`. */
module Strings {

  // ---------------------------------------------------------------------------
  // Substrings (`String.prototype.includes`)
  // ---------------------------------------------------------------------------

  predicate IsPrefix(p: string, s: string) {
    |p| <= |s| && s[..|p|] == p
  }

  /** `sub` occurs somewhere in `s` (the empty string occurs everywhere). */
  ghost predicate OccursIn(sub: string, s: string) {
    exists i :: 0 <= i <= |s| && IsPrefix(sub, s[i..])
  }

  /** `s.includes(sub)`, computed by scanning from the left. */
  function Includes(s: string, sub: string): (b: bool)
    ensures b <==> OccursIn(sub, s)
  {
    if IsPrefix(sub, s) then
      assert s[0..] == s;
      true
    else if |s| == 0 then
      false
    else
      var b := Includes(s[1..], sub);
      assert forall i :: 1 <= i <= |s| ==> s[1..][i - 1..] == s[i..];
      b
  }

  /** Each of four consecutive parts occurs in their concatenation. */
  lemma FourParts(a: string, b: string, c: string, d: string)
    ensures OccursIn(a, a + b + c + d) && OccursIn(b, a + b + c + d)
    ensures OccursIn(c, a + b + c + d) && OccursIn(d, a + b + c + d)
  {
    var s := a + b + c + d;
    assert s[0..][..|a|] == a;
    assert s[|a|..][..|b|] == b;
    assert s[|a| + |b|..][..|c|] == c;
    assert s[|a| + |b| + |c|..][..|d|] == d;
  }

  /** A concatenation starts with its first two parts. */
  lemma PrefixOfConcat(a: string, b: string, c: string)
    ensures IsPrefix(a + b, a + b + c)
  {
    assert (a + b + c)[..|a + b|] == a + b;
  }

  /** A string occurs at the end of anything it is appended to. */
  lemma OccursAtEnd(a: string, sub: string)
    ensures OccursIn(sub, a + sub)
  {
    assert (a + sub)[|a|..] == sub;
  }

  /** An occurrence inside `s` is still one once text is put before `s`. */
  lemma {:induction false} OccursInSuffix(sub: string, a: string, s: string)
    requires OccursIn(sub, s)
    ensures OccursIn(sub, a + s)
  {
    var i :| 0 <= i <= |s| && IsPrefix(sub, s[i..]);
    assert (a + s)[|a| + i..] == s[i..];
  }

  /** An occurrence inside `s` is still one once text is put around `s`. */
  lemma {:induction false} OccursWithin(sub: string, a: string, s: string, b: string)
    requires OccursIn(sub, s)
    ensures OccursIn(sub, a + s + b)
  {
    var i :| 0 <= i <= |s| && IsPrefix(sub, s[i..]);
    var t := a + s + b;
    assert t[|a| + i..][..|sub|] == s[i..][..|sub|];
  }

  // ---------------------------------------------------------------------------
  // Case (`toLowerCase`, ASCII letters only)
  // ---------------------------------------------------------------------------

  function LowerChar(c: char): char {
    if 'A' <= c <= 'Z' then (c as int - 'A' as int + 'a' as int) as char else c
  }

  function Lower(s: string): (r: string)
    ensures |r| == |s|
    ensures forall i :: 0 <= i < |s| ==> r[i] == LowerChar(s[i])
  {
    seq(|s|, i requires 0 <= i < |s| => LowerChar(s[i]))
  }

  // ---------------------------------------------------------------------------
  // Whitespace (`trim`)
  // ---------------------------------------------------------------------------

  /** The characters `String.prototype.trim` removes: white space and line terminators. */
  predicate IsWhitespace(c: char) {
    c == '\t' || c == '\n' || c == '\U{000B}' || c == '\U{000C}' || c == '\r' || c == ' '
    || c == '\U{00A0}' || c == '\U{1680}' || ('\U{2000}' <= c <= '\U{200A}')
    || c == '\U{2028}' || c == '\U{2029}' || c == '\U{202F}' || c == '\U{205F}'
    || c == '\U{3000}' || c == '\U{FEFF}'
  }

  function TrimStart(s: string): string {
    if |s| > 0 && IsWhitespace(s[0]) then TrimStart(s[1..]) else s
  }

  function TrimEnd(s: string): string {
    if |s| > 0 && IsWhitespace(s[|s| - 1]) then TrimEnd(s[..|s| - 1]) else s
  }

  function Trim(s: string): string {
    TrimEnd(TrimStart(s))
  }

  predicate IsBlank(s: string) {
    forall i :: 0 <= i < |s| ==> IsWhitespace(s[i])
  }

  lemma {:induction false} TrimStartEmpty(s: string)
    ensures TrimStart(s) == [] <==> IsBlank(s)
  {
    if |s| > 0 && IsWhitespace(s[0]) {
      TrimStartEmpty(s[1..]);
      assert forall i :: 1 <= i < |s| ==> s[i] == s[1..][i - 1];
    }
  }

  lemma {:induction false} TrimStartStops(s: string)
    ensures TrimStart(s) == [] || !IsWhitespace(TrimStart(s)[0])
  {
    if |s| > 0 && IsWhitespace(s[0]) {
      TrimStartStops(s[1..]);
    }
  }

  lemma {:induction false} TrimEndEmpty(s: string)
    requires s == [] || !IsWhitespace(s[0])
    ensures TrimEnd(s) == [] <==> s == []
  {
    if |s| > 1 && IsWhitespace(s[|s| - 1]) {
      TrimEndEmpty(s[..|s| - 1]);
    }
  }

  /** `!s.trim()` holds exactly for the strings made of white space only. */
  lemma TrimEmptyIffBlank(s: string)
    ensures Trim(s) == [] <==> IsBlank(s)
  {
    TrimStartEmpty(s);
    TrimStartStops(s);
    TrimEndEmpty(TrimStart(s));
  }

  // ---------------------------------------------------------------------------
  // `Array.prototype.join`
  // ---------------------------------------------------------------------------

  function Join(xs: seq<string>, sep: string): string {
    if |xs| == 0 then ""
    else if |xs| == 1 then xs[0]
    else xs[0] + sep + Join(xs[1..], sep)
  }

  /**
   * Joining keeps the parts in their order: the parts before position `i` come
   * first, then one separator, then the parts from `i` on.
   */
  lemma {:induction false} JoinSplit(xs: seq<string>, sep: string, i: nat)
    requires 0 < i < |xs|
    ensures Join(xs, sep) == Join(xs[..i], sep) + sep + Join(xs[i..], sep)
  {
    if i > 1 {
      JoinSplit(xs[1..], sep, i - 1);
      assert xs[..i][1..] == xs[1..][..i - 1];
      assert xs[1..][i - 1..] == xs[i..];
    }
  }

  /** A joined list starts with its first part, followed by the separator when more parts follow. */
  lemma JoinHead(xs: seq<string>, sep: string)
    requires |xs| > 0
    ensures IsPrefix(xs[0], Join(xs, sep))
    ensures |xs| > 1 ==> IsPrefix(xs[0] + sep, Join(xs, sep))
  {
    if |xs| > 1 {
      assert Join(xs, sep) == xs[0] + sep + Join(xs[1..], sep);
    }
  }

  // ---------------------------------------------------------------------------
  // Numbers as text and `padStart`
  // ---------------------------------------------------------------------------

  predicate IsDigit(c: char) {
    '0' <= c <= '9'
  }

  function DigitChar(d: nat): char
    requires d < 10
  {
    ('0' as int + d) as char
  }

  /** Decimal text of a natural number, as `String(n)` writes it. */
  function NatToString(n: nat): (s: string)
    ensures |s| > 0 && forall i :: 0 <= i < |s| ==> IsDigit(s[i])
    ensures |s| > 1 ==> s[0] != '0'
  {
    if n < 10 then [DigitChar(n)] else NatToString(n / 10) + [DigitChar(n % 10)]
  }

  function IntToString(n: int): string {
    if n < 0 then "-" + NatToString(-n) else NatToString(n)
  }

  function Repeat(c: char, n: nat): (r: string)
    ensures |r| == n && forall i :: 0 <= i < n ==> r[i] == c
  {
    if n == 0 then "" else [c] + Repeat(c, n - 1)
  }

  /** `s.padStart(width, fill)` with a one-character fill. */
  function PadStart(s: string, width: nat, fill: char): (r: string)
    ensures |s| >= width ==> r == s
    ensures |s| < width ==> |r| == width
    ensures r[|r| - |s|..] == s
    ensures forall i :: 0 <= i < |r| - |s| ==> r[i] == fill
  {
    if |s| >= width then s else Repeat(fill, width - |s|) + s
  }
}
