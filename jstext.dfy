/** JavaScript strings as the chat client sees them: sequences of UTF-16 code
    units. `length`, `substring` and `trim` all count and cut code units, so the
    model does too. */
module JsText {

  /** One UTF-16 code unit. */
  newtype CodeUnit = x: int | 0 <= x < 0x1_0000

  /** A JavaScript string value. */
  type JsString = seq<CodeUnit>

  function Min(a: int, b: int): (m: int)
    ensures m <= a && m <= b && (m == a || m == b)
  {
    if a <= b then a else b
  }

  /** A string literal of App.js as a JavaScript string. Every literal this
      model uses lies in the Basic Multilingual Plane, where each character is
      one code unit; a character outside it would be two code units and is not
      needed here (it becomes U+FFFD). */
  function Literal(s: string): (r: JsString)
    ensures |r| == |s|
    ensures forall i :: 0 <= i < |s| && s[i] as int < 0x1_0000 ==> r[i] as int == s[i] as int
  {
    seq(|s|, i requires 0 <= i < |s| =>
      if s[i] as int < 0x1_0000 then s[i] as int as CodeUnit else 0xFFFD)
  }

  /** The code units `String.prototype.trim` removes: ECMAScript's WhiteSpace
      (tab, vertical tab, form feed, space, no-break space, the byte order
      mark and the space separators) and LineTerminator (line feed, carriage
      return, line and paragraph separators). */
  predicate IsWhiteSpace(u: CodeUnit)
  {
    u == 0x09 || u == 0x0A || u == 0x0B || u == 0x0C || u == 0x0D || u == 0x20 ||
    u == 0xA0 || u == 0x1680 || (0x2000 <= u <= 0x200A) || u == 0x2028 ||
    u == 0x2029 || u == 0x202F || u == 0x205F || u == 0x3000 || u == 0xFEFF
  }

  /** Every code unit of `s` is white space (the empty string included). */
  predicate IsBlank(s: JsString)
  {
    forall i :: 0 <= i < |s| ==> IsWhiteSpace(s[i])
  }

  /** Every code unit of `s` from index `lo` up to (not including) `hi` is
      white space. */
  predicate BlankBetween(s: JsString, lo: int, hi: int)
  {
    forall i :: lo <= i < hi && 0 <= i < |s| ==> IsWhiteSpace(s[i])
  }

  /** How many white-space code units `s` starts with. */
  function LeadingSpace(s: JsString): (n: nat)
    ensures n <= |s| && BlankBetween(s, 0, n)
    ensures n < |s| ==> !IsWhiteSpace(s[n])
  {
    if s != [] && IsWhiteSpace(s[0]) then 1 + LeadingSpace(s[1..]) else 0
  }

  /** How many white-space code units `s` ends with. */
  function TrailingSpace(s: JsString): (n: nat)
    ensures n <= |s| && BlankBetween(s, |s| - n, |s|)
    ensures n < |s| ==> !IsWhiteSpace(s[|s| - n - 1])
  {
    if s != [] && IsWhiteSpace(s[|s| - 1]) then 1 + TrailingSpace(s[..|s| - 1]) else 0
  }

  /** `s` without its leading white space. */
  function TrimStart(s: JsString): JsString
  {
    s[LeadingSpace(s)..]
  }

  /** `s` without its trailing white space. */
  function TrimEnd(s: JsString): JsString
  {
    s[..|s| - TrailingSpace(s)]
  }

  /** `String.prototype.trim` (`TrimKeepsMiddle` says what it keeps). */
  function Trim(s: JsString): JsString
  {
    TrimEnd(TrimStart(s))
  }

  /** What `trim` keeps is the part of `s` from index `k` to index `e`: it
      neither starts nor ends with white space, and everything before `k`
      and from `e` on is white space. */
  lemma {:induction false} TrimKeepsMiddle(s: JsString)
    ensures var k, e := LeadingSpace(s), |s| - TrailingSpace(TrimStart(s));
      k <= e <= |s| && Trim(s) == s[k..e] &&
      BlankBetween(s, 0, k) && BlankBetween(s, e, |s|) &&
      (k < e ==> !IsWhiteSpace(s[k]) && !IsWhiteSpace(s[e - 1]))
  {
    var k := LeadingSpace(s);
    var t := s[k..];
    var m := TrailingSpace(t);
    forall i | |s| - m <= i < |s| ensures IsWhiteSpace(s[i]) {
      assert s[i] == t[i - k];
    }
    if k < |s| - m {
      assert s[|s| - m - 1] == t[|t| - m - 1];
    }
  }

  /** `!s.trim()` holds exactly when `s` is blank: trimming leaves nothing iff
      every code unit is white space. */
  lemma TrimEmptyIffBlank(s: JsString)
    ensures Trim(s) == [] <==> IsBlank(s)
  {
    TrimKeepsMiddle(s);
  }

  /** Computes `!s.trim()`: whether nothing is left of `s` after trimming,
      which is whether `s` is blank. */
  method TrimsToEmpty(s: JsString) returns (empty: bool)
    ensures empty <==> IsBlank(s)
  {
    empty := Trim(s) == [];
    TrimEmptyIffBlank(s);
  }

  /** `s.substring(0, n)`: the first `n` code units, or all of `s` when it is
      shorter. */
  function Prefix(s: JsString, n: nat): (r: JsString)
    ensures |r| == Min(n, |s|)
    ensures r == s[..|r|]
  {
    if |s| <= n then s else s[..n]
  }
}
