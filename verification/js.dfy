/**
 * The parts of the JavaScript runtime the core relies on: `Number(v)`'s
 * result (a finite value or NaN), the Math functions the generators call,
 * `Math.PI`, and `String.prototype.trim`.
 *
 * The Math functions and the string/number conversions are not defined
 * here: they are fields of a `Host` record that every caller passes in, so
 * the model proves only facts that hold whatever they compute.
 */
module Js {

  /** What `Number(v)` yields, modelled as a finite value or NaN; ±Infinity is not represented. */
  datatype Num = Finite(value: real) | NaN

  /** `Math.sin`, `Math.cos`, `Math.pow`, `Number(s)` on a string, `String(x)` on a number. */
  datatype Host = Host(
    sin: real -> real,
    cos: real -> real,
    pow: (real, real) -> real,
    parseNumber: string -> Num,
    formatNumber: real -> string)

  /** `Math.PI` as JavaScript prints it. */
  const PI: real := 3.141592653589793

  /** ECMAScript WhiteSpace and LineTerminator code points, the ones `trim` removes. */
  predicate IsWhiteSpace(c: char)
  {
    || c == '\t' || c == '\n' || c == '\U{B}' || c == '\U{C}' || c == '\r' || c == ' '
    || c == '\U{A0}' || c == '\U{1680}' || ('\U{2000}' <= c <= '\U{200A}')
    || c == '\U{2028}' || c == '\U{2029}' || c == '\U{202F}' || c == '\U{205F}'
    || c == '\U{3000}' || c == '\U{FEFF}'
  }

  predicate AllWhiteSpace(s: string)
  {
    forall i :: 0 <= i < |s| ==> IsWhiteSpace(s[i])
  }

  /** `s` without its leading white space: a suffix of `s` that starts with a non-space. */
  function TrimStart(s: string): (r: string)
    ensures |r| <= |s| && r == s[|s| - |r|..]
    ensures r == [] || !IsWhiteSpace(r[0])
    ensures AllWhiteSpace(s[..|s| - |r|])
  {
    if s != [] && IsWhiteSpace(s[0]) then TrimStart(s[1..]) else s
  }

  /** `s` without its trailing white space: a prefix of `s` that ends with a non-space. */
  function TrimEnd(s: string): (r: string)
    ensures |r| <= |s| && r == s[..|r|]
    ensures r == [] || !IsWhiteSpace(r[|r| - 1])
    ensures AllWhiteSpace(s[|r|..])
  {
    if s != [] && IsWhiteSpace(s[|s| - 1]) then TrimEnd(s[..|s| - 1]) else s
  }

  /** `s.trim()`. */
  function Trim(s: string): string
  {
    TrimEnd(TrimStart(s))
  }

  /** `s.trim()` is empty exactly when every character of `s` is white space. */
  lemma TrimEmptyIffBlank(s: string)
    ensures Trim(s) == "" <==> AllWhiteSpace(s)
  {
    var t := TrimStart(s);
    if t == [] {
      assert s[..|s|] == s;
    } else {
      assert !IsWhiteSpace(t[0]);
      assert s[|s| - |t|] == t[0];
    }
  }
}
