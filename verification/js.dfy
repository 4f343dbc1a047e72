/** The few JavaScript string and array primitives the components rely on,
    written out with the semantics ECMAScript gives them. */
module Js {
  import opened Outcomes

  /** The characters `String.prototype.trim` strips: the ECMAScript
      WhiteSpace and LineTerminator productions. */
  predicate IsWhitespace(c: char) {
    c in {' ', '\t', '\n', '\r', '\U{0B}', '\U{0C}', '\U{A0}', '\U{FEFF}',
          '\U{1680}', '\U{2000}', '\U{2001}', '\U{2002}', '\U{2003}',
          '\U{2004}', '\U{2005}', '\U{2006}', '\U{2007}', '\U{2008}',
          '\U{2009}', '\U{200A}', '\U{2028}', '\U{2029}', '\U{202F}',
          '\U{205F}', '\U{3000}'}
  }

  /** `!s.trim()`: trimming leaves the empty (falsy) string exactly when
      every character is whitespace. */
  predicate IsBlank(s: string) {
    forall i :: 0 <= i < |s| ==> IsWhitespace(s[i])
  }

  /** `s.startsWith(prefix)`. */
  predicate StartsWith(s: string, prefix: string) {
    |prefix| <= |s| && s[..|prefix|] == prefix
  }

  /** A character beyond U+FFFF, which UTF-16 stores as a surrogate pair. */
  predicate IsAstral(c: char) {
    c as int > 0xFFFF
  }

  /** `s.length`: JavaScript counts UTF-16 code units, so every character
      beyond U+FFFF counts twice. String-length checks in schemas use this
      count, not the number of characters. */
  function Utf16Length(s: string): (n: nat)
    ensures |s| <= n <= 2 * |s|
    ensures (forall i :: 0 <= i < |s| ==> !IsAstral(s[i])) ==> n == |s|
    ensures (forall i :: 0 <= i < |s| ==> IsAstral(s[i])) ==> n == 2 * |s|
    ensures n == 0 <==> s == ""
  {
    if |s| == 0 then 0
    else Utf16Length(s[..|s| - 1]) + (if IsAstral(s[|s| - 1]) then 2 else 1)
  }

  /** The code-unit count adds up over concatenation. */
  lemma {:induction false} Utf16LengthAppend(a: string, b: string)
    ensures Utf16Length(a + b) == Utf16Length(a) + Utf16Length(b)
    decreases |b|
  {
    if |b| == 0 {
      assert a + b == a;
    } else {
      assert (a + b)[..|a + b| - 1] == a + b[..|b| - 1];
      assert (a + b)[|a + b| - 1] == b[|b| - 1];
      Utf16LengthAppend(a, b[..|b| - 1]);
    }
  }

  /** `message || fallback`: an absent or empty message is falsy. */
  function OrElse(message: Option<string>, fallback: string): (r: string)
    ensures message.Some? && message.value != "" ==> r == message.value
    ensures message.None? || message.value == "" ==> r == fallback
  {
    if message.Some? && message.value != "" then message.value else fallback
  }

  /** How `Array.prototype.slice` turns a relative index into a position in
      `[0, n]`: a negative index counts from the end, and both directions
      clamp. */
  function RelativeIndex(k: int, n: nat): (r: nat)
    ensures r <= n
    ensures 0 <= k <= n ==> r == k
    ensures k > n ==> r == n
    ensures k < 0 && n + k >= 0 ==> r == n + k
    ensures n + k < 0 ==> r == 0
  {
    if k < 0 then (if n + k < 0 then 0 else n + k)
    else if k > n then n
    else k
  }

  /** `s.slice(start, end)`. */
  function Slice<T>(s: seq<T>, start: int, end: int): (r: seq<T>)
    ensures |r| <= |s|
  {
    var a := RelativeIndex(start, |s|);
    var b := RelativeIndex(end, |s|);
    if b <= a then [] else s[a..b]
  }
}
