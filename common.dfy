/** Shared vocabulary: optional values, the outcome of a call into a collaborator
    that the model does not contain (an HTTP request, a currency service), and the
    few string operations of JavaScript and Python that the core relies on. */
module Common {

  datatype Option<+T> = None | Some(value: T)

  /** The result of a call the model treats as an oracle: it either produced a
      value or it threw. */
  datatype Outcome<+T> = Returned(value: T) | Threw

  /** JavaScript's white-space and line-terminator set, which is what both `\s`
      in a regular expression and `String.prototype.trim` strip. */
  predicate IsWhitespace(c: char)
  {
    c == '\t' || c == '\n' || c == '\U{000B}' || c == '\U{000C}' || c == '\r' || c == ' '
    || c == '\U{00A0}' || c == '\U{1680}' || ('\U{2000}' <= c <= '\U{200A}')
    || c == '\U{2028}' || c == '\U{2029}' || c == '\U{202F}' || c == '\U{205F}'
    || c == '\U{3000}' || c == '\U{FEFF}'
  }

  /** `s.trim()` is the empty string exactly when every character is white space. */
  predicate TrimsToEmpty(s: string)
  {
    forall i | 0 <= i < |s| :: IsWhitespace(s[i])
  }

  /** The regular expression `\S+@\S+\.\S+` (unanchored) matches with its `@` at
      index `a` and its `.` at index `b`: one non-space before the `@`, a non-empty
      run of non-spaces between the two, and one non-space after the `.`. */
  predicate EmailMatchAt(s: string, a: int, b: int)
  {
    && 0 < a && a + 1 < b && b + 1 < |s|
    && s[a] == '@' && s[b] == '.'
    && !IsWhitespace(s[a - 1]) && !IsWhitespace(s[b + 1])
    && (forall k | a < k < b :: !IsWhitespace(s[k]))
  }

  /** `/\S+@\S+\.\S+/.test(s)`. */
  predicate LooksLikeEmail(s: string)
  {
    exists a, b | 0 < a < b < |s| - 1 :: EmailMatchAt(s, a, b)
  }

  /** `needle` occurs in `haystack` starting at index `i`. */
  predicate OccursAt(haystack: string, needle: string, i: int)
  {
    0 <= i && i + |needle| <= |haystack| && haystack[i..i + |needle|] == needle
  }

  /** `haystack.includes(needle)`: a case-sensitive test at any position. */
  predicate Contains(haystack: string, needle: string)
  {
    exists i | 0 <= i <= |haystack| - |needle| :: OccursAt(haystack, needle, i)
  }

  /** JavaScript's `s.length`: strings are UTF-16, so a character outside the
      Basic Multilingual Plane counts as two code units (a surrogate pair). */
  function Utf16Length(s: string): (n: nat)
    ensures |s| <= n <= 2 * |s|
    ensures n == |s| <==> forall i | 0 <= i < |s| :: s[i] as int <= 0xFFFF
  {
    if s == [] then 0
    else (if s[0] as int > 0xFFFF then 2 else 1) + Utf16Length(s[1..])
  }

  /** `toUpperCase`/`upper()` restricted to ASCII letters. */
  function UpperChar(c: char): (u: char)
    ensures 'a' <= c <= 'z' ==> u as int == c as int - 32
    ensures !('a' <= c <= 'z') ==> u == c
    ensures !('a' <= u <= 'z')
  {
    if 'a' <= c <= 'z' then (c as int - 32) as char else c
  }

  function Upper(s: string): (r: string)
    ensures |r| == |s|
    ensures forall i | 0 <= i < |s| :: r[i] == UpperChar(s[i])
  {
    seq(|s|, i requires 0 <= i < |s| => UpperChar(s[i]))
  }
}
