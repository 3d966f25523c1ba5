/**
 * Shared vocabulary of the model: optional values and results, the Java
 * integer conversions the server relies on, and the ASCII text helpers used
 * by the case-insensitive lookups on both sides of the wire.
 */
module Common {

  /** A value that may be missing (a JavaScript `null`/`undefined`, a Java `null`). */
  datatype Option<+T> = None | Some(value: T)

  /** An operation that either succeeds with a value or fails with an error (a thrown exception). */
  datatype Result<+T, +E> = Ok(value: T) | Err(error: E)

  // ---------------------------------------------------------------------------
  // Java 32-bit integers
  // ---------------------------------------------------------------------------

  const INT_MIN: int := -0x8000_0000
  const INT_MAX: int := 0x7fff_ffff
  const TWO_32: int := 0x1_0000_0000

  predicate IsInt32(n: int) { INT_MIN <= n <= INT_MAX }

  /** Two's-complement wrap-around of Java `int` arithmetic: the unique int32 congruent to `n`. */
  function Wrap32(n: int): (r: int)
    ensures IsInt32(r)
    ensures (r - n) % TWO_32 == 0
    ensures IsInt32(n) ==> r == n
  {
    (n - INT_MIN) % TWO_32 + INT_MIN
  }

  /** Truncation of a real toward zero (the rounding of Java's `(int)` cast). */
  function TruncTowardZero(r: real): (n: int)
    ensures r >= 0.0 ==> 0 <= n && n as real <= r < n as real + 1.0
    ensures r < 0.0 ==> n <= 0 && n as real - 1.0 < r <= n as real
  {
    if r >= 0.0 then r.Floor else -((-r).Floor)
  }

  /** Java's `(int)` cast of a finite float: truncation toward zero, saturating at the int32 bounds. */
  function JavaIntCast(r: real): (n: int)
    ensures IsInt32(n)
    ensures INT_MIN as real <= r <= INT_MAX as real ==> n == TruncTowardZero(r)
    ensures r > INT_MAX as real ==> n == INT_MAX
    ensures r < INT_MIN as real ==> n == INT_MIN
  {
    if r > INT_MAX as real then INT_MAX
    else if r < INT_MIN as real then INT_MIN
    else TruncTowardZero(r)
  }

  // ---------------------------------------------------------------------------
  // ASCII case mapping (Java `toUpperCase`, JavaScript `toLowerCase` on ASCII)
  // ---------------------------------------------------------------------------

  function UpperChar(c: char): (u: char)
    ensures 'a' <= c <= 'z' ==> 'A' <= u <= 'Z' && u as int == c as int - 32
    ensures !('a' <= c <= 'z') ==> u == c
  {
    if 'a' <= c <= 'z' then (c as int - 32) as char else c
  }

  function LowerChar(c: char): (l: char)
    ensures 'A' <= c <= 'Z' ==> 'a' <= l <= 'z' && l as int == c as int + 32
    ensures !('A' <= c <= 'Z') ==> l == c
  {
    if 'A' <= c <= 'Z' then (c as int + 32) as char else c
  }

  function Upper(s: string): (u: string)
    ensures |u| == |s|
    ensures forall i :: 0 <= i < |s| ==> u[i] == UpperChar(s[i])
  {
    seq(|s|, i requires 0 <= i < |s| => UpperChar(s[i]))
  }

  function Lower(s: string): (l: string)
    ensures |l| == |s|
    ensures forall i :: 0 <= i < |s| ==> l[i] == LowerChar(s[i])
  {
    seq(|s|, i requires 0 <= i < |s| => LowerChar(s[i]))
  }

  /** Upper-casing forgets the case of the input: upper-casing a lower-cased string gives the same result. */
  lemma UpperOfLower(s: string)
    ensures Upper(Lower(s)) == Upper(s)
  {
    assert forall i :: 0 <= i < |s| ==> Upper(Lower(s))[i] == Upper(s)[i];
  }

  /** Lower-casing forgets the case of the input. */
  lemma LowerOfUpper(s: string)
    ensures Lower(Upper(s)) == Lower(s)
  {
    assert forall i :: 0 <= i < |s| ==> Lower(Upper(s))[i] == Lower(s)[i];
  }

  // ---------------------------------------------------------------------------
  // Java `String.isBlank`
  // ---------------------------------------------------------------------------

  /** Java's `Character.isWhitespace`: the Unicode space, line and paragraph separators other
      than the non-breaking ones, and the ASCII controls TAB, LF, VT, FF, CR and FS..US. */
  predicate IsJavaWhitespace(c: char)
  {
    || c == ' ' || c == '\t' || c == '\n' || c == '\U{B}' || c == '\U{C}' || c == '\r'
    || ('\U{1C}' <= c <= '\U{1F}')
    || c == '\U{1680}' || ('\U{2000}' <= c <= '\U{2006}') || ('\U{2008}' <= c <= '\U{200A}')
    || c == '\U{2028}' || c == '\U{2029}' || c == '\U{205F}' || c == '\U{3000}'
  }

  /** `s.isBlank()`: empty, or made of whitespace only. */
  predicate IsBlank(s: string)
  {
    forall i :: 0 <= i < |s| ==> IsJavaWhitespace(s[i])
  }
}
