/** Text primitives that the scanner relies on: upper-casing (Python's
    `str.upper`), whitespace stripping (`str.strip`) and substring search
    (the `in` operator on strings). Characters are restricted to the ASCII
    behaviour of these operations. */
module Text {

  /** A lower-case ASCII letter. */
  predicate IsLowerAscii(c: char) {
    'a' <= c <= 'z'
  }

  /** Upper-casing of one character: ASCII letters move up by 32, every other
      character is left as it is. */
  function UpperChar(c: char): (u: char)
    ensures !IsLowerAscii(u)
    ensures !IsLowerAscii(c) ==> u == c
  {
    if IsLowerAscii(c) then (c as int - 32) as char else c
  }

  /** `s.upper()`, character by character. */
  function Upper(s: string): (u: string) {
    seq(|s|, i requires 0 <= i < |s| => UpperChar(s[i]))
  }

  /** The characters Python's `str.isspace` accepts within ASCII: space, tab,
      line feed, vertical tab, form feed, carriage return and the four
      separators 0x1C-0x1F. */
  predicate IsSpace(c: char) {
    var k := c as int;
    k == 32 || 9 <= k <= 13 || 28 <= k <= 31
  }

  /** Length of the whitespace run that starts `s`. */
  function LeadingSpaces(s: string): (n: nat)
    ensures n <= |s|
    ensures forall i :: 0 <= i < n ==> IsSpace(s[i])
    ensures n < |s| ==> !IsSpace(s[n])
  {
    if s == [] || !IsSpace(s[0]) then 0 else 1 + LeadingSpaces(s[1..])
  }

  /** Length of the whitespace run that ends `s`. */
  function TrailingSpaces(s: string): (n: nat)
    ensures n <= |s|
    ensures forall i :: |s| - n <= i < |s| ==> IsSpace(s[i])
    ensures n < |s| ==> !IsSpace(s[|s| - 1 - n])
  {
    if s == [] || !IsSpace(s[|s| - 1]) then 0 else 1 + TrailingSpaces(s[..|s| - 1])
  }

  /** `s.strip()`: the leading and the trailing whitespace removed. */
  function Strip(s: string): (t: string) {
    var rest := s[LeadingSpaces(s)..];
    rest[..|rest| - TrailingSpaces(rest)]
  }

  /** What stripping leaves: the infix of `s` that starts after its leading
      whitespace and keeps every character that is not whitespace; it neither
      starts nor ends with whitespace. */
  lemma StripIsTrimmedInfix(s: string)
    ensures LeadingSpaces(s) + |Strip(s)| <= |s|
    ensures Strip(s) == s[LeadingSpaces(s)..LeadingSpaces(s) + |Strip(s)|]
    ensures forall i :: 0 <= i < |s| && !IsSpace(s[i]) ==> LeadingSpaces(s) <= i < LeadingSpaces(s) + |Strip(s)|
    ensures Strip(s) != [] ==> !IsSpace(Strip(s)[0]) && !IsSpace(Strip(s)[|Strip(s)| - 1])
  {
  }

  /** True when `s` holds nothing but whitespace (the empty string included). */
  predicate IsBlank(s: string) {
    forall i :: 0 <= i < |s| ==> IsSpace(s[i])
  }

  /** `w` occurs in `s` starting at index `i`. */
  predicate OccursAt(s: string, w: string, i: int) {
    0 <= i && i + |w| <= |s| && s[i..i + |w|] == w
  }

  /** Python's `w in s`. */
  predicate Contains(s: string, w: string) {
    exists i :: 0 <= i <= |s| - |w| && OccursAt(s, w, i)
  }

  /** Stripping yields the empty string exactly for blank input. */
  lemma StripEmptyIffBlank(s: string)
    ensures Strip(s) == [] <==> IsBlank(s)
  {
  }

  /** Stripping twice is stripping once. */
  lemma StripIdempotent(s: string)
    ensures Strip(Strip(s)) == Strip(s)
  {
  }

  /** Upper-casing keeps the length, leaves no lower-case ASCII letter, and
      keeps every other character. */
  lemma UpperCasesLettersOnly(s: string)
    ensures |Upper(s)| == |s|
    ensures forall i :: 0 <= i < |s| ==> !IsLowerAscii(Upper(s)[i])
    ensures forall i :: 0 <= i < |s| && !IsLowerAscii(s[i]) ==> Upper(s)[i] == s[i]
    ensures forall i :: 0 <= i < |s| && IsLowerAscii(s[i]) ==> Upper(s)[i] as int == s[i] as int - 32
  {
  }

  /** Upper-casing commutes with taking a slice. */
  lemma UpperSlice(s: string, i: int, j: int)
    requires 0 <= i <= j <= |s|
    ensures Upper(s)[i..j] == Upper(s[i..j])
  {
  }

  /** Upper-casing a concatenation upper-cases each part. */
  lemma UpperConcat(a: string, b: string)
    ensures Upper(a + b) == Upper(a) + Upper(b)
  {
  }

  /** Upper-casing is idempotent. */
  lemma UpperIdempotent(s: string)
    ensures Upper(Upper(s)) == Upper(s)
  {
  }

  /** An occurrence inside the middle part of a concatenation is an occurrence
      in the whole, shifted by the length of the left part. */
  lemma OccursInContext(a: string, b: string, c: string, w: string, i: int)
    requires OccursAt(b, w, i)
    ensures OccursAt(a + b + c, w, |a| + i)
  {
  }

  /** An occurrence inside a slice is an occurrence in the whole sequence. */
  lemma {:induction false} OccursInSlice(s: string, lo: int, hi: int, w: string, i: int)
    requires 0 <= lo <= hi <= |s|
    ensures OccursAt(s[lo..hi], w, i) <==> (0 <= i && lo + i + |w| <= hi && OccursAt(s, w, lo + i))
  {
    if 0 <= i && lo + i + |w| <= hi {
      SliceOfSlice(s, lo, hi, i, |w|);
    }
  }

  lemma SliceOfSlice(s: string, lo: int, hi: int, i: int, n: int)
    requires 0 <= lo <= hi <= |s| && 0 <= n
    requires 0 <= i && lo + i + n <= hi
    ensures s[lo..hi][i..i + n] == s[lo + i..lo + i + n]
  {
    var t, u, v := s[lo..hi], s[lo..hi][i..i + n], s[lo + i..lo + i + n];
    forall k | 0 <= k < n ensures u[k] == v[k] {
      assert u[k] == t[i + k] == s[lo + i + k];
    }
  }
}
