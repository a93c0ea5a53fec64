/**
 * The JavaScript string operations the record forms and filters rely on:
 * `String.prototype.trim`, `.length` (UTF-16 code units, which is what zod's
 * `.min`/`.max` on strings count), `.includes`, and `Number.prototype.toString`
 * for the decimal record ids. Strings are sequences of Unicode scalar values.
 */
module Text {

  /** ECMAScript WhiteSpace and LineTerminator code points, which `trim` strips. */
  predicate IsJsWhitespace(c: char) {
    c == '\U{0009}' || c == '\U{000A}' || c == '\U{000B}' || c == '\U{000C}' ||
    c == '\U{000D}' || c == '\U{0020}' || c == '\U{00A0}' || c == '\U{1680}' ||
    ('\U{2000}' <= c <= '\U{200A}') ||
    c == '\U{2028}' || c == '\U{2029}' || c == '\U{202F}' || c == '\U{205F}' ||
    c == '\U{3000}' || c == '\U{FEFF}'
  }

  predicate AllWhitespace(s: string) {
    forall i :: 0 <= i < |s| ==> IsJsWhitespace(s[i])
  }

  /** Number of leading whitespace characters of `s`. */
  function LeadingSpace(s: string): (n: nat)
    ensures n <= |s|
    ensures forall i :: 0 <= i < n ==> IsJsWhitespace(s[i])
    ensures n < |s| ==> !IsJsWhitespace(s[n])
  {
    if s == [] || !IsJsWhitespace(s[0]) then 0 else 1 + LeadingSpace(s[1..])
  }

  /** End of `s[lo..]` once its trailing whitespace is cut off. */
  function TrimmedEnd(s: string, lo: nat): (e: nat)
    requires lo <= |s|
    ensures lo <= e <= |s|
    ensures forall i :: e <= i < |s| ==> IsJsWhitespace(s[i])
    ensures e > lo ==> !IsJsWhitespace(s[e - 1])
    decreases |s| - lo
  {
    if |s| == lo || !IsJsWhitespace(s[|s| - 1]) then |s| else TrimmedEnd(s[..|s| - 1], lo)
  }

  /** `s.trim()`. */
  function Trim(s: string): (r: string)
    ensures |r| <= |s|
  {
    var lo := LeadingSpace(s);
    s[lo..TrimmedEnd(s, lo)]
  }

  /**
   * What `trim` promises: the result is a slice of the input, everything cut
   * away is whitespace, and the result neither starts nor ends with whitespace.
   */
  lemma TrimSpec(s: string)
    ensures exists lo, hi :: 0 <= lo <= hi <= |s| && Trim(s) == s[lo..hi] &&
              AllWhitespace(s[..lo]) && AllWhitespace(s[hi..])
    ensures Trim(s) != [] ==> !IsJsWhitespace(Trim(s)[0]) && !IsJsWhitespace(Trim(s)[|Trim(s)| - 1])
  {
    var lo := LeadingSpace(s);
    var hi := TrimmedEnd(s, lo);
    assert Trim(s) == s[lo..hi];
    assert AllWhitespace(s[..lo]);
    assert AllWhitespace(s[hi..]);
  }

  /** A string trims to "" exactly when it consists of whitespace only. */
  lemma TrimEmpty(s: string)
    ensures Trim(s) == [] <==> AllWhitespace(s)
  {
    var lo := LeadingSpace(s);
    if Trim(s) == [] {
      assert TrimmedEnd(s, lo) == lo;
      assert lo == |s|;
    }
    if AllWhitespace(s) {
      assert lo == |s|;
    }
  }

  /** Trimming twice is trimming once. */
  lemma TrimIdempotent(s: string)
    ensures Trim(Trim(s)) == Trim(s)
  {
    var t := Trim(s);
    TrimSpec(s);
    assert LeadingSpace(t) == 0;
    if t != [] {
      assert TrimmedEnd(t, 0) == |t|;
    }
  }

  /** `.length` of a JavaScript string: code points above U+FFFF take two UTF-16 units. */
  function Utf16Length(s: string): (n: nat)
    ensures |s| <= n <= 2 * |s|
  {
    if s == [] then 0 else (if s[0] as int >= 0x10000 then 2 else 1) + Utf16Length(s[1..])
  }

  /** `hay.includes(needle)`. */
  predicate Contains(hay: string, needle: string) {
    exists i | 0 <= i <= |hay| - |needle| :: OccursAt(hay, needle, i)
  }

  predicate OccursAt(hay: string, needle: string, i: int) {
    0 <= i <= |hay| - |needle| && hay[i..i + |needle|] == needle
  }

  function DigitChar(d: nat): (c: char)
    requires d < 10
    ensures '0' <= c <= '9'
  {
    ['0', '1', '2', '3', '4', '5', '6', '7', '8', '9'][d]
  }

  /** `n.toString()` for a non-negative integer: its decimal digits, without leading zeros. */
  function DecimalString(n: nat): (s: string)
    ensures |s| >= 1
    ensures forall i :: 0 <= i < |s| ==> '0' <= s[i] <= '9'
    ensures |s| == 1 <==> n < 10
    ensures s[0] != '0' || n == 0
  {
    if n < 10 then [DigitChar(n)] else DecimalString(n / 10) + [DigitChar(n % 10)]
  }

  lemma DigitCharInjective(a: nat, b: nat)
    requires a < 10 && b < 10
    requires DigitChar(a) == DigitChar(b)
    ensures a == b
  {
  }

  /** Distinct clock readings give distinct ids. */
  lemma {:induction false} DecimalStringInjective(a: nat, b: nat)
    requires DecimalString(a) == DecimalString(b)
    ensures a == b
  {
    var s := DecimalString(a);
    if a < 10 || b < 10 {
      assert a < 10 && b < 10;
      DigitCharInjective(a, b);
    } else {
      assert s[|s| - 1] == DigitChar(a % 10) == DigitChar(b % 10);
      DigitCharInjective(a % 10, b % 10);
      assert DecimalString(a / 10) == s[..|s| - 1] == DecimalString(b / 10);
      DecimalStringInjective(a / 10, b / 10);
    }
  }
}
