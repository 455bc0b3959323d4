/**
 * The string operations of the Kotlin standard library that the app relies on:
 * `equals(ignoreCase = true)`, `contains(ignoreCase = true)`, `isBlank()` and
 * `Int.toString()`. Case folding covers ASCII letters only.
 */
module Text {

  function LowerChar(c: char): char {
    if 'A' <= c <= 'Z' then (c as int + 32) as char else c
  }

  function Lower(s: string): string {
    seq(|s|, i requires 0 <= i < |s| => LowerChar(s[i]))
  }

  /** `a.equals(b, ignoreCase = true)`. */
  predicate EqualsIgnoreCase(a: string, b: string) {
    Lower(a) == Lower(b)
  }

  /** `needle` matches `hay` ignoring case at offset `i`. */
  predicate OccursAt(hay: string, needle: string, i: int)
    requires 0 <= i && i + |needle| <= |hay|
  {
    EqualsIgnoreCase(hay[i..i + |needle|], needle)
  }

  /** `hay.contains(needle, ignoreCase = true)`. */
  predicate ContainsIgnoreCase(hay: string, needle: string) {
    exists i | 0 <= i <= |hay| - |needle| :: OccursAt(hay, needle, i)
  }

  /** `needle` occurs in `hay` at offset `i`, exactly. */
  predicate SubstringAt(needle: string, hay: string, i: int) {
    0 <= i && i + |needle| <= |hay| && hay[i..i + |needle|] == needle
  }

  ghost predicate IsSubstring(needle: string, hay: string) {
    exists i :: SubstringAt(needle, hay, i)
  }

  /** Containment ignoring case is plain containment after folding both strings. */
  lemma ContainsIgnoreCaseIsFoldedSubstring(hay: string, needle: string)
    ensures ContainsIgnoreCase(hay, needle) <==> IsSubstring(Lower(needle), Lower(hay))
  {
    if ContainsIgnoreCase(hay, needle) {
      var i :| 0 <= i <= |hay| - |needle| && OccursAt(hay, needle, i);
      assert Lower(hay)[i..i + |needle|] == Lower(hay[i..i + |needle|]);
      assert SubstringAt(Lower(needle), Lower(hay), i);
    }
    if IsSubstring(Lower(needle), Lower(hay)) {
      var i :| SubstringAt(Lower(needle), Lower(hay), i);
      assert Lower(hay)[i..i + |needle|] == Lower(hay[i..i + |needle|]);
      assert OccursAt(hay, needle, i);
    }
  }

  /**
   * Kotlin's `Char.isWhitespace()` on the JVM: the control characters
   * U+0009..U+000D and U+001C..U+001F, and the Unicode space, line and
   * paragraph separators.
   */
  predicate IsWhitespace(c: char) {
    var n := c as int;
    || 9 <= n <= 13 || 28 <= n <= 31
    || n == 0x20 || n == 0xA0 || n == 0x1680 || 0x2000 <= n <= 0x200A
    || n == 0x2028 || n == 0x2029 || n == 0x202F || n == 0x205F || n == 0x3000
  }

  /** `s.isBlank()`: empty, or whitespace only. */
  predicate IsBlank(s: string) {
    forall i | 0 <= i < |s| :: IsWhitespace(s[i])
  }

  function DigitChar(d: nat): char
    requires d < 10
  {
    ('0' as int + d) as char
  }

  function DigitValue(c: char): nat {
    if '0' <= c <= '9' then c as int - '0' as int else 0
  }

  predicate IsDigits(s: string) {
    forall i | 0 <= i < |s| :: '0' <= s[i] <= '9'
  }

  /** `n.toString()` for a non-negative `n`: decimal digits, no leading zero. */
  function DecimalText(n: nat): (s: string)
    ensures s != [] && IsDigits(s)
    ensures s[0] != '0' || n == 0
  {
    if n < 10 then [DigitChar(n)] else DecimalText(n / 10) + [DigitChar(n % 10)]
  }

  /** The number a string of decimal digits denotes. */
  function DecimalValue(s: string): nat {
    if s == [] then 0 else 10 * DecimalValue(s[..|s| - 1]) + DigitValue(s[|s| - 1])
  }

  function Pow10(k: nat): nat {
    if k == 0 then 1 else 10 * Pow10(k - 1)
  }

  /** Reading the decimal text of `n` gives back `n`. */
  lemma {:induction false} DecimalRoundTrip(n: nat)
    ensures DecimalValue(DecimalText(n)) == n
  {
    if n >= 10 {
      var s := DecimalText(n);
      assert s[..|s| - 1] == DecimalText(n / 10);
      DecimalRoundTrip(n / 10);
    }
  }

  /** A number with k + 1 digits is written with k + 1 characters. */
  lemma {:induction false} DecimalTextLength(n: nat, k: nat)
    requires Pow10(k) <= n < Pow10(k + 1)
    ensures |DecimalText(n)| == k + 1
  {
    if k > 0 {
      DecimalTextLength(n / 10, k - 1);
    }
  }
}
