/** Java string operations used by the transports and the route matcher. */
module Text {

  /** `s.startsWith(p)` */
  predicate StartsWith(s: string, p: string) {
    |p| <= |s| && s[..|p|] == p
  }

  /** `s.endsWith(p)` */
  predicate EndsWith(s: string, p: string) {
    |p| <= |s| && s[|s| - |p|..] == p
  }

  // ---------------------------------------------------------------------------
  // UTF-8 length: what `Buffer.buffer(s).length()` returns for the string `s`.
  // ---------------------------------------------------------------------------

  /** Number of bytes UTF-8 spends on one Unicode scalar value. */
  function Utf8Width(c: char): (w: nat)
    ensures 1 <= w <= 4
    ensures w == 1 <==> (c as int) < 0x80
  {
    var v := c as int;
    if v < 0x80 then 1 else if v < 0x800 then 2 else if v < 0x10000 then 3 else 4
  }

  /** Length in bytes of the UTF-8 encoding of `s`. */
  function Utf8Length(s: string): (n: nat)
    ensures |s| <= n <= 4 * |s|
  {
    if s == [] then 0 else Utf8Width(s[0]) + Utf8Length(s[1..])
  }

  predicate IsAscii(s: string) {
    forall i :: 0 <= i < |s| ==> (s[i] as int) < 0x80
  }

  /** The encoding of a concatenation is the concatenation of the encodings. */
  lemma {:induction false} Utf8LengthAppend(a: string, b: string)
    ensures Utf8Length(a + b) == Utf8Length(a) + Utf8Length(b)
  {
    if a == [] {
      assert a + b == b;
    } else {
      assert (a + b)[1..] == a[1..] + b;
      Utf8LengthAppend(a[1..], b);
    }
  }

  /** An ASCII string costs one byte per character, and only an ASCII string does. */
  lemma {:induction false} Utf8LengthAscii(s: string)
    ensures Utf8Length(s) == |s| <==> IsAscii(s)
  {
    if s != [] {
      Utf8LengthAscii(s[1..]);
      assert IsAscii(s) <==> (s[0] as int) < 0x80 && IsAscii(s[1..]) by {
        if IsAscii(s[1..]) && (s[0] as int) < 0x80 {
          forall i | 0 <= i < |s| ensures (s[i] as int) < 0x80 {
            if i > 0 { assert s[i] == s[1..][i - 1]; }
          }
        }
        if IsAscii(s) {
          forall i | 0 <= i < |s[1..]| ensures (s[1..][i] as int) < 0x80 {
            assert s[1..][i] == s[i + 1];
          }
        }
      }
    }
  }

  // ---------------------------------------------------------------------------
  // Decimal rendering: what `"param" + i` produces for an int i >= 0.
  // ---------------------------------------------------------------------------

  function Digit(d: nat): (c: char)
    requires d < 10
    ensures '0' <= c <= '9' && (c as int) - ('0' as int) == d
  {
    (('0' as int) + d) as char
  }

  /** `Integer.toString(n)` for n >= 0: no sign, no leading zero. */
  function DecimalString(n: nat): (s: string)
    ensures |s| >= 1
    ensures n < 10 <==> |s| == 1
    ensures forall i :: 0 <= i < |s| ==> '0' <= s[i] <= '9'
  {
    if n < 10 then [Digit(n)] else DecimalString(n / 10) + [Digit(n % 10)]
  }

  /** Reads a string of decimal digits back as a number. */
  function DecimalValue(s: string): nat
    requires forall i :: 0 <= i < |s| ==> '0' <= s[i] <= '9'
  {
    if s == [] then 0
    else 10 * DecimalValue(s[..|s| - 1]) + ((s[|s| - 1] as int) - ('0' as int))
  }

  /** Rendering a number in decimal and reading it back gives the number. */
  lemma {:induction false} DecimalRoundTrip(n: nat)
    ensures DecimalValue(DecimalString(n)) == n
  {
    var s := DecimalString(n);
    if n >= 10 {
      assert s[..|s| - 1] == DecimalString(n / 10);
      DecimalRoundTrip(n / 10);
    }
  }

  /** Two numbers with the same decimal rendering are equal. */
  lemma DecimalInjective(m: nat, n: nat)
    requires DecimalString(m) == DecimalString(n)
    ensures m == n
  {
    DecimalRoundTrip(m);
    DecimalRoundTrip(n);
  }

  // ---------------------------------------------------------------------------
  // `lit.equalsIgnoreCase(s)` for an ASCII literal `lit`.
  // ---------------------------------------------------------------------------

  /** Java's per-character rule: `c` and `d` are equal ignoring case when their
      upper cases are equal or the lower cases of their upper cases are equal.
      For an ASCII `d` this admits `d` itself, its other ASCII case, and the four
      non-ASCII characters whose simple case mapping lands on an ASCII letter:
      U+0130 and U+0131 (for i), U+017F (for s) and U+212A (for k). */
  predicate FoldsTo(c: char, d: char) {
    var v, w := c as int, d as int;
    || v == w
    || (97 <= w <= 122 && v == w - 32)
    || (65 <= w <= 90 && v == w + 32)
    || ((w == 105 || w == 73) && (v == 0x130 || v == 0x131))
    || ((w == 115 || w == 83) && v == 0x17F)
    || ((w == 107 || w == 75) && v == 0x212A)
  }

  /** `lit.equalsIgnoreCase(s)`; `s` is None when the header is absent (null). */
  predicate EqualsIgnoreCase(lit: string, s: Option<string>) {
    s.Some? && |s.value| == |lit| &&
    forall i :: 0 <= i < |lit| ==> FoldsTo(s.value[i], lit[i])
  }

  function AsciiLower(c: char): char {
    if 'A' <= c <= 'Z' then ((c as int) + 32) as char else c
  }

  function AsciiLowerString(s: string): (r: string)
    ensures |r| == |s|
    ensures forall i :: 0 <= i < |s| ==> r[i] == AsciiLower(s[i])
  {
    if s == [] then [] else [AsciiLower(s[0])] + AsciiLowerString(s[1..])
  }

  /** Every ASCII spelling of a literal without upper-case letters, in any mix
      of cases, is equal to it ignoring case. */
  lemma AsciiCaseVariantsMatch(lit: string, s: string)
    requires forall i :: 0 <= i < |lit| ==> !('A' <= lit[i] <= 'Z')
    requires AsciiLowerString(s) == lit
    ensures EqualsIgnoreCase(lit, Some(s))
  {
    forall i | 0 <= i < |lit| ensures FoldsTo(s[i], lit[i]) {
      assert AsciiLowerString(s)[i] == AsciiLower(s[i]);
    }
  }

  /** Regrouping a concatenation of three sequences. */
  lemma Associative<T>(a: seq<T>, b: seq<T>, c: seq<T>)
    ensures (a + b) + c == a + (b + c)
  {
  }

  import opened Wrappers
}
