/**
 * The few pieces of the C library the authenticator relies on, written out
 * over sequences of characters (one `char` stands for one byte): NUL-terminated
 * strings, `tolower` in the C locale, `strncasecmp`, `snprintf` truncation,
 * `%lu` formatting and the integer conversions of the curl callbacks.
 */
module CText {

  /** A C string: a sequence of bytes with no NUL inside it. */
  type CStr = s: string | '\0' !in s witness ""

  const TWO_32: int := 0x1_0000_0000
  const TWO_64: int := 0x1_0000_0000_0000_0000

  /** `tolower` in the C locale: only 'A'..'Z' change. */
  function ToLower(c: char): (r: char)
    ensures r == '\0' <==> c == '\0'
    ensures 'A' <= c <= 'Z' ==> 'a' <= r <= 'z'
    ensures !('A' <= c <= 'Z') ==> r == c
  {
    if 'A' <= c <= 'Z' then (c as int + 32) as char else c
  }

  /** The byte at position i of a NUL-terminated string whose bytes are s. */
  function At(s: string, i: nat): char {
    if i < |s| then s[i] else '\0'
  }

  function Tail(s: string): string {
    if s == [] then [] else s[1..]
  }

  /**
   * `strncasecmp(a, b, n) == 0`: at most n bytes are compared after folding
   * case, and the comparison stops at the first NUL the two strings share.
   */
  predicate NCaseEqual(a: string, b: string, n: nat)
    decreases n
  {
    n == 0 ||
    (ToLower(At(a, 0)) == ToLower(At(b, 0)) &&
     (At(a, 0) == '\0' || NCaseEqual(Tail(a), Tail(b), n - 1)))
  }

  /** `a` starts with `p`, up to the case of ASCII letters. */
  predicate FoldedPrefix(p: string, a: string) {
    |p| <= |a| && forall i :: 0 <= i < |p| ==> ToLower(a[i]) == ToLower(p[i])
  }

  /**
   * Comparing a line against a C string over the whole string's length is a
   * case-insensitive prefix test, whatever bytes (NUL included) the line holds.
   */
  lemma {:induction false} NCaseEqualIsFoldedPrefix(line: string, marker: CStr)
    ensures NCaseEqual(line, marker, |marker|) <==> FoldedPrefix(marker, line)
    decreases |marker|
  {
    if marker != [] {
      assert At(marker, 0) == marker[0] != '\0';
      var m': CStr := marker[1..];
      if line == [] {
        assert ToLower(At(line, 0)) == '\0' != ToLower(At(marker, 0));
      } else if ToLower(line[0]) == ToLower(marker[0]) {
        assert line[0] != '\0';
        NCaseEqualIsFoldedPrefix(line[1..], m');
        assert Tail(line) == line[1..] && Tail(marker) == m';
        if FoldedPrefix(m', line[1..]) {
          forall i | 0 <= i < |marker| ensures ToLower(line[i]) == ToLower(marker[i]) {
            if i > 0 { assert line[1..][i - 1] == line[i] && m'[i - 1] == marker[i]; }
          }
        }
        if FoldedPrefix(marker, line) {
          forall i | 0 <= i < |m'| ensures ToLower(line[1..][i]) == ToLower(m'[i]) {
            assert line[1..][i] == line[i + 1] && m'[i] == marker[i + 1];
          }
        }
      }
    }
  }

  /**
   * What `snprintf(buf, size, ...)` leaves in `buf` when the fully formatted
   * text is s: s itself if it fits with its NUL, otherwise its first size-1 bytes.
   */
  function SnPrintf(s: string, size: nat): (r: string)
    requires size > 0
    ensures |r| <= size - 1
    ensures r <= s
    ensures r == s <==> |s| < size
    ensures |s| >= size ==> |r| == size - 1
  {
    if |s| < size then s else s[..size - 1]
  }

  function DigitChar(d: nat): (c: char)
    requires d < 10
    ensures '0' <= c <= '9'
  {
    ('0' as int + d) as char
  }

  predicate AllDigits(s: string) {
    forall i :: 0 <= i < |s| ==> '0' <= s[i] <= '9'
  }

  /** `%lu`: the decimal digits of n, without leading zeros. */
  function Decimal(n: nat): (r: string)
    ensures |r| >= 1 && AllDigits(r)
    ensures r[0] == '0' ==> n == 0 && r == "0"
    decreases n
  {
    if n < 10 then [DigitChar(n)] else Decimal(n / 10) + [DigitChar(n % 10)]
  }

  /** The number a string of decimal digits denotes (what a receiver parses). */
  function ParseDecimal(s: string): nat
    requires AllDigits(s)
  {
    if s == [] then 0
    else ParseDecimal(s[..|s| - 1]) * 10 + (s[|s| - 1] as int - '0' as int)
  }

  lemma {:induction false} DecimalRoundTrip(n: nat)
    ensures ParseDecimal(Decimal(n)) == n
    decreases n
  {
    if n >= 10 {
      DecimalRoundTrip(n / 10);
      var s := Decimal(n);
      assert s[..|s| - 1] == Decimal(n / 10);
    }
  }

  /**
   * Conversion of a signed value to `unsigned long` (64 bits): the value
   * modulo 2^64, so a negative value wraps to a large one.
   */
  function ToULong(x: int): (r: nat)
    ensures r < TWO_64
    ensures 0 <= x < TWO_64 ==> r == x
    ensures x < 0 && -TWO_64 <= x ==> r == x + TWO_64
  {
    x % TWO_64
  }

  /** Conversion of a 64-bit unsigned value to a 32-bit `int` (two's complement). */
  function ToInt32(x: nat): (r: int)
    ensures -TWO_32 / 2 <= r < TWO_32 / 2
    ensures (x - r) % TWO_32 == 0
  {
    var low := x % TWO_32;
    if low < TWO_32 / 2 then low else low - TWO_32
  }

  /** Conversion of a `size_t` to the 32-bit `unsigned`. */
  function ToUnsigned(x: nat): (r: nat)
    ensures r < TWO_32
    ensures x < TWO_32 ==> r == x
  {
    x % TWO_32
  }
}
