/** Characters, blanks and decimal numerals as the Python code prints and reads them. */
module Text {
  /** The line boundaries of `str.splitlines`. */
  predicate IsLineBreak(c: char) {
    '\n' <= c <= '\r' || '\U{1C}' <= c <= '\U{1E}' || c == '\U{85}' || c == '\U{2028}' || c == '\U{2029}'
  }

  /** The whitespace of `str.split` and `str.strip`; every line boundary is whitespace. */
  predicate IsSpace(c: char) {
    || IsLineBreak(c)
    || c == '\t' || c == ' ' || c == '\U{1F}' || c == '\U{A0}' || c == '\U{1680}'
    || '\U{2000}' <= c <= '\U{200A}' || c == '\U{202F}' || c == '\U{205F}' || c == '\U{3000}'
  }

  /** Both by code point. */
  lemma SpacesByCode(c: char)
    ensures IsLineBreak(c) <==>
            var n := c as int; 10 <= n <= 13 || 28 <= n <= 30 || n == 133 || n == 8232 || n == 8233
    ensures IsSpace(c) <==>
            var n := c as int;
            || 9 <= n <= 13 || 28 <= n <= 32 || n == 133 || n == 160 || n == 5760 || 8192 <= n <= 8202
            || n == 8232 || n == 8233 || n == 8239 || n == 8287 || n == 12288
  {}

  predicate Blank(s: string) {
    forall i :: 0 <= i < |s| ==> IsSpace(s[i])
  }

  predicate IsDigit(c: char) {
    '0' <= c <= '9'
  }

  predicate AllDigits(s: string) {
    forall i :: 0 <= i < |s| ==> IsDigit(s[i])
  }

  /** `str(n)` */
  function Decimal(n: nat): (s: string)
    ensures s != [] && AllDigits(s)
    ensures Numeral(s) == n
  {
    if n < 10 then [('0' as int + n) as char] else Decimal(n / 10) + [('0' as int + n % 10) as char]
  }

  /** `int(s)` for a string of decimal digits. */
  function Numeral(s: string): nat
    requires AllDigits(s)
  {
    if s == [] then 0 else 10 * Numeral(s[..|s| - 1]) + (s[|s| - 1] as int - '0' as int)
  }

  /** Joining a name and a numeral with a separator that ends in a colon loses neither part. */
  lemma JoinedNumeralInjective(a: string, b: string, separator: string, m: nat, n: nat)
    requires separator != [] && separator[|separator| - 1] == ':'
    requires a + separator + Decimal(m) == b + separator + Decimal(n)
    ensures a == b && m == n
  {
    var left, right := a + separator, b + separator;
    var s := left + Decimal(m);
    assert s == right + Decimal(n);
    assert s[|left| - 1] == ':' && forall i :: |left| <= i < |s| ==> IsDigit(s[i]);
    assert s[|right| - 1] == ':' && forall i :: |right| <= i < |s| ==> IsDigit(s[i]);
    assert |left| == |right|;
    assert a == s[..|a|] && b == s[..|b|];
    assert Decimal(m) == s[|left|..] && Decimal(n) == s[|left|..];
  }
}
