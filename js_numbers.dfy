/**
 * The two number/string conversions the storefront relies on:
 * JavaScript's global `parseInt(s)` (no radix argument) and the decimal
 * rendering of an integer in a template literal (`${n}`).
 * `None` stands for NaN.
 */
module JsNumbers {
  import opened Wrappers

  /** ECMAScript's WhiteSpace and LineTerminator characters outside the range U+2000 to U+200A. */
  const SpaceChars: set<char> := {
    ' ', '\t', '\n', '\r', '\U{000B}', '\U{000C}', '\U{00A0}', '\U{1680}',
    '\U{2028}', '\U{2029}', '\U{202F}', '\U{205F}', '\U{3000}', '\U{FEFF}'}

  /** The white space `parseInt` skips before the number. */
  predicate IsSpace(c: char) {
    c in SpaceChars || '\U{2000}' <= c <= '\U{200A}'
  }

  /** A sign or a decimal digit is never white space. */
  lemma SignOrDigitNotSpace(c: char)
    requires c == '-' || '0' <= c <= '9'
    ensures !IsSpace(c)
  {
  }

  /** `s` without its leading white space. */
  function TrimStart(s: string): (r: string)
    ensures |r| <= |s| && r == s[|s| - |r|..]
    ensures r == [] || !IsSpace(r[0])
    ensures forall i :: 0 <= i < |s| - |r| ==> IsSpace(s[i])
  {
    if s != [] && IsSpace(s[0]) then TrimStart(s[1..]) else s
  }

  /** Value of `c` as a digit in `radix` (10 or 16), or -1 if it is not one. */
  function DigitValue(c: char, radix: nat): (d: int)
    requires radix == 10 || radix == 16
    ensures -1 <= d < radix
    ensures radix == 10 ==> (d >= 0 <==> '0' <= c <= '9')
  {
    if '0' <= c <= '9' then c as int - '0' as int
    else if radix == 16 && 'a' <= c <= 'f' then c as int - 'a' as int + 10
    else if radix == 16 && 'A' <= c <= 'F' then c as int - 'A' as int + 10
    else -1
  }

  predicate IsDigit(c: char, radix: nat)
    requires radix == 10 || radix == 16
  {
    DigitValue(c, radix) >= 0
  }

  /** Length of the longest prefix of `s` made of digits in `radix`. */
  function DigitRun(s: string, radix: nat): (n: nat)
    requires radix == 10 || radix == 16
    ensures n <= |s|
    ensures forall i :: 0 <= i < n ==> IsDigit(s[i], radix)
    ensures n < |s| ==> !IsDigit(s[n], radix)
  {
    if s != [] && IsDigit(s[0], radix) then 1 + DigitRun(s[1..], radix) else 0
  }

  /** The number written by the digit string `d`, most significant digit first. */
  function DigitsValue(d: string, radix: nat): (v: nat)
    requires radix == 10 || radix == 16
    requires forall i :: 0 <= i < |d| ==> IsDigit(d[i], radix)
  {
    if d == [] then 0
    else
      assert IsDigit(d[|d| - 1], radix);
      DigitsValue(d[..|d| - 1], radix) * radix + DigitValue(d[|d| - 1], radix)
  }

  /** `0x`/`0X`, which makes `parseInt` without a radix read hexadecimal. */
  predicate HasHexPrefix(s: string) {
    |s| >= 2 && s[0] == '0' && (s[1] == 'x' || s[1] == 'X')
  }

  /** The longest run of digits at the start of `body`, read in `radix`; `None` when there is none. */
  function ReadDigits(body: string, radix: nat): Option<nat>
    requires radix == 10 || radix == 16
  {
    var n := DigitRun(body, radix);
    if n == 0 then None else Some(DigitsValue(body[..n], radix))
  }

  /** What follows the sign: hexadecimal after a `0x` prefix, decimal otherwise. */
  function ParseUnsigned(u: string): Option<nat> {
    if HasHexPrefix(u) then ReadDigits(u[2..], 16) else ReadDigits(u, 10)
  }

  /**
   * `parseInt(s)`: skip leading white space, read an optional sign, then
   * (after an optional `0x` prefix) the longest run of digits; anything
   * after the run is ignored. No digit at all gives NaN (`None`).
   */
  function ParseInt(s: string): (r: Option<int>)
    ensures TrimStart(s) == [] ==> r.None?
    ensures r.Some? && r.value < 0 ==> TrimStart(s)[0] == '-'
  {
    var t := TrimStart(s);
    var negative := t != [] && t[0] == '-';
    var unsigned := if t != [] && (t[0] == '-' || t[0] == '+') then t[1..] else t;
    match ParseUnsigned(unsigned)
    case None => None
    case Some(magnitude) =>
      var value: int := if negative then -(magnitude as int) else magnitude;
      Some(value)
  }

  /** The decimal digit for `d`. */
  function DigitChar(d: nat): (c: char)
    requires d < 10
    ensures '0' <= c <= '9' && c as int - '0' as int == d
  {
    (d + '0' as int) as char
  }

  /** Decimal rendering of a natural number, without leading zeros. */
  function NatToString(n: nat): (s: string)
    ensures |s| >= 1
    ensures forall i :: 0 <= i < |s| ==> '0' <= s[i] <= '9'
    ensures |s| > 1 ==> s[0] != '0'
  {
    if n < 10 then [DigitChar(n)] else NatToString(n / 10) + [DigitChar(n % 10)]
  }

  /** `${n}` for an integer `n`. */
  function IntToString(n: int): (s: string)
    ensures s != []
    ensures n < 0 <==> s[0] == '-'
  {
    if n < 0 then "-" + NatToString(-n) else NatToString(n)
  }

  /** Reading back the decimal digits of `n` gives `n`. */
  lemma {:induction false} NatToStringValue(n: nat)
    ensures forall i :: 0 <= i < |NatToString(n)| ==> IsDigit(NatToString(n)[i], 10)
    ensures DigitsValue(NatToString(n), 10) == n
  {
    var s := NatToString(n);
    if n >= 10 {
      NatToStringValue(n / 10);
      assert s[..|s| - 1] == NatToString(n / 10);
    }
  }

  /** The rendering of a number is all digits, so `parseInt` reads all of it. */
  lemma DigitRunAll(s: string, radix: nat)
    requires radix == 10 || radix == 16
    requires forall i :: 0 <= i < |s| ==> IsDigit(s[i], radix)
    ensures DigitRun(s, radix) == |s|
  {
    if s != [] {
      DigitRunAll(s[1..], radix);
    }
  }

  /** The decimal rendering of a natural number reads back as that number. */
  lemma ReadDecimal(m: nat)
    ensures ParseUnsigned(NatToString(m)) == Some(m)
  {
    var d := NatToString(m);
    NatToStringValue(m);
    DigitRunAll(d, 10);
    assert !HasHexPrefix(d);
    assert d[..|d|] == d;
  }

  /** `parseInt(`${n}`) === n`: the round trip used when a page number travels in a URL. */
  lemma {:induction false} ParseIntOfIntToString(n: int)
    ensures ParseInt(IntToString(n)) == Some(n)
  {
    var m: nat := if n < 0 then -n else n;
    ReadDecimal(m);
    var s := IntToString(n);
    SignOrDigitNotSpace(s[0]);
    assert TrimStart(s) == s;
    assert (if n < 0 then s[1..] else s) == NatToString(m);
  }
}
