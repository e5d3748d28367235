/**
 * The pieces of Kotlin's standard library that the core relies on, written out:
 * the 32-bit `Int`, `Float` as an uninterpreted bit pattern, `Char.isWhitespace`,
 * `String.isBlank`, `Int.toString` (string templates such as "$sentences") and
 * `String.toIntOrNull`.
 */
module KotlinCore {
  import opened Wrappers

  /** Kotlin's `Int`: a signed 32-bit integer. */
  newtype Int32 = x: int | -0x8000_0000 <= x < 0x8000_0000

  predicate InInt32Range(x: int) {
    -0x8000_0000 <= x < 0x8000_0000
  }

  /** Two's-complement wrap-around of an `Int` arithmetic result. */
  function Wrap32(x: int): (r: Int32)
    ensures InInt32Range(x) ==> r as int == x
    ensures (r as int - x) % 0x1_0000_0000 == 0
  {
    var m := x % 0x1_0000_0000;
    if m < 0x8000_0000 then m as Int32 else (m - 0x1_0000_0000) as Int32
  }

  /**
   * Kotlin's `Float`. The core only stores and forwards these values, so a
   * float is kept as its IEEE 754 single-precision bit pattern and nothing
   * numeric is said about it.
   */
  datatype Float32 = Float32(bits: bv32)

  /**
   * Kotlin's `Char.isWhitespace()` on the JVM: `Character.isWhitespace` or
   * `Character.isSpaceChar` (the control characters U+0009..U+000D and
   * U+001C..U+001F, and every space, line and paragraph separator).
   */
  predicate IsWhitespace(c: char) {
    || c == ' '
    || ('\t' <= c <= '\r')
    || ('\U{1C}' <= c <= '\U{1F}')
    || c == '\U{A0}'
    || c == '\U{1680}'
    || ('\U{2000}' <= c <= '\U{200A}')
    || c == '\U{2028}'
    || c == '\U{2029}'
    || c == '\U{202F}'
    || c == '\U{205F}'
    || c == '\U{3000}'
  }

  /** Kotlin's `String.isBlank()`: empty, or whitespace only. */
  predicate IsBlank(s: string) {
    forall i :: 0 <= i < |s| ==> IsWhitespace(s[i])
  }

  /** Kotlin's `isNullOrEmpty()` on a nullable list. */
  predicate IsNullOrEmpty<T>(xs: Option<seq<T>>) {
    xs.None? || |xs.value| == 0
  }

  /** A nullable string in a string template: `null` prints as "null". */
  function NullableToString(s: Option<string>): string {
    s.GetOr("null")
  }

  /** Kotlin's `String.startsWith` and `String.endsWith`. */
  predicate StartsWith(s: string, prefix: string) {
    |prefix| <= |s| && s[..|prefix|] == prefix
  }

  predicate EndsWith(s: string, suffix: string) {
    |suffix| <= |s| && s[|s| - |suffix|..] == suffix
  }

  predicate IsDigit(c: char) {
    '0' <= c <= '9'
  }

  predicate AllDigits(s: string) {
    forall i :: 0 <= i < |s| ==> IsDigit(s[i])
  }

  function DigitChar(d: nat): (c: char)
    requires d < 10
    ensures IsDigit(c) && c as int - '0' as int == d
  {
    ('0' as int + d) as char
  }

  /** The decimal digits of a natural number, most significant first, no leading zero. */
  function NatToString(n: nat): (s: string)
    ensures 1 <= |s| && AllDigits(s)
    ensures |s| > 1 ==> s[0] != '0'
    decreases n
  {
    if n < 10 then [DigitChar(n)] else NatToString(n / 10) + [DigitChar(n % 10)]
  }

  /** Kotlin's `Int.toString()`, which a string template such as "$n" calls. */
  function IntToString(n: int): (s: string)
    ensures 1 <= |s|
    ensures n < 0 <==> s[0] == '-'
    ensures n >= 0 ==> AllDigits(s)
    ensures n < 0 ==> AllDigits(s[1..]) && |s| >= 2
  {
    if n < 0 then "-" + NatToString(-n) else NatToString(n)
  }

  /** The value of a string of decimal digits, read left to right. */
  function DigitsValue(s: string): nat
    requires AllDigits(s)
    decreases |s|
  {
    if s == [] then 0 else DigitsValue(s[..|s| - 1]) * 10 + (s[|s| - 1] as int - '0' as int)
  }

  /**
   * Kotlin's `String.toIntOrNull()`: an optional leading '-' or '+', then at
   * least one decimal digit and nothing else, and a value that fits an `Int`;
   * `null` otherwise.
   */
  function ToIntOrNull(s: string): (r: Option<Int32>)
    ensures r.Some? ==> 1 <= |s|
    ensures |s| == 1 && s[0] < '0' ==> r == None
  {
    if |s| == 0 then None
    else
      var start := if s[0] < '0' then 1 else 0;
      if start == 1 && (|s| == 1 || (s[0] != '-' && s[0] != '+')) then None
      else if !AllDigits(s[start..]) then None
      else
        var magnitude: int := DigitsValue(s[start..]);
        var value := if s[0] == '-' then -magnitude else magnitude;
        if InInt32Range(value) then Some(value as Int32) else None
  }

  lemma {:induction false} DigitsValueOfNatToString(n: nat)
    ensures DigitsValue(NatToString(n)) == n
    decreases n
  {
    var s := NatToString(n);
    if n >= 10 {
      DigitsValueOfNatToString(n / 10);
      assert s[..|s| - 1] == NatToString(n / 10);
    }
  }

  /**
   * `toIntOrNull` reads back exactly the decimal text that `toString` writes:
   * the value itself when it fits an `Int`, and `null` when it overflows.
   */
  lemma ToIntOrNullOfIntToString(n: int)
    ensures ToIntOrNull(IntToString(n)) == if InInt32Range(n) then Some(n as Int32) else None
  {
    var s := IntToString(n);
    if n < 0 {
      DigitsValueOfNatToString(-n);
      assert s[1..] == NatToString(-n);
    } else {
      DigitsValueOfNatToString(n);
      assert s[0..] == s;
    }
  }

  /** `toIntOrNull` rejects the empty string, a lone sign and stray characters. */
  lemma ToIntOrNullRejects()
    ensures ToIntOrNull("") == None
    ensures ToIntOrNull("-") == None && ToIntOrNull("+") == None
    ensures ToIntOrNull("12a") == None && ToIntOrNull(" 1") == None && ToIntOrNull("*1") == None
  {
    assert "12a"[0..] == "12a" && !IsDigit("12a"[2]);
    assert " 1"[1..] == "1";
  }
}
