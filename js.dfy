/**
 * The few JavaScript value semantics the connector relies on: values that may be
 * `undefined`, truthiness, the `??` operator, template-literal text, and the
 * UTF-16 code units a string is made of.
 */
module Js {

  /** A value that may be absent (`undefined` or `null`). */
  datatype Option<+T> = None | Some(value: T)

  /** A JSON scalar read out of a response body: a string or an integer. */
  datatype Scalar = JStr(str: string) | JNum(num: int)

  /** `!!s` for an optional string: absent and the empty string are falsy. */
  predicate Truthy(s: Option<string>)
  {
    s.Some? && s.value != ""
  }

  /** `!!v` for a JSON scalar: `""` and `0` are falsy. */
  predicate TruthyScalar(v: Option<Scalar>)
  {
    match v
    case None => false
    case Some(JStr(s)) => s != ""
    case Some(JNum(n)) => n != 0
  }

  /** `a ?? b`: only an absent left operand is replaced (an empty string is kept). */
  function Coalesce<T>(a: Option<T>, b: Option<T>): (r: Option<T>)
  {
    if a.Some? then a else b
  }

  /** How `${s}` or `x + s` renders an optional string: an absent one reads "undefined". */
  function TextOf(s: Option<string>): string
  {
    if s.Some? then s.value else "undefined"
  }

  function DigitChar(d: nat): (c: char)
    requires d < 10
    ensures '0' <= c <= '9'
  {
    ('0' as int + d) as char
  }

  /** Decimal digits of a natural number, most significant first, no leading zeros. */
  function Digits(n: nat): (s: string)
    ensures |s| >= 1
    ensures forall i :: 0 <= i < |s| ==> '0' <= s[i] <= '9'
    ensures (s[0] == '0') <==> n == 0
  {
    if n < 10 then [DigitChar(n)] else Digits(n / 10) + [DigitChar(n % 10)]
  }

  /** Every character of `s` is a decimal digit. */
  predicate DigitsOf(s: string)
  {
    forall i :: 0 <= i < |s| ==> '0' <= s[i] <= '9'
  }

  /** The number a run of decimal digits denotes. */
  function DigitsValue(s: string): nat
    requires DigitsOf(s)
  {
    if |s| == 0 then 0 else DigitsValue(s[..|s| - 1]) * 10 + (s[|s| - 1] as int - '0' as int)
  }

  /** Reading the digits of `n` back gives `n`. */
  lemma {:induction false} DigitsRoundTrip(n: nat)
    ensures DigitsValue(Digits(n)) == n
  {
    if n >= 10 {
      var s := Digits(n);
      assert s[..|s| - 1] == Digits(n / 10);
      DigitsRoundTrip(n / 10);
    }
  }

  /**
   * `${n}` for an integer: an optional minus sign, then the digits of its
   * magnitude. JavaScript switches to exponent form ("1e+21") from a
   * magnitude of 10^21 on; integers that large are not modelled.
   */
  function Decimal(n: int): (r: string)
    ensures |r| >= 1 && (r[0] == '-' <==> n < 0)
    ensures n < 0 ==> |r| >= 2 && DigitsOf(r[1..]) && DigitsValue(r[1..]) == -n
    ensures n >= 0 ==> DigitsOf(r) && DigitsValue(r) == n
  {
    if n < 0 then
      DigitsRoundTrip(-n);
      assert ("-" + Digits(-n))[1..] == Digits(-n);
      "-" + Digits(-n)
    else
      DigitsRoundTrip(n);
      Digits(n)
  }

  /** Different integers render differently. */
  lemma DecimalInjective(m: int, n: int)
    requires Decimal(m) == Decimal(n)
    ensures m == n
  {
  }

  /** `${v}` for a JSON scalar: a string as it is, a number in decimal, so a
      truthy scalar never renders empty. */
  function ScalarText(v: Scalar): (r: string)
    ensures v.JStr? ==> r == v.str
    ensures v.JNum? ==> r == Decimal(v.num)
    ensures TruthyScalar(Some(v)) ==> r != ""
  {
    match v
    case JStr(s) => s
    case JNum(n) => Decimal(n)
  }

  /** `sub` occurs in `s` starting at index `i`. */
  predicate OccursAt(s: string, sub: string, i: int)
  {
    0 <= i && i + |sub| <= |s| && s[i..i + |sub|] == sub
  }

  /** `s.match(/sub/)` for a pattern with no special characters: `sub` occurs in `s`. */
  predicate HasSubstring(s: string, sub: string)
    decreases |s|
  {
    |sub| <= |s| && (s[..|sub|] == sub || HasSubstring(s[1..], sub))
  }

  lemma {:induction false} HasSubstringAt(s: string, sub: string, i: nat)
    requires OccursAt(s, sub, i)
    ensures HasSubstring(s, sub)
    decreases i
  {
    if i > 0 {
      assert s[1..][i - 1..i - 1 + |sub|] == s[i..i + |sub|];
      HasSubstringAt(s[1..], sub, i - 1);
    }
  }

  /** `HasSubstring` finds exactly the positions where `sub` occurs. */
  lemma {:induction false} HasSubstringSpec(s: string, sub: string)
    ensures HasSubstring(s, sub) <==> exists i :: OccursAt(s, sub, i)
    decreases |s|
  {
    if HasSubstring(s, sub) {
      if s[..|sub|] == sub {
        assert OccursAt(s, sub, 0);
      } else {
        HasSubstringSpec(s[1..], sub);
        var i :| OccursAt(s[1..], sub, i);
        assert s[i + 1..i + 1 + |sub|] == s[1..][i..i + |sub|];
        assert OccursAt(s, sub, i + 1);
      }
    }
    if exists i :: OccursAt(s, sub, i) {
      var i :| OccursAt(s, sub, i);
      HasSubstringAt(s, sub, i);
    }
  }

  /** A UTF-16 code unit, the value `charCodeAt` returns. */
  type CodeUnit = x: int | 0 <= x < 0x1_0000

  /** The UTF-16 code units of one Unicode scalar value (`charCodeAt` sees these). */
  function CodeUnits(c: char): (r: seq<CodeUnit>)
    ensures |r| == (if (c as int) < 0x1_0000 then 1 else 2)
    ensures |r| == 1 ==> r[0] == c as int
    ensures |r| == 2 ==> 0xD800 <= r[0] < 0xDC00 && 0xDC00 <= r[1] < 0xE000
  {
    if (c as int) < 0x1_0000 then [c as int]
    else
      var v := (c as int) - 0x1_0000;
      [0xD800 + v / 0x400, 0xDC00 + v % 0x400]
  }

  /** A string as JavaScript stores it: a sequence of UTF-16 code units. */
  function Utf16(s: string): (r: seq<CodeUnit>)
    ensures |r| >= |s|
  {
    if s == [] then [] else CodeUnits(s[0]) + Utf16(s[1..])
  }

  /** Reads back one scalar value from the front of a UTF-16 sequence. */
  function DecodeFirst(u: seq<CodeUnit>): (r: (char, nat))
    requires |u| >= 1
    ensures 1 <= r.1 <= |u|
  {
    var hi: int := u[0];
    if 0xD800 <= hi < 0xDC00 && |u| >= 2 && 0xDC00 <= u[1] < 0xE000 then
      var lo: int := u[1];
      var v := (hi - 0xD800) * 0x400 + (lo - 0xDC00) + 0x1_0000;
      ((v as char), 2)
    else if 0xD800 <= hi < 0xE000 then
      ('�', 1)
    else
      ((hi as char), 1)
  }

  /** Decodes UTF-16 code units; a lone surrogate reads as U+FFFD. */
  function FromUtf16(u: seq<CodeUnit>): string
    decreases |u|
  {
    if u == [] then [] else
      var (c, n) := DecodeFirst(u);
      [c] + FromUtf16(u[n..])
  }

  lemma DecodeCodeUnits(c: char, rest: seq<CodeUnit>)
    ensures DecodeFirst(CodeUnits(c) + rest) == (c, |CodeUnits(c)|)
  {
    var u := CodeUnits(c) + rest;
    if (c as int) >= 0x1_0000 {
      var v := (c as int) - 0x1_0000;
      assert u[0] == 0xD800 + v / 0x400;
      assert u[1] == 0xDC00 + v % 0x400;
    }
  }

  /** Encoding to UTF-16 loses nothing: distinct strings hash distinct code-unit sequences. */
  lemma {:induction false} Utf16RoundTrip(s: string)
    ensures FromUtf16(Utf16(s)) == s
  {
    if s != [] {
      var u := Utf16(s);
      DecodeCodeUnits(s[0], Utf16(s[1..]));
      assert u[|CodeUnits(s[0])|..] == Utf16(s[1..]);
      Utf16RoundTrip(s[1..]);
    }
  }

  lemma Utf16Injective(s: string, t: string)
    requires Utf16(s) == Utf16(t)
    ensures s == t
  {
    Utf16RoundTrip(s);
    Utf16RoundTrip(t);
  }
}
