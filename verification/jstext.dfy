/**
 * The JavaScript string and number built-ins the core relies on, over
 * unbounded integers: `parseInt(s, 10)`, `Number.prototype.toString()`,
 * `String.prototype.padStart`, `padEnd`, `slice` and `substring`.
 */
module JsText {
  import opened Common

  predicate IsDigit(c: char)
  {
    '0' <= c <= '9'
  }

  predicate AllDigits(s: string)
  {
    forall i :: 0 <= i < |s| ==> IsDigit(s[i])
  }

  function Pow10(n: nat): (r: nat)
    ensures r >= 1
  {
    if n == 0 then 1 else 10 * Pow10(n - 1)
  }

  function DigitValue(c: char): nat
    requires IsDigit(c)
  {
    c as int - '0' as int
  }

  function DigitChar(d: nat): (c: char)
    requires d < 10
    ensures IsDigit(c) && DigitValue(c) == d
  {
    ('0' as int + d) as char
  }

  /** The number an all-digit string denotes, most significant digit first. */
  function ValueOf(s: string): nat
    requires AllDigits(s)
  {
    if s == [] then 0 else DigitValue(s[0]) * Pow10(|s| - 1) + ValueOf(s[1..])
  }

  /** `c` repeated `n` times. */
  function Repeat(c: char, n: nat): (r: string)
    ensures |r| == n
    ensures forall i :: 0 <= i < n ==> r[i] == c
  {
    if n == 0 then [] else [c] + Repeat(c, n - 1)
  }

  /** Appending one digit multiplies the value by ten and adds the digit. */
  lemma {:induction false} ValueOfSnoc(s: string, c: char)
    requires AllDigits(s) && IsDigit(c)
    ensures AllDigits(s + [c])
    ensures ValueOf(s + [c]) == ValueOf(s) * 10 + DigitValue(c)
  {
    if s != [] {
      var t := s + [c];
      assert t[1..] == s[1..] + [c];
      ValueOfSnoc(s[1..], c);
      var d, p, v := DigitValue(s[0]), Pow10(|s| - 1), ValueOf(s[1..]);
      assert ValueOf(t) == d * Pow10(|s|) + ValueOf(s[1..] + [c]);
      assert Pow10(|s|) == 10 * p;
      Regroup(d, p, v, DigitValue(c));
    }
  }

  /** The arithmetic step of `ValueOfSnoc`: shifting the leading digit's weight by one place. */
  lemma Regroup(d: int, p: int, v: int, x: int)
    ensures d * (10 * p) + (v * 10 + x) == (d * p + v) * 10 + x
  {
  }

  /** Leading zeros do not change the value of a digit string. */
  lemma {:induction false} ValueOfLeadingZeros(n: nat, s: string)
    requires AllDigits(s)
    ensures AllDigits(Repeat('0', n) + s)
    ensures ValueOf(Repeat('0', n) + s) == ValueOf(s)
  {
    if n > 0 {
      ValueOfLeadingZeros(n - 1, s);
      var t := Repeat('0', n) + s;
      assert t[0] == '0' && t[1..] == Repeat('0', n - 1) + s;
      assert DigitValue(t[0]) * Pow10(|t| - 1) == 0;
    } else {
      assert Repeat('0', n) + s == s;
    }
  }

  /** `Number.prototype.toString()` on a non-negative integer: its shortest decimal form. */
  function NatToString(n: nat): (r: string)
    ensures AllDigits(r) && 1 <= |r|
    ensures ValueOf(r) == n
    ensures |r| > 1 ==> r[0] != '0'
  {
    if n < 10 then [DigitChar(n)]
    else
      var front := NatToString(n / 10);
      ValueOfSnoc(front, DigitChar(n % 10));
      front + [DigitChar(n % 10)]
  }

  /** A JavaScript number as far as this model needs one: an integer or `NaN`. */
  datatype Num = NaN | Int(value: int)

  /** The longest prefix of `s` made of decimal digits. */
  function LeadingDigits(s: string): (r: string)
    ensures AllDigits(r) && |r| <= |s| && r == s[..|r|]
    ensures |r| < |s| ==> !IsDigit(s[|r|])
    ensures AllDigits(s) ==> r == s
  {
    if s != [] && IsDigit(s[0]) then [s[0]] + LeadingDigits(s[1..]) else []
  }

  /** The text after an optional leading sign, and the sign's factor. */
  function SignOf(s: string): int
  {
    if s != [] && s[0] == '-' then -1 else 1
  }

  function Unsigned(s: string): (r: string)
    ensures |r| <= |s|
  {
    if s != [] && (s[0] == '-' || s[0] == '+') then s[1..] else s
  }

  /**
   * `parseInt(s, 10)`: an optional sign, then as many digits as follow;
   * `NaN` when no digit follows the sign. Leading white space is not modelled.
   */
  function ParseInt(s: string): (r: Num)
    ensures r.NaN? <==> LeadingDigits(Unsigned(s)) == []
    ensures LeadingDigits(Unsigned(s)) != [] ==> r == Int(SignOf(s) * ValueOf(LeadingDigits(Unsigned(s))))
    ensures s != [] && AllDigits(s) ==> r == Int(ValueOf(s))
  {
    var digits := LeadingDigits(Unsigned(s));
    if digits == [] then NaN else Int(SignOf(s) * ValueOf(digits))
  }

  /** `n + 1` on a JavaScript number; `NaN + 1` is `NaN`. */
  function Add1(n: Num): Num
  {
    match n
    case NaN => NaN
    case Int(v) => Int(v + 1)
  }

  /** `Number.prototype.toString()`: "NaN", or the decimal form with a leading '-' when negative. */
  function NumToString(n: Num): (r: string)
    ensures n.Int? && n.value >= 0 ==> r == NatToString(n.value)
    ensures n.Int? && n.value < 0 ==> r == "-" + NatToString(-n.value)
    ensures n.NaN? ==> r == "NaN"
  {
    match n
    case NaN => "NaN"
    case Int(v) => if v < 0 then "-" + NatToString(-v) else NatToString(v)
  }

  /** `s.padStart(width, c)`: `s` unchanged when already `width` long, otherwise filled on the left. */
  function PadStart(s: string, width: int, c: char): (r: string)
    ensures |r| == Max(|s|, width)
    ensures r[|r| - |s|..] == s
    ensures forall i :: 0 <= i < |r| - |s| ==> r[i] == c
  {
    if width <= |s| then s else Repeat(c, width - |s|) + s
  }

  /** `s.padEnd(width, c)`: `s` unchanged when already `width` long, otherwise filled on the right. */
  function PadEnd(s: string, width: int, c: char): (r: string)
    ensures |r| == Max(|s|, width)
    ensures r[..|s|] == s
    ensures forall i :: |s| <= i < |r| ==> r[i] == c
  {
    if width <= |s| then s else s + Repeat(c, width - |s|)
  }

  /** `s.slice(start)` for a non-negative start: empty when `start` is past the end. */
  function Slice(s: string, start: nat): (r: string)
    ensures |s| <= start ==> r == []
    ensures start < |s| ==> r == s[start..] && |r| == |s| - start
  {
    if |s| <= start then [] else s[start..]
  }

  /** `s.substring(start, end)` for `0 <= start <= end`: both ends clamped to the length. */
  function Substring(s: string, start: nat, end: nat): (r: string)
    requires start <= end
    ensures |r| <= end - start
    ensures |r| == if |s| <= start then 0 else if |s| <= end then |s| - start else end - start
    ensures r == s[Min(start, |s|)..Min(end, |s|)]
  {
    var b := if |s| < end then |s| else end;
    var a := if b < start then b else start;
    s[a..b]
  }

  /**
   * A zero-padded decimal reads back as the number it pads: `parseInt`
   * undoes `padStart(toString(n), width, '0')` whatever the width.
   */
  lemma {:induction false} ParseIntPadded(n: nat, width: int)
    ensures AllDigits(PadStart(NatToString(n), width, '0'))
    ensures ParseInt(PadStart(NatToString(n), width, '0')) == Int(n)
    ensures ValueOf(PadStart(NatToString(n), width, '0')) == n
  {
    var s := NatToString(n);
    if width > |s| {
      ValueOfLeadingZeros(width - |s|, s);
    }
  }
}
