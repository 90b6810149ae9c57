/** Decimal text of unsigned integers: Rust's `Display` for integers and `str::parse::<u16>`. */
module Decimal {
  import opened Wrappers

  /** Rust's `u16`. */
  type U16 = x: int | 0 <= x < 0x1_0000

  predicate IsDigit(c: char) {
    '0' <= c <= '9'
  }

  predicate IsNumeral(s: string) {
    |s| > 0 && forall i | 0 <= i < |s| :: IsDigit(s[i])
  }

  function DigitChar(d: nat): (c: char)
    requires d < 10
    ensures IsDigit(c)
  {
    (d + '0' as int) as char
  }

  function DigitValue(c: char): (d: nat)
    requires IsDigit(c)
    ensures d < 10 && DigitChar(d) == c
  {
    c as int - '0' as int
  }

  /** The text `format!("{n}")` gives: decimal digits, no sign, no leading zero. */
  function NatToString(n: nat): (s: string)
    ensures IsNumeral(s)
    ensures s[0] == '0' ==> n == 0
    decreases n
  {
    if n < 10 then [DigitChar(n)] else NatToString(n / 10) + [DigitChar(n % 10)]
  }

  /** The value of a run of decimal digits, most significant digit first. */
  function Value(s: string): nat
    requires forall i | 0 <= i < |s| :: IsDigit(s[i])
    decreases |s|
  {
    if s == [] then 0 else Value(s[..|s| - 1]) * 10 + DigitValue(s[|s| - 1])
  }

  lemma {:induction false} ValueOfNatToString(n: nat)
    ensures Value(NatToString(n)) == n
    decreases n
  {
    var s := NatToString(n);
    if n >= 10 {
      ValueOfNatToString(n / 10);
      assert s[..|s| - 1] == NatToString(n / 10);
    }
  }

  lemma NatToStringInjective(m: nat, n: nat)
    requires NatToString(m) == NatToString(n)
    ensures m == n
  {
    ValueOfNatToString(m);
    ValueOfNatToString(n);
  }

  /**
   * `str::parse::<u16>`: an optional leading `+` (when more follows it), then one or more
   * ASCII digits whose value fits in 16 bits; anything else is a parse error.
   */
  function ParseU16(s: string): (r: Option<U16>)
    ensures IsNumeral(s) ==> r == if Value(s) < 0x1_0000 then Some(Value(s)) else None
    ensures s == [] || (s[0] != '+' && !IsDigit(s[0])) ==> r == None
  {
    var digits := if |s| > 1 && s[0] == '+' then s[1..] else s;
    if IsNumeral(digits) && Value(digits) < 0x1_0000 then Some(Value(digits)) else None
  }

  /** The decimal text of every `u16` parses back to it. */
  lemma ParseU16OfNatToString(n: U16)
    ensures ParseU16(NatToString(n)) == Some(n)
  {
    ValueOfNatToString(n);
  }

  /** The decimal text of a value above 65535 does not parse as a `u16`. */
  lemma ParseU16Overflows(n: nat)
    requires n >= 0x1_0000
    ensures ParseU16(NatToString(n)) == None
  {
    ValueOfNatToString(n);
  }
}
