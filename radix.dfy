/**
 * Digit strings in bases 2..16 as JavaScript's `Number.prototype.toString(radix)`
 * writes them for integers (lower-case digits, a leading "-" for negatives),
 * and the matching parser.
 */
module Radix {
  import opened Wrappers

  /** The value of a digit character; 16 for a character that is no digit. */
  function DigitValue(c: char): nat {
    if '0' <= c <= '9' then c as int - '0' as int
    else if 'a' <= c <= 'f' then c as int - 'a' as int + 10
    else 16
  }

  /** The lower-case digit character for `d`. */
  function DigitChar(d: nat): (c: char)
    requires d < 16
    ensures DigitValue(c) == d
    ensures ('0' <= c <= '9') || ('a' <= c <= 'f')
  {
    if d < 10 then ('0' as int + d) as char else ('a' as int + (d - 10)) as char
  }

  /** Every character of `s` is a digit of `base`. */
  predicate IsDigitString(s: string, base: nat) {
    forall i :: 0 <= i < |s| ==> DigitValue(s[i]) < base
  }

  /** The digits of `n` in `base`, most significant first, without leading zeros. */
  function NatToString(n: nat, base: nat): (s: string)
    requires 2 <= base <= 16
    decreases n
  {
    if n < base then [DigitChar(n)] else NatToString(n / base, base) + [DigitChar(n % base)]
  }

  /** `i.toString(base)` for an integer `i`. */
  function IntToString(i: int, base: nat): (s: string)
    requires 2 <= base <= 16
  {
    if i < 0 then "-" + NatToString(-i, base) else NatToString(i, base)
  }

  /** The value of a digit string read in `base`; the empty string reads as 0. */
  function DigitsValue(s: string, base: nat): nat
    requires IsDigitString(s, base)
    decreases |s|
  {
    if s == [] then 0 else DigitsValue(s[..|s| - 1], base) * base + DigitValue(s[|s| - 1])
  }

  /** Reads a non-empty digit string in `base`. */
  function ParseNat(s: string, base: nat): Option<nat> {
    if 1 <= |s| && IsDigitString(s, base) then Some(DigitsValue(s, base)) else None
  }

  /**
   * NatToString writes a non-empty digit string, a single digit exactly for
   * a number below the base, and reading it back gives the number.
   */
  lemma {:induction false} NatToStringRoundTrip(n: nat, base: nat)
    requires 2 <= base <= 16
    ensures 1 <= |NatToString(n, base)| && IsDigitString(NatToString(n, base), base)
    ensures |NatToString(n, base)| == 1 <==> n < base
    ensures DigitsValue(NatToString(n, base), base) == n
    ensures ParseNat(NatToString(n, base), base) == Some(n)
    decreases n
  {
    if n < base {
      var s := NatToString(n, base);
      assert s[..0] == [];
    } else {
      DivMod(n, base);
      NatToStringRoundTrip(n / base, base);
      LastDigit(n, base);
    }
  }

  /** The inductive step of NatToStringRoundTrip. */
  lemma LastDigit(n: nat, base: nat)
    requires 2 <= base <= 16 && n >= base
    requires IsDigitString(NatToString(n / base, base), base)
    requires DigitsValue(NatToString(n / base, base), base) == n / base
    ensures IsDigitString(NatToString(n, base), base)
    ensures DigitsValue(NatToString(n, base), base) == n
  {
    var q, d := n / base, n % base;
    var t := NatToString(q, base);
    assert NatToString(n, base) == t + [DigitChar(d)];
    AppendDigit(t, d, base);
    DivMod(n, base);
  }

  /** Appending a digit multiplies by the base and adds the digit. */
  lemma AppendDigit(t: string, d: nat, base: nat)
    requires 2 <= base <= 16 && d < base && IsDigitString(t, base)
    ensures IsDigitString(t + [DigitChar(d)], base)
    ensures DigitsValue(t + [DigitChar(d)], base) == DigitsValue(t, base) * base + d
  {
    var s := t + [DigitChar(d)];
    assert s[..|s| - 1] == t;
  }

  lemma DivMod(n: nat, base: nat)
    requires 2 <= base
    ensures (n / base) * base + n % base == n
    ensures n >= base ==> n / base < n
  {
  }

  /** A leading "0" does not change the value of a digit string. */
  lemma {:induction false} LeadingZero(s: string, base: nat)
    requires 2 <= base <= 16 && IsDigitString(s, base)
    ensures IsDigitString("0" + s, base)
    ensures DigitsValue("0" + s, base) == DigitsValue(s, base)
    decreases |s|
  {
    var z := "0" + s;
    if s != [] {
      LeadingZero(s[..|s| - 1], base);
      assert z[..|z| - 1] == "0" + s[..|s| - 1];
    } else {
      assert z[..0] == [];
    }
  }
}
