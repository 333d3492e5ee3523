/** Decimal rendering of natural numbers, as JavaScript's `Number.prototype.toString()`
    and template literals print integers below 10^21 (which covers millisecond
    timestamps and HTTP statuses; larger values print in exponent form). */
module Decimal {

  /** The character of one decimal digit. */
  function Digit(d: nat): (c: char)
    requires d < 10
    ensures '0' <= c <= '9'
    ensures DigitValue(c) == d
  {
    ('0' as int + d) as char
  }

  /** The number a digit character stands for. */
  function DigitValue(c: char): nat
    requires '0' <= c <= '9'
  {
    c as int - '0' as int
  }

  /** Every character is a decimal digit. */
  predicate IsDigits(s: string) {
    forall i | 0 <= i < |s| :: '0' <= s[i] <= '9'
  }

  /** The number a digit string stands for, most significant digit first. */
  function Value(s: string): nat
    requires IsDigits(s)
    decreases |s|
  {
    if s == [] then 0 else Value(s[..|s| - 1]) * 10 + DigitValue(s[|s| - 1])
  }

  /** The shortest decimal numeral of `n`, most significant digit first. */
  function Decimal(n: nat): (s: string)
    ensures 1 <= |s|
    ensures n < 10 <==> |s| == 1
    ensures IsDigits(s)
    ensures Value(s) == n
    ensures s[0] == '0' <==> n == 0
  {
    if n < 10 then
      var numeral := [Digit(n)];
      assert numeral[..0] == [];
      numeral
    else
      var prefix := Decimal(n / 10);
      var numeral := prefix + [Digit(n % 10)];
      assert numeral[..|numeral| - 1] == prefix;
      numeral
  }

  /** Distinct numbers have distinct numerals: reading a numeral back gives
      its number. */
  lemma DecimalInjective(a: nat, b: nat)
    ensures Decimal(a) == Decimal(b) ==> a == b
  {
  }

  /** The other direction: a numeral without leading zeros is the numeral
      of the number it stands for. */
  lemma {:induction false} DecimalOfValue(s: string)
    requires IsDigits(s) && |s| > 0
    requires s[0] == '0' ==> |s| == 1
    ensures Decimal(Value(s)) == s
    decreases |s|
  {
    if |s| == 1 {
      assert s[..0] == [];
      assert Digit(DigitValue(s[0])) == s[0];
    } else {
      var prefix := s[..|s| - 1];
      var d := DigitValue(s[|s| - 1]);
      assert prefix[0] == s[0];
      DecimalOfValue(prefix);
      assert Value(prefix) != 0;
      assert Value(s) / 10 == Value(prefix) && Value(s) % 10 == d;
      assert Digit(d) == s[|s| - 1];
      assert s == prefix + [s[|s| - 1]];
    }
  }
}
