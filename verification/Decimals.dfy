/** Printing and reading numbers the way names and hashed sizes do. */
module Decimals {

  datatype Option<+T> = None | Some(value: T)

  predicate IsDigit(c: char) {
    '0' <= c <= '9'
  }

  function DigitChar(d: int): (c: char)
    requires 0 <= d < 10
    ensures IsDigit(c) && DigitValue(c) == d
  {
    ('0' as int + d) as char
  }

  function DigitValue(c: char): (d: int)
    requires IsDigit(c)
    ensures 0 <= d < 10
  {
    c as int - '0' as int
  }

  predicate AllDigits(s: string) {
    forall i | 0 <= i < |s| :: IsDigit(s[i])
  }

  function Print(n: nat): (s: string)
    ensures |s| > 0 && AllDigits(s)
  {
    if n < 10 then [DigitChar(n)] else Print(n / 10) + [DigitChar(n % 10)]
  }

  function Value(s: string): nat
    requires AllDigits(s)
  {
    if s == [] then 0 else Value(s[..|s| - 1]) * 10 + DigitValue(s[|s| - 1])
  }

  lemma {:induction false} PrintedValue(n: nat)
    ensures Value(Print(n)) == n
  {
    if n < 10 {
      assert Print(n)[..0] == [];
    } else {
      var s := Print(n);
      assert s[..|s| - 1] == Print(n / 10);
      PrintedValue(n / 10);
    }
  }

  const MAX_INT64 := 0x7fff_ffff_ffff_ffff

  /** Base 10 into a signed 64-bit integer: an optional sign, then digits, within range. */
  function ParseInt(s: string): Option<int> {
    if s != [] && s[0] == '+' then Within(s[1..], 1)
    else if s != [] && s[0] == '-' then Within(s[1..], -1)
    else Within(s, 1)
  }

  function Within(digits: string, sign: int): Option<int> {
    if digits == [] || !AllDigits(digits) then None
    else if sign * Value(digits) > MAX_INT64 || sign * Value(digits) < -MAX_INT64 - 1 then None
    else Some(sign * Value(digits))
  }

  lemma PrintedParses(n: nat)
    requires n <= MAX_INT64
    ensures ParseInt(Print(n)) == Some(n)
  {
    PrintedValue(n);
    assert IsDigit(Print(n)[0]);
  }

  lemma PrintIsInjective(a: nat, b: nat)
    requires Print(a) == Print(b)
    ensures a == b
  {
    PrintedValue(a);
    PrintedValue(b);
  }
}
