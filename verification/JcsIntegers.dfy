/** The integers of the Contract, printed in decimal. */
module JcsIntegers {
  import opened Prelude
  import opened JcsUtf8
  import opened JcsNumbers
  import opened JcsCanonical

  /** The largest integer below which a double holds every integer. */
  const MAX_EXACT: int := 9007199254740991

  function Decimal(n: nat): (s: Bytes)
    ensures s != []
  {
    if n < 10 then [0x30 + n] else Decimal(n / 10) + [0x30 + n % 10]
  }

  function NatOf(digits: Bytes): int {
    if digits == [] then 0 else NatOf(digits[..|digits| - 1]) * 10 + (digits[|digits| - 1] as int - 0x30)
  }

  predicate AllDigits(s: Bytes) { forall i :: 0 <= i < |s| ==> Digit(s[i]) }

  lemma {:induction false} DecimalDigits(n: nat)
    ensures AllDigits(Decimal(n)) && (Decimal(n)[0] == 0x30 <==> n == 0) && (n == 0 ==> |Decimal(n)| == 1)
  {
    if n >= 10 { DecimalDigits(n / 10); }
  }

  lemma {:induction false} DecimalValue(n: nat)
    ensures NatOf(Decimal(n)) == n
  {
    if n >= 10 {
      DecimalValue(n / 10);
      var s := Decimal(n);
      assert s[..|s| - 1] == Decimal(n / 10);
    } else {
      assert Decimal(n)[..0] == [];
    }
  }

  lemma {:induction false} DigitsCountAll(s: Bytes)
    requires AllDigits(s)
    ensures Digits(s) == |s|
  {
    if s != [] { DigitsCountAll(s[1..]); }
  }

  /** The whole of lit is an integer literal without a sign. */
  predicate IsNatural(lit: Bytes) { lit != [] && IntegerLength(lit) == |lit| }

  lemma DecimalIsNatural(n: nat)
    ensures IsNatural(Decimal(n))
  {
    DecimalDigits(n);
    DigitsCountAll(Decimal(n));
  }

  lemma NaturalIsNumber(lit: Bytes)
    requires IsNatural(lit) && lit[0] != 0x2D
    ensures IsNumber(lit)
  {
    assert lit[0..] == lit && lit[|lit|..] == [];
    assert AfterInteger(lit[|lit|..]) == Some(0);
  }

  lemma DecimalIsNumber(n: nat)
    ensures IsNumber(Decimal(n)) && IsNatural(Decimal(n)) && NatOf(Decimal(n)) == n
  {
    DecimalDigits(n);
    DecimalIsNatural(n);
    NaturalIsNumber(Decimal(n));
    DecimalValue(n);
  }

  /** Every integer the store writes comes out of the canonical form as it went in. */
  ghost predicate ExactIntegers(fmt: NumberFormat) {
    forall n :: 0 <= n <= MAX_EXACT ==> fmt(Decimal(n)) == Some(Decimal(n))
  }
}
