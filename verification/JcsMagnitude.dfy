/** Numbers as real numbers: where the printed form changes, and what either form looks like (section 3.2.2.3 of RFC 8785). */
module JcsMagnitude {
  import opened Prelude
  import opened JcsUtf8
  import opened JcsIntegers
  import opened JcsDoubles

  /** x times ten to the k. */
  function Shift(x: real, k: int): real
    decreases if k < 0 then -k else k
  {
    if k == 0 then x else if k > 0 then 10.0 * Shift(x, k - 1) else Shift(x, k + 1) / 10.0
  }

  function Ten(k: int): real { Shift(1.0, k) }

  /** The value without its sign. */
  function Size(n: Number): real {
    if n.Zero? then 0.0 else Shift(NatOf(n.digits) as real, n.point - |n.digits|)
  }

  // ----- powers of ten -----

  lemma TenStep(k: int)
    ensures Ten(k + 1) == 10.0 * Ten(k)
  {
  }

  lemma {:induction false} ShiftRises(x: real, y: real, k: int)
    requires x <= y
    ensures Shift(x, k) <= Shift(y, k) && (x < y ==> Shift(x, k) < Shift(y, k))
    decreases if k < 0 then -k else k
  {
    if k > 0 {
      ShiftRises(x, y, k - 1);
    } else if k < 0 {
      ShiftRises(x, y, k + 1);
    }
  }

  lemma {:induction false} ShiftOfTen(n: int, k: int)
    ensures Shift(Ten(n), k) == Ten(n + k)
    decreases if k < 0 then -k else k
  {
    if k > 0 {
      ShiftOfTen(n, k - 1);
      TenStep(n + k - 1);
    } else if k < 0 {
      ShiftOfTen(n, k + 1);
      TenStep(n + k);
    }
  }

  lemma {:induction false} TenIsPositive(k: int)
    ensures Ten(k) > 0.0
    decreases if k < 0 then -k else k
  {
    if k > 0 {
      TenIsPositive(k - 1);
    } else if k < 0 {
      TenIsPositive(k + 1);
    }
  }

  lemma {:induction false} TenRises(a: int, b: int)
    requires a <= b
    ensures Ten(a) <= Ten(b) && (a < b ==> Ten(a) < Ten(b))
    decreases b - a
  {
    if a < b {
      TenRises(a, b - 1);
      TenStep(b - 1);
      TenIsPositive(b - 1);
    }
  }

  // ----- digits and size -----

  /** So many digits, the first not zero. */
  lemma {:induction false} DigitsBound(s: Bytes)
    requires AllDigits(s)
    ensures 0 <= NatOf(s) && NatOf(s) as real < Ten(|s|)
    ensures s != [] && s[0] != ZERO_DIGIT ==> Ten(|s| - 1) <= NatOf(s) as real
    decreases |s|
  {
    if s != [] {
      var t := s[..|s| - 1];
      DigitsBound(t);
      TenStep(|s| - 1);
      if s[0] != ZERO_DIGIT {
        if t != [] { TenStep(|s| - 2); }
      }
      var n := TenIsWhole(|s| - 1);
      WholeBelow(NatOf(t), s[|s| - 1] as int - 0x30, n);
    }
  }

  lemma {:induction false} TenIsWhole(k: nat) returns (n: nat)
    ensures Ten(k) == n as real && n >= 1
  {
    if k == 0 {
      n := 1;
    } else {
      var m := TenIsWhole(k - 1);
      TenStep(k - 1);
      n := 10 * m;
    }
  }

  lemma WholeBelow(x: int, d: int, n: nat)
    requires 0 <= x && 0 <= d <= 9 && x as real < n as real
    ensures (x * 10 + d) as real < 10.0 * n as real
  {
    assert x + 1 <= n;
  }

  lemma SizeBetween(n: Number)
    requires n.Finite? && Proper(n)
    ensures Ten(n.point - 1) <= Size(n) < Ten(n.point)
  {
    var (l, a, x) := (|n.digits|, n.point - |n.digits|, NatOf(n.digits) as real);
    DigitsBound(n.digits);
    ShiftOfTen(l - 1, a);
    ShiftOfTen(l, a);
    ShiftRises(Ten(l - 1), x, a);
    ShiftRises(x, Ten(l), a);
  }

  // ----- what a literal is worth -----

  lemma {:induction false} LeadingZeroCountsNothing(s: Bytes)
    ensures NatOf([ZERO_DIGIT] + s) == NatOf(s)
    decreases |s|
  {
    var t := [ZERO_DIGIT] + s;
    if s == [] {
      assert t[..0] == [];
    } else {
      LeadingZeroCountsNothing(s[..|s| - 1]);
      assert t[..|t| - 1] == [ZERO_DIGIT] + s[..|s| - 1];
    }
  }

  lemma {:induction false} DroppedLeading(s: Bytes)
    ensures NatOf(DropLeading(s)) == NatOf(s) && |DropLeading(s)| <= |s|
    decreases |s|
  {
    if s != [] && s[0] == ZERO_DIGIT {
      DroppedLeading(s[1..]);
      LeadingZeroCountsNothing(s[1..]);
      assert s == [ZERO_DIGIT] + s[1..];
    }
  }

  lemma {:induction false} ShiftTens(x: real, k: int)
    ensures Shift(10.0 * x, k) == Shift(x, k + 1)
    decreases if k < 0 then -k else k
  {
    if k > 0 {
      ShiftTens(x, k - 1);
    } else if k < 0 {
      ShiftTens(x, k + 1);
    }
  }

  lemma {:induction false} DroppedTrailing(s: Bytes, point: int)
    ensures Shift(NatOf(DropTrailing(s)) as real, point - |DropTrailing(s)|) == Shift(NatOf(s) as real, point - |s|)
    decreases |s|
  {
    if s != [] && s[|s| - 1] == ZERO_DIGIT {
      DroppedTrailing(s[..|s| - 1], point);
      ShiftTens(NatOf(s[..|s| - 1]) as real, point - |s|);
    }
  }

  lemma {:induction false} ShiftOfZero(k: int)
    ensures Shift(0.0, k) == 0.0
    decreases if k < 0 then -k else k
  {
    if k > 0 {
      ShiftOfZero(k - 1);
    } else if k < 0 {
      ShiftOfZero(k + 1);
    }
  }

  lemma NormalKeepsSize(negative: bool, digits: Bytes, point: int)
    ensures Size(Normal(negative, digits, point)) == Shift(NatOf(digits) as real, point - |digits|)
  {
    var u := DropLeading(digits);
    DroppedLeading(digits);
    DroppedTrailing(u, point - (|digits| - |u|));
    if u == [] { ShiftOfZero(point - |digits|); }
  }

  /** The digits before and after the point, taken together, times ten to the exponent less the digits after the point. */
  lemma LiteralIsWorth(lit: Bytes, n: Number, negative: bool, whole: Bytes, fraction: Bytes, mark: Option<Mark>)
    requires WrittenAs(lit, n, negative, whole, fraction, mark)
    ensures Size(n) == Shift(NatOf(whole + fraction) as real, MarkValue(mark) - |fraction|)
    ensures n.Finite? ==> n.negative == negative
  {
    NormalIsWorth(n, negative, whole, fraction, MarkValue(mark));
  }

  lemma NormalIsWorth(n: Number, negative: bool, whole: Bytes, fraction: Bytes, x: int)
    requires n == Normal(negative, whole + fraction, |whole| + x)
    ensures Size(n) == Shift(NatOf(whole + fraction) as real, x - |fraction|) && (n.Finite? ==> n.negative == negative)
  {
    var (digits, point) := (whole + fraction, |whole| + x);
    NormalKeepsSize(negative, digits, point);
    assert point - |digits| == x - |fraction|;
  }

  // ----- where the form changes -----

  /** At least a millionth and less than 1e21. */
  predicate InRange(n: Number) { 0.000001 <= Size(n) < 1000000000000000000000.0 }

  /** The bounds of the source, 1e-6 and 1e21. */
  lemma Bounds()
    ensures Ten(-6) == 0.000001 && Ten(21) == 1000000000000000000000.0
  {
    assert Ten(-3) == 0.001;
    assert Ten(7) == 10000000.0 by { assert Ten(4) == 10000.0; }
    assert Ten(14) == 100000000000000.0 by { assert Ten(10) == 10000000000.0; }
    assert Ten(21) == 1000000000000000000000.0 by { assert Ten(17) == 100000000000000000.0; }
  }

  lemma FixedIsBetween(n: Number)
    requires n.Finite? && Proper(n)
    ensures PrintsFixed(n) <==> InRange(n)
  {
    Bounds();
    SizeBetween(n);
    if n.point - 1 >= -6 { TenRises(-6, n.point - 1); } else { TenRises(n.point, -6); }
    if n.point - 1 < 21 { TenRises(n.point, 21); } else { TenRises(21, n.point - 1); }
  }

  // ----- the two forms -----

  predicate NoTrailingZero(s: Bytes) { s == [] || s[|s| - 1] != ZERO_DIGIT }

  /** Plain digits, or one digit before the point and a signed exponent without leading zeros; no zero ends a fraction. */
  predicate EcmaForm(whole: Bytes, fraction: Bytes, mark: Option<Mark>) {
    && NoTrailingZero(fraction)
    && (mark.Some? ==>
          && |whole| == 1 && whole[0] != ZERO_DIGIT && mark.value.letter == EXPONENT && |mark.value.sign| == 1
          && (mark.value.digits != [] && mark.value.digits[0] == ZERO_DIGIT ==> |mark.value.digits| == 1))
  }

  /**
   What appendNumber writes for a number other than zero: a literal of its value in one of the two
   forms, the one with the exponent exactly when the number is less than 1e-6 or at least 1e21.
   */
  lemma PrintsInForm(n: Number)
    requires n.Finite? && Proper(n)
    ensures HasForm(AppendNumber(n), n, InRange(n))
  {
    FixedIsBetween(n);
    if !PrintsFixed(n) {
      TrimmedIsEcma(n);
      EcmaForms(n, InRange(n));
    } else if n.point <= 0 {
      FractionForms(n, InRange(n));
    } else if n.point >= |n.digits| {
      WholeForms(n, InRange(n));
    } else {
      BothForms(n, InRange(n));
    }
  }

  ghost predicate HasForm(text: Bytes, n: Number, fixed: bool) {
    exists negative, whole, fraction, mark ::
      WrittenAs(text, n, negative, whole, fraction, mark) && EcmaForm(whole, fraction, mark) && (mark.None? <==> fixed)
  }

  lemma FractionForms(n: Number, fixed: bool)
    requires n.Finite? && Proper(n) && n.point <= 0 && fixed
    ensures HasForm(Minus(n.negative) + FormatFixed(n), n, fixed)
  {
    FractionOnlyText(n);
    FractionOnlyValue(n);
    var fraction := Zeros(-n.point) + n.digits;
    assert fraction[|fraction| - 1] == n.digits[|n.digits| - 1];
    assert EcmaForm([ZERO_DIGIT], fraction, None);
    assert WrittenAs(Minus(n.negative) + FormatFixed(n), n, n.negative, [ZERO_DIGIT], fraction, None);
  }

  lemma WholeForms(n: Number, fixed: bool)
    requires n.Finite? && Proper(n) && n.point >= |n.digits| && fixed
    ensures HasForm(Minus(n.negative) + FormatFixed(n), n, fixed)
  {
    WholeOnlyText(n);
    WholeOnlyValue(n);
    var whole := n.digits + Zeros(n.point - |n.digits|);
    assert whole[0] == n.digits[0] && AllDigits(whole);
    assert EcmaForm(whole, [], None);
    assert WrittenAs(Minus(n.negative) + FormatFixed(n), n, n.negative, whole, [], None);
  }

  lemma BothForms(n: Number, fixed: bool)
    requires n.Finite? && Proper(n) && 0 < n.point < |n.digits| && fixed
    ensures HasForm(Minus(n.negative) + FormatFixed(n), n, fixed)
  {
    BothPartsText(n);
    SplitValue(n, n.point, None);
    var (whole, fraction) := (n.digits[..n.point], n.digits[n.point..]);
    assert EcmaForm(whole, fraction, None);
    assert WrittenAs(Minus(n.negative) + FormatFixed(n), n, n.negative, whole, fraction, None);
  }

  lemma EcmaForms(n: Number, fixed: bool)
    requires n.Finite? && Proper(n) && !fixed
    ensures HasForm(Ecma(n), n, fixed)
  {
    EcmaText(n);
    EcmaParts(n);
    SplitValue(n, 1, EcmaMark(n));
    DecimalDigits(Magnitude(n.point - 1));
    assert EcmaForm(n.digits[..1], n.digits[1..], EcmaMark(n));
    assert WrittenAs(Ecma(n), n, n.negative, n.digits[..1], n.digits[1..], EcmaMark(n));
  }
}
