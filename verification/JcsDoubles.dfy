/**
 Number printing: appendNumber over the shortest digits of a double.  Rounding a literal to the
 nearest double and finding that double's shortest digits are strconv's, and a parameter; where
 the digits, the point and the exponent go, and what a literal means, is this module.
 */
module JcsDoubles {
  import opened Prelude
  import opened JcsUtf8
  import opened JcsNumbers
  import opened JcsCanonical
  import opened JcsIntegers

  const ZERO_DIGIT: Byte := 0x30
  const DOT: Byte := 0x2E
  const MINUS: Byte := 0x2D
  const PLUS: Byte := 0x2B
  const EXPONENT: Byte := 0x65

  /** 0.digits times ten to the point; in Proper form every value has one representation. */
  datatype Number = Zero | Finite(negative: bool, digits: Bytes, point: int)

  predicate Proper(n: Number) {
    n.Finite? ==>
      n.digits != [] && AllDigits(n.digits) && n.digits[0] != ZERO_DIGIT && n.digits[|n.digits| - 1] != ZERO_DIGIT
  }

  // ----- the value of a literal -----

  function DropLeading(s: Bytes): Bytes {
    if s != [] && s[0] == ZERO_DIGIT then DropLeading(s[1..]) else s
  }

  function DropTrailing(s: Bytes): Bytes {
    if s != [] && s[|s| - 1] == ZERO_DIGIT then DropTrailing(s[..|s| - 1]) else s
  }

  /** The value 0.digits times ten to the point, whatever zeros stand around its digits. */
  function Normal(negative: bool, digits: Bytes, point: int): Number {
    var u := DropLeading(digits);
    if u == [] then Zero else Finite(negative, DropTrailing(u), point - (|digits| - |u|))
  }

  function Signed(minus: bool, n: int): int { if minus then -n else n }

  /** What the exponent part at the head of s says. */
  function ExponentValue(s: Bytes): int
    requires ExponentLength(s).Some?
  {
    var d := ExponentLength(s).value;
    if d == 0 then 0
    else
      var sign := SignLength(s[1..]);
      Signed(sign == 1 && s[1] == MINUS, NatOf(s[1 + sign..][..d - 1 - sign]))
  }

  function ValueOf(lit: Bytes): Number
    requires IsNumber(lit)
  {
    var a := MinusLength(lit);
    UnsignedValue(a == 1, lit[a..])
  }

  function UnsignedValue(negative: bool, s: Bytes): Number
    requires Unsigned(s).Some?
  {
    var b := IntegerLength(s);
    var c := FractionLength(s[b..]).value;
    var fraction := if c == 0 then [] else s[b..][1..c];
    Normal(negative, s[..b] + fraction, b + ExponentValue(s[b..][c..]))
  }

  // ----- printing -----

  function Zeros(n: nat): Bytes { seq(n, _ => ZERO_DIGIT) }

  /** strconv's format 'f' with precision -1. */
  function FormatFixed(n: Number): Bytes
    requires n.Finite? && Proper(n)
  {
    if n.point <= 0 then [ZERO_DIGIT, DOT] + Zeros(-n.point) + n.digits
    else if n.point >= |n.digits| then n.digits + Zeros(n.point - |n.digits|)
    else n.digits[..n.point] + [DOT] + n.digits[n.point..]
  }

  /** At least two digits. */
  function TwoDigits(k: nat): Bytes { if k < 10 then [ZERO_DIGIT] + Decimal(k) else Decimal(k) }

  function Mantissa(digits: Bytes): Bytes
    requires digits != []
  {
    [digits[0]] + (if |digits| == 1 then [] else [DOT] + digits[1..])
  }

  function ExponentSign(x: int): Byte { if x < 0 then MINUS else PLUS }

  function Magnitude(x: int): nat { if x < 0 then -x else x }

  /** strconv's format 'e' with precision -1. */
  function FormatExponent(n: Number): Bytes
    requires n.Finite? && Proper(n)
  {
    Mantissa(n.digits) + [EXPONENT, ExponentSign(n.point - 1)] + TwoDigits(Magnitude(n.point - 1))
  }

  /** strings.LastIndexByte. */
  function LastIndex(s: Bytes, b: Byte): (i: int)
    ensures -1 <= i < |s|
  {
    if s == [] then -1 else if s[|s| - 1] == b then |s| - 1 else LastIndex(s[..|s| - 1], b)
  }

  /** The exponent's leading zero, which strconv writes and ECMAScript does not, is taken out. */
  function Trimmed(encoded: Bytes): Bytes {
    var x := LastIndex(encoded, EXPONENT);
    if x >= 0 && x + 3 < |encoded| && encoded[x + 2] == ZERO_DIGIT then encoded[..x + 2] + encoded[x + 3..] else encoded
  }

  /** At least a millionth and less than 1e21: the point is where those bounds put it. */
  predicate PrintsFixed(n: Number) { n.Finite? && -6 <= n.point - 1 < 21 }

  function Minus(negative: bool): Bytes { if negative then [MINUS] else [] }

  function AppendNumber(n: Number): Bytes
    requires Proper(n)
  {
    if n.Zero? then [ZERO_DIGIT]
    else if PrintsFixed(n) then Minus(n.negative) + FormatFixed(n)
    else Trimmed(Minus(n.negative) + FormatExponent(n))
  }

  // ----- literals from their parts -----

  /** An exponent part: e or E, a sign or none, and digits. */
  datatype Mark = Mark(letter: Byte, sign: Bytes, digits: Bytes)

  /** A literal of section 6 of RFC 8259. */
  function Literal(negative: bool, whole: Bytes, fraction: Bytes, mark: Option<Mark>): Bytes {
    Minus(negative) + (whole + (FractionPart(fraction) + ExponentPart(mark)))
  }

  function FractionPart(fraction: Bytes): Bytes { if fraction == [] then [] else [DOT] + fraction }

  function ExponentPart(mark: Option<Mark>): Bytes {
    if mark.None? then [] else [mark.value.letter] + mark.value.sign + mark.value.digits
  }

  predicate GoodMark(p: Mark) {
    (p.letter == 0x65 || p.letter == 0x45) && (p.sign == [] || p.sign == [PLUS] || p.sign == [MINUS]) && p.digits != [] && AllDigits(p.digits)
  }

  predicate GoodParts(whole: Bytes, fraction: Bytes, mark: Option<Mark>) {
    && whole != [] && AllDigits(whole) && (whole[0] == ZERO_DIGIT ==> |whole| == 1) && AllDigits(fraction)
    && (mark.Some? ==> GoodMark(mark.value))
  }

  function MarkValue(mark: Option<Mark>): int {
    if mark.None? then 0 else Signed(mark.value.sign == [MINUS], NatOf(mark.value.digits))
  }

  lemma {:induction false} DigitsUpTo(s: Bytes, rest: Bytes)
    requires AllDigits(s) && (rest == [] || !Digit(rest[0]))
    ensures Digits(s + rest) == |s|
  {
    if s == [] {
      assert s + rest == rest;
    } else {
      assert (s + rest)[1..] == s[1..] + rest;
      DigitsUpTo(s[1..], rest);
    }
  }

  lemma ExponentReads(mark: Option<Mark>)
    requires mark.Some? ==> GoodMark(mark.value)
    ensures ExponentLength(ExponentPart(mark)) == Some(|ExponentPart(mark)|)
    ensures ExponentValue(ExponentPart(mark)) == MarkValue(mark)
  {
    if mark.Some? {
      var (s, sign, digits) := (ExponentPart(mark), mark.value.sign, mark.value.digits);
      assert s[1..] == sign + digits;
      SignReads(sign, digits);
      DigitsUpTo(digits, []);
      assert digits + [] == digits && s[1 + |sign|..] == digits && s[1..][|sign|..][..|digits|] == digits;
    }
  }

  lemma SignReads(sign: Bytes, digits: Bytes)
    requires (sign == [] || sign == [PLUS] || sign == [MINUS]) && digits != [] && AllDigits(digits)
    ensures SignLength(sign + digits) == |sign| && (sign + digits)[|sign|..] == digits
    ensures (sign + digits)[0] == MINUS && |sign| == 1 <==> sign == [MINUS]
  {
    if sign == [] { assert [] + digits == digits; }
  }

  lemma FractionReads(fraction: Bytes, rest: Bytes)
    requires AllDigits(fraction) && (rest == [] || (!Digit(rest[0]) && rest[0] != DOT))
    ensures FractionLength(FractionPart(fraction) + rest) == Some(|FractionPart(fraction)|)
    ensures (FractionPart(fraction) + rest)[|FractionPart(fraction)|..] == rest
    ensures fraction != [] ==> (FractionPart(fraction) + rest)[1..|FractionPart(fraction)|] == fraction
  {
    if fraction == [] {
      assert [] + rest == rest;
    } else {
      assert (FractionPart(fraction) + rest)[1..] == fraction + rest;
      DigitsUpTo(fraction, rest);
    }
  }

  lemma WholeReads(whole: Bytes, rest: Bytes)
    requires whole != [] && AllDigits(whole) && (whole[0] == ZERO_DIGIT ==> |whole| == 1) && (rest == [] || !Digit(rest[0]))
    ensures IntegerLength(whole + rest) == |whole|
    ensures (whole + rest)[|whole|..] == rest && (whole + rest)[..|whole|] == whole
  {
    DigitsUpTo(whole, rest);
  }

  /** An unsigned literal cut into its three parts. */
  lemma CutReads(negative: bool, whole: Bytes, fraction: Bytes, c: nat, t: Bytes, e: Bytes)
    requires whole != [] && IntegerLength(whole + t) == |whole| && (whole + t)[|whole|..] == t && (whole + t)[..|whole|] == whole
    requires FractionLength(t) == Some(c) && c <= |t| && t[c..] == e && ExponentLength(e) == Some(|e|)
    requires fraction == if c == 0 then [] else t[1..c]
    ensures Unsigned(whole + t) == Some(|whole + t|)
    ensures UnsignedValue(negative, whole + t) == Normal(negative, whole + fraction, |whole| + ExponentValue(e))
  {
  }

  lemma UnsignedReads(negative: bool, whole: Bytes, fraction: Bytes, mark: Option<Mark>)
    requires GoodParts(whole, fraction, mark)
    ensures var s := whole + (FractionPart(fraction) + ExponentPart(mark));
      && Unsigned(s) == Some(|s|)
      && UnsignedValue(negative, s) == Normal(negative, whole + fraction, |whole| + MarkValue(mark))
  {
    ExponentReads(mark);
    PartEnds(mark);
    ThreePartsRead(negative, whole, fraction, ExponentPart(mark), MarkValue(mark));
  }

  lemma ThreePartsRead(negative: bool, whole: Bytes, fraction: Bytes, e: Bytes, x: int)
    requires GoodParts(whole, fraction, None) && (e == [] || (!Digit(e[0]) && e[0] != DOT))
    requires ExponentLength(e) == Some(|e|) && ExponentValue(e) == x
    ensures var s := whole + (FractionPart(fraction) + e);
      Unsigned(s) == Some(|s|) && UnsignedValue(negative, s) == Normal(negative, whole + fraction, |whole| + x)
  {
    var f := FractionPart(fraction);
    assert f + e == [] || !Digit((f + e)[0]);
    FractionReads(fraction, e);
    WholeReads(whole, f + e);
    CutReads(negative, whole, fraction, |f|, f + e, e);
  }

  /** The exponent does not run into the digits before it. */
  lemma PartEnds(mark: Option<Mark>)
    requires mark.Some? ==> GoodMark(mark.value)
    ensures var e := ExponentPart(mark); e == [] || (!Digit(e[0]) && e[0] != DOT)
  {
  }

  lemma MinusReads(negative: bool, s: Bytes)
    requires s != [] && s[0] != MINUS
    ensures var lit := Minus(negative) + s;
      MinusLength(lit) == |Minus(negative)| && lit[|Minus(negative)|..] == s && (|Minus(negative)| == 1 <==> negative)
  {
    if !negative { assert [] + s == s; }
  }

  predicate Reads(lit: Bytes, n: Number) { IsNumber(lit) && ValueOf(lit) == n }

  lemma SignedReads(negative: bool, s: Bytes, n: Number)
    requires s != [] && s[0] != MINUS && Unsigned(s) == Some(|s|) && UnsignedValue(negative, s) == n
    ensures Reads(Minus(negative) + s, n)
  {
    MinusReads(negative, s);
    ReadsByParts(Minus(negative) + s, negative, s);
  }

  lemma ReadsByParts(lit: Bytes, negative: bool, s: Bytes)
    requires MinusLength(lit) == (if negative then 1 else 0) && lit[MinusLength(lit)..] == s && Unsigned(s) == Some(|s|)
    ensures Reads(lit, UnsignedValue(negative, s))
  {
    IsNumberByParts(lit, MinusLength(lit), s);
  }

  /** A literal put together from its parts is one, and its value is theirs. */
  lemma LiteralReads(negative: bool, whole: Bytes, fraction: Bytes, mark: Option<Mark>)
    requires GoodParts(whole, fraction, mark)
    ensures Reads(Literal(negative, whole, fraction, mark), Normal(negative, whole + fraction, |whole| + MarkValue(mark)))
  {
    var s := whole + (FractionPart(fraction) + ExponentPart(mark));
    assert s[0] == whole[0];
    UnsignedReads(negative, whole, fraction, mark);
    SignedReads(negative, s, Normal(negative, whole + fraction, |whole| + MarkValue(mark)));
  }

  lemma LiteralReadsAs(negative: bool, whole: Bytes, fraction: Bytes, mark: Option<Mark>, text: Bytes, n: Number)
    requires GoodParts(whole, fraction, mark) && text == Literal(negative, whole, fraction, mark)
    requires Normal(negative, whole + fraction, |whole| + MarkValue(mark)) == n
    ensures Reads(text, n)
  {
    LiteralReads(negative, whole, fraction, mark);
  }

  // ----- every number literal has these parts -----

  lemma {:induction false} DigitsAreDigits(s: Bytes)
    ensures AllDigits(s[..Digits(s)])
    decreases |s|
  {
    if s != [] && Digit(s[0]) {
      DigitsAreDigits(s[1..]);
      assert s[..Digits(s)] == [s[0]] + s[1..][..Digits(s[1..])];
    }
  }

  lemma ExponentWasWritten(s: Bytes) returns (mark: Option<Mark>)
    requires ExponentLength(s).Some?
    ensures (mark.Some? ==> GoodMark(mark.value)) && ExponentPart(mark) == s[..ExponentLength(s).value]
  {
    var d := ExponentLength(s).value;
    if d == 0 {
      mark := None;
    } else {
      var sign := SignLength(s[1..]);
      var digits := s[1 + sign..];
      DigitsAreDigits(digits);
      var power := Mark(s[0], s[1..1 + sign], digits[..Digits(digits)]);
      assert sign == 1 ==> power.sign == [s[1]] && s[1] == s[1..][0];
      assert s[..d] == [s[0]] + s[1..1 + sign] + digits[..Digits(digits)];
      mark := Some(power);
    }
  }

  lemma FractionWasWritten(s: Bytes) returns (fraction: Bytes)
    requires FractionLength(s).Some?
    ensures AllDigits(fraction) && FractionPart(fraction) == s[..FractionLength(s).value]
  {
    var c := FractionLength(s).value;
    if c == 0 {
      fraction := [];
    } else {
      DigitsAreDigits(s[1..]);
      fraction := s[1..][..c - 1];
      assert s[..c] == [DOT] + fraction;
    }
  }

  lemma UnsignedWasWritten(s: Bytes) returns (whole: Bytes, fraction: Bytes, mark: Option<Mark>)
    requires Unsigned(s) == Some(|s|)
    ensures GoodParts(whole, fraction, mark) && s == whole + (FractionPart(fraction) + ExponentPart(mark))
  {
    var b := IntegerLength(s);
    var t := s[b..];
    whole := s[..b];
    DigitsAreDigits(s);
    WholeIsDigits(s);
    fraction := FractionWasWritten(t);
    var c := FractionLength(t).value;
    mark := ExponentWasWritten(t[c..]);
    JoinCut(s, b, c);
    assert t[c..][..ExponentLength(t[c..]).value] == t[c..];
  }

  lemma JoinCut(s: Bytes, b: nat, c: nat)
    requires b <= |s| && c <= |s| - b
    ensures s == s[..b] + (s[b..][..c] + s[b..][c..])
  {
  }

  lemma WholeIsDigits(s: Bytes)
    requires IntegerLength(s) > 0 && AllDigits(s[..Digits(s)])
    ensures var whole := s[..IntegerLength(s)]; AllDigits(whole) && (whole[0] == ZERO_DIGIT ==> |whole| == 1)
  {
  }

  /** lit is written in these parts and its value is theirs. */
  predicate WrittenAs(lit: Bytes, n: Number, negative: bool, whole: Bytes, fraction: Bytes, mark: Option<Mark>) {
    && GoodParts(whole, fraction, mark) && lit == Literal(negative, whole, fraction, mark)
    && n == Normal(negative, whole + fraction, |whole| + MarkValue(mark))
  }

  /** Number literals are exactly the literals of the grammar, and mean what their parts say. */
  lemma NumbersAreLiterals(lit: Bytes, n: Number)
    ensures Reads(lit, n) <==> exists negative, whole, fraction, mark :: WrittenAs(lit, n, negative, whole, fraction, mark)
  {
    if IsNumber(lit) {
      var a := MinusLength(lit);
      var whole, fraction, mark := UnsignedWasWritten(lit[a..]);
      assert lit == Minus(a == 1) + lit[a..];
      LiteralReads(a == 1, whole, fraction, mark);
      assert Reads(lit, n) ==> WrittenAs(lit, n, a == 1, whole, fraction, mark);
    }
    forall negative, whole, fraction, mark | WrittenAs(lit, n, negative, whole, fraction, mark) ensures Reads(lit, n) {
      LiteralReads(negative, whole, fraction, mark);
    }
  }

  // ----- zeros around digits -----

  lemma {:induction false} LeadingGone(n: nat, digits: Bytes)
    requires digits != [] && digits[0] != ZERO_DIGIT
    ensures DropLeading(Zeros(n) + digits) == digits
    decreases n
  {
    if n == 0 {
      assert Zeros(0) + digits == digits;
    } else {
      assert (Zeros(n) + digits)[1..] == Zeros(n - 1) + digits;
      LeadingGone(n - 1, digits);
    }
  }

  lemma {:induction false} TrailingGone(digits: Bytes, n: nat)
    requires digits != [] && digits[|digits| - 1] != ZERO_DIGIT
    ensures DropTrailing(digits + Zeros(n)) == digits
    decreases n
  {
    if n == 0 {
      assert digits + Zeros(0) == digits;
    } else {
      var s := digits + Zeros(n);
      assert s[..|s| - 1] == digits + Zeros(n - 1);
      TrailingGone(digits, n - 1);
    }
  }

  lemma {:induction false} TrailingBack(s: Bytes)
    ensures |DropTrailing(s)| <= |s| && DropTrailing(s) + Zeros(|s| - |DropTrailing(s)|) == s
    ensures DropTrailing(s) != [] ==> DropTrailing(s)[0] == s[0] && DropTrailing(s)[|DropTrailing(s)| - 1] != ZERO_DIGIT
    ensures AllDigits(s) ==> AllDigits(DropTrailing(s))
    decreases |s|
  {
    if s != [] && s[|s| - 1] == ZERO_DIGIT {
      var u := s[..|s| - 1];
      TrailingBack(u);
      assert Zeros(|s| - |DropTrailing(u)|) == Zeros(|u| - |DropTrailing(u)|) + [ZERO_DIGIT];
      assert u + [ZERO_DIGIT] == s;
    } else {
      assert s + Zeros(0) == s;
    }
  }

  // ----- what is printed is read -----

  lemma Around(n: Number, lead: nat, trail: nat, digits: Bytes)
    requires n.Finite? && Proper(n) && digits == Zeros(lead) + (n.digits + Zeros(trail))
    ensures Normal(n.negative, digits, n.point + lead) == n
  {
    assert (n.digits + Zeros(trail))[0] == n.digits[0];
    LeadingGone(lead, n.digits + Zeros(trail));
    TrailingGone(n.digits, trail);
  }

  lemma PlainDigits(n: Number, digits: Bytes)
    requires n.Finite? && Proper(n) && digits == n.digits
    ensures Normal(n.negative, digits, n.point) == n
  {
    assert digits == Zeros(0) + (n.digits + Zeros(0));
    Around(n, 0, 0, digits);
  }

  lemma FractionOnlyText(n: Number)
    requires n.Finite? && Proper(n) && n.point <= 0
    ensures Literal(n.negative, [ZERO_DIGIT], Zeros(-n.point) + n.digits, None) == Minus(n.negative) + FormatFixed(n)
  {
    var fraction := Zeros(-n.point) + n.digits;
    assert fraction != [];
    assert [ZERO_DIGIT] + (FractionPart(fraction) + []) == [ZERO_DIGIT, DOT] + Zeros(-n.point) + n.digits;
  }

  lemma FractionOnly(n: Number)
    requires n.Finite? && Proper(n) && n.point <= 0
    ensures Reads(Minus(n.negative) + FormatFixed(n), n)
  {
    FractionOnlyText(n);
    FractionOnlyValue(n);
    LiteralReadsAs(n.negative, [ZERO_DIGIT], Zeros(-n.point) + n.digits, None, Minus(n.negative) + FormatFixed(n), n);
  }

  lemma FractionOnlyValue(n: Number)
    requires n.Finite? && Proper(n) && n.point <= 0
    ensures Normal(n.negative, [ZERO_DIGIT] + (Zeros(-n.point) + n.digits), 1 + MarkValue(None)) == n
  {
    var digits := [ZERO_DIGIT] + (Zeros(-n.point) + n.digits);
    assert digits == Zeros(1 - n.point) + (n.digits + Zeros(0));
    Around(n, 1 - n.point, 0, digits);
  }

  lemma WholeOnlyText(n: Number)
    requires n.Finite? && Proper(n) && n.point >= |n.digits|
    ensures Literal(n.negative, n.digits + Zeros(n.point - |n.digits|), [], None) == Minus(n.negative) + FormatFixed(n)
  {
  }

  lemma WholeOnly(n: Number)
    requires n.Finite? && Proper(n) && n.point >= |n.digits|
    ensures Reads(Minus(n.negative) + FormatFixed(n), n)
  {
    var whole := n.digits + Zeros(n.point - |n.digits|);
    assert AllDigits(whole) && whole[0] == n.digits[0];
    WholeOnlyText(n);
    WholeOnlyValue(n);
    LiteralReadsAs(n.negative, whole, [], None, Minus(n.negative) + FormatFixed(n), n);
  }

  lemma WholeOnlyValue(n: Number)
    requires n.Finite? && Proper(n) && n.point >= |n.digits|
    ensures var whole := n.digits + Zeros(n.point - |n.digits|); Normal(n.negative, whole + [], |whole| + MarkValue(None)) == n
  {
    var whole := n.digits + Zeros(n.point - |n.digits|);
    assert whole + [] == Zeros(0) + whole;
    Around(n, 0, n.point - |n.digits|, whole + []);
  }

  lemma BothPartsText(n: Number)
    requires n.Finite? && Proper(n) && 0 < n.point < |n.digits|
    ensures Literal(n.negative, n.digits[..n.point], n.digits[n.point..], None) == Minus(n.negative) + FormatFixed(n)
  {
  }

  lemma BothParts(n: Number)
    requires n.Finite? && Proper(n) && 0 < n.point < |n.digits|
    ensures Reads(Minus(n.negative) + FormatFixed(n), n)
  {
    var (whole, fraction) := (n.digits[..n.point], n.digits[n.point..]);
    BothPartsText(n);
    SplitValue(n, n.point, None);
    LiteralReadsAs(n.negative, whole, fraction, None, Minus(n.negative) + FormatFixed(n), n);
  }

  lemma SplitValue(n: Number, k: nat, mark: Option<Mark>)
    requires n.Finite? && Proper(n) && k <= |n.digits| && n.point == k + MarkValue(mark)
    ensures Normal(n.negative, n.digits[..k] + n.digits[k..], |n.digits[..k]| + MarkValue(mark)) == n
  {
    PlainDigits(n, n.digits[..k] + n.digits[k..]);
  }

  lemma FixedReads(n: Number)
    requires n.Finite? && Proper(n)
    ensures Reads(Minus(n.negative) + FormatFixed(n), n)
  {
    if n.point <= 0 {
      FractionOnly(n);
    } else if n.point >= |n.digits| {
      WholeOnly(n);
    } else {
      BothParts(n);
    }
  }

  lemma {:induction false} LastIndexBefore(s: Bytes, tail: Bytes, b: Byte)
    requires forall i :: 0 <= i < |tail| ==> tail[i] != b
    ensures LastIndex(s + [b] + tail, b) == |s|
    decreases |tail|
  {
    var t := s + [b] + tail;
    if tail == [] {
      assert t == s + [b];
    } else {
      assert t[..|t| - 1] == s + [b] + tail[..|tail| - 1];
      LastIndexBefore(s, tail[..|tail| - 1], b);
    }
  }

  /** Just the one zero that strconv added goes. */
  lemma TrimmedIsPlain(head: Bytes, sign: Byte, k: nat)
    requires sign == MINUS || sign == PLUS
    ensures Trimmed(head + [EXPONENT, sign] + TwoDigits(k)) == head + [EXPONENT, sign] + Decimal(k)
  {
    DecimalDigits(k);
    var encoded := head + [EXPONENT, sign] + TwoDigits(k);
    assert encoded == head + [EXPONENT] + ([sign] + TwoDigits(k));
    LastIndexBefore(head, [sign] + TwoDigits(k), EXPONENT);
    if k < 10 {
      assert encoded[|head| + 2] == ZERO_DIGIT;
      assert encoded[..|head| + 2] == head + [EXPONENT, sign] && encoded[|head| + 3..] == Decimal(k);
    } else {
      assert encoded[|head| + 2] == Decimal(k)[0];
    }
  }

  /** What is left of format 'e'. */
  function Ecma(n: Number): Bytes
    requires n.Finite? && Proper(n)
  {
    Minus(n.negative) + Mantissa(n.digits) + [EXPONENT, ExponentSign(n.point - 1)] + Decimal(Magnitude(n.point - 1))
  }

  lemma TrimmedIsEcma(n: Number)
    requires n.Finite? && Proper(n)
    ensures Trimmed(Minus(n.negative) + FormatExponent(n)) == Ecma(n)
  {
    var (x, k) := (n.point - 1, Magnitude(n.point - 1));
    var head := Minus(n.negative) + Mantissa(n.digits);
    assert Minus(n.negative) + FormatExponent(n) == head + [EXPONENT, ExponentSign(x)] + TwoDigits(k);
    TrimmedIsPlain(head, ExponentSign(x), k);
  }

  function EcmaMark(n: Number): Option<Mark>
    requires n.Finite?
  {
    Some(Mark(EXPONENT, [ExponentSign(n.point - 1)], Decimal(Magnitude(n.point - 1))))
  }

  lemma EcmaText(n: Number)
    requires n.Finite? && Proper(n)
    ensures Literal(n.negative, n.digits[..1], n.digits[1..], EcmaMark(n)) == Ecma(n)
  {
    assert Mantissa(n.digits) == n.digits[..1] + FractionPart(n.digits[1..]);
    JoinEcma(Minus(n.negative), n.digits[..1], FractionPart(n.digits[1..]), [EXPONENT], [ExponentSign(n.point - 1)],
             Decimal(Magnitude(n.point - 1)));
  }

  lemma JoinEcma(a: Bytes, b: Bytes, c: Bytes, d: Bytes, e: Bytes, f: Bytes)
    ensures a + (b + (c + (d + e + f))) == a + (b + c) + (d + e) + f
  {
  }

  lemma EcmaParts(n: Number)
    requires n.Finite? && Proper(n)
    ensures GoodParts(n.digits[..1], n.digits[1..], EcmaMark(n)) && n.point == 1 + MarkValue(EcmaMark(n))
  {
    DecimalDigits(Magnitude(n.point - 1));
    DecimalValue(Magnitude(n.point - 1));
  }

  lemma ExponentFormReads(n: Number)
    requires n.Finite? && Proper(n)
    ensures Reads(Trimmed(Minus(n.negative) + FormatExponent(n)), n)
  {
    TrimmedIsEcma(n);
    EcmaText(n);
    EcmaParts(n);
    SplitValue(n, 1, EcmaMark(n));
    LiteralReadsAs(n.negative, n.digits[..1], n.digits[1..], EcmaMark(n), Ecma(n), n);
  }

  /** Whatever its size, a printed number is a number literal whose value is the number printed. */
  lemma PrintedIsRead(n: Number)
    requires Proper(n)
    ensures Reads(AppendNumber(n), n)
  {
    if n.Zero? {
      LiteralReads(false, [ZERO_DIGIT], [], None);
      assert Literal(false, [ZERO_DIGIT], [], None) == [ZERO_DIGIT] && [ZERO_DIGIT] + [] == [ZERO_DIGIT];
      assert DropLeading([ZERO_DIGIT]) == DropLeading([ZERO_DIGIT][1..]) == [];
    } else if PrintsFixed(n) {
      FixedReads(n);
    } else {
      ExponentFormReads(n);
    }
  }

  // ----- the format of Canonicalize -----

  /** ParseFloat with the shortest digits of what it gives; None is out of range. */
  type Rounding = Number -> Option<Number>

  /** The shortest digits of a double round to that same double. */
  ghost predicate LawfulRounding(round: Rounding) {
    forall n :: Proper(n) && round(n).Some? ==> Proper(round(n).value) && round(round(n).value) == round(n)
  }

  /** A double holds these integers. */
  ghost predicate HoldsIntegers(round: Rounding) {
    forall n: nat :: n <= MAX_EXACT ==> round(IntegerValue(n)) == Some(IntegerValue(n))
  }

  function IntegerValue(n: nat): Number { Normal(false, Decimal(n), |Decimal(n)|) }

  /** ParseFloat and appendNumber on one literal. */
  function Printed(round: Rounding, lit: Bytes): Option<Bytes>
    requires IsNumber(lit)
  {
    match round(ValueOf(lit))
    case None => None
    case Some(n) => if Proper(n) then Some(AppendNumber(n)) else None
  }

  function DoubleFormat(round: Rounding): NumberFormat {
    lit => if IsNumber(lit) then Printed(round, lit) else None
  }

  lemma {:induction false} DropLeadingDigits(s: Bytes)
    requires AllDigits(s)
    ensures AllDigits(DropLeading(s)) && |DropLeading(s)| <= |s| && (DropLeading(s) != [] ==> DropLeading(s)[0] != ZERO_DIGIT)
    decreases |s|
  {
    if s != [] && s[0] == ZERO_DIGIT { DropLeadingDigits(s[1..]); }
  }

  lemma {:induction false} TrailingKeepsHead(s: Bytes)
    requires s != [] && s[0] != ZERO_DIGIT
    ensures DropTrailing(s) != []
    decreases |s|
  {
    if s[|s| - 1] == ZERO_DIGIT { TrailingKeepsHead(s[..|s| - 1]); }
  }

  lemma NormalIsProper(negative: bool, digits: Bytes, point: int)
    requires AllDigits(digits)
    ensures Proper(Normal(negative, digits, point))
  {
    DropLeadingDigits(digits);
    var u := DropLeading(digits);
    if u != [] {
      TrailingBack(u);
      TrailingKeepsHead(u);
    }
  }

  lemma PartsAreDigits(s: Bytes)
    requires Unsigned(s).Some?
    ensures var (b, c) := (IntegerLength(s), FractionLength(s[IntegerLength(s)..]).value);
      AllDigits(s[..b]) && (c > 0 ==> AllDigits(s[b..][1..c]))
  {
    var b := IntegerLength(s);
    DigitsAreDigits(s);
    var t := s[b..];
    var c := FractionLength(t).value;
    if c > 0 {
      DigitsAreDigits(t[1..]);
      assert t[1..c] == t[1..][..c - 1];
    }
  }

  lemma ValueIsProper(lit: Bytes)
    requires IsNumber(lit)
    ensures Proper(ValueOf(lit))
  {
    var s := lit[MinusLength(lit)..];
    PartsAreDigits(s);
    var (b, c) := (IntegerLength(s), FractionLength(s[IntegerLength(s)..]).value);
    NormalIsProper(MinusLength(lit) == 1, s[..b] + (if c == 0 then [] else s[b..][1..c]), b + ExponentValue(s[b..][c..]));
  }

  /** A printed number is a number, and prints as itself. */
  lemma DoubleFormatIsLawful(round: Rounding)
    requires LawfulRounding(round)
    ensures Lawful(DoubleFormat(round))
  {
    var fmt := DoubleFormat(round);
    forall lit | IsNumber(lit) && fmt(lit).Some?
      ensures IsNumber(fmt(lit).value) && fmt(fmt(lit).value) == fmt(lit)
    {
      ValueIsProper(lit);
      PrintedIsRead(round(ValueOf(lit)).value);
    }
  }

  // ----- integers -----

  lemma {:induction false} DecimalLength(n: nat, k: nat)
    requires 0 < k && n < Power(k)
    ensures |Decimal(n)| <= k
    decreases k
  {
    if n >= 10 { DecimalLength(n / 10, k - 1); }
  }

  function Power(k: nat): nat { if k == 0 then 1 else 10 * Power(k - 1) }

  lemma ExactIsShort(n: nat)
    requires n <= MAX_EXACT
    ensures |Decimal(n)| <= 16
  {
    assert Power(4) == 10000;
    assert Power(8) == 100000000;
    assert Power(12) == 1000000000000;
    assert Power(16) == 10000000000000000;
    DecimalLength(n, 16);
  }

  lemma IntegerReads(n: nat)
    ensures Reads(Decimal(n), IntegerValue(n))
  {
    DecimalDigits(n);
    LiteralReads(false, Decimal(n), [], None);
    assert Literal(false, Decimal(n), [], None) == Decimal(n) && Decimal(n) + [] == Decimal(n);
  }

  lemma IntegerPrints(n: nat)
    requires n <= MAX_EXACT
    ensures Proper(IntegerValue(n)) && AppendNumber(IntegerValue(n)) == Decimal(n)
  {
    var s := Decimal(n);
    DecimalDigits(n);
    NormalIsProper(false, s, |s|);
    ExactIsShort(n);
    if n == 0 {
      assert s == [ZERO_DIGIT] && s[1..] == [];
    } else {
      TrailingBack(s);
      TrailingKeepsHead(s);
    }
  }

  /** Every integer up to 2^53 - 1 comes out as it went in. */
  lemma DoubleFormatIsExact(round: Rounding)
    requires HoldsIntegers(round)
    ensures ExactIntegers(DoubleFormat(round))
  {
    forall n | 0 <= n <= MAX_EXACT
      ensures DoubleFormat(round)(Decimal(n)) == Some(Decimal(n))
    {
      IntegerReads(n);
      IntegerPrints(n);
      assert round(IntegerValue(n)) == Some(IntegerValue(n));
    }
  }
}
