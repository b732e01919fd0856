/** Number literals: the lexical grammar of section 6 of RFC 8259, read greedily. */
module JcsNumbers {
  import opened Prelude
  import opened JcsUtf8

  predicate Digit(b: Byte) { 0x30 <= b <= 0x39 }

  /** Length of the run of digits at the head of s. */
  function Digits(s: Bytes): (n: nat)
    ensures n <= |s|
  {
    if s == [] || !Digit(s[0]) then 0 else 1 + Digits(s[1..])
  }

  function IntegerLength(s: Bytes): (n: nat)
    ensures n <= |s|
  {
    if s == [] then 0 else if s[0] == 0x30 then 1 else Digits(s)
  }

  /** None is a malformed part; Some(0) an absent one. */
  function FractionLength(s: Bytes): (n: Option<nat>)
    ensures n.Some? ==> n.value <= |s|
  {
    if s == [] || s[0] != 0x2E then Some(0)
    else if Digits(s[1..]) == 0 then None
    else Some(1 + Digits(s[1..]))
  }

  function SignLength(s: Bytes): (n: nat)
    ensures n <= |s|
  {
    if s != [] && (s[0] == 0x2B || s[0] == 0x2D) then 1 else 0
  }

  function ExponentLength(s: Bytes): (n: Option<nat>)
    ensures n.Some? ==> n.value <= |s|
  {
    if s == [] || (s[0] != 0x65 && s[0] != 0x45) then Some(0)
    else
      var sign := SignLength(s[1..]);
      var digits := Digits(s[1 + sign..]);
      if digits == 0 then None else Some(1 + sign + digits)
  }

  function MinusLength(s: Bytes): (n: nat)
    ensures n <= |s|
  {
    if s != [] && s[0] == 0x2D then 1 else 0
  }

  function AfterInteger(s: Bytes): (n: Option<nat>)
    ensures n.Some? ==> n.value <= |s|
  {
    match FractionLength(s)
    case None => None
    case Some(c) =>
      match ExponentLength(s[c..])
      case None => None
      case Some(d) => Some(c + d)
  }

  function Unsigned(s: Bytes): (n: Option<nat>)
    ensures n.Some? ==> 0 < n.value <= |s|
  {
    var b := IntegerLength(s);
    if b == 0 then None
    else
      match AfterInteger(s[b..])
      case None => None
      case Some(c) => Some(b + c)
  }

  /** Length of the number literal at the head of s. */
  function NumberLength(s: Bytes): (n: Option<nat>)
    ensures n.Some? ==> 0 < n.value <= |s|
  {
    match Unsigned(s[MinusLength(s)..])
    case None => None
    case Some(n) => Some(MinusLength(s) + n)
  }

  predicate IsNumber(lit: Bytes) { NumberLength(lit) == Some(|lit|) }

  /** White space, section 2 of RFC 8259. */
  predicate IsSpace(b: Byte) { b == 0x20 || b == 0x09 || b == 0x0A || b == 0x0D }

  /** What may follow a value in a document: nothing, white space, a comma, a closing bracket or brace. */
  predicate Delimited(rest: Bytes) {
    rest == [] || IsSpace(rest[0]) || rest[0] == 0x2C || rest[0] == 0x5D || rest[0] == 0x7D
  }

  lemma {:induction false} DigitsStop(s: Bytes, rest: Bytes)
    requires Delimited(rest)
    ensures Digits(s + rest) == Digits(s)
  {
    if s == [] {
      assert s + rest == rest;
    } else {
      assert (s + rest)[1..] == s[1..] + rest;
      DigitsStop(s[1..], rest);
    }
  }

  lemma SignsStop(s: Bytes, rest: Bytes)
    requires Delimited(rest)
    ensures MinusLength(s + rest) == MinusLength(s) && SignLength(s + rest) == SignLength(s)
    ensures IntegerLength(s + rest) == IntegerLength(s)
  {
    DigitsStop(s, rest);
    if s == [] { assert s + rest == rest; }
  }

  lemma FractionStops(s: Bytes, rest: Bytes)
    requires Delimited(rest)
    ensures FractionLength(s + rest) == FractionLength(s)
  {
    if s == [] {
      assert s + rest == rest;
    } else {
      assert (s + rest)[1..] == s[1..] + rest;
      DigitsStop(s[1..], rest);
    }
  }

  lemma ExponentStops(s: Bytes, rest: Bytes)
    requires Delimited(rest)
    ensures ExponentLength(s + rest) == ExponentLength(s)
  {
    if s == [] {
      assert s + rest == rest;
    } else {
      assert (s + rest)[1..] == s[1..] + rest;
      SignsStop(s[1..], rest);
      var sign := SignLength(s[1..]);
      assert (s + rest)[1 + sign..] == s[1 + sign..] + rest;
      DigitsStop(s[1 + sign..], rest);
    }
  }

  lemma AfterIntegerStops(s: Bytes, rest: Bytes)
    requires Delimited(rest)
    ensures AfterInteger(s + rest) == AfterInteger(s)
  {
    FractionStops(s, rest);
    if FractionLength(s).Some? {
      var c := FractionLength(s).value;
      assert (s + rest)[c..] == s[c..] + rest;
      ExponentStops(s[c..], rest);
    }
  }

  lemma UnsignedStops(s: Bytes, rest: Bytes)
    requires Delimited(rest)
    ensures Unsigned(s + rest) == Unsigned(s)
  {
    SignsStop(s, rest);
    var b := IntegerLength(s);
    assert (s + rest)[b..] == s[b..] + rest;
    AfterIntegerStops(s[b..], rest);
  }

  /** A number literal is read no further in front of a delimiter than on its own. */
  lemma NumberStops(s: Bytes, rest: Bytes)
    requires Delimited(rest)
    ensures NumberLength(s + rest) == NumberLength(s)
  {
    SignsStop(s, rest);
    var a := MinusLength(s);
    assert (s + rest)[a..] == s[a..] + rest;
    UnsignedStops(s[a..], rest);
  }

  // ----- number literals are ASCII -----

  /** ASCII, and no quotation mark among it. */
  predicate AsciiUpTo(s: Bytes, n: nat)
    requires n <= |s|
  {
    forall i :: 0 <= i < n ==> s[i] < 0x80 && s[i] != 0x22
  }

  lemma AsciiJoin(s: Bytes, m: nat, n: nat)
    requires m + n <= |s| && AsciiUpTo(s, m) && AsciiUpTo(s[m..], n)
    ensures AsciiUpTo(s, m + n)
  {
    forall i | 0 <= i < m + n ensures s[i] < 0x80 && s[i] != 0x22 {
      if i >= m { assert s[i] == s[m..][i - m]; }
    }
  }

  lemma {:induction false} DigitsAreAscii(s: Bytes)
    ensures AsciiUpTo(s, Digits(s))
  {
    if s != [] && Digit(s[0]) {
      DigitsAreAscii(s[1..]);
      AsciiJoin(s, 1, Digits(s[1..]));
    }
  }

  lemma ExponentIsAscii(s: Bytes)
    requires ExponentLength(s).Some?
    ensures AsciiUpTo(s, ExponentLength(s).value)
  {
    if s != [] && ExponentLength(s).value > 0 {
      var sign := SignLength(s[1..]);
      AsciiJoin(s, 1, sign);
      DigitsAreAscii(s[1 + sign..]);
      AsciiJoin(s, 1 + sign, Digits(s[1 + sign..]));
    }
  }

  lemma AfterIntegerIsAscii(s: Bytes)
    requires AfterInteger(s).Some?
    ensures AsciiUpTo(s, AfterInteger(s).value)
  {
    var c := FractionLength(s).value;
    if c > 0 {
      DigitsAreAscii(s[1..]);
      AsciiJoin(s, 1, c - 1);
    }
    ExponentIsAscii(s[c..]);
    AsciiJoin(s, c, ExponentLength(s[c..]).value);
  }

  lemma NumberIsAscii(s: Bytes)
    requires NumberLength(s).Some?
    ensures AsciiUpTo(s, NumberLength(s).value)
  {
    var t := s[MinusLength(s)..];
    var b := IntegerLength(t);
    DigitsAreAscii(t);
    AfterIntegerIsAscii(t[b..]);
    AsciiJoin(t, b, AfterInteger(t[b..]).value);
    AsciiJoin(s, MinusLength(s), Unsigned(t).value);
  }

  lemma {:induction false} AsciiIsValid(s: Bytes)
    requires forall i :: 0 <= i < |s| ==> s[i] < 0x80
    ensures ValidUtf8(s)
  {
    if s != [] { AsciiIsValid(s[1..]); }
  }

  lemma {:induction false} AsciiPrefix(s: Bytes, n: nat)
    requires n <= |s| && ValidUtf8(s) && forall i :: 0 <= i < n ==> s[i] < 0x80
    ensures ValidUtf8(s[n..])
  {
    if n > 0 {
      AsciiSplits(Start, s);
      assert s[1..][n - 1..] == s[n..];
      AsciiPrefix(s[1..], n - 1);
    }
  }

  // ----- a number token is a number on its own -----

  lemma {:induction false} DigitsPrefix(s: Bytes, n: nat)
    requires Digits(s) <= n <= |s|
    ensures Digits(s[..n]) == Digits(s)
  {
    if s != [] && Digit(s[0]) {
      assert s[..n][1..] == s[1..][..n - 1];
      DigitsPrefix(s[1..], n - 1);
    }
  }

  lemma ExponentAlone(s: Bytes, n: nat)
    requires ExponentLength(s).Some? && ExponentLength(s).value <= n <= |s|
    ensures ExponentLength(s[..n]) == ExponentLength(s) || n == 0
    ensures n == ExponentLength(s).value ==> ExponentLength(s[..n]) == Some(n)
  {
    var d := ExponentLength(s).value;
    if d > 0 {
      assert s[..n][1..] == s[1..][..n - 1];
      var sign := SignLength(s[1..]);
      assert s[..n][1 + sign..] == s[1 + sign..][..n - 1 - sign];
      DigitsPrefix(s[1 + sign..], n - 1 - sign);
    }
  }

  lemma AfterIntegerAlone(s: Bytes)
    requires AfterInteger(s).Some?
    ensures AfterInteger(s[..AfterInteger(s).value]) == AfterInteger(s)
  {
    var n := AfterInteger(s).value;
    var c := FractionLength(s).value;
    if c > 0 {
      assert s[..n][1..] == s[1..][..n - 1];
      DigitsPrefix(s[1..], n - 1);
    } else if n > 0 {
      assert s[..n][0] == s[0];
    }
    assert FractionLength(s[..n]) == Some(c);
    assert s[..n][c..] == s[c..][..n - c];
    ExponentAlone(s[c..], n - c);
  }

  lemma UnsignedAlone(s: Bytes)
    requires Unsigned(s).Some?
    ensures Unsigned(s[..Unsigned(s).value]) == Unsigned(s)
  {
    var n := Unsigned(s).value;
    var b := IntegerLength(s);
    IntegerAlone(s, n);
    AfterIntegerAlone(s[b..]);
    assert s[..n][b..] == s[b..][..n - b];
    UnsignedByParts(s[..n], b, s[b..][..n - b]);
  }

  lemma UnsignedByParts(cut: Bytes, b: nat, t: Bytes)
    requires 0 < b <= |cut| && IntegerLength(cut) == b && cut[b..] == t && AfterInteger(t) == Some(|t|)
    ensures Unsigned(cut) == Some(|cut|)
  {
  }

  lemma IntegerAlone(s: Bytes, n: nat)
    requires IntegerLength(s) <= n <= |s| && 0 < n
    ensures IntegerLength(s[..n]) == IntegerLength(s)
  {
    assert s[..n][0] == s[0];
    if s[0] != 0x30 { DigitsPrefix(s, n); }
  }

  /** A number token cut out of its document is a number literal. */
  lemma NumberAlone(s: Bytes)
    requires NumberLength(s).Some?
    ensures IsNumber(s[..NumberLength(s).value])
  {
    var (n, a) := (NumberLength(s).value, MinusLength(s));
    UnsignedAlone(s[a..]);
    CutAfterMinus(s, n);
    IsNumberByParts(s[..n], a, s[a..][..n - a]);
  }

  lemma IsNumberByParts(cut: Bytes, a: nat, t: Bytes)
    requires a <= |cut| && MinusLength(cut) == a && cut[a..] == t && Unsigned(t) == Some(|t|)
    ensures IsNumber(cut)
  {
  }

  /** The sign and what follows it, in the cut as in the whole. */
  lemma CutAfterMinus(s: Bytes, n: nat)
    requires 0 < n <= |s| && MinusLength(s) <= n
    ensures MinusLength(s[..n]) == MinusLength(s) && s[..n][MinusLength(s)..] == s[MinusLength(s)..][..n - MinusLength(s)]
  {
    assert s[..n][0] == s[0];
  }
}
