/** Bytes, UTF-8 validity as a small automaton, and code points. */
module JcsUtf8 {
  type Byte = b: int | 0 <= b < 256

  type Bytes = seq<Byte>

  /** What the rest of the current character must look like. */
  datatype Utf8State = Start | Bad | Need(count: nat, low: int, high: int)

  function Utf8Step(q: Utf8State, b: Byte): Utf8State {
    match q
    case Bad => Bad
    case Start =>
      if b < 0x80 then Start
      else if 0xC2 <= b <= 0xDF then Need(1, 0x80, 0xBF)
      else if b == 0xE0 then Need(2, 0xA0, 0xBF)
      else if b == 0xED then Need(2, 0x80, 0x9F)
      else if 0xE1 <= b <= 0xEF then Need(2, 0x80, 0xBF)
      else if b == 0xF0 then Need(3, 0x90, 0xBF)
      else if 0xF1 <= b <= 0xF3 then Need(3, 0x80, 0xBF)
      else if b == 0xF4 then Need(3, 0x80, 0x8F)
      else Bad
    case Need(count, low, high) =>
      if low < 0x80 || !(low <= b <= high) then Bad
      else if count <= 1 then Start
      else Need(count - 1, 0x80, 0xBF)
  }

  function Utf8Run(q: Utf8State, s: Bytes): Utf8State
    decreases |s|
  {
    if s == [] then q else Utf8Run(Utf8Step(q, s[0]), s[1..])
  }

  predicate ValidUtf8(s: Bytes) { Utf8Run(Start, s) == Start }

  /** A Go string that is valid Unicode. */
  type Text = s: Bytes | ValidUtf8(s) witness []

  lemma {:induction false} BadStays(s: Bytes)
    ensures Utf8Run(Bad, s) == Bad
  {
    if s != [] { BadStays(s[1..]); }
  }

  lemma {:induction false} RunConcat(q: Utf8State, a: Bytes, b: Bytes)
    ensures Utf8Run(q, a + b) == Utf8Run(Utf8Run(q, a), b)
    decreases |a|
  {
    if a == [] {
      assert a + b == b;
    } else {
      assert (a + b)[1..] == a[1..] + b;
      RunConcat(Utf8Step(q, a[0]), a[1..], b);
    }
  }

  lemma ValidConcat(a: Bytes, b: Bytes)
    requires ValidUtf8(a) && ValidUtf8(b)
    ensures ValidUtf8(a + b)
  {
    RunConcat(Start, a, b);
  }

  /** An ASCII byte can only stand between characters. */
  lemma AsciiSplits(q: Utf8State, s: Bytes)
    requires s != [] && s[0] < 0x80 && Utf8Run(q, s) == Start
    ensures q == Start && ValidUtf8(s[1..])
  {
    BadStays(s[1..]);
  }

  lemma OneByte(b: Byte, s: Bytes)
    requires b < 0x80 && ValidUtf8(s)
    ensures ValidUtf8([b] + s)
  {
    assert ([b] + s)[1..] == s;
  }

  // ----- code points -----

  /** A Unicode scalar value: not a surrogate. */
  predicate Scalar(r: int) { 0 <= r < 0x110000 && !(0xD800 <= r <= 0xDFFF) }

  function EncodeRune(r: int): (s: Bytes)
    requires Scalar(r)
    ensures s != []
  {
    if r < 0x80 then [r]
    else if r < 0x800 then [0xC0 + r / 0x40, 0x80 + r % 0x40]
    else if r < 0x10000 then [0xE0 + r / 0x1000, 0x80 + r / 0x40 % 0x40, 0x80 + r % 0x40]
    else [0xF0 + r / 0x40000, 0x80 + r / 0x1000 % 0x40, 0x80 + r / 0x40 % 0x40, 0x80 + r % 0x40]
  }

  lemma Run2(q: Utf8State, a: Byte, b: Byte)
    ensures Utf8Run(q, [a, b]) == Utf8Step(Utf8Step(q, a), b)
  {
    assert [a, b][1..] == [b] && [b][1..] == [];
    assert Utf8Run(Utf8Step(q, a), [b]) == Utf8Run(Utf8Step(Utf8Step(q, a), b), []);
  }

  lemma Run3(q: Utf8State, a: Byte, b: Byte, c: Byte)
    ensures Utf8Run(q, [a, b, c]) == Utf8Step(Utf8Step(Utf8Step(q, a), b), c)
  {
    assert [a, b, c][1..] == [b, c];
    Run2(Utf8Step(q, a), b, c);
  }

  lemma Run4(q: Utf8State, a: Byte, b: Byte, c: Byte, d: Byte)
    ensures Utf8Run(q, [a, b, c, d]) == Utf8Step(Utf8Step(Utf8Step(Utf8Step(q, a), b), c), d)
  {
    assert [a, b, c, d][1..] == [b, c, d];
    Run3(Utf8Step(q, a), b, c, d);
  }

  lemma EncodedRuneIsValid(r: int)
    requires Scalar(r)
    ensures ValidUtf8(EncodeRune(r))
  {
    var s := EncodeRune(r);
    if r < 0x80 {
      assert s[1..] == [];
    } else if r < 0x800 {
      Run2(Start, s[0], s[1]);
    } else if r < 0x10000 {
      ThreeBytes(r);
    } else {
      FourBytes(r);
    }
  }

  lemma ThreeBytes(r: int)
    requires Scalar(r) && 0x800 <= r < 0x10000
    ensures ValidUtf8(EncodeRune(r))
  {
    var s := EncodeRune(r);
    var (a, b, c) := (r / 0x1000, r / 0x40 % 0x40, r % 0x40);
    assert r == a * 0x1000 + b * 0x40 + c;
    Run3(Start, s[0], s[1], s[2]);
  }

  lemma FourBytes(r: int)
    requires Scalar(r) && 0x10000 <= r
    ensures ValidUtf8(EncodeRune(r))
  {
    var s := EncodeRune(r);
    var (a, b) := (r / 0x40000, r / 0x1000 % 0x40);
    assert r / 0x1000 == a * 0x40 + b;
    assert 0x10 <= r / 0x1000 < 0x110;
    Run4(Start, s[0], s[1], s[2], s[3]);
  }

  function RuneLength(lead: Byte): nat {
    if lead < 0x80 then 1 else if lead < 0xE0 then 2 else if lead < 0xF0 then 3 else 4
  }

  function FirstRune(s: Bytes): int
    requires s != [] && RuneLength(s[0]) <= |s|
  {
    var a: int := s[0];
    if a < 0x80 then a
    else
      var b: int := s[1];
      if a < 0xE0 then (a - 0xC0) * 0x40 + (b - 0x80)
      else
        var c: int := s[2];
        if a < 0xF0 then (a - 0xE0) * 0x1000 + (b - 0x80) * 0x40 + (c - 0x80)
        else
          var d: int := s[3];
          (a - 0xF0) * 0x40000 + (b - 0x80) * 0x1000 + (c - 0x80) * 0x40 + (d - 0x80)
  }

  lemma {:induction false} NeedReads(count: nat, low: int, high: int, s: Bytes)
    requires 1 <= count && 0x80 <= low && Utf8Run(Need(count, low, high), s) == Start
    ensures s != [] && low <= s[0] <= high
    ensures Utf8Run(if count == 1 then Start else Need(count - 1, 0x80, 0xBF), s[1..]) == Start
  {
    if s != [] { BadStays(s[1..]); }
  }

  /** A valid nonempty text starts with one well-formed character, and the rest is valid. */
  lemma FirstCharacter(s: Text)
    requires s != []
    ensures RuneLength(s[0]) <= |s| && Scalar(FirstRune(s))
    ensures ValidUtf8(s[RuneLength(s[0])..])
    ensures EncodeRune(FirstRune(s)) == s[..RuneLength(s[0])]
  {
    BadStays(s[1..]);
    var b := s[0];
    if b >= 0x80 {
      var q := Utf8Step(Start, b);
      NeedReads(q.count, q.low, q.high, s[1..]);
      if b < 0xE0 {
        TwoByteCharacter(s);
      } else {
        assert s[1..][1..] == s[2..];
        NeedReads(q.count - 1, 0x80, 0xBF, s[2..]);
        if b < 0xF0 {
          ThreeByteCharacter(s);
        } else {
          assert s[2..][1..] == s[3..];
          NeedReads(1, 0x80, 0xBF, s[3..]);
          FourByteCharacter(s);
        }
      }
    }
  }

  predicate Continues(b: Byte) { 0x80 <= b <= 0xBF }

  lemma TwoByteCharacter(s: Bytes)
    requires 2 <= |s| && 0xC2 <= s[0] < 0xE0 && Continues(s[1])
    ensures Scalar(FirstRune(s)) && EncodeRune(FirstRune(s)) == s[..2]
  {
    var r := FirstRune(s);
    assert r / 0x40 == s[0] - 0xC0 && r % 0x40 == s[1] - 0x80;
    assert s[..2] == [s[0], s[1]];
  }

  lemma ThreeByteCharacter(s: Bytes)
    requires 3 <= |s| && 0xE0 <= s[0] < 0xF0 && Continues(s[1]) && Continues(s[2])
    requires (s[0] == 0xE0 ==> s[1] >= 0xA0) && (s[0] == 0xED ==> s[1] <= 0x9F)
    ensures Scalar(FirstRune(s)) && EncodeRune(FirstRune(s)) == s[..3]
  {
    ThreeDigits(s[0] - 0xE0, s[1] - 0x80, s[2] - 0x80, FirstRune(s));
    assert s[..3] == [s[0], s[1], s[2]];
  }

  lemma FourByteCharacter(s: Bytes)
    requires 4 <= |s| && 0xF0 <= s[0] <= 0xF4 && Continues(s[1]) && Continues(s[2]) && Continues(s[3])
    requires (s[0] == 0xF0 ==> s[1] >= 0x90) && (s[0] == 0xF4 ==> s[1] <= 0x8F)
    ensures Scalar(FirstRune(s)) && EncodeRune(FirstRune(s)) == s[..4]
  {
    FourDigits(s[0] - 0xF0, s[1] - 0x80, s[2] - 0x80, s[3] - 0x80, FirstRune(s));
    assert s[..4] == [s[0], s[1], s[2], s[3]];
  }

  lemma ThreeDigits(x: int, y: int, z: int, r: int)
    requires 0 <= x && 0 <= y < 0x40 && 0 <= z < 0x40 && r == x * 0x1000 + y * 0x40 + z
    ensures r / 0x1000 == x && r / 0x40 % 0x40 == y && r % 0x40 == z
  {
    assert r / 0x40 == x * 0x40 + y;
  }

  lemma FourDigits(w: int, x: int, y: int, z: int, r: int)
    requires 0 <= w && 0 <= x < 0x40 && 0 <= y < 0x40 && 0 <= z < 0x40
    requires r == w * 0x40000 + x * 0x1000 + y * 0x40 + z
    ensures r / 0x40000 == w && r / 0x1000 % 0x40 == x && r / 0x40 % 0x40 == y && r % 0x40 == z
  {
    var g := w * 0x40 + x;
    ThreeDigits(g, y, z, r);
    assert g / 0x40 == w && g % 0x40 == x;
    assert r / 0x40000 == g / 0x40;
  }

  /** The code points of a text, as []rune(text) yields them. */
  function Runes(s: Text): (r: seq<int>)
    ensures forall i :: 0 <= i < |r| ==> Scalar(r[i])
    decreases |s|
  {
    if s == [] then []
    else
      FirstCharacter(s);
      [FirstRune(s)] + Runes(s[RuneLength(s[0])..])
  }

  /** A text is determined by its code points. */
  lemma {:induction false} RunesInjective(s: Text, t: Text)
    requires Runes(s) == Runes(t)
    ensures s == t
    decreases |s|
  {
    if s == [] || t == [] {
      if s != [] { FirstCharacter(s); }
      if t != [] { FirstCharacter(t); }
    } else {
      FirstCharacter(s);
      FirstCharacter(t);
      var (m, n) := (RuneLength(s[0]), RuneLength(t[0]));
      assert Runes(s)[0] == FirstRune(s) && Runes(t)[0] == FirstRune(t);
      assert Runes(s)[1..] == Runes(s[m..]) && Runes(t)[1..] == Runes(t[n..]);
      assert s[..m] == t[..n];
      assert m == n;
      RunesInjective(s[m..], t[n..]);
      assert s == s[..m] + s[m..] && t == t[..n] + t[n..];
    }
  }

  /** Characters one after the other. */
  function EncodeAll(runes: seq<int>): Bytes
    requires forall i :: 0 <= i < |runes| ==> Scalar(runes[i])
  {
    if runes == [] then [] else EncodeRune(runes[0]) + EncodeAll(runes[1..])
  }

  lemma {:induction false} EncodedAreValid(runes: seq<int>)
    requires forall i :: 0 <= i < |runes| ==> Scalar(runes[i])
    ensures ValidUtf8(EncodeAll(runes))
  {
    if runes != [] {
      EncodedRuneIsValid(runes[0]);
      EncodedAreValid(runes[1..]);
      ValidConcat(EncodeRune(runes[0]), EncodeAll(runes[1..]));
    }
  }

  lemma RunesStep(s: Text, n: nat)
    requires s != [] && n == RuneLength(s[0])
    ensures n <= |s| && ValidUtf8(s[n..]) && Scalar(FirstRune(s)) && EncodeRune(FirstRune(s)) + s[n..] == s
    ensures Runes(s) == [FirstRune(s)] + Runes(s[n..])
  {
    FirstCharacter(s);
    assert s[..n] + s[n..] == s;
  }

  lemma EncodeFirst(r: int, runes: seq<int>)
    requires Scalar(r) && forall i :: 0 <= i < |runes| ==> Scalar(runes[i])
    ensures EncodeAll([r] + runes) == EncodeRune(r) + EncodeAll(runes)
  {
    assert ([r] + runes)[1..] == runes;
  }

  lemma {:induction false} RunesEncode(s: Text)
    ensures EncodeAll(Runes(s)) == s
    decreases |s|
  {
    if s != [] {
      var n := RuneLength(s[0]);
      RunesStep(s, n);
      RunesEncode(s[n..]);
      EncodeFirst(FirstRune(s), Runes(s[n..]));
    }
  }

  ghost predicate EncodesScalars(s: Bytes, runes: seq<int>) {
    (forall i :: 0 <= i < |runes| ==> Scalar(runes[i])) && EncodeAll(runes) == s
  }

  /** Valid bytes are exactly the encodings of scalar values, one after the other; surrogates and longer encodings are not among them. */
  lemma ValidIffEncoded(s: Bytes)
    ensures ValidUtf8(s) <==> exists runes :: EncodesScalars(s, runes)
  {
    if ValidUtf8(s) {
      RunesEncode(s);
      assert EncodesScalars(s, Runes(s));
    }
    if runes :| EncodesScalars(s, runes) { EncodedAreValid(runes); }
  }
}
