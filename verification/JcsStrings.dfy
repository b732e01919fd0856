/** JSON string literals: how they are read, how they are printed, and the surrogate scanner. */
module JcsStrings {
  import opened Prelude
  import opened JcsUtf8

  const QUOTE: Byte := 0x22
  const BACKSLASH: Byte := 0x5C
  const LETTER_U: Byte := 0x75
  const REPLACEMENT: int := 0xFFFD

  function HexDigit(b: Byte): (r: Option<int>)
    ensures r.Some? ==> 0 <= r.value <= 15
  {
    if 0x30 <= b <= 0x39 then Some(b as int - 0x30)
    else if 0x61 <= b <= 0x66 then Some(b as int - 0x61 + 10)
    else if 0x41 <= b <= 0x46 then Some(b as int - 0x41 + 10)
    else None
  }

  function FourHex(s: Bytes): (r: Option<int>)
    ensures r.Some? ==> 0 <= r.value <= 0xFFFF
  {
    if |s| != 4 || HexDigit(s[0]).None? || HexDigit(s[1]).None? || HexDigit(s[2]).None? || HexDigit(s[3]).None? then None
    else Some(HexDigit(s[0]).value * 0x1000 + HexDigit(s[1]).value * 0x100 + HexDigit(s[2]).value * 0x10 + HexDigit(s[3]).value)
  }

  predicate High(v: int) { 0xD800 <= v <= 0xDBFF }
  predicate Low(v: int) { 0xDC00 <= v <= 0xDFFF }

  /** The two-character escapes; the solidus is read but never printed. */
  function SimpleEscape(b: Byte): Option<Byte> {
    if b == 0x22 || b == 0x5C || b == 0x2F then Some(b)
    else if b == 0x62 then Some(0x08)
    else if b == 0x66 then Some(0x0C)
    else if b == 0x6E then Some(0x0A)
    else if b == 0x72 then Some(0x0D)
    else if b == 0x74 then Some(0x09)
    else None
  }

  /** A \u escape at the head of s: its code unit. */
  function EscapedUnit(s: Bytes): Option<int> {
    if |s| >= 6 && s[0] == BACKSLASH && s[1] == LETTER_U then FourHex(s[2..6]) else None
  }

  /**
   One \u escape or surrogate pair at the head of s: the character and its length.  A reader that
   is not strict puts U+FFFD for a lone surrogate, as encoding/json does.
   */
  function EscapedRune(strict: bool, s: Bytes): (r: Option<(int, nat)>)
    ensures r.Some? ==> Scalar(r.value.0) && (r.value.1 == 6 || r.value.1 == 12) && r.value.1 <= |s|
  {
    match EscapedUnit(s)
    case None => None
    case Some(v) =>
      if High(v) && EscapedUnit(s[6..]).Some? && Low(EscapedUnit(s[6..]).value) then
        Some((0x10000 + (v - 0xD800) * 0x400 + (EscapedUnit(s[6..]).value - 0xDC00), 12))
      else if High(v) || Low(v) then
        if strict then None else Some((REPLACEMENT, 6))
      else Some((v, 6))
  }

  /** Reads up to the closing quote: the contents and what follows it. */
  function Unquote(strict: bool, q: Utf8State, s: Bytes): (r: Option<(Bytes, Bytes)>)
    requires Utf8Run(q, s) == Start
    ensures r.Some? ==> |r.value.1| < |s| && ValidUtf8(r.value.1) && Utf8Run(q, r.value.0) == Start
    decreases |s|
  {
    if s == [] then None
    else if s[0] == QUOTE then
      AsciiSplits(q, s);
      Some(([], s[1..]))
    else if s[0] == BACKSLASH then
      AsciiSplits(q, s);
      if |s| >= 2 && SimpleEscape(s[1]).Some? then
        AsciiSplits(Start, s[1..]);
        assert s[1..][1..] == s[2..];
        var x := SimpleEscape(s[1]).value;
        match Unquote(strict, Start, s[2..])
        case None => None
        case Some((content, rest)) =>
          OneByte(x, content);
          Some(([x] + content, rest))
      else
        match EscapedRune(strict, s)
        case None => None
        case Some((rune, length)) =>
          EscapeIsAscii(strict, s);
          match Unquote(strict, Start, s[length..])
          case None => None
          case Some((content, rest)) =>
            EncodedRuneIsValid(rune);
            ValidConcat(EncodeRune(rune), content);
            Some((EncodeRune(rune) + content, rest))
    else if s[0] < 0x20 then None
    else
      match Unquote(strict, Utf8Step(q, s[0]), s[1..])
      case None => None
      case Some((content, rest)) =>
        assert ([s[0]] + content)[1..] == content;
        Some(([s[0]] + content, rest))
  }

  /** What follows an escape is valid UTF-8 when the escape and what follows it are. */
  lemma EscapeIsAscii(strict: bool, s: Bytes)
    requires ValidUtf8(s) && EscapedRune(strict, s).Some?
    ensures ValidUtf8(s[EscapedRune(strict, s).value.1..])
  {
    UnitIsAscii(s);
    if EscapedRune(strict, s).value.1 == 12 {
      UnitIsAscii(s[6..]);
      assert s[6..][6..] == s[12..];
    }
  }

  lemma UnitIsAscii(s: Bytes)
    requires ValidUtf8(s) && EscapedUnit(s).Some?
    ensures ValidUtf8(s[6..])
  {
    assert s[2..6][0] == s[2] && s[2..6][1] == s[3] && s[2..6][2] == s[4] && s[2..6][3] == s[5];
    SplitTwo(s);
    SplitTwo(s[2..]);
    assert s[2..][2..] == s[4..];
    SplitTwo(s[4..]);
    assert s[4..][2..] == s[6..];
  }

  lemma SplitTwo(s: Bytes)
    requires ValidUtf8(s) && |s| >= 2 && s[0] < 0x80 && s[1] < 0x80
    ensures ValidUtf8(s[2..])
  {
    AsciiSplits(Start, s);
    AsciiSplits(Start, s[1..]);
    assert s[1..][1..] == s[2..];
  }

  // ----- printing -----

  function HexByte(d: int): Byte
    requires 0 <= d < 16
  {
    if d < 10 then 0x30 + d else 0x61 + (d - 10)
  }

  /** The bytes one content byte is printed as. */
  function EscapeByte(b: Byte): (r: Bytes)
    ensures r != []
  {
    if b == QUOTE || b == BACKSLASH then [BACKSLASH, b]
    else if b == 0x08 then [BACKSLASH, 0x62]
    else if b == 0x09 then [BACKSLASH, 0x74]
    else if b == 0x0A then [BACKSLASH, 0x6E]
    else if b == 0x0C then [BACKSLASH, 0x66]
    else if b == 0x0D then [BACKSLASH, 0x72]
    else if b < 0x20 then [BACKSLASH, LETTER_U, 0x30, 0x30, HexByte(b / 16), HexByte(b % 16)]
    else [b]
  }

  function Escape(s: Bytes): Bytes {
    if s == [] then [] else EscapeByte(s[0]) + Escape(s[1..])
  }

  function Quoted(s: Bytes): Bytes { [QUOTE] + Escape(s) + [QUOTE] }

  // ----- how a string can be spelled -----

  /**
   One character of a string literal (section 7 of RFC 8259): written as itself, with a two-character
   escape, or with one or two \u escapes whose digits may be capitals.
   */
  datatype Glyph = Char(r: int) | Short(b: Byte) | Unit(v: int, caps: seq<bool>) | Pair(r: int, caps: seq<bool>)

  type Piece = p: Glyph | GoodPiece(p) witness Char(0x20)

  const LOWER: Bytes := [0x30, 0x31, 0x32, 0x33, 0x34, 0x35, 0x36, 0x37, 0x38, 0x39, 0x61, 0x62, 0x63, 0x64, 0x65, 0x66]
  const UPPER: Bytes := [0x30, 0x31, 0x32, 0x33, 0x34, 0x35, 0x36, 0x37, 0x38, 0x39, 0x41, 0x42, 0x43, 0x44, 0x45, 0x46]

  /** The letter that stands for a byte after a backslash. */
  function Letter(b: Byte): Option<Byte> {
    match b
    case 0x22 => Some(0x22)
    case 0x5C => Some(0x5C)
    case 0x2F => Some(0x2F)
    case 0x08 => Some(0x62)
    case 0x0C => Some(0x66)
    case 0x0A => Some(0x6E)
    case 0x0D => Some(0x72)
    case 0x09 => Some(0x74)
    case _ => None
  }

  function HexAs(d: int, cap: bool): Byte
    requires 0 <= d < 16
  {
    if cap then UPPER[d] else LOWER[d]
  }

  /** An escaped code unit. */
  function SpellUnit(v: int, caps: seq<bool>): Bytes
    requires 0 <= v < 0x10000 && |caps| == 4
  {
    [BACKSLASH, LETTER_U, HexAs(v / 0x1000, caps[0]), HexAs(v / 0x100 % 16, caps[1]), HexAs(v / 0x10 % 16, caps[2]), HexAs(v % 16, caps[3])]
  }

  predicate GoodPiece(p: Glyph) {
    match p
    case Char(r) => Scalar(r) && r >= 0x20 && r != QUOTE as int && r != BACKSLASH as int
    case Short(b) => Letter(b).Some?
    case Unit(v, caps) => 0 <= v < 0x10000 && Scalar(v) && |caps| == 4
    case Pair(r, caps) => 0x10000 <= r < 0x110000 && |caps| == 8
  }

  function HighOf(r: int): int { 0xD800 + (r - 0x10000) / 0x400 }
  function LowOf(r: int): int { 0xDC00 + (r - 0x10000) % 0x400 }

  function Spell(p: Piece): (s: Bytes)
    ensures s != []
  {
    match p
    case Char(r) => EncodeRune(r)
    case Short(b) => [BACKSLASH, Letter(b).value]
    case Unit(v, caps) => SpellUnit(v, caps)
    case Pair(r, caps) => SpellUnit(HighOf(r), caps[..4]) + SpellUnit(LowOf(r), caps[4..])
  }

  lemma LetterIsAscii(b: Byte)
    requires Letter(b).Some?
    ensures ValidUtf8([b])
  {
    assert [b][1..] == [];
  }

  function Meant(p: Piece): Text
  {
    match p
    case Char(r) => EncodedRuneIsValid(r); EncodeRune(r)
    case Short(b) => LetterIsAscii(b); [b]
    case Unit(v, _) => EncodedRuneIsValid(v); EncodeRune(v)
    case Pair(r, _) => EncodedRuneIsValid(r); EncodeRune(r)
  }

  function SpellAll(ps: seq<Piece>): Bytes
  {
    if ps == [] then [] else Spell(ps[0]) + SpellAll(ps[1..])
  }

  function MeantAll(ps: seq<Piece>): Text
  {
    if ps == [] then []
    else
      ValidConcat(Meant(ps[0]), MeantAll(ps[1..]));
      Meant(ps[0]) + MeantAll(ps[1..])
  }

  /** Unquote of a longer string, put together from Unquote of its tail. */
  function WithHead(head: Bytes, r: Option<(Bytes, Bytes)>): Option<(Bytes, Bytes)> {
    if r.None? then None else Some((head + r.value.0, r.value.1))
  }

  lemma DigitReads(d: int, cap: bool)
    requires 0 <= d < 16
    ensures HexDigit(HexAs(d, cap)) == Some(d) && HexAs(d, cap) < 0x80 && HexAs(d, cap) != QUOTE
  {
  }

  lemma UnitReads(v: int, caps: seq<bool>, tail: Bytes)
    requires 0 <= v < 0x10000 && |caps| == 4
    ensures var s := SpellUnit(v, caps) + tail; EscapedUnit(s) == Some(v) && s[6..] == tail
  {
    var e := SpellUnit(v, caps);
    var (a, b, c, d) := (v / 0x1000, v / 0x100 % 16, v / 0x10 % 16, v % 16);
    DigitReads(a, caps[0]);
    DigitReads(b, caps[1]);
    DigitReads(c, caps[2]);
    DigitReads(d, caps[3]);
    FourHexIs([e[2], e[3], e[4], e[5]], a, b, c, d);
    DigitsMakeUnit(v);
    UnitAt(e, tail);
  }

  lemma UnitAt(e: Bytes, tail: Bytes)
    requires |e| == 6 && e[0] == BACKSLASH && e[1] == LETTER_U
    ensures EscapedUnit(e + tail) == FourHex([e[2], e[3], e[4], e[5]]) && (e + tail)[6..] == tail
  {
    assert (e + tail)[2..6] == [e[2], e[3], e[4], e[5]];
  }

  lemma FourHexIs(s: Bytes, a: int, b: int, c: int, d: int)
    requires |s| == 4 && HexDigit(s[0]) == Some(a) && HexDigit(s[1]) == Some(b) && HexDigit(s[2]) == Some(c) && HexDigit(s[3]) == Some(d)
    ensures FourHex(s) == Some(a * 0x1000 + b * 0x100 + c * 0x10 + d)
  {
  }

  lemma DigitsMakeUnit(v: int)
    requires 0 <= v < 0x10000
    ensures v == v / 0x1000 * 0x1000 + v / 0x100 % 16 * 0x100 + v / 0x10 % 16 * 0x10 + v % 16
  {
    var (x, y) := (v / 0x10, v / 0x100);
    assert x / 0x10 == y && y / 0x10 == v / 0x1000;
  }

  lemma SpelledUnitIsValid(v: int, caps: seq<bool>)
    requires 0 <= v < 0x10000 && |caps| == 4
    ensures ValidUtf8(SpellUnit(v, caps))
  {
    var e := SpellUnit(v, caps);
    DigitReads(v / 0x1000, caps[0]);
    DigitReads(v / 0x100 % 16, caps[1]);
    DigitReads(v / 0x10 % 16, caps[2]);
    DigitReads(v % 16, caps[3]);
    Run2(Start, e[0], e[1]);
    Run4(Start, e[2], e[3], e[4], e[5]);
    RunConcat(Start, [e[0], e[1]], [e[2], e[3], e[4], e[5]]);
    assert e == [e[0], e[1]] + [e[2], e[3], e[4], e[5]];
  }

  lemma SpelledIsValid(p: Piece)
    ensures ValidUtf8(Spell(p))
  {
    match p
    case Char(r) => EncodedRuneIsValid(r);
    case Short(b) => Run2(Start, BACKSLASH, Letter(b).value);
    case Unit(v, caps) => SpelledUnitIsValid(v, caps);
    case Pair(r, caps) =>
      SpelledUnitIsValid(HighOf(r), caps[..4]);
      SpelledUnitIsValid(LowOf(r), caps[4..]);
      ValidConcat(SpellUnit(HighOf(r), caps[..4]), SpellUnit(LowOf(r), caps[4..]));
  }

  lemma {:induction false} SpelledAllIsValid(ps: seq<Piece>)
    ensures ValidUtf8(SpellAll(ps))
  {
    if ps != [] {
      SpelledIsValid(ps[0]);
      SpelledAllIsValid(ps[1..]);
      ValidConcat(Spell(ps[0]), SpellAll(ps[1..]));
    }
  }

  // ----- a spelled string is read as what it means -----

  lemma PlainByte(strict: bool, q: Utf8State, b: Byte, tail: Bytes)
    requires b >= 0x20 && b != QUOTE && b != BACKSLASH && Utf8Run(q, [b] + tail) == Start
    ensures Utf8Run(Utf8Step(q, b), tail) == Start
    ensures Unquote(strict, q, [b] + tail) == WithHead([b], Unquote(strict, Utf8Step(q, b), tail))
  {
    assert ([b] + tail)[1..] == tail;
  }

  lemma {:induction false} PlainBytes(strict: bool, q: Utf8State, head: Bytes, tail: Bytes)
    requires Utf8Run(q, head + tail) == Start
    requires forall i :: 0 <= i < |head| ==> head[i] >= 0x20 && head[i] != QUOTE && head[i] != BACKSLASH
    ensures Utf8Run(Utf8Run(q, head), tail) == Start
    ensures Unquote(strict, q, head + tail) == WithHead(head, Unquote(strict, Utf8Run(q, head), tail))
    decreases |head|
  {
    if head == [] {
      assert head + tail == tail;
      if Unquote(strict, q, tail).Some? { assert [] + Unquote(strict, q, tail).value.0 == Unquote(strict, q, tail).value.0; }
    } else {
      assert head + tail == [head[0]] + (head[1..] + tail);
      PlainByte(strict, q, head[0], head[1..] + tail);
      PlainBytes(strict, Utf8Step(q, head[0]), head[1..], tail);
      HeadsJoin(head, Unquote(strict, Utf8Run(q, head), tail));
    }
  }

  lemma HeadsJoin(head: Bytes, r: Option<(Bytes, Bytes)>)
    requires head != []
    ensures WithHead([head[0]], WithHead(head[1..], r)) == WithHead(head, r)
  {
    if r.Some? { assert [head[0]] + (head[1..] + r.value.0) == head + r.value.0; }
  }

  lemma CharIsPlain(r: int)
    requires GoodPiece(Char(r))
    ensures forall i :: 0 <= i < |EncodeRune(r)| ==> EncodeRune(r)[i] >= 0x20 && EncodeRune(r)[i] != QUOTE && EncodeRune(r)[i] != BACKSLASH
  {
  }

  lemma ReadChar(strict: bool, r: int, tail: Bytes)
    requires GoodPiece(Char(r)) && ValidUtf8(tail)
    ensures ValidUtf8(EncodeRune(r) + tail)
    ensures Unquote(strict, Start, EncodeRune(r) + tail) == WithHead(EncodeRune(r), Unquote(strict, Start, tail))
  {
    EncodedRuneIsValid(r);
    ValidConcat(EncodeRune(r), tail);
    CharIsPlain(r);
    PlainBytes(strict, Start, EncodeRune(r), tail);
  }

  lemma LetterReads(b: Byte)
    requires Letter(b).Some?
    ensures SimpleEscape(Letter(b).value) == Some(b) && Letter(b).value < 0x80
  {
  }

  lemma ReadShort(strict: bool, b: Byte, tail: Bytes)
    requires Letter(b).Some? && ValidUtf8(tail)
    ensures ValidUtf8([BACKSLASH, Letter(b).value] + tail)
    ensures Unquote(strict, Start, [BACKSLASH, Letter(b).value] + tail) == WithHead([b], Unquote(strict, Start, tail))
  {
    LetterReads(b);
    SpelledIsValid(Short(b));
    ValidConcat([BACKSLASH, Letter(b).value], tail);
    var s := [BACKSLASH, Letter(b).value] + tail;
    assert s[2..] == tail && s[0] == BACKSLASH && s[1] == Letter(b).value;
  }

  lemma LetterUIsNoLetter()
    ensures SimpleEscape(LETTER_U).None?
  {
  }

  /** An escape that EscapedRune reads is one character of the string. */
  lemma ReadEscape(strict: bool, s: Bytes, r: int, n: nat, tail: Bytes)
    requires ValidUtf8(s) && Scalar(r) && EscapedRune(strict, s) == Some((r, n)) && s[n..] == tail && ValidUtf8(tail)
    ensures Unquote(strict, Start, s) == WithHead(EncodeRune(r), Unquote(strict, Start, tail))
  {
    LetterUIsNoLetter();
    assert s[0] == BACKSLASH && s[1] == LETTER_U;
  }

  lemma ReadUnit(strict: bool, v: int, caps: seq<bool>, tail: Bytes)
    requires GoodPiece(Unit(v, caps)) && ValidUtf8(tail)
    ensures ValidUtf8(SpellUnit(v, caps) + tail)
    ensures Unquote(strict, Start, SpellUnit(v, caps) + tail) == WithHead(EncodeRune(v), Unquote(strict, Start, tail))
  {
    SpelledUnitIsValid(v, caps);
    ValidConcat(SpellUnit(v, caps), tail);
    UnitReads(v, caps, tail);
    ReadEscape(strict, SpellUnit(v, caps) + tail, v, 6, tail);
  }

  lemma PairReads(strict: bool, r: int, h: Bytes, l: Bytes, tail: Bytes)
    requires 0x10000 <= r < 0x110000 && |h| == 6 && |l| == 6
    requires EscapedUnit(h + (l + tail)) == Some(HighOf(r)) && EscapedUnit(l + tail) == Some(LowOf(r))
    ensures EscapedRune(strict, h + l + tail) == Some((r, 12)) && (h + l + tail)[12..] == tail
  {
    PairMakesRune(r);
    PairAt(strict, h, l, tail, HighOf(r), LowOf(r));
  }

  lemma PairAt(strict: bool, h: Bytes, l: Bytes, tail: Bytes, high: int, low: int)
    requires |h| == 6 && |l| == 6 && High(high) && Low(low)
    requires EscapedUnit(h + (l + tail)) == Some(high) && EscapedUnit(l + tail) == Some(low)
    ensures EscapedRune(strict, h + l + tail) == Some((0x10000 + (high - 0xD800) * 0x400 + (low - 0xDC00), 12))
    ensures (h + l + tail)[12..] == tail
  {
    assert h + l + tail == h + (l + tail);
    assert (h + (l + tail))[6..] == l + tail;
    EscapedPair(strict, h + l + tail, high, low);
  }

  lemma PairMakesRune(r: int)
    requires 0x10000 <= r < 0x110000
    ensures High(HighOf(r)) && Low(LowOf(r)) && 0x10000 + (HighOf(r) - 0xD800) * 0x400 + (LowOf(r) - 0xDC00) == r
  {
  }

  lemma EscapedPair(strict: bool, s: Bytes, h: int, l: int)
    requires EscapedUnit(s) == Some(h) && EscapedUnit(s[6..]) == Some(l) && High(h) && Low(l)
    ensures EscapedRune(strict, s) == Some((0x10000 + (h - 0xD800) * 0x400 + (l - 0xDC00), 12))
  {
  }

  lemma ReadPair(strict: bool, r: int, caps: seq<bool>, tail: Bytes)
    requires GoodPiece(Pair(r, caps)) && ValidUtf8(tail)
    ensures ValidUtf8(Spell(Pair(r, caps)) + tail)
    ensures Unquote(strict, Start, Spell(Pair(r, caps)) + tail) == WithHead(EncodeRune(r), Unquote(strict, Start, tail))
  {
    SpelledIsValid(Pair(r, caps));
    ValidConcat(Spell(Pair(r, caps)), tail);
    var (h, l) := (SpellUnit(HighOf(r), caps[..4]), SpellUnit(LowOf(r), caps[4..]));
    UnitReads(HighOf(r), caps[..4], l + tail);
    UnitReads(LowOf(r), caps[4..], tail);
    PairReads(strict, r, h, l, tail);
    ReadEscape(strict, Spell(Pair(r, caps)) + tail, r, 12, tail);
  }

  lemma ReadPiece(strict: bool, p: Piece, tail: Bytes)
    requires ValidUtf8(tail)
    ensures ValidUtf8(Spell(p) + tail)
    ensures Unquote(strict, Start, Spell(p) + tail) == WithHead(Meant(p), Unquote(strict, Start, tail))
  {
    match p
    case Char(r) => ReadChar(strict, r, tail);
    case Short(b) => ReadShort(strict, b, tail);
    case Unit(v, caps) => ReadUnit(strict, v, caps, tail);
    case Pair(r, caps) => ReadPair(strict, r, caps, tail);
  }

  /** However a string is spelled, it is read as what it means, up to its closing quote. */
  lemma {:induction false} UnquoteSpelled(strict: bool, ps: seq<Piece>, rest: Bytes)
    requires ValidUtf8(rest)
    ensures ValidUtf8(SpellAll(ps) + [QUOTE] + rest)
    ensures Unquote(strict, Start, SpellAll(ps) + [QUOTE] + rest) == Some((MeantAll(ps), rest))
    decreases |ps|
  {
    if ps == [] {
      ReadQuote(strict, rest);
    } else {
      UnquoteSpelled(strict, ps[1..], rest);
      UnquoteMore(strict, ps[0], ps[1..], rest);
      assert [ps[0]] + ps[1..] == ps;
    }
  }

  lemma UnquoteMore(strict: bool, p: Piece, ps: seq<Piece>, rest: Bytes)
    requires ValidUtf8(rest) && ValidUtf8(SpellAll(ps) + [QUOTE] + rest)
    requires Unquote(strict, Start, SpellAll(ps) + [QUOTE] + rest) == Some((MeantAll(ps), rest))
    ensures ValidUtf8(SpellAll([p] + ps) + [QUOTE] + rest)
    ensures Unquote(strict, Start, SpellAll([p] + ps) + [QUOTE] + rest) == Some((MeantAll([p] + ps), rest))
  {
    var tail := SpellAll(ps) + [QUOTE] + rest;
    ReadPiece(strict, p, tail);
    OnePieceMore(p, ps);
    SpelledMore(p, ps, tail, rest);
  }

  lemma ReadQuote(strict: bool, rest: Bytes)
    requires ValidUtf8(rest)
    ensures ValidUtf8([] + [QUOTE] + rest) && Unquote(strict, Start, [] + [QUOTE] + rest) == Some(([], rest))
  {
    assert [] + [QUOTE] + rest == [QUOTE] + rest;
    OneByte(QUOTE, rest);
    assert ([QUOTE] + rest)[1..] == rest;
  }

  // ----- what is read was spelled -----

  lemma DigitWasSpelled(b: Byte) returns (cap: bool)
    requires HexDigit(b).Some?
    ensures HexAs(HexDigit(b).value, cap) == b
  {
    cap := b < 0x61;
  }

  lemma UnitWasSpelled(s: Bytes) returns (caps: seq<bool>)
    requires EscapedUnit(s).Some?
    ensures |caps| == 4 && 0 <= EscapedUnit(s).value < 0x10000 && s[..6] == SpellUnit(EscapedUnit(s).value, caps)
  {
    var d := s[2..6];
    var c0 := DigitWasSpelled(d[0]);
    var c1 := DigitWasSpelled(d[1]);
    var c2 := DigitWasSpelled(d[2]);
    var c3 := DigitWasSpelled(d[3]);
    caps := [c0, c1, c2, c3];
    var v := EscapedUnit(s).value;
    FourDigitsOf(HexDigit(d[0]).value, HexDigit(d[1]).value, HexDigit(d[2]).value, HexDigit(d[3]).value, v);
    assert s[..6] == [s[0], s[1], d[0], d[1], d[2], d[3]];
  }

  lemma FourDigitsOf(a: int, b: int, c: int, d: int, v: int)
    requires 0 <= a < 16 && 0 <= b < 16 && 0 <= c < 16 && 0 <= d < 16 && v == a * 0x1000 + b * 0x100 + c * 0x10 + d
    ensures v / 0x1000 == a && v / 0x100 % 16 == b && v / 0x10 % 16 == c && v % 16 == d
  {
    assert v / 0x10 == a * 0x100 + b * 0x10 + c;
    assert v / 0x100 == a * 0x10 + b;
  }

  lemma PairParts(h: int, l: int)
    requires High(h) && Low(l)
    ensures var r := 0x10000 + (h - 0xD800) * 0x400 + (l - 0xDC00); 0x10000 <= r < 0x110000 && HighOf(r) == h && LowOf(r) == l
  {
  }

  lemma EscapeWasSpelled(s: Bytes) returns (p: Piece)
    requires EscapedRune(true, s).Some?
    ensures Spell(p) == s[..EscapedRune(true, s).value.1] && Meant(p) == EncodeRune(EscapedRune(true, s).value.0)
  {
    var v := EscapedUnit(s).value;
    var caps := UnitWasSpelled(s);
    if High(v) {
      var more := UnitWasSpelled(s[6..]);
      var l := EscapedUnit(s[6..]).value;
      PairParts(v, l);
      p := Pair(EscapedRune(true, s).value.0, caps + more);
      PairWasSpelled(p.r, v, l, caps, more);
      assert s[..12] == s[..6] + s[6..][..6];
    } else {
      p := Unit(v, caps);
    }
  }

  lemma PairWasSpelled(r: int, h: int, l: int, caps: seq<bool>, more: seq<bool>)
    requires 0x10000 <= r < 0x110000 && HighOf(r) == h && LowOf(r) == l && |caps| == 4 && |more| == 4
    requires High(h) && Low(l)
    ensures Spell(Pair(r, caps + more)) == SpellUnit(h, caps) + SpellUnit(l, more)
  {
    assert (caps + more)[..4] == caps && (caps + more)[4..] == more;
  }

  lemma LetterWasSpelled(b: Byte)
    requires SimpleEscape(b).Some?
    ensures Letter(SimpleEscape(b).value) == Some(b)
  {
  }

  /** The first character of a string that is read. */
  lemma FirstWasSpelled(s: Bytes) returns (p: Piece)
    requires ValidUtf8(s) && s != [] && s[0] != QUOTE && Unquote(true, Start, s).Some?
    ensures |Spell(p)| <= |s| && Spell(p) == s[..|Spell(p)|] && ValidUtf8(s[|Spell(p)|..])
  {
    if s[0] == BACKSLASH {
      AsciiSplits(Start, s);
      if |s| >= 2 && SimpleEscape(s[1]).Some? {
        LetterWasSpelled(s[1]);
        p := Short(SimpleEscape(s[1]).value);
        assert s[..2] == [s[0], s[1]];
        AsciiSplits(Start, s[1..]);
        assert s[1..][1..] == s[2..];
      } else {
        p := EscapeWasSpelled(s);
        EscapeIsAscii(true, s);
      }
    } else {
      FirstCharacter(s);
      p := Char(FirstRune(s));
      LargeRune(s);
    }
  }

  lemma LargeRune(s: Text)
    requires s != [] && s[0] >= 0x20 && s[0] != QUOTE && s[0] != BACKSLASH && RuneLength(s[0]) <= |s|
    requires Scalar(FirstRune(s)) && EncodeRune(FirstRune(s)) == s[..RuneLength(s[0])]
    ensures GoodPiece(Char(FirstRune(s)))
  {
    assert s[..RuneLength(s[0])][0] == s[0];
  }

  /** Every string that the strict reader takes is the spelling of what it reads. */
  lemma {:induction false} UnquoteWasSpelled(s: Bytes) returns (ps: seq<Piece>)
    requires ValidUtf8(s) && Unquote(true, Start, s).Some?
    ensures MeantAll(ps) == Unquote(true, Start, s).value.0
    ensures s == SpellAll(ps) + [QUOTE] + Unquote(true, Start, s).value.1
    decreases |s|
  {
    if s[0] == QUOTE {
      ps := [];
      assert s == [] + [QUOTE] + s[1..];
    } else {
      var p := FirstWasSpelled(s);
      var tail := s[|Spell(p)|..];
      assert Spell(p) + tail == s;
      ReadPiece(true, p, tail);
      var more := UnquoteWasSpelled(tail);
      OnePieceMore(p, more);
      SpelledMore(p, more, tail, Unquote(true, Start, tail).value.1);
      ps := [p] + more;
    }
  }

  lemma SpelledMore(p: Piece, ps: seq<Piece>, tail: Bytes, rest: Bytes)
    requires tail == SpellAll(ps) + [QUOTE] + rest
    ensures Spell(p) + tail == (Spell(p) + SpellAll(ps)) + [QUOTE] + rest
  {
  }

  // ----- the canonical spelling -----

  /** Section 3.2.2.2 of RFC 8785: the two-character escape if there is one that is needed, else \u00xx in small letters, else itself. */
  function CanonicalPiece(r: int): (p: Piece)
    requires Scalar(r)
  {
    if r < 0x80 && r != 0x2F && Letter(r).Some? then Short(r)
    else if r < 0x20 then Unit(r, [false, false, false, false])
    else Char(r)
  }

  function CanonicalPieces(s: Text): (ps: seq<Piece>)
    decreases |s|
  {
    if s == [] then []
    else
      FirstCharacter(s);
      [CanonicalPiece(FirstRune(s))] + CanonicalPieces(s[RuneLength(s[0])..])
  }

  lemma CanonicalMeans(r: int)
    requires Scalar(r)
    ensures Meant(CanonicalPiece(r)) == EncodeRune(r)
  {
  }

  lemma {:induction false} EscapeConcat(a: Bytes, b: Bytes)
    ensures Escape(a + b) == Escape(a) + Escape(b)
  {
    if a == [] {
      assert a + b == b;
    } else {
      assert (a + b)[1..] == a[1..] + b;
      EscapeConcat(a[1..], b);
    }
  }

  lemma EscapeOfOne(b: Byte)
    ensures Escape([b]) == EscapeByte(b)
  {
    assert [b][1..] == [];
  }

  lemma {:induction false} EscapeOfPlain(s: Bytes)
    requires forall i :: 0 <= i < |s| ==> s[i] >= 0x20 && s[i] != QUOTE && s[i] != BACKSLASH
    ensures Escape(s) == s
  {
    if s != [] {
      EscapeOfPlain(s[1..]);
      assert s == [s[0]] + s[1..];
    }
  }

  lemma ControlIsUnit(r: int)
    requires 0 <= r < 0x20 && Letter(r).None?
    ensures EscapeByte(r) == Spell(Unit(r, [false, false, false, false]))
  {
  }

  lemma EscapeOfRune(r: int)
    requires Scalar(r)
    ensures Escape(EncodeRune(r)) == Spell(CanonicalPiece(r))
  {
    var p := CanonicalPiece(r);
    if p.Char? {
      CharIsPlain(r);
      EscapeOfPlain(EncodeRune(r));
    } else {
      EscapeOfOne(r);
      if p.Unit? { ControlIsUnit(r); }
    }
  }

  /** appendJSONString writes the canonical spelling of its argument. */
  lemma {:induction false} EscapeIsCanonical(s: Text)
    ensures SpellAll(CanonicalPieces(s)) == Escape(s) && MeantAll(CanonicalPieces(s)) == s
    decreases |s|
  {
    if s != [] {
      var r, tail := CanonicalHead(s);
      EscapeIsCanonical(tail);
      CanonicalGrows(r, tail, CanonicalPieces(tail));
    }
  }

  lemma CanonicalHead(s: Text) returns (r: int, tail: Text)
    requires s != []
    ensures Scalar(r) && s == EncodeRune(r) + tail && CanonicalPieces(s) == [CanonicalPiece(r)] + CanonicalPieces(tail)
  {
    FirstCharacter(s);
    r, tail := FirstRune(s), s[RuneLength(s[0])..];
  }

  lemma CanonicalGrows(r: int, tail: Text, ps: seq<Piece>)
    requires Scalar(r) && SpellAll(ps) == Escape(tail) && MeantAll(ps) == tail
    ensures SpellAll([CanonicalPiece(r)] + ps) == Escape(EncodeRune(r) + tail)
    ensures MeantAll([CanonicalPiece(r)] + ps) == EncodeRune(r) + tail
  {
    EscapeOfRune(r);
    CanonicalMeans(r);
    EscapeConcat(EncodeRune(r), tail);
    OnePieceMore(CanonicalPiece(r), ps);
  }

  lemma OnePieceMore(p: Piece, ps: seq<Piece>)
    ensures SpellAll([p] + ps) == Spell(p) + SpellAll(ps) && MeantAll([p] + ps) == Meant(p) + MeantAll(ps)
  {
    assert ([p] + ps)[1..] == ps;
  }

  /** Reading back a printed string gives the string and stops right after its closing quote. */
  lemma UnquoteEscape(strict: bool, s: Text, rest: Bytes)
    requires ValidUtf8(rest)
    ensures ValidUtf8(Escape(s) + [QUOTE] + rest)
    ensures Unquote(strict, Start, Escape(s) + [QUOTE] + rest) == Some((s, rest))
  {
    EscapeIsCanonical(s);
    UnquoteSpelled(strict, CanonicalPieces(s), rest);
  }

  // ----- the surrogate scanner -----

  /** validUnicodeEscapes from inside or outside a string literal. */
  predicate Scan(inString: bool, s: Bytes)
    decreases |s|
  {
    if s == [] then !inString
    else if s[0] == QUOTE then Scan(!inString, s[1..])
    else if s[0] != BACKSLASH || !inString then Scan(inString, s[1..])
    else if |s| < 2 then false
    else if s[1] != LETTER_U then Scan(true, s[2..])
    else if EscapedUnit(s).None? then false
    else
      var v := EscapedUnit(s).value;
      if Low(v) then false
      else if !High(v) then Scan(true, s[6..])
      else EscapedUnit(s[6..]).Some? && Low(EscapedUnit(s[6..]).value) && Scan(true, s[12..])
  }

  lemma EscapeOnePath(s: Bytes)
    requires |s| >= 2 && s[0] == BACKSLASH
    ensures SimpleEscape(s[1]).Some? ==> s[1] != LETTER_U
    ensures EscapedRune(true, s).Some? ==> EscapedRune(false, s) == EscapedRune(true, s)
    ensures Scan(true, s) && EscapedRune(false, s).Some? ==>
      EscapedRune(true, s).Some? && Scan(true, s[EscapedRune(true, s).value.1..])
    ensures EscapedRune(true, s).Some? && Scan(true, s[EscapedRune(true, s).value.1..]) ==> Scan(true, s)
  {
  }

  /**
   Inside a string that the lenient reader accepts, the scanner passes exactly when the strict
   reader accepts the same string and the scanner passes what follows.
   */
  lemma {:induction false} ScanString(q: Utf8State, s: Bytes)
    requires Utf8Run(q, s) == Start && Unquote(false, q, s).Some?
    ensures Unquote(true, q, s).Some? ==> Unquote(true, q, s) == Unquote(false, q, s)
    ensures Scan(true, s) <==> Unquote(true, q, s).Some? && Scan(false, Unquote(false, q, s).value.1)
    decreases |s|
  {
    if s[0] == QUOTE {
    } else if s[0] == BACKSLASH {
      AsciiSplits(q, s);
      if |s| >= 2 && SimpleEscape(s[1]).Some? {
        AsciiSplits(Start, s[1..]);
        assert s[1..][1..] == s[2..];
        ScanString(Start, s[2..]);
      } else {
        EscapeOnePath(s);
        EscapeIsAscii(false, s);
        ScanString(Start, s[EscapedRune(false, s).value.1..]);
      }
    } else {
      ScanString(Utf8Step(q, s[0]), s[1..]);
    }
  }

  /** The strict reader accepts no string the lenient one refuses. */
  lemma {:induction false} StrictIsLenient(q: Utf8State, s: Bytes)
    requires Utf8Run(q, s) == Start && Unquote(true, q, s).Some?
    ensures Unquote(false, q, s) == Unquote(true, q, s)
    decreases |s|
  {
    if s[0] == QUOTE {
    } else if s[0] == BACKSLASH {
      AsciiSplits(q, s);
      if |s| >= 2 && SimpleEscape(s[1]).Some? {
        AsciiSplits(Start, s[1..]);
        assert s[1..][1..] == s[2..];
        StrictIsLenient(Start, s[2..]);
      } else {
        EscapeOnePath(s);
        EscapeIsAscii(true, s);
        StrictIsLenient(Start, s[EscapedRune(true, s).value.1..]);
      }
    } else {
      StrictIsLenient(Utf8Step(q, s[0]), s[1..]);
    }
  }
}
