/** JSON values, documents, and the reader parseValue builds on encoding/json's tokens. */
module JcsTree {
  import opened Prelude
  import opened JcsUtf8
  import opened JcsStrings
  import opened JcsNumbers

  const MAX_DEPTH: nat := 64

  /** What parseValue returns: objects are maps, numbers keep their literal. */
  datatype Json =
    | Null
    | Bool(b: bool)
    | Num(lit: Bytes)
    | Str(text: Text)
    | Arr(elements: seq<Json>)
    | Obj(members: map<Text, Json>)

  /**
   A value as it is written: with its members in order, every string spelled piece by piece, and the
   white space around every value, name and colon.  inner is what stands in an empty array or object.
   */
  datatype Doc =
    | DNull
    | DBool(b: bool)
    | DNum(lit: Bytes)
    | DStr(pieces: seq<Piece>)
    | DArr(elements: seq<Padded>, inner: Bytes)
    | DObj(members: seq<Member>, inner: Bytes)

  datatype Padded = Padded(before: Bytes, doc: Doc, after: Bytes)

  datatype Member = Member(before: Bytes, name: seq<Piece>, gap: Bytes, value: Padded)

  predicate AllSpace(s: Bytes) { forall i :: 0 <= i < |s| ==> IsSpace(s[i]) }

  function SkipSpace(s: Bytes): (r: Bytes)
    requires ValidUtf8(s)
    ensures ValidUtf8(r) && |r| <= |s|
    ensures r != [] ==> !IsSpace(r[0])
  {
    if s != [] && IsSpace(s[0]) then
      AsciiSplits(Start, s);
      SkipSpace(s[1..])
    else s
  }

  const NULL: Bytes := [0x6E, 0x75, 0x6C, 0x6C]
  const TRUE: Bytes := [0x74, 0x72, 0x75, 0x65]
  const FALSE: Bytes := [0x66, 0x61, 0x6C, 0x73, 0x65]
  const COMMA: Byte := 0x2C
  const COLON: Byte := 0x3A
  const OPEN_ARRAY: Byte := 0x5B
  const CLOSE_ARRAY: Byte := 0x5D
  const OPEN_OBJECT: Byte := 0x7B
  const CLOSE_OBJECT: Byte := 0x7D

  /** A scalar token at the head of s, which starts neither an array nor an object. */
  function ParseScalar(strict: bool, s: Bytes): (r: Option<(Json, Bytes)>)
    requires ValidUtf8(s)
    ensures r.Some? ==> |r.value.1| < |s| && ValidUtf8(r.value.1)
  {
    if NULL <= s then AfterWord(s, NULL); Some((Null, s[4..]))
    else if TRUE <= s then AfterWord(s, TRUE); Some((Bool(true), s[4..]))
    else if FALSE <= s then AfterWord(s, FALSE); Some((Bool(false), s[5..]))
    else if s != [] && s[0] == QUOTE then
      AsciiSplits(Start, s);
      match Unquote(strict, Start, s[1..])
      case None => None
      case Some((text, rest)) => Some((Str(text), rest))
    else
      match NumberLength(s)
      case None => None
      case Some(n) =>
        NumberIsAscii(s);
        AsciiPrefix(s, n);
        Some((Num(s[..n]), s[n..]))
  }

  lemma AfterWord(s: Bytes, word: Bytes)
    requires ValidUtf8(s) && word <= s && forall i :: 0 <= i < |word| ==> word[i] < 0x80
    ensures ValidUtf8(s[|word|..])
  {
    AsciiPrefix(s, |word|);
  }

  lemma AfterAscii(s: Bytes)
    requires ValidUtf8(s) && s != [] && s[0] < 0x80
    ensures ValidUtf8(s[1..])
  {
    AsciiSplits(Start, s);
  }

  /** One value at nesting depth depth, and what follows it. */
  function ParseValue(strict: bool, s: Bytes, depth: nat): (r: Option<(Json, Bytes)>)
    requires ValidUtf8(s)
    ensures r.Some? ==> |r.value.1| < |s| && ValidUtf8(r.value.1)
    decreases |s|, 1
  {
    if depth > MAX_DEPTH then None
    else
      var t := SkipSpace(s);
      if t == [] then None
      else if t[0] == OPEN_ARRAY then
        AfterAscii(t);
        var u := SkipSpace(t[1..]);
        if u != [] && u[0] == CLOSE_ARRAY then AfterAscii(u); Some((Arr([]), u[1..]))
        else
          match ParseElements(strict, u, depth)
          case None => None
          case Some((elements, rest)) => Some((Arr(elements), rest))
      else if t[0] == OPEN_OBJECT then
        AfterAscii(t);
        var u := SkipSpace(t[1..]);
        if u != [] && u[0] == CLOSE_OBJECT then AfterAscii(u); Some((Obj(map[]), u[1..]))
        else
          match ParseMembers(strict, u, depth, map[])
          case None => None
          case Some((members, rest)) => Some((Obj(members), rest))
      else ParseScalar(strict, t)
  }

  /** The elements of a nonempty array, up to and including its closing bracket. */
  function ParseElements(strict: bool, s: Bytes, depth: nat): (r: Option<(seq<Json>, Bytes)>)
    requires ValidUtf8(s)
    ensures r.Some? ==> |r.value.1| < |s| && ValidUtf8(r.value.1)
    decreases |s|, 2
  {
    match ParseValue(strict, s, depth + 1)
    case None => None
    case Some((v, rest)) =>
      var t := SkipSpace(rest);
      if t == [] then None
      else if t[0] == CLOSE_ARRAY then AfterAscii(t); Some(([v], t[1..]))
      else if t[0] != COMMA then None
      else
        AfterAscii(t);
        match ParseElements(strict, t[1..], depth)
        case None => None
        case Some((vs, rest')) => Some(([v] + vs, rest'))
  }

  /** A member name, its colon, and what follows. */
  function ParseName(strict: bool, s: Bytes): (r: Option<(Text, Bytes)>)
    requires ValidUtf8(s)
    ensures r.Some? ==> |r.value.1| < |s| && ValidUtf8(r.value.1)
  {
    var t := SkipSpace(s);
    if t == [] || t[0] != QUOTE then None
    else
      AfterAscii(t);
      match Unquote(strict, Start, t[1..])
      case None => None
      case Some((name, rest)) =>
        var u := SkipSpace(rest);
        if u == [] || u[0] != COLON then None
        else AfterAscii(u); Some((name, u[1..]))
  }

  /** The members of a nonempty object, added to seen; a repeated name is refused. */
  function ParseMembers(strict: bool, s: Bytes, depth: nat, seen: map<Text, Json>): (r: Option<(map<Text, Json>, Bytes)>)
    requires ValidUtf8(s)
    ensures r.Some? ==> |r.value.1| < |s| && ValidUtf8(r.value.1)
    decreases |s|, 2
  {
    match ParseName(strict, s)
    case None => None
    case Some((name, u)) =>
      if name in seen then None
      else
        match ParseValue(strict, u, depth + 1)
        case None => None
        case Some((v, rest)) =>
          var t := SkipSpace(rest);
          if t == [] then None
          else if t[0] == CLOSE_OBJECT then AfterAscii(t); Some((seen[name := v], t[1..]))
          else if t[0] != COMMA then None
          else AfterAscii(t); ParseMembers(strict, t[1..], depth, seen[name := v])
  }

  /** A whole document: one value and then only white space. */
  function Parse(strict: bool, s: Bytes): Option<Json>
    requires ValidUtf8(s)
  {
    match ParseValue(strict, s, 0)
    case None => None
    case Some((v, rest)) => if SkipSpace(rest) == [] then Some(v) else None
  }

  // ----- written documents -----

  /** Every literal, string and stretch of white space is one; nothing is said of names and depth. */
  predicate Lexical(d: Doc)
    decreases d, 0
  {
    match d
    case DNum(lit) => IsNumber(lit)
    case DArr(elements, inner) =>
      AllSpace(inner) && (elements != [] ==> inner == []) && forall i :: 0 <= i < |elements| ==> LexicalPadded(elements[i])
    case DObj(members, inner) =>
      AllSpace(inner) && (members != [] ==> inner == []) && forall i :: 0 <= i < |members| ==> LexicalMember(members[i])
    case _ => true
  }

  predicate LexicalPadded(p: Padded)
    decreases p, 0
  {
    AllSpace(p.before) && Lexical(p.doc) && AllSpace(p.after)
  }

  predicate LexicalMember(m: Member)
    decreases m, 1
  {
    AllSpace(m.before) && AllSpace(m.gap) && LexicalPadded(m.value)
  }

  predicate LexicalElements(ps: seq<Padded>) { forall i :: 0 <= i < |ps| ==> LexicalPadded(ps[i]) }

  predicate LexicalMembers(ms: seq<Member>) { forall i :: 0 <= i < |ms| ==> LexicalMember(ms[i]) }

  function Spelled(ps: seq<Piece>): Bytes
  {
    [QUOTE] + SpellAll(ps) + [QUOTE]
  }

  function Render(d: Doc): (r: Bytes)
    decreases d, 0
  {
    match d
    case DNull => NULL
    case DBool(b) => if b then TRUE else FALSE
    case DNum(lit) => lit
    case DStr(pieces) => Spelled(pieces)
    case DArr(elements, inner) =>
      [OPEN_ARRAY] + (if elements == [] then inner else RenderElements(elements)) + [CLOSE_ARRAY]
    case DObj(members, inner) =>
      [OPEN_OBJECT] + (if members == [] then inner else RenderMembers(members)) + [CLOSE_OBJECT]
  }

  function RenderPadded(p: Padded): Bytes
    decreases p, 0
  {
    p.before + Render(p.doc) + p.after
  }

  function RenderElements(ps: seq<Padded>): Bytes
    decreases ps, 1
  {
    if ps == [] then []
    else if |ps| == 1 then RenderPadded(ps[0])
    else RenderPadded(ps[0]) + [COMMA] + RenderElements(ps[1..])
  }

  function RenderMember(m: Member): Bytes
    decreases m, 1
  {
    m.before + Spelled(m.name) + m.gap + [COLON] + RenderPadded(m.value)
  }

  function RenderMembers(ms: seq<Member>): Bytes
    decreases ms, 2
  {
    if ms == [] then []
    else if |ms| == 1 then RenderMember(ms[0])
    else RenderMember(ms[0]) + [COMMA] + RenderMembers(ms[1..])
  }

  /** The value a document denotes. */
  function Value(d: Doc): Json
    decreases d, 0
  {
    match d
    case DNull => Null
    case DBool(b) => Bool(b)
    case DNum(lit) => Num(lit)
    case DStr(pieces) => Str(MeantAll(pieces))
    case DArr(elements, _) => Arr(Values(elements))
    case DObj(members, _) => Obj(MembersOf(members, map[]))
  }

  function PaddedValue(p: Padded): Json
    decreases p, 0
  {
    Value(p.doc)
  }

  function Values(ps: seq<Padded>): (r: seq<Json>)
    ensures |r| == |ps|
    decreases ps, 1
  {
    if ps == [] then [] else [PaddedValue(ps[0])] + Values(ps[1..])
  }

  function MembersOf(ms: seq<Member>, seen: map<Text, Json>): map<Text, Json>
    decreases ms, 1
  {
    if ms == [] then seen else MembersOf(ms[1..], seen[MeantAll(ms[0].name) := PaddedValue(ms[0].value)])
  }

  /** What the reader asks besides: nesting within the bound, and no name twice in one object, however spelled. */
  predicate Allowed(d: Doc, depth: nat)
    decreases d, 0
  {
    && depth <= 64
    && match d
       case DArr(elements, _) => AllowedElements(elements, depth + 1)
       case DObj(members, _) => AllowedMembers(members, depth + 1, {})
       case _ => true
  }

  predicate AllowedPadded(p: Padded, depth: nat)
    decreases p, 0
  {
    Allowed(p.doc, depth)
  }

  predicate AllowedElements(ps: seq<Padded>, depth: nat)
    decreases ps, 1
  {
    ps == [] || (AllowedPadded(ps[0], depth) && AllowedElements(ps[1..], depth))
  }

  predicate AllowedMembers(ms: seq<Member>, depth: nat, seen: set<Text>)
    decreases ms, 1
  {
    ms == [] ||
    (var name := MeantAll(ms[0].name);
     name !in seen && AllowedPadded(ms[0].value, depth) && AllowedMembers(ms[1..], depth, seen + {name}))
  }

  predicate Sound(d: Doc, depth: nat) { Lexical(d) && Allowed(d, depth) }
}
