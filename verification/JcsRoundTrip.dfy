/** Reading what was written: every value, however it is spelled and spaced, and nothing that repeats a name or nests too deep. */
module JcsRoundTrip {
  import opened Prelude
  import opened JcsUtf8
  import opened JcsStrings
  import opened JcsNumbers
  import opened JcsTree

  // ----- white space -----

  lemma SkipNothing(s: Bytes)
    requires ValidUtf8(s) && (s == [] || !IsSpace(s[0]))
    ensures SkipSpace(s) == s
  {
  }

  lemma {:induction false} SpacesSkipped(space: Bytes, s: Bytes)
    requires AllSpace(space) && ValidUtf8(s)
    ensures ValidUtf8(space + s) && SkipSpace(space + s) == SkipSpace(s)
    decreases |space|
  {
    if space == [] {
      assert space + s == s;
    } else {
      SpacesSkipped(space[1..], s);
      assert space + s == [space[0]] + (space[1..] + s);
      OneByte(space[0], space[1..] + s);
      assert (space + s)[1..] == space[1..] + s;
    }
  }

  lemma ValueSkips(strict: bool, s: Bytes, t: Bytes, depth: nat)
    requires ValidUtf8(s) && ValidUtf8(t) && SkipSpace(s) == SkipSpace(t)
    ensures ParseValue(strict, s, depth) == ParseValue(strict, t, depth)
  {
  }

  lemma SkipTwice(s: Bytes)
    requires ValidUtf8(s)
    ensures SkipSpace(SkipSpace(s)) == SkipSpace(s)
  {
    SkipNothing(SkipSpace(s));
  }

  /** What stands between two values, or after the last. */
  predicate Stops(s: Bytes) { s == [] || s[0] == COMMA || s[0] == CLOSE_ARRAY || s[0] == CLOSE_OBJECT }

  lemma SpacesThenStop(space: Bytes, tail: Bytes)
    requires AllSpace(space) && ValidUtf8(tail) && Stops(tail)
    ensures ValidUtf8(space + tail) && SkipSpace(space + tail) == tail && Delimited(space + tail)
  {
    SpacesSkipped(space, tail);
    SkipNothing(tail);
    if space != [] { assert (space + tail)[0] == space[0]; } else { assert space + tail == tail; }
  }

  // ----- how documents start, and that they are UTF-8 -----

  lemma NumberHead(s: Bytes)
    requires NumberLength(s).Some?
    ensures s != [] && (s[0] == 0x2D || Digit(s[0]))
  {
    var t := s[MinusLength(s)..];
    assert IntegerLength(t) > 0;
    if MinusLength(s) == 0 { assert t == s; }
  }

  lemma RenderHead(d: Doc)
    requires Lexical(d)
    ensures Render(d) != [] && !IsSpace(Render(d)[0])
    ensures Render(d)[0] != CLOSE_ARRAY && Render(d)[0] != CLOSE_OBJECT
    ensures Render(d)[0] == OPEN_ARRAY <==> d.DArr?
    ensures Render(d)[0] == OPEN_OBJECT <==> d.DObj?
  {
    if d.DNum? { NumberHead(d.lit); }
  }

  lemma Bracketed(open: Byte, s: Bytes, close: Byte)
    requires open < 0x80 && close < 0x80 && ValidUtf8(s)
    ensures ValidUtf8([open] + s + [close])
  {
    OneByte(close, []);
    ValidConcat(s, [close]);
    OneByte(open, s + [close]);
    assert [open] + s + [close] == [open] + (s + [close]);
  }

  lemma Separated(a: Bytes, separator: Byte, b: Bytes)
    requires separator < 0x80 && ValidUtf8(a) && ValidUtf8(b)
    ensures ValidUtf8(a + [separator] + b)
  {
    OneByte(separator, b);
    ValidConcat(a, [separator] + b);
    assert a + [separator] + b == a + ([separator] + b);
  }

  lemma SpaceIsValid(space: Bytes)
    requires AllSpace(space)
    ensures ValidUtf8(space)
  {
    AsciiIsValid(space);
  }

  lemma SpelledWithQuotes(name: seq<Piece>)
    ensures ValidUtf8(Spelled(name))
  {
    SpelledAllIsValid(name);
    Bracketed(QUOTE, SpellAll(name), QUOTE);
  }

  lemma {:induction false} RenderIsValid(d: Doc)
    requires Lexical(d)
    ensures ValidUtf8(Render(d))
    decreases d, 0
  {
    match d
    case DNull => AsciiIsValid(NULL);
    case DBool(b) => AsciiIsValid(TRUE); AsciiIsValid(FALSE);
    case DNum(lit) => NumberIsAscii(lit); AsciiIsValid(lit);
    case DStr(pieces) => SpelledWithQuotes(pieces);
    case DArr(elements, inner) =>
      SpaceIsValid(inner);
      ElementsAreValid(elements);
      Bracketed(OPEN_ARRAY, if elements == [] then inner else RenderElements(elements), CLOSE_ARRAY);
    case DObj(members, inner) =>
      SpaceIsValid(inner);
      MembersAreValid(members);
      Bracketed(OPEN_OBJECT, if members == [] then inner else RenderMembers(members), CLOSE_OBJECT);
  }

  lemma {:induction false} PaddedIsValid(p: Padded)
    requires LexicalPadded(p)
    ensures ValidUtf8(RenderPadded(p))
    decreases p, 0
  {
    SpaceIsValid(p.before);
    RenderIsValid(p.doc);
    SpaceIsValid(p.after);
    ValidConcat(p.before, Render(p.doc));
    ValidConcat(p.before + Render(p.doc), p.after);
  }

  lemma {:induction false} ElementsAreValid(ps: seq<Padded>)
    requires LexicalElements(ps)
    ensures ValidUtf8(RenderElements(ps))
    decreases ps, 1
  {
    if ps != [] {
      PaddedIsValid(ps[0]);
      ElementsAreValid(ps[1..]);
      Separated(RenderPadded(ps[0]), COMMA, RenderElements(ps[1..]));
    }
  }

  lemma {:induction false} MemberIsValid(m: Member)
    requires LexicalMember(m)
    ensures ValidUtf8(RenderMember(m))
    decreases m, 1
  {
    SpaceIsValid(m.before);
    SpaceIsValid(m.gap);
    SpelledWithQuotes(m.name);
    PaddedIsValid(m.value);
    ValidConcat(m.before, Spelled(m.name));
    ValidConcat(m.before + Spelled(m.name), m.gap);
    Separated(m.before + Spelled(m.name) + m.gap, COLON, RenderPadded(m.value));
  }

  lemma {:induction false} MembersAreValid(ms: seq<Member>)
    requires LexicalMembers(ms)
    ensures ValidUtf8(RenderMembers(ms))
    decreases ms, 2
  {
    if ms != [] {
      MemberIsValid(ms[0]);
      MembersAreValid(ms[1..]);
      Separated(RenderMember(ms[0]), COMMA, RenderMembers(ms[1..]));
    }
  }

  // ----- scalars -----

  lemma ReadString(strict: bool, name: seq<Piece>, rest: Bytes)
    requires ValidUtf8(rest)
    ensures ValidUtf8(Spelled(name) + rest) && (Spelled(name) + rest)[0] == QUOTE
    ensures ValidUtf8((Spelled(name) + rest)[1..])
    ensures Unquote(strict, Start, (Spelled(name) + rest)[1..]) == Some((MeantAll(name), rest))
  {
    UnquoteSpelled(strict, name, rest);
    var tail := SpellAll(name) + [QUOTE] + rest;
    assert Spelled(name) + rest == [QUOTE] + tail;
    assert ([QUOTE] + tail)[1..] == tail;
    OneByte(QUOTE, tail);
  }

  lemma ReadNumber(strict: bool, lit: Bytes, rest: Bytes)
    requires IsNumber(lit) && Delimited(rest) && ValidUtf8(lit + rest)
    ensures ParseScalar(strict, lit + rest) == Some((Num(lit), rest))
  {
    NumberHead(lit);
    NumberStops(lit, rest);
    var s := lit + rest;
    assert s[0] == lit[0];
    NumberBranch(strict, s);
    assert s[..|lit|] == lit && s[|lit|..] == rest;
  }

  lemma NumberBranch(strict: bool, s: Bytes)
    requires ValidUtf8(s) && NumberLength(s).Some?
    requires s[0] == 0x2D || Digit(s[0])
    ensures ParseScalar(strict, s) == Some((Num(s[..NumberLength(s).value]), s[NumberLength(s).value..]))
  {
    assert !(NULL <= s) && !(TRUE <= s) && !(FALSE <= s);
  }

  lemma ReadScalar(strict: bool, d: Doc, rest: Bytes)
    requires Lexical(d) && !d.DArr? && !d.DObj? && Delimited(rest) && ValidUtf8(Render(d) + rest) && ValidUtf8(rest)
    ensures ParseScalar(strict, Render(d) + rest) == Some((Value(d), rest))
  {
    var s := Render(d) + rest;
    match d
    case DNull => assert NULL <= s && s[4..] == rest;
    case DBool(b) =>
      assert s[0] == Render(d)[0];
      if b { assert TRUE <= s && s[4..] == rest; } else { assert FALSE <= s && s[5..] == rest; }
    case DNum(lit) => ReadNumber(strict, lit, rest);
    case DStr(pieces) => ReadString(strict, pieces, rest);
  }

  // ----- compound values -----

  /** What the reader makes of something written: its value and what follows, or nothing if it may not stand there. */
  function Read<T>(allowed: bool, v: T, rest: Bytes): Option<(T, Bytes)> { if allowed then Some((v, rest)) else None }

  /** A written value is read as its value, whatever follows it, exactly when it is allowed at this depth. */
  lemma {:induction false} ReadRender(strict: bool, d: Doc, depth: nat, rest: Bytes)
    requires Lexical(d) && Delimited(rest) && ValidUtf8(rest)
    ensures ValidUtf8(Render(d) + rest)
    ensures ParseValue(strict, Render(d) + rest, depth) == Read(Allowed(d, depth), Value(d), rest)
    decreases d, 0
  {
    RenderIsValid(d);
    ValidConcat(Render(d), rest);
    if depth <= MAX_DEPTH {
      match d
      case DArr(elements, inner) => ReadArray(strict, d, depth, rest);
      case DObj(members, inner) => ReadObject(strict, d, depth, rest);
      case _ => ReadPlain(strict, d, depth, rest);
    }
  }

  lemma ReadPlain(strict: bool, d: Doc, depth: nat, rest: Bytes)
    requires Lexical(d) && !d.DArr? && !d.DObj? && Delimited(rest) && ValidUtf8(Render(d) + rest) && ValidUtf8(rest)
    requires depth <= MAX_DEPTH
    ensures ParseValue(strict, Render(d) + rest, depth) == Some((Value(d), rest))
  {
    RenderHead(d);
    var s := Render(d) + rest;
    assert s[0] == Render(d)[0];
    SkipNothing(s);
    ReadScalar(strict, d, rest);
  }

  /** With the white space around it. */
  lemma {:induction false} ReadPadded(strict: bool, p: Padded, depth: nat, tail: Bytes)
    requires LexicalPadded(p) && Stops(tail) && ValidUtf8(tail)
    ensures ValidUtf8(RenderPadded(p) + tail) && ValidUtf8(p.after + tail) && SkipSpace(p.after + tail) == tail
    ensures ParseValue(strict, RenderPadded(p) + tail, depth) == Read(AllowedPadded(p, depth), PaddedValue(p), p.after + tail)
    decreases p, 0
  {
    SpacesThenStop(p.after, tail);
    ReadRender(strict, p.doc, depth, p.after + tail);
    ReadSpaced(strict, p.before, Render(p.doc) + (p.after + tail), depth);
    PaddedSplit(p.before, Render(p.doc), p.after, tail);
  }

  lemma PaddedSplit(a: Bytes, b: Bytes, c: Bytes, d: Bytes)
    ensures a + b + c + d == a + (b + (c + d))
  {
  }

  lemma ReadSpaced(strict: bool, space: Bytes, s: Bytes, depth: nat)
    requires AllSpace(space) && ValidUtf8(s)
    ensures ValidUtf8(space + s) && ParseValue(strict, space + s, depth) == ParseValue(strict, s, depth)
  {
    SpacesSkipped(space, s);
    ValueSkips(strict, space + s, s, depth);
  }

  lemma PaddedHead(p: Padded, tail: Bytes)
    requires LexicalPadded(p) && ValidUtf8(RenderPadded(p) + tail)
    ensures var u := SkipSpace(RenderPadded(p) + tail); Render(p.doc) != [] && u != [] && u[0] == Render(p.doc)[0]
  {
    RenderHead(p.doc);
    PaddedSplit(p.before, Render(p.doc), p.after, tail);
    SpaceThenHead(p.before, Render(p.doc), p.after + tail);
  }

  lemma SpaceThenHead(space: Bytes, head: Bytes, tail: Bytes)
    requires AllSpace(space) && head != [] && !IsSpace(head[0]) && ValidUtf8(space + (head + tail))
    ensures var u := SkipSpace(space + (head + tail)); u != [] && u[0] == head[0]
  {
    SpaceThen(space, head + tail);
  }

  lemma {:induction false} SpaceThen(space: Bytes, s: Bytes)
    requires AllSpace(space) && ValidUtf8(space + s) && s != [] && !IsSpace(s[0])
    ensures SkipSpace(space + s) == s
    decreases |space|
  {
    if space == [] {
      assert space + s == s;
    } else {
      assert (space + s)[1..] == space[1..] + s;
      AfterAscii(space + s);
      SpaceThen(space[1..], s);
    }
  }

  lemma LastElement(strict: bool, s: Bytes, v: Json, u: Bytes, rest: Bytes, depth: nat)
    requires ValidUtf8(s) && ValidUtf8(u) && ParseValue(strict, s, depth + 1) == Some((v, u))
    requires SkipSpace(u) == [CLOSE_ARRAY] + rest
    ensures ParseElements(strict, s, depth) == Some(([v], rest))
  {
    assert ([CLOSE_ARRAY] + rest)[1..] == rest;
  }

  lemma NextElement(strict: bool, s: Bytes, v: Json, u: Bytes, more: Bytes, depth: nat)
    requires ValidUtf8(s) && ValidUtf8(u) && ValidUtf8(more) && ParseValue(strict, s, depth + 1) == Some((v, u))
    requires SkipSpace(u) == [COMMA] + more
    ensures var r := ParseElements(strict, more, depth);
      ParseElements(strict, s, depth) == if r.None? then None else Some(([v] + r.value.0, r.value.1))
  {
    assert ([COMMA] + more)[1..] == more;
  }

  lemma NoElement(strict: bool, s: Bytes, depth: nat)
    requires ValidUtf8(s) && ParseValue(strict, s, depth + 1).None?
    ensures ParseElements(strict, s, depth).None?
  {
  }

  /** The rest of an array after its first element. */
  function AfterElement(ps: seq<Padded>, rest: Bytes): Bytes
    requires ps != []
  {
    if |ps| == 1 then [CLOSE_ARRAY] + rest else [COMMA] + (RenderElements(ps[1..]) + [CLOSE_ARRAY] + rest)
  }

  lemma ElementsSplit(ps: seq<Padded>, rest: Bytes)
    requires ps != [] && LexicalElements(ps)
    ensures RenderElements(ps) + [CLOSE_ARRAY] + rest == RenderPadded(ps[0]) + AfterElement(ps, rest)
  {
    if |ps| > 1 {
      assert RenderElements(ps) == RenderPadded(ps[0]) + [COMMA] + RenderElements(ps[1..]);
      Regroup(RenderPadded(ps[0]), [COMMA], RenderElements(ps[1..]), [CLOSE_ARRAY], rest);
    } else {
      RegroupThree(RenderPadded(ps[0]), [CLOSE_ARRAY], rest);
    }
  }

  lemma Regroup(a: Bytes, b: Bytes, c: Bytes, d: Bytes, e: Bytes)
    ensures a + b + c + d + e == a + (b + (c + d + e))
  {
  }

  lemma RegroupThree(a: Bytes, b: Bytes, c: Bytes)
    ensures a + b + c == a + (b + c)
  {
  }

  lemma {:induction false} ReadElements(strict: bool, ps: seq<Padded>, depth: nat, rest: Bytes)
    requires ps != [] && LexicalElements(ps) && ValidUtf8(rest)
    ensures ValidUtf8(RenderElements(ps) + [CLOSE_ARRAY] + rest)
    ensures ParseElements(strict, RenderElements(ps) + [CLOSE_ARRAY] + rest, depth) ==
            Read(AllowedElements(ps, depth + 1), Values(ps), rest)
    decreases ps, 1
  {
    ElementsSplit(ps, rest);
    OneByte(CLOSE_ARRAY, rest);
    if |ps| > 1 {
      var more := RenderElements(ps[1..]) + [CLOSE_ARRAY] + rest;
      ReadElements(strict, ps[1..], depth, rest);
      OneByte(COMMA, more);
    }
    ReadPadded(strict, ps[0], depth + 1, AfterElement(ps, rest));
    if AllowedPadded(ps[0], depth + 1) {
      TakeElement(strict, ps, depth, rest);
    } else {
      NoElement(strict, RenderPadded(ps[0]) + AfterElement(ps, rest), depth);
    }
  }

  lemma TakeElement(strict: bool, ps: seq<Padded>, depth: nat, rest: Bytes)
    requires ps != [] && LexicalElements(ps) && ValidUtf8(rest) && AllowedPadded(ps[0], depth + 1)
    requires var (s, u) := (RenderPadded(ps[0]) + AfterElement(ps, rest), ps[0].after + AfterElement(ps, rest));
      && ValidUtf8(s) && ValidUtf8(u) && SkipSpace(u) == AfterElement(ps, rest)
      && ParseValue(strict, s, depth + 1) == Some((PaddedValue(ps[0]), u))
    requires |ps| > 1 ==> var more := RenderElements(ps[1..]) + [CLOSE_ARRAY] + rest;
      ValidUtf8(more) && ParseElements(strict, more, depth) == Read(AllowedElements(ps[1..], depth + 1), Values(ps[1..]), rest)
    ensures ParseElements(strict, RenderPadded(ps[0]) + AfterElement(ps, rest), depth) ==
            Read(AllowedElements(ps, depth + 1), Values(ps), rest)
  {
    var (s, u) := (RenderPadded(ps[0]) + AfterElement(ps, rest), ps[0].after + AfterElement(ps, rest));
    if |ps| == 1 {
      LastElement(strict, s, PaddedValue(ps[0]), u, rest, depth);
      assert Values(ps) == [PaddedValue(ps[0])] + Values(ps[1..]) == [PaddedValue(ps[0])];
    } else {
      NextElement(strict, s, PaddedValue(ps[0]), u, RenderElements(ps[1..]) + [CLOSE_ARRAY] + rest, depth);
    }
  }

  lemma ElementsSkip(strict: bool, s: Bytes, depth: nat)
    requires ValidUtf8(s)
    ensures ParseElements(strict, SkipSpace(s), depth) == ParseElements(strict, s, depth)
  {
    SkipTwice(s);
    ValueSkips(strict, SkipSpace(s), s, depth + 1);
  }

  lemma {:induction false} ReadArray(strict: bool, d: Doc, depth: nat, rest: Bytes)
    requires d.DArr? && Lexical(d) && Delimited(rest) && ValidUtf8(rest) && ValidUtf8(Render(d) + rest) && depth <= MAX_DEPTH
    ensures ParseValue(strict, Render(d) + rest, depth) == Read(Allowed(d, depth), Value(d), rest)
    decreases d.elements, 2
  {
    var (ps, inner) := (d.elements, d.inner);
    var body := if ps == [] then inner else RenderElements(ps);
    var s := Render(d) + rest;
    assert s == [OPEN_ARRAY] + (body + [CLOSE_ARRAY] + rest) && s[1..] == body + [CLOSE_ARRAY] + rest;
    SkipNothing(s);
    AfterAscii(s);
    if ps == [] {
      EmptyBody(inner, CLOSE_ARRAY, rest);
    } else {
      ElementsSplit(ps, rest);
      PaddedHead(ps[0], AfterElement(ps, rest));
      RenderHead(ps[0].doc);
      ReadElements(strict, ps, depth, rest);
      ElementsSkip(strict, s[1..], depth);
    }
  }

  lemma EmptyBody(inner: Bytes, close: Byte, rest: Bytes)
    requires AllSpace(inner) && !IsSpace(close) && ValidUtf8(inner + [close] + rest)
    ensures SkipSpace(inner + [close] + rest) == [close] + rest && ([close] + rest)[1..] == rest
  {
    assert inner + [close] + rest == inner + ([close] + rest);
    SpaceThen(inner, [close] + rest);
  }

  // ----- objects -----

  lemma ReadName(strict: bool, m: Member, after: Bytes)
    requires LexicalMember(m) && ValidUtf8(after)
    ensures ValidUtf8(m.before + Spelled(m.name) + m.gap + [COLON] + after)
    ensures ParseName(strict, m.before + Spelled(m.name) + m.gap + [COLON] + after) == Some((MeantAll(m.name), after))
  {
    var tail := [COLON] + after;
    OneByte(COLON, after);
    SpacesSkipped(m.gap, tail);
    SkipNothing(tail);
    ReadString(strict, m.name, m.gap + tail);
    var quoted := Spelled(m.name) + (m.gap + tail);
    SpacesSkipped(m.before, quoted);
    SkipNothing(quoted);
    LabelSplit(m.before, Spelled(m.name), m.gap, [COLON], after);
    NameByParts(strict, m.before + quoted, quoted, m.gap + tail, MeantAll(m.name), after);
  }

  lemma LabelSplit(a: Bytes, b: Bytes, c: Bytes, d: Bytes, e: Bytes)
    ensures a + b + c + d + e == a + (b + (c + (d + e)))
  {
  }

  lemma NameByParts(strict: bool, s: Bytes, quoted: Bytes, u: Bytes, name: Text, after: Bytes)
    requires ValidUtf8(s) && ValidUtf8(quoted) && SkipSpace(s) == quoted && quoted != [] && quoted[0] == QUOTE
    requires ValidUtf8(quoted[1..]) && Unquote(strict, Start, quoted[1..]) == Some((name, u))
    requires ValidUtf8(u) && SkipSpace(u) == [COLON] + after
    ensures ParseName(strict, s) == Some((name, after))
  {
    assert ([COLON] + after)[1..] == after;
  }

  lemma LastMember(strict: bool, s: Bytes, name: Text, u: Bytes, v: Json, w: Bytes, rest: Bytes, depth: nat, seen: map<Text, Json>)
    requires ValidUtf8(s) && ValidUtf8(u) && ValidUtf8(w) && name !in seen
    requires ParseName(strict, s) == Some((name, u))
    requires ParseValue(strict, u, depth + 1) == Some((v, w)) && SkipSpace(w) == [CLOSE_OBJECT] + rest
    ensures ParseMembers(strict, s, depth, seen) == Some((seen[name := v], rest))
  {
    assert ([CLOSE_OBJECT] + rest)[1..] == rest;
  }

  lemma NextMember(strict: bool, s: Bytes, name: Text, u: Bytes, v: Json, w: Bytes, more: Bytes, depth: nat, seen: map<Text, Json>)
    requires ValidUtf8(s) && ValidUtf8(u) && ValidUtf8(w) && ValidUtf8(more) && name !in seen
    requires ParseName(strict, s) == Some((name, u))
    requires ParseValue(strict, u, depth + 1) == Some((v, w)) && SkipSpace(w) == [COMMA] + more
    ensures ParseMembers(strict, s, depth, seen) == ParseMembers(strict, more, depth, seen[name := v])
  {
    assert ([COMMA] + more)[1..] == more;
  }

  lemma NoMember(strict: bool, s: Bytes, name: Text, u: Bytes, depth: nat, seen: map<Text, Json>)
    requires ValidUtf8(s) && ValidUtf8(u) && ParseName(strict, s) == Some((name, u))
    requires name in seen || ParseValue(strict, u, depth + 1).None?
    ensures ParseMembers(strict, s, depth, seen).None?
  {
  }

  /** The rest of an object after its first member. */
  function AfterMember(ms: seq<Member>, rest: Bytes): Bytes
    requires ms != []
  {
    if |ms| == 1 then [CLOSE_OBJECT] + rest else [COMMA] + (RenderMembers(ms[1..]) + [CLOSE_OBJECT] + rest)
  }

  /** The first member up to its colon. */
  function Label(m: Member): Bytes
  {
    m.before + Spelled(m.name) + m.gap + [COLON]
  }

  lemma MembersSplit(ms: seq<Member>, rest: Bytes)
    requires ms != [] && LexicalMembers(ms)
    ensures RenderMembers(ms) + [CLOSE_OBJECT] + rest == Label(ms[0]) + (RenderPadded(ms[0].value) + AfterMember(ms, rest))
  {
    var (n, v) := (Label(ms[0]), RenderPadded(ms[0].value));
    assert RenderMember(ms[0]) == n + v;
    if |ms| == 1 {
      RegroupThree(n + v, [CLOSE_OBJECT], rest);
      RegroupThree(n, v, [CLOSE_OBJECT] + rest);
    } else {
      var m := RenderMembers(ms[1..]);
      assert RenderMembers(ms) == RenderMember(ms[0]) + [COMMA] + m;
      Regroup(n + v, [COMMA], m, [CLOSE_OBJECT], rest);
      RegroupThree(n, v, [COMMA] + (m + [CLOSE_OBJECT] + rest));
    }
  }

  lemma {:induction false} ReadMembers(strict: bool, ms: seq<Member>, depth: nat, rest: Bytes, seen: map<Text, Json>)
    requires ms != [] && LexicalMembers(ms) && ValidUtf8(rest)
    ensures ValidUtf8(RenderMembers(ms) + [CLOSE_OBJECT] + rest)
    ensures ParseMembers(strict, RenderMembers(ms) + [CLOSE_OBJECT] + rest, depth, seen) ==
            Read(AllowedMembers(ms, depth + 1, seen.Keys), MembersOf(ms, seen), rest)
    decreases ms, 1
  {
    var grown := seen[MeantAll(ms[0].name) := PaddedValue(ms[0].value)];
    MembersSplit(ms, rest);
    OneByte(CLOSE_OBJECT, rest);
    if |ms| > 1 {
      var more := RenderMembers(ms[1..]) + [CLOSE_OBJECT] + rest;
      ReadMembers(strict, ms[1..], depth, rest, grown);
      OneByte(COMMA, more);
    }
    ReadPadded(strict, ms[0].value, depth + 1, AfterMember(ms, rest));
    ReadName(strict, ms[0], RenderPadded(ms[0].value) + AfterMember(ms, rest));
    TakeMember(strict, ms, depth, rest, seen, grown);
  }

  lemma TakeMember(strict: bool, ms: seq<Member>, depth: nat, rest: Bytes, seen: map<Text, Json>, grown: map<Text, Json>)
    requires ms != [] && LexicalMembers(ms) && ValidUtf8(rest) && grown == seen[MeantAll(ms[0].name) := PaddedValue(ms[0].value)]
    requires var u := RenderPadded(ms[0].value) + AfterMember(ms, rest);
      var w := ms[0].value.after + AfterMember(ms, rest);
      && ValidUtf8(Label(ms[0]) + u) && ValidUtf8(u) && ValidUtf8(w) && SkipSpace(w) == AfterMember(ms, rest)
      && ParseName(strict, Label(ms[0]) + u) == Some((MeantAll(ms[0].name), u))
      && ParseValue(strict, u, depth + 1) == Read(AllowedPadded(ms[0].value, depth + 1), PaddedValue(ms[0].value), w)
    requires |ms| > 1 ==> var more := RenderMembers(ms[1..]) + [CLOSE_OBJECT] + rest;
      && ValidUtf8(more)
      && ParseMembers(strict, more, depth, grown) == Read(AllowedMembers(ms[1..], depth + 1, grown.Keys), MembersOf(ms[1..], grown), rest)
    ensures ParseMembers(strict, Label(ms[0]) + (RenderPadded(ms[0].value) + AfterMember(ms, rest)), depth, seen) ==
            Read(AllowedMembers(ms, depth + 1, seen.Keys), MembersOf(ms, seen), rest)
  {
    var u := RenderPadded(ms[0].value) + AfterMember(ms, rest);
    var w := ms[0].value.after + AfterMember(ms, rest);
    var (s, name, v) := (Label(ms[0]) + u, MeantAll(ms[0].name), PaddedValue(ms[0].value));
    assert grown.Keys == seen.Keys + {name};
    if name in seen || !AllowedPadded(ms[0].value, depth + 1) {
      NoMember(strict, s, name, u, depth, seen);
    } else if |ms| == 1 {
      LastMember(strict, s, name, u, v, w, rest, depth, seen);
    } else {
      NextMember(strict, s, name, u, v, w, RenderMembers(ms[1..]) + [CLOSE_OBJECT] + rest, depth, seen);
    }
  }

  lemma MembersSkip(strict: bool, s: Bytes, depth: nat, seen: map<Text, Json>)
    requires ValidUtf8(s)
    ensures ParseMembers(strict, SkipSpace(s), depth, seen) == ParseMembers(strict, s, depth, seen)
  {
    SkipTwice(s);
    assert ParseName(strict, SkipSpace(s)) == ParseName(strict, s);
  }

  lemma MemberHead(m: Member, tail: Bytes)
    requires LexicalMember(m) && ValidUtf8(Label(m) + tail)
    ensures var u := SkipSpace(Label(m) + tail); u != [] && u[0] == QUOTE
  {
    var inside := Spelled(m.name) + (m.gap + ([COLON] + tail));
    assert Label(m) + tail == m.before + inside;
    SpaceThen(m.before, inside);
  }

  lemma {:induction false} ReadObject(strict: bool, d: Doc, depth: nat, rest: Bytes)
    requires d.DObj? && Lexical(d) && Delimited(rest) && ValidUtf8(rest) && ValidUtf8(Render(d) + rest) && depth <= MAX_DEPTH
    ensures ParseValue(strict, Render(d) + rest, depth) == Read(Allowed(d, depth), Value(d), rest)
    decreases d.members, 2
  {
    var (ms, inner) := (d.members, d.inner);
    var body := if ms == [] then inner else RenderMembers(ms);
    var s := Render(d) + rest;
    assert s == [OPEN_OBJECT] + (body + [CLOSE_OBJECT] + rest) && s[1..] == body + [CLOSE_OBJECT] + rest;
    SkipNothing(s);
    AfterAscii(s);
    var none: map<Text, Json> := map[];
    assert none.Keys == {};
    if ms == [] {
      EmptyBody(inner, CLOSE_OBJECT, rest);
    } else {
      ReadMembers(strict, ms, depth, rest, none);
      OpenMembers(strict, ms, depth, rest);
      ObjectOf(strict, s, depth, RenderMembers(ms) + [CLOSE_OBJECT] + rest);
    }
  }

  /** Past the white space before the first member. */
  lemma OpenMembers(strict: bool, ms: seq<Member>, depth: nat, rest: Bytes)
    requires ms != [] && LexicalMembers(ms) && ValidUtf8(RenderMembers(ms) + [CLOSE_OBJECT] + rest)
    ensures var u := SkipSpace(RenderMembers(ms) + [CLOSE_OBJECT] + rest); u != [] && u[0] == QUOTE
  {
    MembersSplit(ms, rest);
    MemberHead(ms[0], RenderPadded(ms[0].value) + AfterMember(ms, rest));
  }

  lemma ObjectOf(strict: bool, s: Bytes, depth: nat, t: Bytes)
    requires ValidUtf8(s) && SkipSpace(s) == s && s != [] && s[0] == OPEN_OBJECT && s[1..] == t && ValidUtf8(t) && depth <= MAX_DEPTH
    requires SkipSpace(t) != [] && SkipSpace(t)[0] == QUOTE
    ensures var r := ParseMembers(strict, t, depth, map[]);
      ParseValue(strict, s, depth) == if r.None? then None else Some((Obj(r.value.0), r.value.1))
  {
    MembersSkip(strict, t, depth, map[]);
  }

  /**
   A document, however it is spelled and spaced, reads as its value, whatever the order of its
   members, unless it repeats a name in an object or nests deeper than the bound: then it is refused.
   */
  lemma ParseRender(strict: bool, p: Padded)
    requires LexicalPadded(p)
    ensures ValidUtf8(RenderPadded(p))
    ensures Parse(strict, RenderPadded(p)) == if AllowedPadded(p, 0) then Some(PaddedValue(p)) else None
  {
    ReadPadded(strict, p, 0, []);
    assert RenderPadded(p) + [] == RenderPadded(p);
  }
}
