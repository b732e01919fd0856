/** The other direction: whatever the strict reader accepts is a document written by the grammar, and means what was read. */
module JcsGrammar {
  import opened Prelude
  import opened JcsUtf8
  import opened JcsStrings
  import opened JcsNumbers
  import opened JcsTree
  import opened JcsRoundTrip

  lemma {:induction false} WrittenSpace(s: Bytes) returns (space: Bytes)
    requires ValidUtf8(s)
    ensures AllSpace(space) && s == space + SkipSpace(s)
    decreases |s|
  {
    if s != [] && IsSpace(s[0]) {
      AsciiSplits(Start, s);
      var more := WrittenSpace(s[1..]);
      space := [s[0]] + more;
      assert s == [s[0]] + s[1..];
    } else {
      space := [];
      assert [] + s == s;
    }
  }

  lemma WrittenScalar(s: Bytes) returns (d: Doc)
    requires ValidUtf8(s) && ParseScalar(true, s).Some?
    ensures Lexical(d) && !d.DArr? && !d.DObj? && Value(d) == ParseScalar(true, s).value.0
    ensures s == Render(d) + ParseScalar(true, s).value.1
  {
    if NULL <= s {
      d := DNull;
      assert s == NULL + s[4..];
    } else if TRUE <= s {
      d := DBool(true);
      assert s == TRUE + s[4..];
    } else if FALSE <= s {
      d := DBool(false);
      assert s == FALSE + s[5..];
    } else if s != [] && s[0] == QUOTE {
      d := WrittenString(s);
    } else {
      var n := NumberLength(s).value;
      WrittenNumber(s, n);
      d := DNum(s[..n]);
    }
  }

  lemma WrittenNumber(s: Bytes, n: nat)
    requires NumberLength(s) == Some(n)
    ensures Lexical(DNum(s[..n])) && s == s[..n] + s[n..]
  {
    NumberAlone(s);
    IsNumeral(s[..n]);
    Cut(s, n);
  }

  lemma IsNumeral(lit: Bytes)
    requires IsNumber(lit)
    ensures Lexical(DNum(lit))
  {
  }

  lemma Cut(s: Bytes, n: nat)
    requires n <= |s|
    ensures s == s[..n] + s[n..]
  {
  }

  lemma WrittenString(s: Bytes) returns (d: Doc)
    requires ValidUtf8(s) && s != [] && s[0] == QUOTE && ValidUtf8(s[1..]) && Unquote(true, Start, s[1..]).Some?
    ensures d.DStr? && Lexical(d) && MeantAll(d.pieces) == Unquote(true, Start, s[1..]).value.0
    ensures s == Render(d) + Unquote(true, Start, s[1..]).value.1
  {
    var ps := UnquoteWasSpelled(s[1..]);
    d := DStr(ps);
    Quoting(s, SpellAll(ps), Unquote(true, Start, s[1..]).value.1);
  }

  lemma Quoting(s: Bytes, body: Bytes, rest: Bytes)
    requires s != [] && s[0] == QUOTE && s[1..] == body + [QUOTE] + rest
    ensures s == ([QUOTE] + body + [QUOTE]) + rest
  {
    assert s == [QUOTE] + s[1..];
  }

  // ----- compound values -----

  lemma {:induction false} WrittenValue(s: Bytes, depth: nat) returns (space: Bytes, d: Doc)
    requires ValidUtf8(s) && ParseValue(true, s, depth).Some?
    ensures AllSpace(space) && Sound(d, depth) && Value(d) == ParseValue(true, s, depth).value.0
    ensures s == space + Render(d) + ParseValue(true, s, depth).value.1
    decreases |s|, 1
  {
    space := WrittenSpace(s);
    var t := SkipSpace(s);
    if t[0] == OPEN_ARRAY {
      d := WrittenArray(t, depth);
    } else if t[0] == OPEN_OBJECT {
      d := WrittenObject(t, depth);
    } else {
      d := WrittenScalar(t);
    }
    SkipTwice(s);
    RegroupThree(space, Render(d), ParseValue(true, s, depth).value.1);
  }

  lemma {:induction false} WrittenArray(t: Bytes, depth: nat) returns (d: Doc)
    requires ValidUtf8(t) && SkipSpace(t) == t && t != [] && t[0] == OPEN_ARRAY && ParseValue(true, t, depth).Some?
    ensures Sound(d, depth) && Value(d) == ParseValue(true, t, depth).value.0
    ensures t == Render(d) + ParseValue(true, t, depth).value.1
    decreases |t|, 0
  {
    AfterAscii(t);
    var u := SkipSpace(t[1..]);
    if u != [] && u[0] == CLOSE_ARRAY {
      var inner := WrittenSpace(t[1..]);
      d := DArr([], inner);
      WrittenBody(t, inner, CLOSE_ARRAY, u[1..]);
      assert Render(d) + u[1..] == [OPEN_ARRAY] + inner + [CLOSE_ARRAY] + u[1..];
    } else {
      ElementsSkip(true, t[1..], depth);
      var ps := WrittenElements(t[1..], depth);
      d := DArr(ps, []);
      var rest := ParseElements(true, t[1..], depth).value.1;
      WrittenBody(t, RenderElements(ps), CLOSE_ARRAY, rest);
    }
  }

  lemma WrittenBody(t: Bytes, body: Bytes, close: Byte, rest: Bytes)
    requires t != [] && t[1..] == body + [close] + rest
    ensures t == [t[0]] + body + [close] + rest
  {
    assert t == [t[0]] + t[1..];
  }

  lemma {:induction false} WrittenElements(s: Bytes, depth: nat) returns (ps: seq<Padded>)
    requires ValidUtf8(s) && ParseElements(true, s, depth).Some?
    ensures ps != [] && LexicalElements(ps) && AllowedElements(ps, depth + 1) && Values(ps) == ParseElements(true, s, depth).value.0
    ensures s == RenderElements(ps) + [CLOSE_ARRAY] + ParseElements(true, s, depth).value.1
    decreases |s|, 3
  {
    var p, t := WrittenPadded(s, depth + 1);
    AfterAscii(t);
    assert t == [t[0]] + t[1..];
    if t[0] == CLOSE_ARRAY {
      ps := [p];
      OneElement(p, depth + 1);
      assert s == RenderPadded(p) + [CLOSE_ARRAY] + t[1..];
    } else {
      var more := WrittenElements(t[1..], depth);
      ps := [p] + more;
      MoreElements(p, more, depth + 1);
      ElementsJoin(RenderPadded(p), t, RenderElements(more), ParseElements(true, t[1..], depth).value.1, CLOSE_ARRAY);
    }
  }

  /** A value with the white space on both sides, and what stops it. */
  lemma {:induction false} WrittenPadded(s: Bytes, depth: nat) returns (p: Padded, t: Bytes)
    requires ValidUtf8(s) && ParseValue(true, s, depth).Some?
    ensures LexicalPadded(p) && AllowedPadded(p, depth) && PaddedValue(p) == ParseValue(true, s, depth).value.0
    ensures t == SkipSpace(ParseValue(true, s, depth).value.1) && s == RenderPadded(p) + t && |t| < |s|
    decreases |s|, 2
  {
    var before, d := WrittenValue(s, depth);
    var rest := ParseValue(true, s, depth).value.1;
    var after := WrittenSpace(rest);
    p, t := Padded(before, d, after), SkipSpace(rest);
    RegroupThree(before + Render(d), after, t);
  }

  lemma OneElement(p: Padded, depth: nat)
    requires LexicalPadded(p) && AllowedPadded(p, depth)
    ensures LexicalElements([p]) && AllowedElements([p], depth) && Values([p]) == [PaddedValue(p)] && RenderElements([p]) == RenderPadded(p)
  {
    assert [p][1..] == [];
  }

  lemma MoreElements(p: Padded, more: seq<Padded>, depth: nat)
    requires LexicalPadded(p) && AllowedPadded(p, depth) && more != [] && LexicalElements(more) && AllowedElements(more, depth)
    ensures LexicalElements([p] + more) && AllowedElements([p] + more, depth) && Values([p] + more) == [PaddedValue(p)] + Values(more)
    ensures RenderElements([p] + more) == RenderPadded(p) + [COMMA] + RenderElements(more)
  {
    assert ([p] + more)[1..] == more;
  }

  lemma ElementsJoin(a: Bytes, t: Bytes, more: Bytes, rest: Bytes, close: Byte)
    requires t != [] && t[0] == COMMA && t[1..] == more + [close] + rest
    ensures a + t == (a + [COMMA] + more) + [close] + rest
  {
    assert t == [COMMA] + t[1..];
  }

  lemma {:induction false} WrittenObject(t: Bytes, depth: nat) returns (d: Doc)
    requires ValidUtf8(t) && SkipSpace(t) == t && t != [] && t[0] == OPEN_OBJECT && ParseValue(true, t, depth).Some?
    ensures Sound(d, depth) && Value(d) == ParseValue(true, t, depth).value.0
    ensures t == Render(d) + ParseValue(true, t, depth).value.1
    decreases |t|, 0
  {
    AfterAscii(t);
    var u := SkipSpace(t[1..]);
    var none: map<Text, Json> := map[];
    assert none.Keys == {};
    if u != [] && u[0] == CLOSE_OBJECT {
      var inner := WrittenSpace(t[1..]);
      d := DObj([], inner);
      WrittenBody(t, inner, CLOSE_OBJECT, u[1..]);
      assert Render(d) + u[1..] == [OPEN_OBJECT] + inner + [CLOSE_OBJECT] + u[1..];
    } else {
      MembersSkip(true, t[1..], depth, none);
      var ms := WrittenMembers(t[1..], depth, none);
      d := DObj(ms, []);
      WrittenBody(t, RenderMembers(ms), CLOSE_OBJECT, ParseMembers(true, t[1..], depth, none).value.1);
    }
  }

  lemma WrittenName(s: Bytes) returns (before: Bytes, name: seq<Piece>, gap: Bytes)
    requires ValidUtf8(s) && ParseName(true, s).Some?
    ensures AllSpace(before) && AllSpace(gap) && MeantAll(name) == ParseName(true, s).value.0
    ensures s == before + Spelled(name) + gap + [COLON] + ParseName(true, s).value.1
  {
    before := WrittenSpace(s);
    var t := SkipSpace(s);
    AfterAscii(t);
    var d := WrittenString(t);
    name := d.pieces;
    var rest := Unquote(true, Start, t[1..]).value.1;
    gap := WrittenSpace(rest);
    var u := SkipSpace(rest);
    assert u == [COLON] + u[1..];
    LabelSplit(before, Spelled(name), gap, [COLON], u[1..]);
  }

  lemma {:induction false} WrittenMembers(s: Bytes, depth: nat, seen: map<Text, Json>) returns (ms: seq<Member>)
    requires ValidUtf8(s) && ParseMembers(true, s, depth, seen).Some?
    ensures ms != [] && LexicalMembers(ms) && AllowedMembers(ms, depth + 1, seen.Keys)
    ensures MembersOf(ms, seen) == ParseMembers(true, s, depth, seen).value.0
    ensures s == RenderMembers(ms) + [CLOSE_OBJECT] + ParseMembers(true, s, depth, seen).value.1
    decreases |s|, 3
  {
    var m, t := WrittenMember(s, depth);
    var (name, v) := (MeantAll(m.name), PaddedValue(m.value));
    AfterAscii(t);
    assert t == [t[0]] + t[1..];
    assert seen[name := v].Keys == seen.Keys + {name};
    if t[0] == CLOSE_OBJECT {
      ms := [m];
      OneMember(m, depth + 1, seen);
      assert s == RenderMember(m) + [CLOSE_OBJECT] + t[1..];
    } else {
      var more := WrittenMembers(t[1..], depth, seen[name := v]);
      ms := [m] + more;
      MoreMembers(m, more, depth + 1, seen);
      ElementsJoin(RenderMember(m), t, RenderMembers(more), ParseMembers(true, t[1..], depth, seen[name := v]).value.1, CLOSE_OBJECT);
    }
  }

  lemma {:induction false} WrittenMember(s: Bytes, depth: nat) returns (m: Member, t: Bytes)
    requires ValidUtf8(s) && ParseName(true, s).Some? && ParseValue(true, ParseName(true, s).value.1, depth + 1).Some?
    ensures LexicalMember(m) && AllowedPadded(m.value, depth + 1) && MeantAll(m.name) == ParseName(true, s).value.0
    ensures var (v, rest) := ParseValue(true, ParseName(true, s).value.1, depth + 1).value;
      PaddedValue(m.value) == v && t == SkipSpace(rest)
    ensures s == RenderMember(m) + t && |t| < |s|
    decreases |s|, 2
  {
    var before, name, gap := WrittenName(s);
    var p, tail := WrittenPadded(ParseName(true, s).value.1, depth + 1);
    t := tail;
    m := Member(before, name, gap, p);
    assert RenderMember(m) == before + Spelled(name) + gap + [COLON] + RenderPadded(p);
  }

  lemma OneMember(m: Member, depth: nat, seen: map<Text, Json>)
    requires LexicalMember(m) && AllowedPadded(m.value, depth) && MeantAll(m.name) !in seen
    ensures LexicalMembers([m]) && AllowedMembers([m], depth, seen.Keys) && RenderMembers([m]) == RenderMember(m)
    ensures MembersOf([m], seen) == seen[MeantAll(m.name) := PaddedValue(m.value)]
  {
    assert [m][1..] == [];
  }

  lemma MoreMembers(m: Member, more: seq<Member>, depth: nat, seen: map<Text, Json>)
    requires LexicalMember(m) && AllowedPadded(m.value, depth) && MeantAll(m.name) !in seen
    requires more != [] && LexicalMembers(more) && AllowedMembers(more, depth, seen.Keys + {MeantAll(m.name)})
    ensures LexicalMembers([m] + more) && AllowedMembers([m] + more, depth, seen.Keys)
    ensures MembersOf([m] + more, seen) == MembersOf(more, seen[MeantAll(m.name) := PaddedValue(m.value)])
    ensures RenderMembers([m] + more) == RenderMember(m) + [COMMA] + RenderMembers(more)
  {
    assert ([m] + more)[1..] == more;
  }

  // ----- both directions -----

  /** A document of the grammar: its names differ, it is shallow enough, and it is written as s and means v. */
  predicate Writes(p: Padded, s: Bytes, v: Json) {
    LexicalPadded(p) && AllowedPadded(p, 0) && RenderPadded(p) == s && PaddedValue(p) == v
  }

  /** The strict reader accepts exactly the documents of the grammar, and reads each as what it means. */
  lemma ParseIsTheGrammar(s: Bytes, v: Json)
    requires ValidUtf8(s)
    ensures Parse(true, s) == Some(v) <==> exists p :: Writes(p, s, v)
  {
    if Parse(true, s) == Some(v) {
      var p, t := WrittenPadded(s, 0);
      assert RenderPadded(p) + [] == RenderPadded(p);
      assert Writes(p, s, v);
    }
    if p: Padded :| Writes(p, s, v) { ParseRender(true, p); }
  }
}
