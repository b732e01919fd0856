/** The loops, buffers and the token reader of the canonicalizer. */
module JcsMachine {
  import opened Prelude
  import opened JcsUtf8
  import opened JcsOrder
  import opened JcsStrings
  import opened JcsTree
  import opened JcsCanonical

  function HexPrefix(value: Bytes, n: nat): Option<int>
    requires n <= |value|
  {
    if n == 0 then Some(0)
    else
      match (HexPrefix(value, n - 1), HexDigit(value[n - 1]))
      case (Some(high), Some(digit)) => Some(high * 16 + digit)
      case _ => None
  }

  method ReadFourHex(value: Bytes) returns (r: Option<int>)
    ensures r == FourHex(value)
  {
    if |value| != 4 { return None; }
    var result := 0;
    var i := 0;
    while i < 4
      invariant 0 <= i <= 4 && HexPrefix(value, i) == Some(result)
    {
      var digit := HexDigit(value[i]);
      if digit.None? {
        return None;
      }
      result := result * 16 + digit.value;
      i := i + 1;
    }
    FourHexPrefix(value);
    r := Some(result);
  }

  lemma FourHexPrefix(value: Bytes)
    requires |value| == 4
    ensures FourHex(value) == HexPrefix(value, 4)
  {
    assert HexPrefix(value, 1) == HexDigit(value[0]) by { assert HexPrefix(value, 0) == Some(0); }
    assert HexPrefix(value, 4) == match (HexPrefix(value, 3), HexDigit(value[3]))
      case (Some(high), Some(digit)) => Some(high * 16 + digit)
      case _ => None;
    assert HexPrefix(value, 3) == match (HexPrefix(value, 2), HexDigit(value[2]))
      case (Some(high), Some(digit)) => Some(high * 16 + digit)
      case _ => None;
  }

  method ValidUnicodeEscapes(document: Bytes) returns (ok: bool)
    ensures ok == Scan(false, document)
  {
    var inString := false;
    var index := 0;
    while index < |document|
      invariant 0 <= index <= |document|
      invariant Scan(inString, document[index..]) == Scan(false, document)
    {
      var s := document[index..];
      if document[index] == QUOTE {
        assert s[1..] == document[index + 1..];
        inString := !inString;
        index := index + 1;
      } else if document[index] != BACKSLASH || !inString {
        assert s[1..] == document[index + 1..];
        index := index + 1;
      } else {
        if index + 1 >= |document| { return false; }
        if document[index + 1] != LETTER_U {
          assert s[2..] == document[index + 2..];
          index := index + 2;
        } else {
          if index + 5 >= |document| { return false; }
          assert s[2..6] == document[index + 2..index + 6];
          var value := ReadFourHex(document[index + 2..index + 6]);
          if value.None? { return false; }
          if 0xDC00 <= value.value <= 0xDFFF { return false; }
          assert s[6..] == document[index + 6..];
          if value.value < 0xD800 || value.value > 0xDBFF {
            index := index + 6;
          } else {
            if index + 11 >= |document| || document[index + 6] != BACKSLASH || document[index + 7] != LETTER_U { return false; }
            assert s[6..][2..6] == document[index + 8..index + 12];
            var low := ReadFourHex(document[index + 8..index + 12]);
            if low.None? || low.value < 0xDC00 || low.value > 0xDFFF { return false; }
            assert s[12..] == document[index + 12..];
            index := index + 12;
          }
        }
      }
    }
    ok := !inString;
  }

  method LessUtf16(left: Text, right: Text) returns (less: bool)
    ensures less == Less(left, right) && (less <==> Before(Utf16(left), Utf16(right)))
  {
    LessIsBefore(left, right);
    var (leftUnits, rightUnits) := (Utf16(left), Utf16(right));
    var index := 0;
    while index < |leftUnits| && index < |rightUnits|
      invariant 0 <= index <= |leftUnits| && index <= |rightUnits|
      invariant LessUnits(leftUnits[index..], rightUnits[index..]) == LessUnits(leftUnits, rightUnits)
    {
      if leftUnits[index] != rightUnits[index] { return leftUnits[index] < rightUnits[index]; }
      assert leftUnits[index..][1..] == leftUnits[index + 1..] && rightUnits[index..][1..] == rightUnits[index + 1..];
      index := index + 1;
    }
    less := |leftUnits| < |rightUnits|;
  }

  // ----- sorting member names -----

  method InsertName(ks: seq<Text>, k: Text) returns (r: seq<Text>)
    requires StrictlySorted(ks) && k !in ks
    ensures StrictlySorted(r) && Elements(r) == Elements(ks) + {k}
  {
    var i := 0;
    while i < |ks|
      invariant 0 <= i <= |ks| && forall j :: 0 <= j < i ==> Less(ks[j], k)
    {
      var before := LessUtf16(ks[i], k);
      if !before { break; }
      i := i + 1;
    }
    r := ks[..i] + [k] + ks[i..];
    InsertionSorts(ks, k, i);
  }

  lemma InsertionSorts(ks: seq<Text>, k: Text, i: nat)
    requires StrictlySorted(ks) && k !in ks && i <= |ks|
    requires forall j :: 0 <= j < i ==> Less(ks[j], k)
    requires i < |ks| ==> !Less(ks[i], k)
    ensures StrictlySorted(ks[..i] + [k] + ks[i..])
    ensures Elements(ks[..i] + [k] + ks[i..]) == Elements(ks) + {k}
  {
    var r := ks[..i] + [k] + ks[i..];
    forall j | i <= j < |ks| ensures Less(k, ks[j]) {
      LessIsStrictTotal(k, ks[i], ks[j]);
    }
    forall a, b | 0 <= a < b < |r| ensures Less(r[a], r[b]) {
      if a < i && b > i { assert Less(ks[a], ks[b - 1]); }
    }
    forall x ensures x in Elements(r) <==> x in Elements(ks) + {k} {
      assert x in r <==> x in ks[..i] || x == k || x in ks[i..];
      assert x in ks <==> x in ks[..i] || x in ks[i..] by { assert ks == ks[..i] + ks[i..]; }
    }
  }

  /** Whatever order the map yields its keys in, the sorted slice is the canonical order. */
  method SortNames(keys: set<Text>) returns (ks: seq<Text>)
    ensures ks == SortedKeys(keys)
    ensures forall i, j :: 0 <= i < j < |ks| ==> Before(Utf16(ks[i]), Utf16(ks[j]))
    ensures Elements(ks) == keys && forall i :: 0 <= i < |ks| ==> ks[i] in keys
  {
    ks := [];
    var todo := keys;
    while todo != {}
      invariant todo <= keys && StrictlySorted(ks) && Elements(ks) == keys - todo
      decreases todo
    {
      var k: Text :| k in todo;
      todo := todo - {k};
      assert k !in ks by { assert k !in Elements(ks); }
      ks := InsertName(ks, k);
    }
    SortedKeysAreSorted(keys);
    SortedIsUnique(ks, SortedKeys(keys));
    forall i | 0 <= i < |ks| ensures ks[i] in keys { assert ks[i] in Elements(ks); }
    forall i, j | 0 <= i < j < |ks| ensures Before(Utf16(ks[i]), Utf16(ks[j])) { LessIsBefore(ks[i], ks[j]); }
  }

  // ----- printing -----

  class Buffer {
    var bytes: Bytes

    constructor ()
      ensures bytes == []
    {
      bytes := [];
    }

    method WriteString(s: Bytes)
      modifies this
      ensures bytes == old(bytes) + s
    {
      bytes := bytes + s;
    }

    method WriteByte(b: Byte)
      modifies this
      ensures bytes == old(bytes) + [b]
    {
      bytes := bytes + [b];
    }
  }

  lemma {:induction false} EscapeAppend(a: Bytes, b: Byte)
    ensures Escape(a + [b]) == Escape(a) + EscapeByte(b)
  {
    if a == [] {
      assert [] + [b] == [b] && Escape([b]) == EscapeByte(b) + Escape([]);
    } else {
      assert (a + [b])[1..] == a[1..] + [b];
      EscapeAppend(a[1..], b);
    }
  }

  method AppendByte(output: Buffer, character: Byte)
    modifies output
    ensures output.bytes == old(output.bytes) + EscapeByte(character)
  {
    if character == QUOTE || character == BACKSLASH {
      output.WriteByte(BACKSLASH);
      output.WriteByte(character);
    } else if character == 0x08 {
      output.WriteString([BACKSLASH, 0x62]);
    } else if character == 0x09 {
      output.WriteString([BACKSLASH, 0x74]);
    } else if character == 0x0A {
      output.WriteString([BACKSLASH, 0x6E]);
    } else if character == 0x0C {
      output.WriteString([BACKSLASH, 0x66]);
    } else if character == 0x0D {
      output.WriteString([BACKSLASH, 0x72]);
    } else if character < 0x20 {
      output.WriteString([BACKSLASH, LETTER_U, 0x30, 0x30]);
      output.WriteByte(HexByte(character / 16));
      output.WriteByte(HexByte(character % 16));
    } else {
      output.WriteByte(character);
    }
  }

  lemma EscapeOneMore(value: Bytes, i: nat)
    requires i < |value|
    ensures Escape(value[..i + 1]) == Escape(value[..i]) + EscapeByte(value[i])
  {
    EscapeAppend(value[..i], value[i]);
    assert value[..i] + [value[i]] == value[..i + 1];
  }

  method AppendJSONString(output: Buffer, value: Bytes)
    modifies output
    ensures output.bytes == old(output.bytes) + Quoted(value)
  {
    output.WriteByte(QUOTE);
    var i := 0;
    while i < |value|
      invariant 0 <= i <= |value|
      invariant output.bytes == old(output.bytes) + [QUOTE] + Escape(value[..i])
    {
      AppendByte(output, value[i]);
      EscapeOneMore(value, i);
      i := i + 1;
    }
    assert value[..|value|] == value;
    output.WriteByte(QUOTE);
  }

  /** The canonical spelling between its quotes is what is written for a string. */
  lemma QuotedIsSpelled(s: Text)
    ensures Spelled(CanonicalPieces(s)) == Quoted(s)
  {
    EscapeIsCanonical(s);
  }

  lemma BareRender(d: Doc)
    ensures RenderPadded(Bare(d)) == Render(d)
  {
    assert [] + Render(d) + [] == Render(d);
  }

  lemma EntryRender(name: Text, d: Doc)
    ensures RenderMember(Entry(name, d)) == Quoted(name) + [COLON] + Render(d)
  {
    QuotedIsSpelled(name);
    BareRender(d);
    assert [] + Quoted(name) + [] + [COLON] + Render(d) == Quoted(name) + [COLON] + Render(d);
  }

  lemma {:induction false} ElementsAppend(ps: seq<Padded>, p: Padded)
    ensures RenderElements(ps + [p]) == if ps == [] then RenderPadded(p) else RenderElements(ps) + [COMMA] + RenderPadded(p)
    decreases |ps|
  {
    if ps != [] {
      assert (ps + [p])[1..] == ps[1..] + [p];
      ElementsAppend(ps[1..], p);
    }
  }

  lemma {:induction false} MembersAppend(ms: seq<Member>, m: Member)
    ensures RenderMembers(ms + [m]) == if ms == [] then RenderMember(m) else RenderMembers(ms) + [COMMA] + RenderMember(m)
    decreases |ms|
  {
    if ms != [] {
      assert (ms + [m])[1..] == ms[1..] + [m];
      MembersAppend(ms[1..], m);
    }
  }

  /** Writes the canonical form of the value's normal form, or stops at a number that has none. */
  method AppendCanonical(fmt: NumberFormat, output: Buffer, value: Json) returns (ok: bool)
    modifies output
    ensures ok <==> Normalize(fmt, value).Some?
    ensures ok ==> output.bytes == old(output.bytes) + Canonical(Normalize(fmt, value).value)
    decreases value, 1
  {
    match value
    case Null => output.WriteString(NULL); ok := true;
    case Bool(b) => output.WriteString(if b then TRUE else FALSE); ok := true;
    case Str(text) =>
      QuotedIsSpelled(text);
      AppendJSONString(output, text);
      ok := true;
    case Num(lit) =>
      var number := fmt(lit);
      if number.None? { return false; }
      output.WriteString(number.value);
      ok := true;
    case Arr(elements) => ok := AppendArray(fmt, output, value);
    case Obj(members) => ok := AppendObject(fmt, output, value);
  }

  function Separator(first: bool): Bytes { if first then [] else [COMMA] }

  /** One turn of the array loop. */
  method AppendElement(fmt: NumberFormat, output: Buffer, element: Json, first: bool) returns (ok: bool)
    modifies output
    ensures ok <==> Normalize(fmt, element).Some?
    ensures ok ==> output.bytes == old(output.bytes) + Separator(first) + Canonical(Normalize(fmt, element).value)
    decreases element, 2
  {
    if !first { output.WriteByte(COMMA); }
    ok := AppendCanonical(fmt, output, element);
  }

  lemma ElementAppended(base: Bytes, done: seq<Padded>, d: Doc)
    ensures base + RenderElements(done + [Bare(d)]) == base + RenderElements(done) + Separator(done == []) + Render(d)
  {
    BareRender(d);
    ElementsAppend(done, Bare(d));
    if done == [] {
      assert RenderElements(done) == [];
    } else {
      Regroup(base, RenderElements(done), [COMMA], Render(d));
    }
  }

  lemma MemberAppended(base: Bytes, done: seq<Member>, m: Member)
    ensures base + RenderMembers(done + [m]) == base + RenderMembers(done) + Separator(done == []) + RenderMember(m)
  {
    MembersAppend(done, m);
    if done == [] {
      assert RenderMembers(done) == [];
    } else {
      Regroup(base, RenderMembers(done), [COMMA], RenderMember(m));
    }
  }

  lemma Regroup(a: Bytes, b: Bytes, c: Bytes, d: Bytes)
    ensures a + (b + c + d) == a + b + c + d
  {
  }

  ghost predicate ElementsDone(fmt: NumberFormat, elements: seq<Json>, done: seq<Padded>) {
    |done| <= |elements| &&
    forall i :: 0 <= i < |done| ==> Normalize(fmt, elements[i]).Some? && done[i] == Bare(Arrange(Normalize(fmt, elements[i]).value))
  }

  lemma OneMoreElement(fmt: NumberFormat, elements: seq<Json>, done: seq<Padded>)
    requires |done| < |elements| && ElementsDone(fmt, elements, done) && Normalize(fmt, elements[|done|]).Some?
    ensures ElementsDone(fmt, elements, done + [Bare(Arrange(Normalize(fmt, elements[|done|]).value))])
  {
  }

  lemma ArrayDocument(fmt: NumberFormat, value: Json, done: seq<Padded>)
    requires value.Arr? && |done| == |value.elements| && ElementsDone(fmt, value.elements, done)
    ensures Normalize(fmt, value).Some? && Arrange(Normalize(fmt, value).value) == DArr(done, [])
  {
    assert Arrange(Normalize(fmt, value).value).elements == done;
  }

  method AppendArray(fmt: NumberFormat, output: Buffer, value: Json) returns (ok: bool)
    requires value.Arr?
    modifies output
    ensures ok <==> Normalize(fmt, value).Some?
    ensures ok ==> output.bytes == old(output.bytes) + Canonical(Normalize(fmt, value).value)
    decreases value, 0
  {
    var elements := value.elements;
    output.WriteByte(OPEN_ARRAY);
    ghost var base := output.bytes;
    ghost var done: seq<Padded> := [];
    var index := 0;
    while index < |elements|
      invariant 0 <= index <= |elements| && |done| == index && ElementsDone(fmt, elements, done)
      invariant output.bytes == base + RenderElements(done)
    {
      var fine := AppendElement(fmt, output, elements[index], index == 0);
      if !fine { return false; }
      ElementAppended(base, done, Arrange(Normalize(fmt, elements[index]).value));
      OneMoreElement(fmt, elements, done);
      done := done + [Bare(Arrange(Normalize(fmt, elements[index]).value))];
      index := index + 1;
    }
    output.WriteByte(CLOSE_ARRAY);
    ArrayDocument(fmt, value, done);
    ok := true;
  }

  ghost function NormalMember(fmt: NumberFormat, value: Json, key: Text): Member
    requires value.Obj? && key in value.members && Normalize(fmt, value.members[key]).Some?
  {
    Entry(key, Arrange(Normalize(fmt, value.members[key]).value))
  }

  /** One turn of the member loop. */
  method AppendMember(fmt: NumberFormat, output: Buffer, value: Json, key: Text, first: bool) returns (ok: bool)
    requires value.Obj? && key in value.members
    modifies output
    ensures ok <==> Normalize(fmt, value.members[key]).Some?
    ensures ok ==> output.bytes == old(output.bytes) + Separator(first) + RenderMember(NormalMember(fmt, value, key))
    decreases value, 0, 0
  {
    if !first { output.WriteByte(COMMA); }
    ghost var base := output.bytes;
    AppendJSONString(output, key);
    output.WriteByte(COLON);
    ok := AppendCanonical(fmt, output, value.members[key]);
    if ok { EntryAppended(base, key, Arrange(Normalize(fmt, value.members[key]).value)); }
  }

  lemma EntryAppended(base: Bytes, name: Text, d: Doc)
    ensures base + Quoted(name) + [COLON] + Render(d) == base + RenderMember(Entry(name, d))
  {
    EntryRender(name, d);
    Regroup(base, Quoted(name), [COLON], Render(d));
  }

  ghost predicate NormalUpTo(fmt: NumberFormat, value: Json, keys: seq<Text>, n: nat)
    requires value.Obj? && n <= |keys|
  {
    forall i :: 0 <= i < n ==> keys[i] in value.members && Normalize(fmt, value.members[keys[i]]).Some?
  }

  ghost predicate MembersDone(fmt: NumberFormat, value: Json, keys: seq<Text>, done: seq<Member>)
    requires value.Obj? && |done| <= |keys| && NormalUpTo(fmt, value, keys, |done|)
  {
    forall i :: 0 <= i < |done| ==> done[i] == NormalMember(fmt, value, keys[i])
  }

  lemma OneMoreMember(fmt: NumberFormat, value: Json, keys: seq<Text>, done: seq<Member>)
    requires value.Obj? && |done| < |keys| && NormalUpTo(fmt, value, keys, |done|) && MembersDone(fmt, value, keys, done)
    requires keys[|done|] in value.members && Normalize(fmt, value.members[keys[|done|]]).Some?
    ensures NormalUpTo(fmt, value, keys, |done| + 1)
    ensures MembersDone(fmt, value, keys, done + [NormalMember(fmt, value, keys[|done|])])
  {
  }

  method AppendMembers(fmt: NumberFormat, output: Buffer, value: Json, keys: seq<Text>)
    returns (ok: bool, ghost done: seq<Member>)
    requires value.Obj? && forall i :: 0 <= i < |keys| ==> keys[i] in value.members
    modifies output
    ensures ok <==> NormalUpTo(fmt, value, keys, |keys|)
    ensures ok ==> |done| == |keys| && MembersDone(fmt, value, keys, done)
    ensures ok ==> output.bytes == old(output.bytes) + RenderMembers(done)
    decreases value, 0, 1
  {
    ghost var base := output.bytes;
    done := [];
    var index := 0;
    while index < |keys|
      invariant 0 <= index <= |keys| && |done| == index && NormalUpTo(fmt, value, keys, index)
      invariant MembersDone(fmt, value, keys, done)
      invariant output.bytes == base + RenderMembers(done)
    {
      var fine := AppendMember(fmt, output, value, keys[index], index == 0);
      if !fine { return false, done; }
      MemberAppended(base, done, NormalMember(fmt, value, keys[index]));
      OneMoreMember(fmt, value, keys, done);
      done := done + [NormalMember(fmt, value, keys[index])];
      index := index + 1;
    }
    ok := true;
  }

  method AppendBraced(fmt: NumberFormat, output: Buffer, value: Json, keys: seq<Text>)
    returns (ok: bool, ghost done: seq<Member>)
    requires value.Obj? && forall i :: 0 <= i < |keys| ==> keys[i] in value.members
    modifies output
    ensures ok <==> NormalUpTo(fmt, value, keys, |keys|)
    ensures ok ==> |done| == |keys| && MembersDone(fmt, value, keys, done)
    ensures ok ==> output.bytes == old(output.bytes) + ([OPEN_OBJECT] + RenderMembers(done) + [CLOSE_OBJECT])
    decreases value, 0, 2
  {
    output.WriteByte(OPEN_OBJECT);
    ok, done := AppendMembers(fmt, output, value, keys);
    if ok { output.WriteByte(CLOSE_OBJECT); }
  }

  method AppendObject(fmt: NumberFormat, output: Buffer, value: Json) returns (ok: bool)
    requires value.Obj?
    modifies output
    ensures ok <==> Normalize(fmt, value).Some?
    ensures ok ==> output.bytes == old(output.bytes) + Canonical(Normalize(fmt, value).value)
    decreases value, 0, 3
  {
    var keys := SortNames(value.members.Keys);
    ghost var done: seq<Member>;
    ok, done := AppendBraced(fmt, output, value, keys);
    AllNormal(fmt, value, keys);
    if ok { SortedDocument(fmt, value, keys, done); }
  }

  lemma AllNormal(fmt: NumberFormat, value: Json, keys: seq<Text>)
    requires value.Obj? && Elements(keys) == value.members.Keys
    ensures NormalUpTo(fmt, value, keys, |keys|) <==> Normalize(fmt, value).Some?
  {
    if NormalUpTo(fmt, value, keys, |keys|) {
      forall k | k in value.members ensures Normalize(fmt, value.members[k]).Some? {
        assert k in Elements(keys);
      }
    }
    forall i | 0 <= i < |keys| ensures keys[i] in value.members { assert keys[i] in Elements(keys); }
  }

  lemma {:induction false} MembersAre(n: Json, keys: seq<Text>, done: seq<Member>)
    requires n.Obj? && Elements(keys) <= n.members.Keys && |done| == |keys|
    requires forall i :: 0 <= i < |keys| ==> keys[i] in n.members && done[i] == Entry(keys[i], Arrange(n.members[keys[i]]))
    ensures done == ArrangeMembers(n, keys)
    decreases |keys|
  {
    if keys != [] {
      TailSubset(keys);
      MembersAre(n, keys[1..], done[1..]);
    }
  }

  lemma SortedDocument(fmt: NumberFormat, value: Json, keys: seq<Text>, done: seq<Member>)
    requires value.Obj? && keys == SortedKeys(value.members.Keys) && Elements(keys) == value.members.Keys
    requires Normalize(fmt, value).Some? && |done| == |keys| && NormalUpTo(fmt, value, keys, |keys|)
    requires MembersDone(fmt, value, keys, done)
    ensures Canonical(Normalize(fmt, value).value) == [OPEN_OBJECT] + RenderMembers(done) + [CLOSE_OBJECT]
  {
    var n := Normalize(fmt, value).value;
    assert n.members.Keys == value.members.Keys;
    forall i | 0 <= i < |keys|
      ensures keys[i] in n.members && done[i] == Entry(keys[i], Arrange(n.members[keys[i]]))
    {
      assert keys[i] in value.members && done[i] == NormalMember(fmt, value, keys[i]);
    }
    MembersAre(n, keys, done);
    SortedArrangement(n, keys, done);
  }

  lemma SortedArrangement(n: Json, keys: seq<Text>, done: seq<Member>)
    requires n.Obj? && keys == SortedKeys(n.members.Keys) && Elements(keys) <= n.members.Keys
    requires done == ArrangeMembers(n, keys)
    ensures Canonical(n) == [OPEN_OBJECT] + RenderMembers(done) + [CLOSE_OBJECT]
  {
    assert Arrange(n) == DObj(done, []);
  }
}
