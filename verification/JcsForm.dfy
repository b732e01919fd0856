/** What a canonical document looks like (sections 3.2.1 to 3.2.3 of RFC 8785), and that there is one for each value. */
module JcsForm {
  import opened Prelude
  import opened JcsUtf8
  import opened JcsOrder
  import opened JcsStrings
  import opened JcsTree
  import opened JcsGrammar
  import opened JcsCanonical

  // ----- the form -----

  predicate NoSpace(p: Padded) { p.before == [] && p.after == [] }

  /** Every character in its canonical spelling. */
  ghost predicate WellSpelled(ps: seq<Piece>) {
    forall i :: 0 <= i < |ps| ==> exists r: int :: Scalar(r) && ps[i] == CanonicalPiece(r)
  }

  /** Names ascend by their UTF-16 code units. */
  ghost predicate Ascend(ms: seq<Member>) {
    forall i, j :: 0 <= i < j < |ms| ==> Before(Utf16(MeantAll(ms[i].name)), Utf16(MeantAll(ms[j].name)))
  }

  ghost predicate InForm(d: Doc)
    decreases d, 0
  {
    match d
    case DStr(pieces) => WellSpelled(pieces)
    case DArr(elements, inner) =>
      inner == [] && forall i :: 0 <= i < |elements| ==> NoSpace(elements[i]) && InFormPadded(elements[i])
    case DObj(members, inner) =>
      inner == [] && Ascend(members) && forall i :: 0 <= i < |members| ==> InFormMember(members[i])
    case _ => true
  }

  ghost predicate InFormPadded(p: Padded)
    decreases p, 0
  {
    InForm(p.doc)
  }

  ghost predicate InFormMember(m: Member)
    decreases m, 1
  {
    m.before == [] && m.gap == [] && WellSpelled(m.name) && NoSpace(m.value) && InFormPadded(m.value)
  }

  // ----- the canonical document has it -----

  lemma {:induction false} CanonicalIsWellSpelled(s: Text)
    ensures WellSpelled(CanonicalPieces(s))
    decreases |s|
  {
    if s != [] {
      var r, tail := CanonicalHead(s);
      assert |tail| < |s|;
      CanonicalIsWellSpelled(tail);
      var ps := CanonicalPieces(s);
      forall i | 0 <= i < |ps| ensures exists r: int :: Scalar(r) && ps[i] == CanonicalPiece(r) {
        if i > 0 { assert ps[i] == CanonicalPieces(tail)[i - 1]; }
      }
    }
  }

  lemma {:induction false} ArrangeIsInForm(v: Json)
    ensures InForm(Arrange(v))
    decreases v, 2, 0
  {
    match v
    case Str(text) => CanonicalIsWellSpelled(text);
    case Arr(elements) =>
      var ps := Arrange(v).elements;
      forall i | 0 <= i < |ps| ensures NoSpace(ps[i]) && InFormPadded(ps[i]) { ArrangeIsInForm(elements[i]); }
    case Obj(members) =>
      var ks := SortedKeys(members.Keys);
      SortedKeysAreSorted(members.Keys);
      EntriesInForm(v, ks);
      EntriesAscend(ArrangeMembers(v, ks), ks);
    case _ =>
  }

  lemma {:induction false} EntriesInForm(v: Json, ks: seq<Text>)
    requires v.Obj? && Elements(ks) <= v.members.Keys
    ensures forall i :: 0 <= i < |ks| ==> InFormMember(ArrangeMembers(v, ks)[i])
    decreases v, 1, |ks|
  {
    if ks != [] {
      assert ks[0] in Elements(ks);
      TailSubset(ks);
      CanonicalIsWellSpelled(ks[0]);
      ArrangeIsInForm(v.members[ks[0]]);
      EntriesInForm(v, ks[1..]);
      var ms := ArrangeMembers(v, ks);
      forall i | 0 <= i < |ks| ensures InFormMember(ms[i]) {
        if i > 0 { assert ms[i] == ArrangeMembers(v, ks[1..])[i - 1]; }
      }
    }
  }

  lemma EntriesAscend(ms: seq<Member>, ks: seq<Text>)
    requires |ms| == |ks| && (forall i :: 0 <= i < |ks| ==> ms[i].name == CanonicalPieces(ks[i])) && StrictlySorted(ks)
    ensures Ascend(ms)
  {
    forall i, j | 0 <= i < j < |ms| ensures Before(Utf16(MeantAll(ms[i].name)), Utf16(MeantAll(ms[j].name))) {
      EscapeIsCanonical(ks[i]);
      EscapeIsCanonical(ks[j]);
      assert Less(ks[i], ks[j]);
      LessIsBefore(ks[i], ks[j]);
    }
  }

  // ----- and no other document of the same value has it -----

  lemma PieceIsItsRune(p: Piece, r: int)
    requires Scalar(r) && p == CanonicalPiece(r)
    ensures Meant(p) == EncodeRune(r)
  {
    CanonicalMeans(r);
  }

  lemma {:induction false} WellSpelledIsCanonical(ps: seq<Piece>)
    requires WellSpelled(ps)
    ensures ps == CanonicalPieces(MeantAll(ps))
  {
    if ps != [] {
      var r: int :| Scalar(r) && ps[0] == CanonicalPiece(r);
      PieceIsItsRune(ps[0], r);
      WellSpelledIsCanonical(ps[1..]);
      CanonicalOfHead(r, MeantAll(ps[1..]));
      assert ps == [ps[0]] + ps[1..];
    }
  }

  lemma CanonicalOfHead(r: int, tail: Text)
    requires Scalar(r)
    ensures ValidUtf8(EncodeRune(r) + tail)
    ensures CanonicalPieces(EncodeRune(r) + tail) == [CanonicalPiece(r)] + CanonicalPieces(tail)
  {
    EncodedRuneIsValid(r);
    ValidConcat(EncodeRune(r), tail);
    var s := EncodeRune(r) + tail;
    HeadOfEncoded(r, tail);
    assert s[|EncodeRune(r)|..] == tail;
  }

  lemma HeadOfEncoded(r: int, tail: Bytes)
    requires Scalar(r)
    ensures var s := EncodeRune(r) + tail; RuneLength(s[0]) == |EncodeRune(r)| && FirstRune(s) == r
  {
    var s := EncodeRune(r) + tail;
    assert EncodeRune(r) == s[..|EncodeRune(r)|];
    if r < 0x80 {
    } else if r < 0x800 {
      assert s[0] == 0xC0 + r / 0x40 && s[1] == 0x80 + r % 0x40;
    } else if r < 0x10000 {
      ThreeOfRune(r, s);
    } else {
      FourOfRune(r, s);
    }
  }

  lemma ThreeOfRune(r: int, s: Bytes)
    requires 0x800 <= r < 0x10000 && |s| >= 3
    requires s[0] == 0xE0 + r / 0x1000 && s[1] == 0x80 + r / 0x40 % 0x40 && s[2] == 0x80 + r % 0x40
    ensures RuneLength(s[0]) == 3 && FirstRune(s) == r
  {
    var g := r / 0x40;
    assert g / 0x40 == r / 0x1000;
    assert r == g * 0x40 + r % 0x40 && g == g / 0x40 * 0x40 + g % 0x40;
  }

  lemma FourOfRune(r: int, s: Bytes)
    requires 0x10000 <= r < 0x110000 && |s| >= 4
    requires s[0] == 0xF0 + r / 0x40000 && s[1] == 0x80 + r / 0x1000 % 0x40 && s[2] == 0x80 + r / 0x40 % 0x40 && s[3] == 0x80 + r % 0x40
    ensures RuneLength(s[0]) == 4 && FirstRune(s) == r
  {
    var (g, h) := (r / 0x40, r / 0x1000);
    assert g / 0x40 == h && h / 0x40 == r / 0x40000;
    assert r == g * 0x40 + r % 0x40 && g == g / 0x40 * 0x40 + g % 0x40 && h == h / 0x40 * 0x40 + h % 0x40;
  }

  /** The one document of a value in canonical form is the one appendCanonical writes. */
  lemma {:induction false} FormIsUnique(d: Doc, depth: nat)
    requires Sound(d, depth) && InForm(d)
    ensures d == Arrange(Value(d))
    decreases d, 1
  {
    match d
    case DStr(pieces) => WellSpelledIsCanonical(pieces);
    case DArr(elements, _) => ArrayFormIsUnique(d, depth);
    case DObj(members, _) => ObjectFormIsUnique(d, depth);
    case _ =>
  }

  lemma {:induction false} AllowedAt(ps: seq<Padded>, depth: nat, i: nat)
    requires AllowedElements(ps, depth) && i < |ps|
    ensures AllowedPadded(ps[i], depth)
  {
    if i > 0 { AllowedAt(ps[1..], depth, i - 1); }
  }

  lemma {:induction false} ArrayFormIsUnique(d: Doc, depth: nat)
    requires d.DArr? && Sound(d, depth) && InForm(d)
    ensures d == Arrange(Value(d))
    decreases d, 0
  {
    forall i | 0 <= i < |d.elements| ensures d.elements[i] == Bare(Arrange(Values(d.elements)[i])) {
      AllowedAt(d.elements, depth + 1, i);
      ValuesAt(d.elements, i);
      assert LexicalPadded(d.elements[i]) && InFormPadded(d.elements[i]) && NoSpace(d.elements[i]);
      FormIsUnique(d.elements[i].doc, depth + 1);
    }
    assert Arrange(Value(d)).elements == d.elements;
  }

  /** The names of an object, in the order they are written. */
  function Names(ms: seq<Member>): (ks: seq<Text>)
    ensures |ks| == |ms| && forall i :: 0 <= i < |ms| ==> ks[i] == MeantAll(ms[i].name)
  {
    if ms == [] then [] else [MeantAll(ms[0].name)] + Names(ms[1..])
  }

  lemma AscendingNames(ms: seq<Member>)
    requires Ascend(ms)
    ensures StrictlySorted(Names(ms))
  {
    var ks := Names(ms);
    forall i, j | 0 <= i < j < |ks| ensures Less(ks[i], ks[j]) {
      LessIsBefore(ks[i], ks[j]);
    }
  }

  /** An object's value holds its members' values, and what was there before. */
  lemma {:induction false} MembersTold(ms: seq<Member>, depth: nat, seen: map<Text, Json>)
    requires LexicalMembers(ms) && AllowedMembers(ms, depth, seen.Keys)
    ensures var m := MembersOf(ms, seen);
      && m.Keys == seen.Keys + Elements(Names(ms))
      && (forall i :: 0 <= i < |ms| ==> AllowedPadded(ms[i].value, depth) && m[Names(ms)[i]] == PaddedValue(ms[i].value))
      && forall k :: k in seen ==> k in m && m[k] == seen[k]
    decreases |ms|
  {
    if ms == [] {
      assert Names(ms) == [];
    } else {
      var name := MeantAll(ms[0].name);
      var grown := seen[name := PaddedValue(ms[0].value)];
      assert grown.Keys == seen.Keys + {name};
      MembersTold(ms[1..], depth, grown);
      NamesGrow(ms);
      var m := MembersOf(ms, seen);
      forall i | 0 <= i < |ms| ensures AllowedPadded(ms[i].value, depth) && m[Names(ms)[i]] == PaddedValue(ms[i].value) {
        if i > 0 { assert ms[i] == ms[1..][i - 1] && Names(ms)[i] == Names(ms[1..])[i - 1]; }
      }
    }
  }

  lemma NamesGrow(ms: seq<Member>)
    requires ms != []
    ensures Names(ms) == [MeantAll(ms[0].name)] + Names(ms[1..])
    ensures Elements(Names(ms)) == {MeantAll(ms[0].name)} + Elements(Names(ms[1..]))
  {
    forall k ensures k in Elements(Names(ms)) <==> k in {MeantAll(ms[0].name)} + Elements(Names(ms[1..])) {
      assert k in Names(ms) <==> k == MeantAll(ms[0].name) || k in Names(ms[1..]);
    }
  }

  /** A member in form is the entry of its name and value. */
  lemma {:induction false} MemberFormIsUnique(m: Member, depth: nat)
    requires LexicalMember(m) && InFormMember(m) && AllowedPadded(m.value, depth)
    ensures m == Entry(MeantAll(m.name), Arrange(PaddedValue(m.value)))
    decreases m, 2
  {
    FormIsUnique(m.value.doc, depth);
    WellSpelledIsCanonical(m.name);
  }

  lemma NamesAreTheSorted(ms: seq<Member>, m: map<Text, Json>)
    requires Ascend(ms) && m.Keys == Elements(Names(ms))
    ensures Names(ms) == SortedKeys(m.Keys)
  {
    AscendingNames(ms);
    SortedKeysAreSorted(m.Keys);
    SortedIsUnique(Names(ms), SortedKeys(m.Keys));
  }

  /** What MembersTold says of a whole object. */
  predicate Tells(ms: seq<Member>, m: map<Text, Json>, depth: nat) {
    && m.Keys == Elements(Names(ms))
    && forall i :: 0 <= i < |ms| ==> Names(ms)[i] in m && AllowedPadded(ms[i].value, depth) && m[Names(ms)[i]] == PaddedValue(ms[i].value)
  }

  lemma ObjectTells(ms: seq<Member>, depth: nat)
    requires LexicalMembers(ms) && AllowedMembers(ms, depth, {})
    ensures Tells(ms, MembersOf(ms, map[]), depth)
  {
    var none: map<Text, Json> := map[];
    assert none.Keys == {};
    MembersTold(ms, depth, none);
    forall i | 0 <= i < |ms| ensures Names(ms)[i] in Elements(Names(ms)) { }
  }

  lemma {:induction false} ObjectFormIsUnique(d: Doc, depth: nat)
    requires d.DObj? && Sound(d, depth) && InForm(d)
    ensures d == Arrange(Value(d))
    decreases d, 0
  {
    ObjectTells(d.members, depth + 1);
    EntriesAreUnique(d.members, Value(d).members, depth + 1);
    NamesAreTheSorted(d.members, Value(d).members);
    SameEntries(Value(d), Names(d.members), d.members);
    ObjectOfEntries(d, Value(d), d.members);
  }

  lemma {:induction false} EntriesAreUnique(ms: seq<Member>, m: map<Text, Json>, depth: nat)
    requires LexicalMembers(ms) && Tells(ms, m, depth) && forall i :: 0 <= i < |ms| ==> InFormMember(ms[i])
    ensures forall i :: 0 <= i < |ms| ==> ms[i] == Entry(Names(ms)[i], Arrange(m[Names(ms)[i]]))
    decreases ms, 3
  {
    forall i | 0 <= i < |ms| ensures ms[i] == Entry(Names(ms)[i], Arrange(m[Names(ms)[i]])) {
      MemberFormIsUnique(ms[i], depth);
    }
  }

  lemma ObjectOfEntries(d: Doc, v: Json, ms: seq<Member>)
    requires v.Obj? && Elements(SortedKeys(v.members.Keys)) <= v.members.Keys
    requires d == DObj(ms, []) && ArrangeMembers(v, SortedKeys(v.members.Keys)) == ms
    ensures d == Arrange(v)
  {
  }

  lemma {:induction false} SameEntries(v: Json, ks: seq<Text>, ms: seq<Member>)
    requires v.Obj? && |ms| == |ks| && Elements(ks) <= v.members.Keys && (forall i :: 0 <= i < |ks| ==> ks[i] in v.members)
    requires forall i :: 0 <= i < |ms| ==> ms[i] == Entry(ks[i], Arrange(v.members[ks[i]]))
    ensures ArrangeMembers(v, ks) == ms
    decreases |ks|
  {
    if ks != [] {
      TailSubset(ks);
      SameEntries(v, ks[1..], ms[1..]);
      assert ms == [ms[0]] + ms[1..];
    }
  }

  // ----- Canonicalize -----

  /** p is a document in canonical form that means v. */
  ghost predicate Forms(p: Padded, v: Json) {
    LexicalPadded(p) && AllowedPadded(p, 0) && NoSpace(p) && InForm(p.doc) && PaddedValue(p) == v
  }

  /** Its text is what Canonicalize writes for the value, and no other document in that form means it. */
  lemma CanonicalIsTheForm(v: Json)
    requires Fits(v, 0)
    ensures exists p :: Forms(p, v) && RenderPadded(p) == Canonical(v)
    ensures forall p :: Forms(p, v) ==> RenderPadded(p) == Canonical(v)
  {
    ArrangeIsSound(v, 0);
    ArrangeIsInForm(v);
    BareIsSound(Arrange(v), 0);
    assert Forms(Bare(Arrange(v)), v);
    forall p | Forms(p, v) ensures RenderPadded(p) == Canonical(v) {
      FormIsUnique(p.doc, 0);
      assert p == Bare(p.doc);
    }
  }

  /** A document of the grammar with other names and depths. */
  predicate Spells(p: Padded, document: Bytes) {
    LexicalPadded(p) && AllowedPadded(p, 0) && RenderPadded(p) == document
  }

  /**
   Canonicalize on any bytes: they are accepted exactly when they are UTF-8 and a document of the
   grammar all of whose numbers can be printed, and then the result is the one document in canonical form that means the same,
   numbers in the form they print in.
   */
  lemma CanonicalizeIsTheForm(fmt: NumberFormat, document: Bytes, out: Bytes)
    requires Lawful(fmt)
    ensures Canonicalize(fmt, document) == Ok(out) <==>
      ValidUtf8(document) &&
      exists p, q :: Spells(p, document) && Normalize(fmt, PaddedValue(p)).Some? && Forms(q, Normalize(fmt, PaddedValue(p)).value) && RenderPadded(q) == out
  {
    if Canonicalize(fmt, document) == Ok(out) {
      NoSurrogateIsReplaced(fmt, document);
      var v := Parse(true, document).value;
      ParseIsTheGrammar(document, v);
      var p :| Writes(p, document, v);
      MeaningFits(fmt, document);
      CanonicalIsTheForm(Meaning(fmt, document).value);
      var q :| Forms(q, Meaning(fmt, document).value) && RenderPadded(q) == Canonical(Meaning(fmt, document).value);
      assert Spells(p, document) && Normalize(fmt, PaddedValue(p)) == Some(Meaning(fmt, document).value);
    }
    if ValidUtf8(document) {
      forall p, q | Spells(p, document) && Normalize(fmt, PaddedValue(p)).Some? && Forms(q, Normalize(fmt, PaddedValue(p)).value) && RenderPadded(q) == out
        ensures Canonicalize(fmt, document) == Ok(out)
      {
        SoundDocumentMeans(fmt, p);
        MeaningFits(fmt, document);
        CanonicalIsTheForm(Meaning(fmt, document).value);
      }
    }
  }
}
