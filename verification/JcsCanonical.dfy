/** Canonicalize and DigestExcluding: what the canonical form is and what it identifies. */
module JcsCanonical {
  import opened Prelude
  import opened JcsUtf8
  import opened JcsOrder
  import opened JcsStrings
  import opened JcsNumbers
  import opened JcsTree
  import opened JcsRoundTrip
  import opened JcsScan

  datatype Error = InvalidJson | UnsupportedNumber

  /**
   ParseFloat followed by appendNumber, on literals.  None is a literal outside the range of a
   double.  Only the law below is asked of it; JcsDoubles is the source's own printing and meets it.
   */
  type NumberFormat = Bytes -> Option<Bytes>

  ghost predicate Lawful(fmt: NumberFormat) {
    forall lit :: IsNumber(lit) && fmt(lit).Some? ==>
      IsNumber(fmt(lit).value) && fmt(fmt(lit).value) == fmt(lit)
  }

  // ----- values -----

  /** Nested within the bound when it stands at this depth, with lexically correct numbers. */
  ghost predicate Fits(v: Json, depth: nat)
    decreases v
  {
    && depth <= MAX_DEPTH
    && match v
       case Num(lit) => IsNumber(lit)
       case Arr(elements) => forall i :: 0 <= i < |elements| ==> Fits(elements[i], depth + 1)
       case Obj(members) => forall k :: k in members ==> Fits(members[k], depth + 1)
       case _ => true
  }

  /** Every number replaced by its canonical literal; None when one of them has none. */
  function Normalize(fmt: NumberFormat, v: Json): Option<Json>
    decreases v
  {
    match v
    case Num(lit) => if fmt(lit).Some? then Some(Num(fmt(lit).value)) else None
    case Arr(elements) =>
      if forall i :: 0 <= i < |elements| ==> Normalize(fmt, elements[i]).Some? then
        Some(Arr(seq(|elements|, i requires 0 <= i < |elements| && Normalize(fmt, elements[i]).Some? =>
          Normalize(fmt, elements[i]).value)))
      else None
    case Obj(members) =>
      if forall k :: k in members ==> Normalize(fmt, members[k]).Some? then
        Some(Obj(map k | k in members :: Normalize(fmt, members[k]).value))
      else None
    case _ => Some(v)
  }

  function Bare(d: Doc): Padded { Padded([], d, []) }

  function Entry(name: Text, d: Doc): Member { Member([], CanonicalPieces(name), [], Bare(d)) }

  /** The document appendCanonical writes: no white space, strings in canonical spelling, members in order of their names. */
  ghost function Arrange(v: Json): Doc
    decreases v, 1, 0
  {
    match v
    case Null => DNull
    case Bool(b) => DBool(b)
    case Num(lit) => DNum(lit)
    case Str(text) => DStr(CanonicalPieces(text))
    case Arr(elements) => DArr(seq(|elements|, i requires 0 <= i < |elements| => Bare(Arrange(elements[i]))), [])
    case Obj(members) =>
      SortedKeysAreSorted(members.Keys);
      DObj(ArrangeMembers(v, SortedKeys(members.Keys)), [])
  }

  ghost function ArrangeMembers(v: Json, ks: seq<Text>): (ms: seq<Member>)
    requires v.Obj? && Elements(ks) <= v.members.Keys
    ensures |ms| == |ks| && forall i :: 0 <= i < |ks| ==> ms[i].name == CanonicalPieces(ks[i])
    decreases v, 0, |ks|
  {
    if ks == [] then []
    else
      assert ks[0] in Elements(ks);
      TailSubset(ks);
      [Entry(ks[0], Arrange(v.members[ks[0]]))] + ArrangeMembers(v, ks[1..])
  }

  lemma TailSubset(ks: seq<Text>)
    requires ks != []
    ensures Elements(ks[1..]) <= Elements(ks)
  {
    assert forall k :: k in ks[1..] ==> k in ks;
  }

  ghost function Canonical(v: Json): Bytes { Render(Arrange(v)) }

  // ----- the canonical document is sound and denotes the value -----

  lemma {:induction false} SoundAll(ps: seq<Padded>, depth: nat)
    requires forall i :: 0 <= i < |ps| ==> LexicalPadded(ps[i]) && AllowedPadded(ps[i], depth)
    ensures LexicalElements(ps) && AllowedElements(ps, depth)
  {
    if ps != [] { SoundAll(ps[1..], depth); }
  }

  lemma {:induction false} ValuesAt(ps: seq<Padded>, i: nat)
    requires i < |ps|
    ensures Values(ps)[i] == PaddedValue(ps[i])
  {
    if i > 0 { ValuesAt(ps[1..], i - 1); }
  }

  lemma BareIsSound(d: Doc, depth: nat)
    requires Sound(d, depth)
    ensures LexicalPadded(Bare(d)) && AllowedPadded(Bare(d), depth) && PaddedValue(Bare(d)) == Value(d)
    ensures RenderPadded(Bare(d)) == Render(d)
  {
    assert [] + Render(d) + [] == Render(d);
  }

  lemma EntryIsSound(name: Text, d: Doc, depth: nat)
    requires Sound(d, depth)
    ensures LexicalMember(Entry(name, d)) && AllowedPadded(Entry(name, d).value, depth)
    ensures PaddedValue(Entry(name, d).value) == Value(d) && MeantAll(Entry(name, d).name) == name
  {
    BareIsSound(d, depth);
    EscapeIsCanonical(name);
  }

  lemma {:induction false} ArrangeIsSound(v: Json, depth: nat)
    requires Fits(v, depth)
    ensures Sound(Arrange(v), depth) && Value(Arrange(v)) == v
    decreases v, 2, 0
  {
    if v.Arr? {
      ArrayIsSound(v, depth);
    } else if v.Obj? {
      SortedKeysAreSorted(v.members.Keys);
      ObjectIsSound(v, SortedKeys(v.members.Keys), depth);
    } else if v.Str? {
      EscapeIsCanonical(v.text);
    }
  }

  lemma {:induction false} ArrayIsSound(v: Json, depth: nat)
    requires v.Arr? && Fits(v, depth)
    ensures Sound(Arrange(v), depth) && Value(Arrange(v)) == v
    decreases v, 0, 0
  {
    var ps := Arrange(v).elements;
    forall i | 0 <= i < |ps|
      ensures LexicalPadded(ps[i]) && AllowedPadded(ps[i], depth + 1) && Values(ps)[i] == v.elements[i]
    {
      ArrangeIsSound(v.elements[i], depth + 1);
      BareIsSound(Arrange(v.elements[i]), depth + 1);
      ValuesAt(ps, i);
    }
    SoundAll(ps, depth + 1);
    assert Values(ps) == v.elements;
  }

  ghost function Restrict(m: map<Text, Json>, ks: seq<Text>): map<Text, Json> {
    map k | k in m && k in Elements(ks) :: m[k]
  }

  lemma {:induction false} ObjectIsSound(v: Json, ks: seq<Text>, depth: nat)
    requires v.Obj? && Fits(v, depth) && StrictlySorted(ks) && Elements(ks) == v.members.Keys
    ensures Sound(DObj(ArrangeMembers(v, ks), []), depth) && Value(DObj(ArrangeMembers(v, ks), [])) == v
    decreases v, 1, 0
  {
    var none: map<Text, Json> := map[];
    assert none.Keys == {};
    MembersAreSound(v, ks, depth, none);
    RestrictAll(v.members, ks);
    MembersMakeObject(ArrangeMembers(v, ks), v.members, depth);
  }

  lemma RestrictAll(m: map<Text, Json>, ks: seq<Text>)
    requires Elements(ks) == m.Keys
    ensures map[] + Restrict(m, ks) == m
  {
  }

  lemma MembersMakeObject(ms: seq<Member>, m: map<Text, Json>, depth: nat)
    requires LexicalMembers(ms) && AllowedMembers(ms, depth + 1, {}) && MembersOf(ms, map[]) == m && depth <= MAX_DEPTH
    ensures Sound(DObj(ms, []), depth) && Value(DObj(ms, [])) == Obj(m)
  {
  }

  lemma RestrictGrows(m: map<Text, Json>, ks: seq<Text>, seen: map<Text, Json>)
    requires ks != [] && StrictlySorted(ks) && Elements(ks) <= m.Keys
    ensures ks[0] in m && seen[ks[0] := m[ks[0]]] + Restrict(m, ks[1..]) == seen + Restrict(m, ks)
  {
    assert ks[0] in Elements(ks);
    TailElements(ks);
  }

  lemma {:induction false} MembersAreSound(v: Json, ks: seq<Text>, depth: nat, seen: map<Text, Json>)
    requires v.Obj? && Fits(v, depth) && depth <= MAX_DEPTH
    requires StrictlySorted(ks) && Elements(ks) <= v.members.Keys && Elements(ks) !! seen.Keys
    ensures LexicalMembers(ArrangeMembers(v, ks)) && AllowedMembers(ArrangeMembers(v, ks), depth + 1, seen.Keys)
    ensures MembersOf(ArrangeMembers(v, ks), seen) == seen + Restrict(v.members, ks)
    decreases v, 0, |ks|
  {
    if ks == [] {
      assert seen + Restrict(v.members, ks) == seen;
    } else {
      RestrictGrows(v.members, ks, seen);
      TailElements(ks);
      assert ks[0] in Elements(ks);
      var value := v.members[ks[0]];
      ArrangeIsSound(value, depth + 1);
      EntryIsSound(ks[0], Arrange(value), depth + 1);
      var grown := seen[ks[0] := value];
      assert grown.Keys == seen.Keys + {ks[0]};
      MembersAreSound(v, ks[1..], depth, grown);
      MoreMembersAreSound(Entry(ks[0], Arrange(value)), ArrangeMembers(v, ks[1..]), ks[0], value, depth + 1, seen);
    }
  }

  lemma MoreMembersAreSound(m: Member, ms: seq<Member>, name: Text, value: Json, depth: nat, seen: map<Text, Json>)
    requires LexicalMember(m) && AllowedPadded(m.value, depth) && PaddedValue(m.value) == value && MeantAll(m.name) == name
    requires name !in seen && LexicalMembers(ms) && AllowedMembers(ms, depth, seen.Keys + {name})
    ensures LexicalMembers([m] + ms) && AllowedMembers([m] + ms, depth, seen.Keys)
    ensures MembersOf([m] + ms, seen) == MembersOf(ms, seen[name := value])
  {
    assert ([m] + ms)[1..] == ms;
  }

  // ----- what the reader returns fits -----

  lemma {:induction false} ParsedFits(strict: bool, s: Bytes, depth: nat)
    requires ValidUtf8(s) && ParseValue(strict, s, depth).Some?
    ensures Fits(ParseValue(strict, s, depth).value.0, depth)
    decreases |s|, 1
  {
    var t := SkipSpace(s);
    if t[0] == OPEN_ARRAY || t[0] == OPEN_OBJECT {
      AfterAscii(t);
      var u := SkipSpace(t[1..]);
      if t[0] == OPEN_ARRAY {
        if u == [] || u[0] != CLOSE_ARRAY { ParsedElementsFit(strict, u, depth); }
      } else if u == [] || u[0] != CLOSE_OBJECT {
        ParsedMembersFit(strict, u, depth, map[]);
      }
    } else {
      ParsedScalarFits(strict, t, depth);
    }
  }

  lemma ParsedScalarFits(strict: bool, s: Bytes, depth: nat)
    requires ValidUtf8(s) && ParseScalar(strict, s).Some? && depth <= MAX_DEPTH
    ensures Fits(ParseScalar(strict, s).value.0, depth)
  {
    if !(NULL <= s || TRUE <= s || FALSE <= s) && !(s != [] && s[0] == QUOTE) {
      NumberAlone(s);
    }
  }

  lemma {:induction false} ParsedElementsFit(strict: bool, s: Bytes, depth: nat)
    requires ValidUtf8(s) && ParseElements(strict, s, depth).Some?
    ensures var vs := ParseElements(strict, s, depth).value.0; forall i :: 0 <= i < |vs| ==> Fits(vs[i], depth + 1)
    decreases |s|, 2
  {
    ParsedFits(strict, s, depth + 1);
    var t := SkipSpace(ParseValue(strict, s, depth + 1).value.1);
    AfterAscii(t);
    if t[0] == COMMA { ParsedElementsFit(strict, t[1..], depth); }
  }

  lemma {:induction false} ParsedMembersFit(strict: bool, s: Bytes, depth: nat, seen: map<Text, Json>)
    requires ValidUtf8(s) && ParseMembers(strict, s, depth, seen).Some?
    requires forall k :: k in seen ==> Fits(seen[k], depth + 1)
    ensures var m := ParseMembers(strict, s, depth, seen).value.0; forall k :: k in m ==> Fits(m[k], depth + 1)
    decreases |s|, 2
  {
    var (name, u) := ParseName(strict, s).value;
    ParsedFits(strict, u, depth + 1);
    var (v, rest) := ParseValue(strict, u, depth + 1).value;
    var t := SkipSpace(rest);
    AfterAscii(t);
    if t[0] == COMMA { ParsedMembersFit(strict, t[1..], depth, seen[name := v]); }
  }

  // ----- normal forms -----

  lemma {:induction false} NormalFits(fmt: NumberFormat, v: Json, depth: nat)
    requires Lawful(fmt) && Fits(v, depth) && Normalize(fmt, v).Some?
    ensures Fits(Normalize(fmt, v).value, depth)
    ensures Normalize(fmt, Normalize(fmt, v).value) == Normalize(fmt, v)
    decreases v
  {
    var n := Normalize(fmt, v).value;
    match v
    case Arr(elements) =>
      forall i | 0 <= i < |elements|
        ensures Fits(n.elements[i], depth + 1) && Normalize(fmt, n.elements[i]) == Some(n.elements[i])
      {
        NormalFits(fmt, elements[i], depth + 1);
      }
      assert Normalize(fmt, n).value.elements == n.elements;
    case Obj(members) =>
      forall k | k in members
        ensures Fits(n.members[k], depth + 1) && Normalize(fmt, n.members[k]) == Some(n.members[k])
      {
        NormalFits(fmt, members[k], depth + 1);
      }
      assert Normalize(fmt, n).value.members == n.members;
    case _ =>
  }

  // ----- Canonicalize -----

  /** The value Canonicalize prints, before it prints it. */
  function Meaning(fmt: NumberFormat, document: Bytes): Result<Json, Error> {
    if document == [] || !ValidUtf8(document) || !Scan(false, document) then Err(InvalidJson)
    else
      match Parse(false, document)
      case None => Err(InvalidJson)
      case Some(v) =>
        match Normalize(fmt, v)
        case None => Err(UnsupportedNumber)
        case Some(n) => Ok(n)
  }

  ghost function Canonicalize(fmt: NumberFormat, document: Bytes): Result<Bytes, Error> {
    match Meaning(fmt, document)
    case Err(e) => Err(e)
    case Ok(n) => Ok(Canonical(n))
  }

  lemma MeaningFits(fmt: NumberFormat, document: Bytes)
    requires Lawful(fmt) && Meaning(fmt, document).Ok?
    ensures Fits(Meaning(fmt, document).value, 0)
    ensures Normalize(fmt, Meaning(fmt, document).value) == Some(Meaning(fmt, document).value)
  {
    ParsedFits(false, document, 0);
    NormalFits(fmt, Parse(false, document).value, 0);
  }

  /** What is made of a value once it is read. */
  function Normalized(fmt: NumberFormat, v: Json): Result<Json, Error> {
    match Normalize(fmt, v) case None => Err(UnsupportedNumber) case Some(n) => Ok(n)
  }

  /**
   A document of the grammar passes every check exactly when it repeats no name and is shallow
   enough, and then means its own value up to the form of numbers.
   */
  lemma SoundDocumentMeans(fmt: NumberFormat, p: Padded)
    requires LexicalPadded(p)
    ensures Meaning(fmt, RenderPadded(p)) == if AllowedPadded(p, 0) then Normalized(fmt, PaddedValue(p)) else Err(InvalidJson)
  {
    ParseRender(true, p);
    ParseRender(false, p);
    ScannerIsExact(RenderPadded(p));
    RenderHead(p.doc);
  }

  /** Reading the canonical form of a value gives the value back, so Canonicalize accepts its own output. */
  lemma CanonicalRoundTrip(fmt: NumberFormat, v: Json)
    requires Fits(v, 0) && Normalize(fmt, v) == Some(v)
    ensures ValidUtf8(Canonical(v)) && Parse(false, Canonical(v)) == Some(v)
    ensures Canonicalize(fmt, Canonical(v)) == Ok(Canonical(v))
  {
    ArrangeIsSound(v, 0);
    BareIsSound(Arrange(v), 0);
    ParseRender(false, Bare(Arrange(v)));
    SoundDocumentMeans(fmt, Bare(Arrange(v)));
  }

  lemma CanonicalizeIsIdempotent(fmt: NumberFormat, document: Bytes)
    requires Lawful(fmt) && Canonicalize(fmt, document).Ok?
    ensures Canonicalize(fmt, Canonicalize(fmt, document).value) == Canonicalize(fmt, document)
  {
    MeaningFits(fmt, document);
    CanonicalRoundTrip(fmt, Meaning(fmt, document).value);
  }

  /** Equal canonical forms come only from equal values. */
  lemma CanonicalIsInjective(v: Json, w: Json)
    requires Fits(v, 0) && Fits(w, 0)
    ensures Canonical(v) == Canonical(w) <==> v == w
  {
    CanonicalReads(v);
    CanonicalReads(w);
  }

  lemma CanonicalReads(v: Json)
    requires Fits(v, 0)
    ensures ValidUtf8(Canonical(v)) && Parse(false, Canonical(v)) == Some(v)
  {
    ArrangeIsSound(v, 0);
    BareIsSound(Arrange(v), 0);
    ParseRender(false, Bare(Arrange(v)));
  }

  /** Two accepted documents have the same canonical bytes exactly when they mean the same value. */
  lemma SameBytesSameMeaning(fmt: NumberFormat, a: Bytes, b: Bytes)
    requires Lawful(fmt) && Canonicalize(fmt, a).Ok? && Canonicalize(fmt, b).Ok?
    ensures Canonicalize(fmt, a) == Canonicalize(fmt, b) <==> Meaning(fmt, a) == Meaning(fmt, b)
  {
    MeaningFits(fmt, a);
    MeaningFits(fmt, b);
    CanonicalIsInjective(Meaning(fmt, a).value, Meaning(fmt, b).value);
  }

  /** No accepted document holds a lone surrogate: the strict reader reads the same value. */
  lemma NoSurrogateIsReplaced(fmt: NumberFormat, document: Bytes)
    requires ValidUtf8(document) && document != []
    ensures Meaning(fmt, document) != Err(InvalidJson) <==> Parse(true, document).Some?
    ensures Parse(true, document).Some? ==> Parse(true, document) == Parse(false, document)
  {
    ScannerIsExact(document);
  }

  // ----- digests -----

  /** What DigestExcluding hashes: the object without the excluded member, which must be there. */
  ghost function Preimage(fmt: NumberFormat, v: Json, excluded: Text): Result<Bytes, Error> {
    if !v.Obj? || excluded !in v.members then Err(InvalidJson)
    else
      match Normalize(fmt, Obj(v.members - {excluded}))
      case None => Err(UnsupportedNumber)
      case Some(n) => Ok(Canonical(n))
  }

  /** The preimages of two objects are equal exactly when the objects agree on every other member. */
  lemma PreimagesAgreeIff(fmt: NumberFormat, v: Json, w: Json, excluded: Text)
    requires Lawful(fmt) && Fits(v, 0) && Fits(w, 0)
    requires Preimage(fmt, v, excluded).Ok? && Preimage(fmt, w, excluded).Ok?
    ensures Preimage(fmt, v, excluded) == Preimage(fmt, w, excluded) <==>
      (v.members - {excluded}).Keys == (w.members - {excluded}).Keys &&
      forall k :: k in v.members && k != excluded ==>
        k in w.members && Normalize(fmt, v.members[k]) == Normalize(fmt, w.members[k])
  {
    var (a, b) := (Obj(v.members - {excluded}), Obj(w.members - {excluded}));
    PreimagesAgreeOnRest(fmt, a, b);
    SameNormalMembers(fmt, a, b);
    assert forall k :: k in v.members && k != excluded <==> k in a.members;
    assert forall k :: k in w.members && k != excluded <==> k in b.members;
  }

  /** What is left of an object prints the same exactly when its normal form is the same. */
  lemma PreimagesAgreeOnRest(fmt: NumberFormat, a: Json, b: Json)
    requires Lawful(fmt) && Fits(a, 0) && Fits(b, 0) && Normalize(fmt, a).Some? && Normalize(fmt, b).Some?
    ensures Canonical(Normalize(fmt, a).value) == Canonical(Normalize(fmt, b).value) <==> Normalize(fmt, a) == Normalize(fmt, b)
  {
    NormalFits(fmt, a, 0);
    NormalFits(fmt, b, 0);
    CanonicalIsInjective(Normalize(fmt, a).value, Normalize(fmt, b).value);
  }

  lemma SameNormalMembers(fmt: NumberFormat, a: Json, b: Json)
    requires a.Obj? && b.Obj? && Normalize(fmt, a).Some? && Normalize(fmt, b).Some?
    ensures Normalize(fmt, a) == Normalize(fmt, b) <==>
      a.members.Keys == b.members.Keys &&
      forall k :: k in a.members && k in b.members ==> Normalize(fmt, a.members[k]) == Normalize(fmt, b.members[k])
  {
    var (m, n) := (Normalize(fmt, a).value.members, Normalize(fmt, b).value.members);
    assert m.Keys == a.members.Keys && n.Keys == b.members.Keys;
    if m == n {
      forall k | k in a.members ensures k in b.members && Normalize(fmt, a.members[k]) == Normalize(fmt, b.members[k]) {
        assert m[k] == n[k];
      }
    }
  }

  /** Filling in the excluded member, as the builder of a signed document does, leaves the preimage alone. */
  lemma PreimageIgnoresExcluded(fmt: NumberFormat, members: map<Text, Json>, excluded: Text, x: Json, y: Json)
    ensures Preimage(fmt, Obj(members[excluded := x]), excluded) == Preimage(fmt, Obj(members[excluded := y]), excluded)
  {
    assert members[excluded := x] - {excluded} == members[excluded := y] - {excluded};
  }
}
