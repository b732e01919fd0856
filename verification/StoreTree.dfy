/**
 The state document as a tree: encoding/json on the state's structure, member by member, and
 what decoding with exactly those members gives back.
 */
module StoreTree {
  import opened Prelude
  import opened JcsUtf8
  import opened JcsNumbers
  import opened JcsTree
  import opened JcsCanonical
  import opened JcsIntegers
  import opened StoreState

  // ----- records -----

  function Ascii(s: string): (t: Text)
    ensures |t| == |s| && forall i :: 0 <= i < |s| ==> t[i] == if s[i] < 128 as char then s[i] as int else 0x3F
  {
    var t: Bytes := seq(|s|, i requires 0 <= i < |s| => if s[i] < 128 as char then s[i] as int else 0x3F);
    AsciiIsValid(t);
    t
  }

  predicate IsAscii(s: string) { forall i :: 0 <= i < |s| ==> s[i] < 128 as char }

  function Names(keys: seq<string>): (names: seq<Text>)
    ensures |names| == |keys| && forall i :: 0 <= i < |keys| ==> names[i] == Ascii(keys[i])
  {
    seq(|keys|, i requires 0 <= i < |keys| => Ascii(keys[i]))
  }

  predicate AllDifferent(names: seq<Text>) { forall i, j :: 0 <= i < j < |names| ==> names[i] != names[j] }

  /** Usable as member names: ASCII and no two alike. */
  predicate GoodKeys(keys: seq<string>) {
    Distinct(keys) && forall i :: 0 <= i < |keys| ==> IsAscii(keys[i])
  }

  lemma NamesDiffer(keys: seq<string>)
    requires GoodKeys(keys)
    ensures AllDifferent(Names(keys))
  {
    forall i, j | 0 <= i < j < |keys| ensures Names(keys)[i] != Names(keys)[j] {
      if Ascii(keys[i]) == Ascii(keys[j]) { AsciiSame(keys[i], keys[j]); }
    }
  }

  lemma AsciiSame(s: string, t: string)
    requires IsAscii(s) && IsAscii(t) && Ascii(s) == Ascii(t)
    ensures s == t
  {
    assert forall i :: 0 <= i < |s| ==> s[i] as int == Ascii(s)[i] == t[i] as int;
  }

  function Table(names: seq<Text>, values: seq<Json>): map<Text, Json>
    requires |names| == |values|
  {
    if names == [] then map[] else Table(names[1..], values[1..])[names[0] := values[0]]
  }

  function Record(names: seq<Text>, values: seq<Json>): Json
    requires |names| == |values|
  {
    Obj(Table(names, values))
  }

  /** The members of a record in the order of names, which must be all there is. */
  function Fields(v: Json, names: seq<Text>): (r: Option<seq<Json>>)
    ensures r.Some? ==> |r.value| == |names|
  {
    if v.Obj? && (forall i :: 0 <= i < |names| ==> names[i] in v.members) && (forall k :: k in v.members ==> k in names) then
      Some(seq(|names|, i requires 0 <= i < |names| && names[i] in v.members => v.members[names[i]]))
    else None
  }

  lemma {:induction false} TableHolds(names: seq<Text>, values: seq<Json>)
    requires |names| == |values| && AllDifferent(names)
    ensures forall i :: 0 <= i < |names| ==> names[i] in Table(names, values) && Table(names, values)[names[i]] == values[i]
    ensures forall k :: k in Table(names, values) ==> k in names
  {
    if names != [] {
      TableHolds(names[1..], values[1..]);
      var rest := Table(names[1..], values[1..]);
      forall i | 0 <= i < |names| ensures names[i] in Table(names, values) && Table(names, values)[names[i]] == values[i] {
        if i > 0 { assert names[i] == names[1..][i - 1] && values[i] == values[1..][i - 1]; }
      }
      forall k | k in Table(names, values) ensures k in names {
        if k in rest { assert k in names[1..]; }
      }
    }
  }

  lemma FieldsOfRecord(names: seq<Text>, values: seq<Json>)
    requires |names| == |values| && AllDifferent(names)
    ensures Fields(Record(names, values), names) == Some(values)
  {
    TableHolds(names, values);
    assert Fields(Record(names, values), names).value == values;
  }

  /** Within the bound, and its own normal form. */
  ghost predicate Clean(fmt: NumberFormat, v: Json, depth: nat) {
    Fits(v, depth) && Normalize(fmt, v) == Some(v)
  }

  ghost predicate AllClean(fmt: NumberFormat, vs: seq<Json>, depth: nat) {
    forall i :: 0 <= i < |vs| ==> Clean(fmt, vs[i], depth)
  }

  lemma CleanJoins(fmt: NumberFormat, vs: seq<Json>, us: seq<Json>, depth: nat)
    requires AllClean(fmt, vs, depth) && AllClean(fmt, us, depth)
    ensures AllClean(fmt, vs + us, depth)
  {
  }

  lemma RecordIsClean(fmt: NumberFormat, names: seq<Text>, values: seq<Json>, depth: nat)
    requires |names| == |values| && AllDifferent(names) && depth <= MAX_DEPTH
    requires AllClean(fmt, values, depth + 1)
    ensures Clean(fmt, Record(names, values), depth)
  {
    TableHolds(names, values);
    var members := Table(names, values);
    forall k | k in members ensures Clean(fmt, members[k], depth + 1) {
      var i :| 0 <= i < |names| && names[i] == k;
      assert members[k] == values[i] && Clean(fmt, values[i], depth + 1);
    }
    TableIsClean(fmt, members, depth);
  }

  lemma TableIsClean(fmt: NumberFormat, members: map<Text, Json>, depth: nat)
    requires depth <= MAX_DEPTH && forall k :: k in members ==> Clean(fmt, members[k], depth + 1)
    ensures Clean(fmt, Obj(members), depth)
  {
    assert forall k :: k in members ==> Normalize(fmt, members[k]) == Some(members[k]);
    assert Normalize(fmt, Obj(members)).value.members == members;
  }

  // ----- strings and integers -----

  /** back reads bytes as a string.  Strings are their bytes, and what is checked or printed as text is Unicode. */
  ghost predicate LawfulText(w: World, back: Bytes -> string) {
    && (forall x :: Textual(w, x) ==> back(w.textBytes(x)) == x)
    && (forall x: string :: IsAscii(x) ==> Textual(w, x))
    && (forall x :: w.reference(x) ==> Textual(w, x))
    && (forall x :: w.dateTime(x) ==> Textual(w, x))
    && (forall b :: IsAscii(w.hash(b)))
    && AllTextual(w, HeaderTexts(w.header)) && 0 <= w.header.formatVersion <= MAX_EXACT
  }

  predicate Textual(w: World, x: string) { ValidUtf8(w.textBytes(x)) }

  predicate AllTextual(w: World, xs: seq<string>) { forall i :: 0 <= i < |xs| ==> Textual(w, xs[i]) }

  function HeaderTexts(h: Header): seq<string> { [h.stateType, h.contractRevision, h.profileId, h.profileDigest] }

  /** A string that is not Unicode never gets here: no valid state has one. */
  function WriteText(w: World, x: string): Json { if Textual(w, x) then Str(w.textBytes(x)) else Null }

  function WriteTexts(w: World, xs: seq<string>): (vs: seq<Json>)
    ensures |vs| == |xs| && forall i :: 0 <= i < |xs| ==> vs[i] == WriteText(w, xs[i])
  {
    seq(|xs|, i requires 0 <= i < |xs| => WriteText(w, xs[i]))
  }

  function ReadTexts(back: Bytes -> string, vs: seq<Json>): (r: Option<seq<string>>)
    ensures r.Some? ==> |r.value| == |vs|
  {
    if forall i :: 0 <= i < |vs| ==> vs[i].Str? then
      Some(seq(|vs|, i requires 0 <= i < |vs| && vs[i].Str? => back(vs[i].text)))
    else None
  }

  lemma TextsReadBack(w: World, back: Bytes -> string, xs: seq<string>)
    requires LawfulText(w, back) && AllTextual(w, xs)
    ensures ReadTexts(back, WriteTexts(w, xs)) == Some(xs)
  {
    assert ReadTexts(back, WriteTexts(w, xs)).value == xs;
  }

  function WriteInt(n: int): Json { if n >= 0 then Num(Decimal(n)) else Null }

  /** Only plain digits: no state with a negative number is valid. */
  function ReadInt(v: Json): Option<int> {
    if v.Num? && IsNatural(v.lit) then Some(NatOf(v.lit)) else None
  }

  lemma IntReadsBack(fmt: NumberFormat, n: int, depth: nat)
    requires ExactIntegers(fmt) && 0 <= n <= MAX_EXACT && depth <= MAX_DEPTH
    ensures ReadInt(WriteInt(n)) == Some(n) && Clean(fmt, WriteInt(n), depth)
  {
    DecimalIsNumber(n);
  }

  lemma PlainIsClean(fmt: NumberFormat, v: Json, depth: nat)
    requires (v.Str? || v.Null?) && depth <= MAX_DEPTH
    ensures Clean(fmt, v, depth)
  {
  }
}
