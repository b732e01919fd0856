/** parseValue over a token stream, and Canonicalize as a whole. */
module JcsDecoder {
  import opened Prelude
  import opened JcsUtf8
  import opened JcsStrings
  import opened JcsNumbers
  import opened JcsTree
  import opened JcsCanonical
  import opened JcsMachine

  function Prepend(vs: seq<Json>, r: Option<(seq<Json>, Bytes)>): Option<(seq<Json>, Bytes)> {
    if r.None? then None else Some((vs + r.value.0, r.value.1))
  }

  lemma PrependNothing(r: Option<(seq<Json>, Bytes)>)
    ensures Prepend([], r) == r
  {
    if r.Some? { assert [] + r.value.0 == r.value.0; }
  }

  lemma PrependAssociates(items: seq<Json>, v: Json, r: Option<(seq<Json>, Bytes)>)
    ensures Prepend(items, Prepend([v], r)) == Prepend(items + [v], r)
  {
    if r.Some? { assert items + ([v] + r.value.0) == items + [v] + r.value.0; }
  }

  /** encoding/json's reader: the part of the document not yet consumed. */
  class Decoder {
    var rest: Bytes

    constructor (document: Bytes)
      ensures rest == document
    {
      rest := document;
    }

    method SkipSpaces()
      requires ValidUtf8(rest)
      modifies this
      ensures rest == SkipSpace(old(rest)) && ValidUtf8(rest)
    {
      while rest != [] && IsSpace(rest[0])
        invariant ValidUtf8(rest) && SkipSpace(rest) == SkipSpace(old(rest))
        decreases |rest|
      {
        AfterAscii(rest);
        rest := rest[1..];
      }
    }

    /** Consumes one ASCII punctuation byte. */
    method Advance()
      requires ValidUtf8(rest) && rest != [] && rest[0] < 0x80
      modifies this
      ensures rest == old(rest)[1..] && ValidUtf8(rest)
    {
      AfterAscii(rest);
      rest := rest[1..];
    }

    method Scalar() returns (r: Option<Json>)
      requires ValidUtf8(rest)
      modifies this
      ensures r.None? <==> ParseScalar(false, old(rest)).None?
      ensures r.Some? ==> ParseScalar(false, old(rest)) == Some((r.value, rest)) && ValidUtf8(rest)
    {
      match ParseScalar(false, rest) {
        case None => r := None;
        case Some((v, after)) => r, rest := Some(v), after;
      }
    }

    method Value(depth: nat) returns (r: Option<Json>)
      requires ValidUtf8(rest)
      modifies this
      ensures r.None? <==> ParseValue(false, old(rest), depth).None?
      ensures r.Some? ==> ParseValue(false, old(rest), depth) == Some((r.value, rest)) && ValidUtf8(rest)
      decreases |rest|, 1
    {
      if depth > MAX_DEPTH { return None; }
      SkipSpaces();
      if rest == [] { return None; }
      if rest[0] == OPEN_ARRAY {
        Advance();
        SkipSpaces();
        if rest != [] && rest[0] == CLOSE_ARRAY {
          Advance();
          return Some(Arr([]));
        }
        var elements := Elements(depth);
        r := if elements.None? then None else Some(Arr(elements.value));
      } else if rest[0] == OPEN_OBJECT {
        Advance();
        SkipSpaces();
        if rest != [] && rest[0] == CLOSE_OBJECT {
          Advance();
          return Some(Obj(map[]));
        }
        var members := Members(depth);
        r := if members.None? then None else Some(Obj(members.value));
      } else {
        r := Scalar();
      }
    }

    method Elements(depth: nat) returns (r: Option<seq<Json>>)
      requires ValidUtf8(rest)
      modifies this
      ensures r.None? <==> ParseElements(false, old(rest), depth).None?
      ensures r.Some? ==> ParseElements(false, old(rest), depth) == Some((r.value, rest)) && ValidUtf8(rest)
      decreases |rest|, 2
    {
      ghost var start := rest;
      var items: seq<Json> := [];
      PrependNothing(ParseElements(false, rest, depth));
      while true
        invariant ValidUtf8(rest) && |rest| <= |start|
        invariant ParseElements(false, start, depth) == Prepend(items, ParseElements(false, rest, depth))
        decreases |rest|
      {
        var v := Value(depth + 1);
        if v.None? { return None; }
        SkipSpaces();
        if rest == [] { return None; }
        if rest[0] == CLOSE_ARRAY {
          Advance();
          return Some(items + [v.value]);
        }
        if rest[0] != COMMA { return None; }
        Advance();
        PrependAssociates(items, v.value, ParseElements(false, rest, depth));
        items := items + [v.value];
      }
    }

    method Name() returns (r: Option<Text>)
      requires ValidUtf8(rest)
      modifies this
      ensures r.None? <==> ParseName(false, old(rest)).None?
      ensures r.Some? ==> ParseName(false, old(rest)) == Some((r.value, rest)) && ValidUtf8(rest)
    {
      SkipSpaces();
      if rest == [] || rest[0] != QUOTE { return None; }
      Advance();
      match Unquote(false, Start, rest) {
        case None => return None;
        case Some((name, after)) =>
          rest := after;
          SkipSpaces();
          if rest == [] || rest[0] != COLON { return None; }
          Advance();
          r := Some(name);
      }
    }

    method Members(depth: nat) returns (r: Option<map<Text, Json>>)
      requires ValidUtf8(rest)
      modifies this
      ensures r.None? <==> ParseMembers(false, old(rest), depth, map[]).None?
      ensures r.Some? ==> ParseMembers(false, old(rest), depth, map[]) == Some((r.value, rest)) && ValidUtf8(rest)
      decreases |rest|, 2
    {
      ghost var start := rest;
      var members: map<Text, Json> := map[];
      while true
        invariant ValidUtf8(rest) && |rest| <= |start|
        invariant ParseMembers(false, start, depth, map[]) == ParseMembers(false, rest, depth, members)
        decreases |rest|
      {
        var name := Name();
        if name.None? || name.value in members { return None; }
        var v := Value(depth + 1);
        if v.None? { return None; }
        members := members[name.value := v.value];
        SkipSpaces();
        if rest == [] { return None; }
        if rest[0] == CLOSE_OBJECT {
          Advance();
          return Some(members);
        }
        if rest[0] != COMMA { return None; }
        Advance();
      }
    }
  }

  method IsValidUtf8(s: Bytes) returns (ok: bool)
    ensures ok == ValidUtf8(s)
  {
    var q := Start;
    var i := 0;
    while i < |s|
      invariant 0 <= i <= |s| && Utf8Run(q, s[i..]) == Utf8Run(Start, s)
    {
      assert s[i..][1..] == s[i + 1..];
      q := Utf8Step(q, s[i]);
      i := i + 1;
    }
    ok := q == Start;
  }

  method Run(fmt: NumberFormat, document: Bytes) returns (r: Result<Bytes, Error>)
    ensures r == Canonicalize(fmt, document)
  {
    if document == [] { return Err(InvalidJson); }
    var valid := IsValidUtf8(document);
    if !valid { return Err(InvalidJson); }
    var escapes := ValidUnicodeEscapes(document);
    if !escapes { return Err(InvalidJson); }
    var decoder := new Decoder(document);
    var value := decoder.Value(0);
    if value.None? { return Err(InvalidJson); }
    decoder.SkipSpaces();
    if decoder.rest != [] { return Err(InvalidJson); }
    var output := new Buffer();
    var ok := AppendCanonical(fmt, output, value.value);
    if !ok { return Err(UnsupportedNumber); }
    assert output.bytes == Canonical(Normalize(fmt, value.value).value);
    r := Ok(output.bytes);
  }
}
