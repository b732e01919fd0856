/** Documents that differ only in the order of their members, in spelling and in white space, at any depth, have one canonical form. */
module JcsPermutation {
  import opened JcsUtf8
  import opened JcsOrder
  import opened JcsStrings
  import opened JcsTree
  import opened JcsCanonical
  import opened JcsForm

  /** A rearrangement of n places: place i goes to order[i], and every place is taken. */
  predicate Permutes(order: seq<nat>, n: nat) {
    && |order| == n
    && (forall i :: 0 <= i < n ==> order[i] < n)
    && forall j :: 0 <= j < n ==> j in order
  }

  /** e says what d says: strings may be spelled otherwise and members stand in another order, and so on inside their values. */
  ghost predicate Reordered(d: Doc, e: Doc)
    decreases d, 1
  {
    match d
    case DStr(pieces) => e.DStr? && MeantAll(e.pieces) == MeantAll(pieces)
    case DArr(elements, _) =>
      e.DArr? && |e.elements| == |elements| && forall i :: 0 <= i < |elements| ==> ReorderedPadded(elements[i], e.elements[i])
    case DObj(members, _) =>
      e.DObj? && |e.members| == |members| && exists order: seq<nat> :: ReorderedBy(d, e, order)
    case _ => e == d
  }

  ghost predicate ReorderedPadded(p: Padded, q: Padded)
    decreases p, 1
  {
    Reordered(p.doc, q.doc)
  }

  ghost predicate ReorderedBy(d: Doc, e: Doc, order: seq<nat>)
    requires d.DObj? && e.DObj? && |e.members| == |d.members|
    decreases d, 0
  {
    && Permutes(order, |d.members|)
    && forall i :: 0 <= i < |d.members| ==>
         && MeantAll(e.members[order[i]].name) == MeantAll(d.members[i].name)
         && ReorderedPadded(d.members[i].value, e.members[order[i]].value)
  }

  // ----- names -----

  predicate AllDiffer(ks: seq<Text>) { forall i, j :: 0 <= i < j < |ks| ==> ks[i] != ks[j] }

  lemma {:induction false} AllowedNamesDiffer(ms: seq<Member>, depth: nat, seen: set<Text>)
    requires AllowedMembers(ms, depth, seen)
    ensures AllDiffer(Names(ms)) && Elements(Names(ms)) !! seen
  {
    if ms != [] {
      var name := MeantAll(ms[0].name);
      AllowedNamesDiffer(ms[1..], depth, seen + {name});
      NamesGrow(ms);
      var ks := Names(ms);
      forall i, j | 0 <= i < j < |ks| ensures ks[i] != ks[j] {
        assert ks[j] == Names(ms[1..])[j - 1] && ks[j] in Elements(Names(ms[1..]));
        if i > 0 { assert ks[i] == Names(ms[1..])[i - 1]; }
      }
    }
  }

  lemma {:induction false} DifferingNamesAllowed(ms: seq<Member>, depth: nat, seen: set<Text>)
    requires AllDiffer(Names(ms)) && Elements(Names(ms)) !! seen
    requires forall i :: 0 <= i < |ms| ==> AllowedPadded(ms[i].value, depth)
    ensures AllowedMembers(ms, depth, seen)
  {
    if ms != [] {
      var (name, rest) := (MeantAll(ms[0].name), Names(ms[1..]));
      NamesGrow(ms);
      forall j | 0 <= j < |rest| ensures rest[j] != name { assert Names(ms)[j + 1] == rest[j]; }
      forall i, j | 0 <= i < j < |rest| ensures rest[i] != rest[j] {
        assert Names(ms)[i + 1] == rest[i] && Names(ms)[j + 1] == rest[j];
      }
      assert name in Elements(Names(ms));
      DifferingNamesAllowed(ms[1..], depth, seen + {name});
    }
  }

  // ----- reordering keeps what is allowed, and the value -----

  lemma {:induction false} ReorderedKeeps(d: Doc, e: Doc, depth: nat)
    requires Sound(d, depth) && Lexical(e) && Reordered(d, e)
    ensures Allowed(e, depth) && Value(e) == Value(d)
    decreases d, 1
  {
    if d.DArr? {
      ElementsKeep(d, e, depth);
    } else if d.DObj? {
      var order :| ReorderedBy(d, e, order);
      MembersKeep(d, e, order, depth);
    }
  }

  lemma {:induction false} PaddedKeeps(p: Padded, q: Padded, depth: nat)
    requires LexicalPadded(p) && AllowedPadded(p, depth) && LexicalPadded(q) && ReorderedPadded(p, q)
    ensures AllowedPadded(q, depth) && PaddedValue(q) == PaddedValue(p)
    decreases p, 1
  {
    ReorderedKeeps(p.doc, q.doc, depth);
  }

  lemma {:induction false} ElementsKeep(d: Doc, e: Doc, depth: nat)
    requires d.DArr? && Sound(d, depth) && Lexical(e) && Reordered(d, e)
    ensures Allowed(e, depth) && Value(e) == Value(d)
    decreases d, 0
  {
    forall i | 0 <= i < |d.elements|
      ensures AllowedPadded(e.elements[i], depth + 1) && Values(e.elements)[i] == Values(d.elements)[i]
    {
      AllowedAt(d.elements, depth + 1, i);
      PaddedKeeps(d.elements[i], e.elements[i], depth + 1);
      ValuesAt(d.elements, i);
      ValuesAt(e.elements, i);
    }
    SoundAll(e.elements, depth + 1);
    assert Values(e.elements) == Values(d.elements);
  }

  /** Member i of ms stands at order[i] in ns, with the same name and value. */
  predicate Moved(ms: seq<Member>, ns: seq<Member>, order: seq<nat>) {
    && |ns| == |ms| && Permutes(order, |ms|)
    && forall i :: 0 <= i < |ms| ==>
         Names(ns)[order[i]] == Names(ms)[i] && PaddedValue(ns[order[i]].value) == PaddedValue(ms[i].value)
  }

  lemma {:induction false} MembersKeep(d: Doc, e: Doc, order: seq<nat>, depth: nat)
    requires d.DObj? && e.DObj? && |e.members| == |d.members| && Sound(d, depth) && Lexical(e) && ReorderedBy(d, e, order)
    ensures Allowed(e, depth) && Value(e) == Value(d)
    decreases d, 0
  {
    ObjectTells(d.members, depth + 1);
    forall i | 0 <= i < |d.members|
      ensures AllowedPadded(e.members[order[i]].value, depth + 1)
      ensures PaddedValue(e.members[order[i]].value) == PaddedValue(d.members[i].value)
    {
      assert LexicalMember(d.members[i]) && LexicalMember(e.members[order[i]]);
      PaddedKeeps(d.members[i].value, e.members[order[i]].value, depth + 1);
    }
    PlacesKeep(d.members, e.members, order, depth + 1);
  }

  lemma Source(order: seq<nat>, n: nat, j: nat) returns (i: nat)
    requires Permutes(order, n) && j < n
    ensures i < n && order[i] == j
  {
    assert j in order;
    i :| i < |order| && order[i] == j;
  }

  lemma MovedNamesDiffer(ms: seq<Member>, ns: seq<Member>, order: seq<nat>)
    requires Moved(ms, ns, order) && AllDiffer(Names(ms))
    ensures AllDiffer(Names(ns))
  {
    forall a, b | 0 <= a < b < |ns| ensures Names(ns)[a] != Names(ns)[b] {
      var i := Source(order, |ms|, a);
      var j := Source(order, |ms|, b);
      assert Names(ns)[a] == Names(ms)[i] && Names(ns)[b] == Names(ms)[j] && i != j;
    }
  }

  /** The same members in other places. */
  lemma PlacesKeep(ms: seq<Member>, ns: seq<Member>, order: seq<nat>, depth: nat)
    requires LexicalMembers(ms) && LexicalMembers(ns) && Moved(ms, ns, order) && AllowedMembers(ms, depth, {})
    requires forall i :: 0 <= i < |ms| ==> AllowedPadded(ns[order[i]].value, depth)
    ensures AllowedMembers(ns, depth, {}) && MembersOf(ns, map[]) == MembersOf(ms, map[])
  {
    AllowedNamesDiffer(ms, depth, {});
    MovedNamesDiffer(ms, ns, order);
    forall b | 0 <= b < |ns| ensures AllowedPadded(ns[b].value, depth) {
      var j := Source(order, |ms|, b);
      assert AllowedPadded(ns[order[j]].value, depth);
    }
    DifferingNamesAllowed(ns, depth, {});
    ObjectTells(ms, depth);
    ObjectTells(ns, depth);
    SameTables(ms, ns, order, depth, MembersOf(ms, map[]), MembersOf(ns, map[]));
  }

  lemma SameTables(ms: seq<Member>, ns: seq<Member>, order: seq<nat>, depth: nat, m: map<Text, Json>, n: map<Text, Json>)
    requires Moved(ms, ns, order) && Tells(ms, m, depth) && Tells(ns, n, depth)
    ensures m == n
  {
    forall k | k in m ensures k in n && n[k] == m[k] { MovedThere(ms, ns, order, depth, m, n, k); }
    forall k | k in n ensures k in m { MovedHere(ms, ns, order, depth, m, n, k); }
  }

  lemma MovedHere(ms: seq<Member>, ns: seq<Member>, order: seq<nat>, depth: nat, m: map<Text, Json>, n: map<Text, Json>, k: Text)
    requires Moved(ms, ns, order) && Tells(ms, m, depth) && Tells(ns, n, depth) && k in n
    ensures k in m
  {
    assert k in Elements(Names(ns));
    var b :| 0 <= b < |ns| && Names(ns)[b] == k;
    var j := Source(order, |ms|, b);
    assert Names(ms)[j] == k;
  }

  lemma MovedThere(ms: seq<Member>, ns: seq<Member>, order: seq<nat>, depth: nat, m: map<Text, Json>, n: map<Text, Json>, k: Text)
    requires Moved(ms, ns, order) && Tells(ms, m, depth) && Tells(ns, n, depth) && k in m
    ensures k in n && n[k] == m[k]
  {
    assert k in Elements(Names(ms));
    var i :| 0 <= i < |ms| && Names(ms)[i] == k;
    assert Names(ns)[order[i]] == k;
  }

  /** Neither the order in which a document writes its members, at any depth, nor spelling nor white space matters. */
  lemma MemberOrderIsIrrelevant(fmt: NumberFormat, p: Padded, q: Padded)
    requires LexicalPadded(p) && AllowedPadded(p, 0) && LexicalPadded(q) && ReorderedPadded(p, q)
    ensures Meaning(fmt, RenderPadded(q)) == Meaning(fmt, RenderPadded(p))
    ensures Canonicalize(fmt, RenderPadded(q)) == Canonicalize(fmt, RenderPadded(p))
  {
    PaddedKeeps(p, q, 0);
    SoundDocumentMeans(fmt, p);
    SoundDocumentMeans(fmt, q);
  }
}
