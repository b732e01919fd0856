/** Member order: UTF-16 code units (section 3.2.3 of RFC 8785). */
module JcsOrder {
  import opened JcsUtf8

  function Units(r: int): (u: seq<int>)
    requires Scalar(r)
    ensures u != []
  {
    if r < 0x10000 then [r]
    else [0xD800 + (r - 0x10000) / 0x400, 0xDC00 + (r - 0x10000) % 0x400]
  }

  predicate Scalars(rs: seq<int>) { forall i :: 0 <= i < |rs| ==> Scalar(rs[i]) }

  function AllUnits(rs: seq<int>): seq<int>
    requires Scalars(rs)
  {
    if rs == [] then [] else Units(rs[0]) + AllUnits(rs[1..])
  }

  function Utf16(s: Text): seq<int> { AllUnits(Runes(s)) }

  /** Lexicographic order; a proper prefix comes first. */
  predicate LessUnits(a: seq<int>, b: seq<int>) {
    if a == [] || b == [] then a == [] && b != []
    else if a[0] != b[0] then a[0] < b[0]
    else LessUnits(a[1..], b[1..])
  }

  predicate Less(left: Text, right: Text) { LessUnits(Utf16(left), Utf16(right)) }

  /** Equal up to some place, where the first has ended and the second has not, or has the smaller unit. */
  ghost predicate Before(a: seq<int>, b: seq<int>) {
    exists i: nat :: FirstDifference(a, b, i) && (i == |a| || a[i] < b[i])
  }

  /** They agree before place i and not at it; the second at least reaches it. */
  predicate FirstDifference(a: seq<int>, b: seq<int>, i: nat) {
    i <= |a| && i < |b| && a[..i] == b[..i] && (i < |a| ==> a[i] != b[i])
  }

  lemma {:induction false} UnitsAreBefore(a: seq<int>, b: seq<int>)
    requires LessUnits(a, b)
    ensures Before(a, b)
  {
    if a == [] || a[0] != b[0] {
      assert FirstDifference(a, b, 0);
    } else {
      UnitsAreBefore(a[1..], b[1..]);
      var i: nat :| FirstDifference(a[1..], b[1..], i) && (i == |a[1..]| || a[1..][i] < b[1..][i]);
      assert a[..i + 1] == [a[0]] + a[1..][..i] && b[..i + 1] == [b[0]] + b[1..][..i];
      assert FirstDifference(a, b, i + 1);
    }
  }

  lemma {:induction false} BeforeIsLess(a: seq<int>, b: seq<int>, i: nat)
    requires FirstDifference(a, b, i) && (i == |a| || a[i] < b[i])
    ensures LessUnits(a, b)
    decreases i
  {
    if i > 0 {
      assert a[0] == a[..i][0] && b[0] == b[..i][0];
      assert a[1..][..i - 1] == a[..i][1..] && b[1..][..i - 1] == b[..i][1..];
      BeforeIsLess(a[1..], b[1..], i - 1);
    }
  }

  /** The comparison of names, said of their code units: a proper prefix first, else the smaller unit at the first difference. */
  lemma LessIsBefore(left: Text, right: Text)
    ensures Less(left, right) <==> Before(Utf16(left), Utf16(right))
  {
    var (a, b) := (Utf16(left), Utf16(right));
    if Less(left, right) { UnitsAreBefore(a, b); }
    if Before(a, b) {
      var i: nat :| FirstDifference(a, b, i) && (i == |a| || a[i] < b[i]);
      BeforeIsLess(a, b, i);
    }
  }

  // ----- code units -----

  /** What the units of a character are: itself, or the surrogate pair that stands for it. */
  predicate UnitsOf(r: int, u: seq<int>) {
    || (u == [r] && 0 <= r < 0x10000 && !(0xD800 <= r <= 0xDFFF))
    || (|u| == 2 && 0xD800 <= u[0] <= 0xDBFF && 0xDC00 <= u[1] <= 0xDFFF && r == 0x10000 + (u[0] - 0xD800) * 0x400 + (u[1] - 0xDC00))
  }

  /** A text cut into its characters' encodings, and the units cut alike. */
  ghost predicate Transcodes(s: Text, u: seq<int>)
    decreases |s|
  {
    if s == [] then u == []
    else exists r: int, m: nat :: TranscodesFrom(s, u, r, m)
  }

  ghost predicate TranscodesFrom(s: Text, u: seq<int>, r: int, m: nat)
    requires s != []
    decreases |s|, 0
  {
    && Scalar(r) && EncodeRune(r) <= s && ValidUtf8(s[|EncodeRune(r)|..])
    && m <= |u| && UnitsOf(r, u[..m]) && Transcodes(s[|EncodeRune(r)|..], u[m..])
  }

  lemma UnitsArePairs(r: int)
    requires Scalar(r)
    ensures UnitsOf(r, Units(r))
  {
  }

  /** Utf16 replaces the encoding of each character by its units. */
  lemma {:induction false} Utf16Transcodes(s: Text)
    ensures Transcodes(s, Utf16(s))
    decreases |s|
  {
    if s != [] {
      FirstCharacter(s);
      var (r, n) := (FirstRune(s), RuneLength(s[0]));
      UnitsArePairs(r);
      Utf16Transcodes(s[n..]);
      assert Runes(s)[1..] == Runes(s[n..]) && Runes(s)[0] == r;
      var u := Utf16(s);
      assert u == Units(r) + Utf16(s[n..]);
      assert u[..|Units(r)|] == Units(r) && u[|Units(r)|..] == Utf16(s[n..]);
      assert s[..n] + s[n..] == s;
      assert TranscodesFrom(s, u, r, |Units(r)|);
    }
  }

  lemma {:induction false} UnitsTotal(a: seq<int>, b: seq<int>)
    ensures LessUnits(a, b) || LessUnits(b, a) || a == b
    ensures !(LessUnits(a, b) && LessUnits(b, a))
    ensures !LessUnits(a, a)
    decreases |a| + |b|
  {
    if a != [] && b != [] && a[0] == b[0] {
      UnitsTotal(a[1..], b[1..]);
      assert a == [a[0]] + a[1..] && b == [b[0]] + b[1..];
    }
    if a != [] && b != [] { UnitsIrreflexive(a); }
    if b == [] { UnitsIrreflexive(a); }
  }

  lemma {:induction false} UnitsIrreflexive(a: seq<int>)
    ensures !LessUnits(a, a)
  {
    if a != [] { UnitsIrreflexive(a[1..]); }
  }

  lemma {:induction false} UnitsTransitive(a: seq<int>, b: seq<int>, c: seq<int>)
    requires LessUnits(a, b) && LessUnits(b, c)
    ensures LessUnits(a, c)
  {
    if a != [] && a[0] == b[0] && b[0] == c[0] {
      UnitsTransitive(a[1..], b[1..], c[1..]);
    }
  }

  /** The first unit tells a one-unit character from a two-unit one, so units determine code points. */
  lemma {:induction false} UnitsInjective(a: seq<int>, b: seq<int>)
    requires Scalars(a) && Scalars(b) && AllUnits(a) == AllUnits(b)
    ensures a == b
  {
    if a != [] && b != [] {
      var (u, v) := (Units(a[0]), Units(b[0]));
      assert AllUnits(a)[0] == u[0] && AllUnits(b)[0] == v[0];
      assert |u| == |v|;
      assert u == AllUnits(a)[..|u|] && v == AllUnits(b)[..|v|];
      SameUnitsSameRune(a[0], b[0]);
      assert AllUnits(a)[|u|..] == AllUnits(a[1..]) && AllUnits(b)[|v|..] == AllUnits(b[1..]);
      UnitsInjective(a[1..], b[1..]);
      assert a == [a[0]] + a[1..] && b == [b[0]] + b[1..];
    }
  }

  lemma SameUnitsSameRune(r: int, t: int)
    requires Scalar(r) && Scalar(t) && Units(r) == Units(t)
    ensures r == t
  {
    if r >= 0x10000 {
      assert Units(r)[0] == Units(t)[0] && Units(r)[1] == Units(t)[1];
      var (x, y) := (r - 0x10000, t - 0x10000);
      assert x == x / 0x400 * 0x400 + x % 0x400 && y == y / 0x400 * 0x400 + y % 0x400;
    }
  }

  /** lessUTF16 is a strict total order on valid Unicode strings. */
  lemma LessIsStrictTotal(a: Text, b: Text, c: Text)
    ensures !Less(a, a)
    ensures Less(a, b) ==> !Less(b, a)
    ensures Less(a, b) && Less(b, c) ==> Less(a, c)
    ensures a == b || Less(a, b) || Less(b, a)
  {
    UnitsTotal(Utf16(a), Utf16(b));
    UnitsIrreflexive(Utf16(a));
    if Less(a, b) && Less(b, c) { UnitsTransitive(Utf16(a), Utf16(b), Utf16(c)); }
    if Utf16(a) == Utf16(b) {
      UnitsInjective(Runes(a), Runes(b));
      RunesInjective(a, b);
    }
  }

  predicate StrictlySorted(ks: seq<Text>) {
    forall i, j :: 0 <= i < j < |ks| ==> Less(ks[i], ks[j])
  }

  function Elements(ks: seq<Text>): set<Text> { set k | k in ks }

  /** k comes before every other member of keys. */
  predicate Least(k: Text, keys: set<Text>) {
    k in keys && forall j :: j in keys ==> j == k || Less(k, j)
  }

  lemma {:induction false} LeastExists(keys: set<Text>) returns (least: Text)
    requires keys != {}
    ensures Least(least, keys)
  {
    var first :| first in keys;
    var rest := keys - {first};
    if rest == {} {
      assert keys == {first};
      least := first;
    } else {
      var other := LeastExists(rest);
      LessIsStrictTotal(first, other, other);
      least := if Less(first, other) then first else other;
      forall k | k in keys ensures k == least || Less(least, k) {
        assert k == first || k in rest;
        LessIsStrictTotal(first, other, k);
      }
    }
  }

  /** The members' names in canonical order. */
  ghost function SortedKeys(keys: set<Text>): (ks: seq<Text>)
    ensures |ks| == |keys|
    decreases |keys|
  {
    if keys == {} then []
    else
      assert exists least :: Least(least, keys) by { var least := LeastExists(keys); }
      var least :| Least(least, keys);
      [least] + SortedKeys(keys - {least})
  }

  lemma {:induction false} SortedKeysAreSorted(keys: set<Text>)
    ensures StrictlySorted(SortedKeys(keys)) && Elements(SortedKeys(keys)) == keys
    decreases |keys|
  {
    if keys != {} {
      assert exists least :: Least(least, keys) by { var least := LeastExists(keys); }
      var ks := SortedKeys(keys);
      assert Least(ks[0], keys) && ks[1..] == SortedKeys(keys - {ks[0]});
      SortedKeysAreSorted(keys - {ks[0]});
      PrependLeast(ks, keys);
    }
  }

  lemma PrependLeast(ks: seq<Text>, keys: set<Text>)
    requires ks != [] && Least(ks[0], keys)
    requires StrictlySorted(ks[1..]) && Elements(ks[1..]) == keys - {ks[0]}
    ensures StrictlySorted(ks) && Elements(ks) == keys
  {
    var tail := ks[1..];
    forall i, j | 0 <= i < j < |ks| ensures Less(ks[i], ks[j]) {
      assert ks[j] == tail[j - 1] && tail[j - 1] in Elements(tail);
      if i > 0 { assert ks[i] == tail[i - 1]; }
    }
    assert ks == [ks[0]] + tail;
    forall k ensures k in Elements(ks) <==> k in keys {
      assert k in ks <==> k == ks[0] || k in tail;
      assert k in tail <==> k in Elements(tail);
    }
  }

  lemma SortedHeadIsLeast(ks: seq<Text>, k: Text)
    requires StrictlySorted(ks) && k in ks
    ensures ks != [] && (k == ks[0] || Less(ks[0], k))
  {
  }

  /** There is one canonical order: two sorted listings of the same names are the same. */
  lemma {:induction false} SortedIsUnique(a: seq<Text>, b: seq<Text>)
    requires StrictlySorted(a) && StrictlySorted(b) && Elements(a) == Elements(b)
    ensures a == b
  {
    if a == [] {
      EmptyElements(b);
    } else {
      assert a[0] in Elements(b);
      SortedHeadIsLeast(b, a[0]);
      assert b[0] in Elements(a);
      SortedHeadIsLeast(a, b[0]);
      LessIsStrictTotal(a[0], b[0], b[0]);
      TailElements(a);
      TailElements(b);
      SortedIsUnique(a[1..], b[1..]);
      assert a == [a[0]] + a[1..] && b == [b[0]] + b[1..];
    }
  }

  lemma EmptyElements(b: seq<Text>)
    ensures Elements(b) == {} <==> b == []
  {
    assert b != [] ==> b[0] in Elements(b);
  }

  lemma TailElements(a: seq<Text>)
    requires StrictlySorted(a) && a != []
    ensures Elements(a[1..]) == Elements(a) - {a[0]}
  {
    LessIsStrictTotal(a[0], a[0], a[0]);
    forall k | k in Elements(a) - {a[0]} ensures k in Elements(a[1..]) {
      var i :| 0 <= i < |a| && a[i] == k;
      assert a[1..][i - 1] == k;
    }
    forall k | k in Elements(a[1..]) ensures k in Elements(a) - {a[0]} {
      var i :| 0 <= i < |a[1..]| && a[1..][i] == k;
      assert a[i + 1] == k && Less(a[0], a[i + 1]);
    }
  }
}
