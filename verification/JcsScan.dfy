/**
 The surrogate scanner against the readers: validUnicodeEscapes followed by the lenient reader
 of encoding/json accepts exactly what a reader that refuses lone surrogates accepts.
 */
module JcsScan {
  import opened Prelude
  import opened JcsUtf8
  import opened JcsStrings
  import opened JcsNumbers
  import opened JcsTree

  lemma {:induction false} ScanSkips(s: Bytes, n: nat)
    requires n <= |s| && forall i :: 0 <= i < n ==> s[i] != QUOTE
    ensures Scan(false, s) == Scan(false, s[n..])
  {
    if n > 0 {
      ScanSkips(s[1..], n - 1);
      assert s[1..][n - 1..] == s[n..];
    }
  }

  lemma {:induction false} ScanSkipsSpace(s: Bytes)
    requires ValidUtf8(s)
    ensures Scan(false, s) == Scan(false, SkipSpace(s))
  {
    if s != [] && IsSpace(s[0]) {
      AsciiSplits(Start, s);
      ScanSkipsSpace(s[1..]);
    }
  }

  lemma ScanSkipsNumber(s: Bytes)
    requires NumberLength(s).Some?
    ensures Scan(false, s) == Scan(false, s[NumberLength(s).value..])
  {
    NumberIsAscii(s);
    ScanSkips(s, NumberLength(s).value);
  }

  /** What the lenient and the strict reader return on s, and what the scanner makes of it. */
  ghost predicate Agree<T>(s: Bytes, lenient: Option<(T, Bytes)>, strict: Option<(T, Bytes)>) {
    && (strict.Some? ==> lenient == strict)
    && (lenient.Some? ==> (Scan(false, s) <==> strict.Some? && Scan(false, lenient.value.1)))
  }

  lemma ScanStringToken(t: Bytes)
    requires ValidUtf8(t) && t != [] && t[0] == QUOTE
    ensures ValidUtf8(t[1..])
    ensures Agree(t, Unquote(false, Start, t[1..]), Unquote(true, Start, t[1..]))
  {
    AsciiSplits(Start, t);
    if Unquote(true, Start, t[1..]).Some? { StrictIsLenient(Start, t[1..]); }
    if Unquote(false, Start, t[1..]).Some? { ScanString(Start, t[1..]); }
  }

  lemma ScanScalar(s: Bytes)
    requires ValidUtf8(s)
    ensures Agree(s, ParseScalar(false, s), ParseScalar(true, s))
  {
    if NULL <= s {
      ScanSkips(s, 4);
    } else if TRUE <= s {
      ScanSkips(s, 4);
    } else if FALSE <= s {
      ScanSkips(s, 5);
    } else if s != [] && s[0] == QUOTE {
      ScanStringToken(s);
    } else if NumberLength(s).Some? {
      ScanSkipsNumber(s);
    }
  }

  lemma {:induction false} ScanValue(s: Bytes, depth: nat)
    requires ValidUtf8(s)
    ensures Agree(s, ParseValue(false, s, depth), ParseValue(true, s, depth))
    decreases |s|, 1
  {
    ScanSkipsSpace(s);
    var t := SkipSpace(s);
    if depth <= MAX_DEPTH && t != [] {
      if t[0] == OPEN_ARRAY || t[0] == OPEN_OBJECT {
        AfterAscii(t);
        ScanSkipsSpace(t[1..]);
        var u := SkipSpace(t[1..]);
        if t[0] == OPEN_ARRAY {
          if u != [] && u[0] == CLOSE_ARRAY { AfterAscii(u); } else { ScanElements(u, depth); }
        } else {
          if u != [] && u[0] == CLOSE_OBJECT { AfterAscii(u); } else { ScanMembers(u, depth, map[]); }
        }
      } else {
        ScanScalar(t);
      }
    }
  }

  lemma {:induction false} ScanElements(s: Bytes, depth: nat)
    requires ValidUtf8(s)
    ensures Agree(s, ParseElements(false, s, depth), ParseElements(true, s, depth))
    decreases |s|, 2
  {
    ScanValue(s, depth + 1);
    match ParseValue(false, s, depth + 1) {
      case None =>
      case Some((v, rest)) =>
        ScanSkipsSpace(rest);
        var t := SkipSpace(rest);
        if t != [] && (t[0] == CLOSE_ARRAY || t[0] == COMMA) {
          AfterAscii(t);
          if t[0] == COMMA { ScanElements(t[1..], depth); }
        }
    }
  }

  lemma ScanName(s: Bytes)
    requires ValidUtf8(s)
    ensures Agree(s, ParseName(false, s), ParseName(true, s))
  {
    ScanSkipsSpace(s);
    var t := SkipSpace(s);
    if t != [] && t[0] == QUOTE {
      ScanStringToken(t);
      match Unquote(false, Start, t[1..]) {
        case None =>
        case Some((name, rest)) =>
          ScanSkipsSpace(rest);
          var u := SkipSpace(rest);
          if u != [] && u[0] == COLON { AfterAscii(u); }
      }
    }
  }

  lemma {:induction false} ScanMembers(s: Bytes, depth: nat, seen: map<Text, Json>)
    requires ValidUtf8(s)
    ensures Agree(s, ParseMembers(false, s, depth, seen), ParseMembers(true, s, depth, seen))
    decreases |s|, 2
  {
    ScanName(s);
    match ParseName(false, s) {
      case None =>
      case Some((name, u)) =>
        ScanValue(u, depth + 1);
        match ParseValue(false, u, depth + 1) {
          case None =>
          case Some((v, rest)) =>
            ScanSkipsSpace(rest);
            var t := SkipSpace(rest);
            if t != [] && (t[0] == CLOSE_OBJECT || t[0] == COMMA) {
              AfterAscii(t);
              if t[0] == COMMA { ScanMembers(t[1..], depth, seen[name := v]); }
            }
        }
    }
  }

  /** Scanner and lenient reader together are the strict reader, document by document and value by value. */
  lemma ScannerIsExact(s: Bytes)
    requires ValidUtf8(s)
    ensures Parse(true, s) == if Scan(false, s) then Parse(false, s) else None
  {
    ScanValue(s, 0);
    match ParseValue(false, s, 0) {
      case None =>
      case Some((v, rest)) => ScanSkipsSpace(rest);
    }
  }
}
