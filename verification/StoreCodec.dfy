/** The state document is a canonical document: its codec inherits the round trip of canonical JSON. */
module StoreCodec {
  import opened Prelude
  import opened JcsUtf8
  import opened JcsTree
  import opened JcsCanonical
  import opened StoreState

  /** encoding/json on the state's own structure: its tree, and the state a tree decodes to. */
  datatype TreeCodec = TreeCodec(write: State -> Json, read: Json -> Option<State>)

  /** A valid state's tree is shallow, has numbers with a canonical form, and reads back once they are in it. */
  ghost predicate LawfulTree(w: World, fmt: NumberFormat, c: TreeCodec) {
    forall s :: ValidState(w, s) ==>
      && Fits(c.write(s), 0) && Normalize(fmt, c.write(s)).Some?
      && c.read(Normalize(fmt, c.write(s)).value) == Some(s)
  }

  /** jcs.Marshal of a state. */
  ghost function EncodeState(fmt: NumberFormat, c: TreeCodec, s: State): Option<Bytes> {
    match Normalize(fmt, c.write(s))
    case None => None
    case Some(n) => Some(Canonical(n))
  }

  /** readState's reading: only bytes that are their own canonical form are decoded at all. */
  ghost function DecodeState(fmt: NumberFormat, c: TreeCodec, document: Bytes): Option<State> {
    if Canonicalize(fmt, document) != Ok(document) || Parse(false, document).None? then None
    else c.read(Parse(false, document).value)
  }

  /** The store's codec law follows from the round trip of the canonical form. */
  lemma CanonicalCodecIsLawful(w: World, fmt: NumberFormat, c: TreeCodec)
    requires Lawful(fmt) && LawfulTree(w, fmt, c)
    requires forall s :: w.encode(s) == EncodeState(fmt, c, s)
    requires forall document :: w.decode(document) == DecodeState(fmt, c, document)
    ensures LawfulCodec(w)
    ensures forall s :: ValidState(w, s) ==> w.encode(s).Some?
  {
    forall s | ValidState(w, s) ensures w.encode(s).Some? && w.decode(w.encode(s).value) == Some(s) {
      NormalFits(fmt, c.write(s), 0);
      var n := Normalize(fmt, c.write(s)).value;
      CanonicalRoundTrip(fmt, n);
    }
  }
}
