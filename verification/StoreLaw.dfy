/** The codec of the store is lawful: a valid state written to the disk is the state read from it. */
module StoreLaw {
  import opened Prelude
  import opened JcsUtf8
  import opened JcsTree
  import opened JcsCanonical
  import opened JcsIntegers
  import opened JcsDoubles
  import opened StoreState
  import opened StoreCodec
  import opened StoreTree
  import opened StoreKeys
  import opened StoreDocument

  // ----- what a valid state holds can be written -----

  lemma IdentifierWrites(w: World, back: Bytes -> string, x: string)
    requires LawfulText(w, back) && ValidIdentifier(x)
    ensures Textual(w, x)
  {
    forall i | 0 <= i < |x| ensures x[i] < 128 as char { assert IdentifierChar(x[i]); }
    assert IsAscii(x);
  }

  lemma DigestWrites(w: World, back: Bytes -> string, x: string)
    requires LawfulText(w, back) && ValidDigest(x)
    ensures Textual(w, x)
  {
    var prefix := "sha256:";
    forall i | 0 <= i < |x| ensures x[i] < 128 as char {
      if i < 7 { assert x[i] == x[..7][i] == prefix[i]; } else { assert HexDigit(x[i]); }
    }
    assert IsAscii(x);
  }

  lemma IdentifiersWrite(w: World, back: Bytes -> string, xs: seq<string>)
    requires LawfulText(w, back) && AllIdentifiers(xs)
    ensures AllTextual(w, xs)
  {
    forall i | 0 <= i < |xs| ensures Textual(w, xs[i]) { IdentifierWrites(w, back, xs[i]); }
  }

  lemma PlanOperationWrites(w: World, back: Bytes -> string, p: Plan, o: PlannedOperation)
    requires LawfulText(w, back) && AllIdentifiers(PlanValues(p)) && o in OperationsOf(p)
    ensures AllTextual(w, PlannedTexts(o))
  {
    PlanOperations(p);
    assert o in {p.create, p.exec, p.terminal, p.artifact};
    IdentifiersWrite(w, back, PlannedTexts(o));
  }

  lemma ValidPlanWrites(w: World, back: Bytes -> string, p: Plan)
    requires LawfulText(w, back) && ValidPlan(p)
    ensures PlanWrites(w, p)
  {
    var v := PlanValues(p);
    assert PlanTexts(p) == v[..9];
    IdentifiersWrite(w, back, PlanTexts(p));
    var os := OperationsOf(p);
    forall i | 0 <= i < |os| ensures AllTextual(w, PlannedTexts(os[i])) { PlanOperationWrites(w, back, p, os[i]); }
  }

  lemma ValidOperationWrites(w: World, back: Bytes -> string, o: OperationBinding)
    requires LawfulText(w, back) && ValidOperation(o)
    ensures OperationWrites(w, o)
  {
    IdentifiersWrite(w, back, OperationTexts(o));
  }

  lemma ProviderWrites(w: World, back: Bytes -> string, s: State)
    requires LawfulText(w, back) && ProviderValid(w, s)
    ensures AllTextual(w, ProviderTexts(s.provider.value))
  {
    var p := s.provider.value;
    IdentifierWrites(w, back, p.revisionId);
    DigestWrites(w, back, p.snapshotHash);
    DigestWrites(w, back, p.policyDigest);
  }

  lemma ExecWrites(w: World, back: Bytes -> string, s: State)
    requires LawfulText(w, back) && ExecValid(s)
    ensures OperationWrites(w, s.exec.value.operation) && AllTextual(w, ExecTexts(s.exec.value))
  {
    ValidOperationWrites(w, back, s.exec.value.operation);
    DigestWrites(w, back, s.exec.value.resultDigest);
    DigestWrites(w, back, s.exec.value.usageDigest);
  }

  lemma TerminalWrites(w: World, back: Bytes -> string, s: State)
    requires LawfulText(w, back) && TerminalValid(w, s)
    ensures OperationWrites(w, s.terminal.value.operation) && AllTextual(w, TerminalTexts(s.terminal.value))
  {
    var t := s.terminal.value;
    ValidOperationWrites(w, back, t.operation);
    IdentifierWrites(w, back, t.sessionId);
    assert IsAscii(w.hash(w.textBytes(t.handoffReference)));
  }

  lemma ArtifactWrites(w: World, back: Bytes -> string, s: State)
    requires LawfulText(w, back) && ArtifactValid(s)
    ensures OperationWrites(w, s.artifact.value.operation) && AllTextual(w, ArtifactTexts(s.artifact.value))
  {
    ValidOperationWrites(w, back, s.artifact.value.operation);
    DigestWrites(w, back, s.artifact.value.evidenceDigest);
  }

  lemma ValidStateWrites(w: World, back: Bytes -> string, s: State)
    requires LawfulText(w, back) && ValidState(w, s)
    ensures HeadWrites(w, s) && BindingsWrite(w, s)
  {
    ValidPlanWrites(w, back, s.plan);
    if s.provider.Some? { ProviderWrites(w, back, s); }
    if s.lifecycle.Some? { ValidOperationWrites(w, back, s.lifecycle.value); }
    if s.exec.Some? { ExecWrites(w, back, s); }
    if s.terminal.Some? { TerminalWrites(w, back, s); }
    if s.artifact.Some? { ArtifactWrites(w, back, s); }
  }

  // ----- the round trip of the tree -----

  lemma StateReadsBack(w: World, back: Bytes -> string, s: State)
    requires LawfulText(w, back) && ValidState(w, s)
    ensures ReadState(back, WriteState(w, s)) == Some(s)
  {
    ValidStateWrites(w, back, s);
    StateKeysAreGood();
    RecordReadsBack(STATE_KEYS, HeadValues(w, s) + BindingValues(w, s));
    HeadReadsBack(w, back, s);
    BindingsReadBack(w, back, s);
    StateParts(HeadValues(w, s), BindingValues(w, s));
  }

  lemma StateParts(head: seq<Json>, bindings: seq<Json>)
    requires |head| == 8
    ensures (head + bindings)[..8] == head && (head + bindings)[8..] == bindings
  {
  }

  lemma StateIsClean(w: World, fmt: NumberFormat, back: Bytes -> string, s: State)
    requires LawfulText(w, back) && ExactIntegers(fmt) && ValidState(w, s)
    ensures Clean(fmt, WriteState(w, s), 0)
  {
    ValidStateWrites(w, back, s);
    StateKeysAreGood();
    HeadIsClean(w, fmt, back, s);
    BindingsAreClean(w, fmt, s);
    JoinedIsClean(fmt, STATE_KEYS, HeadValues(w, s), BindingValues(w, s));
  }

  lemma JoinedIsClean(fmt: NumberFormat, keys: seq<string>, head: seq<Json>, bindings: seq<Json>)
    requires GoodKeys(keys) && |keys| == |head| + |bindings| && AllClean(fmt, head, 1) && AllClean(fmt, bindings, 1)
    ensures Clean(fmt, Record(Names(keys), head + bindings), 0)
  {
    NamesDiffer(keys);
    CleanJoins(fmt, head, bindings, 1);
    RecordIsClean(fmt, Names(keys), head + bindings, 0);
  }

  /** encoding/json on the state, as a tree codec. */
  function StateTree(w: World, back: Bytes -> string): TreeCodec {
    TreeCodec(s => WriteState(w, s), v => ReadState(back, v))
  }

  lemma StateTreeIsLawful(w: World, fmt: NumberFormat, back: Bytes -> string)
    requires LawfulText(w, back) && ExactIntegers(fmt)
    ensures LawfulTree(w, fmt, StateTree(w, back))
  {
    var c := StateTree(w, back);
    forall s | ValidState(w, s)
      ensures Fits(c.write(s), 0) && Normalize(fmt, c.write(s)) == Some(c.write(s)) && c.read(c.write(s)) == Some(s)
    {
      StateReadsBack(w, back, s);
      StateIsClean(w, fmt, back, s);
    }
  }

  /** The store's document is what jcs.Marshal makes of the state's own members, and readState what decodes it. */
  ghost predicate StoresStates(w: World, fmt: NumberFormat, back: Bytes -> string) {
    && (forall s :: w.encode(s) == EncodeState(fmt, StateTree(w, back), s))
    && (forall document :: w.decode(document) == DecodeState(fmt, StateTree(w, back), document))
  }

  /** Every valid state has a document, and that document is read back as this very state. */
  lemma StoreCodecIsLawful(w: World, fmt: NumberFormat, back: Bytes -> string)
    requires Lawful(fmt) && ExactIntegers(fmt) && LawfulText(w, back) && StoresStates(w, fmt, back)
    ensures LawfulCodec(w) && forall s :: ValidState(w, s) ==> w.encode(s).Some?
  {
    StateTreeIsLawful(w, fmt, back);
    CanonicalCodecIsLawful(w, fmt, StateTree(w, back));
  }

  /** With the source's own number printing nothing is left to assume of numbers but strconv's rounding. */
  lemma StoreCodecIsLawfulOverDoubles(w: World, round: Rounding, back: Bytes -> string)
    requires LawfulRounding(round) && HoldsIntegers(round) && LawfulText(w, back) && StoresStates(w, DoubleFormat(round), back)
    ensures LawfulCodec(w) && forall s :: ValidState(w, s) ==> w.encode(s).Some?
  {
    DoubleFormatIsLawful(round);
    DoubleFormatIsExact(round);
    StoreCodecIsLawful(w, DoubleFormat(round), back);
  }
}
