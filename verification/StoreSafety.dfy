/** The store over whole runs: memory against disk, crashes, and reopening. */
module StoreSafety {
  import opened Prelude
  import opened JcsUtf8
  import opened StoreState
  import opened StoreDisk
  import opened Store
  import opened StoreWrite

  /** Memory and disk agree, now and after any crash. */
  ghost predicate Settled(w: World, s: State, d: Disk) {
    && DiskOk(d) && ValidState(w, s) && Storable(w, s)
    && Current(d) == w.encode(s) && Whole(d, {w.encode(s)})
  }

  predicate Allowed(w: World, s: State, b: Bind) {
    ArgumentsOk(w, b) && s.stage == From(b) && ValidState(w, Next(w, b, s)) && Storable(w, Next(w, b, s))
  }

  /** The disk already shows the one-step successor that memory never confirmed. */
  ghost predicate Ahead(w: World, s: State, d: Disk, b: Bind) {
    && DiskOk(d) && ValidState(w, s) && Storable(w, s) && Allowed(w, s, b)
    && Current(d) == w.encode(Next(w, b, s)) && Whole(d, {w.encode(s), w.encode(Next(w, b, s))})
  }

  ghost predicate StoreInv(w: World, s: State, d: Disk) {
    Settled(w, s, d) || exists b :: Ahead(w, s, d, b)
  }

  lemma SettledStays(w: World, s: State, d: Disk, e: Disk)
    requires Settled(w, s, d) && SameRoot(d, e)
    ensures Settled(w, s, e)
  {
    ElsewhereKeepsWhole(d, e, {w.encode(s)});
  }

  lemma AheadStays(w: World, s: State, d: Disk, e: Disk, b: Bind)
    requires Ahead(w, s, d, b) && SameRoot(d, e)
    ensures Ahead(w, s, e, b)
  {
    ElsewhereKeepsWhole(d, e, {w.encode(s), w.encode(Next(w, b, s))});
  }

  lemma InvStays(w: World, s: State, d: Disk, e: Disk)
    requires StoreInv(w, s, d) && SameRoot(d, e)
    ensures StoreInv(w, s, e)
  {
    if Settled(w, s, d) { SettledStays(w, s, d, e); }
    else {
      var b :| Ahead(w, s, d, b);
      AheadStays(w, s, d, e, b);
    }
  }

  lemma ReadSees(w: World, d: Disk)
    ensures var (e, s) := ReadState(w, d);
      SameRoot(d, e) && (s.Some? ==> Current(d).Some? && w.decode(Current(d).value) == s && ValidState(w, s.value))
  {
    ChecksChangeNothing(d, 7);
  }

  lemma ConfirmSees(w: World, h: Handle, d: Disk)
    ensures var (e, error) := Confirm(w, h, d);
      SameRoot(d, e) && (error.None? ==> Current(d).Some? && w.decode(Current(d).value) == Some(h.state))
  {
    ChecksChangeNothing(d, 1);
    var d1 := Checks(d, 1).0;
    ChecksChangeNothing(d1, 3);
    var d2 := Entries(d1, false).0;
    ReadSees(w, d2);
    assert Current(d2) == Current(d);
  }

  /** A store whose disk is ahead can confirm nothing. */
  lemma AheadIsStuck(w: World, h: Handle, d: Disk, b: Bind)
    requires LawfulCodec(w) && Ahead(w, h.state, d, b)
    ensures Confirm(w, h, d).1.Some?
  {
    ConfirmSees(w, h, d);
    assert w.decode(Current(d).value) == Some(Next(w, b, h.state));
  }

  /** What an atomic write of the next state leaves: agreement, or a disk that is ahead. */
  lemma WriteOutcomes(w: World, s: State, d: Disk, b: Bind)
    requires Settled(w, s, d) && ArgumentsOk(w, b) && s.stage == From(b)
    ensures var next := Next(w, b, s);
      var (e, error) := AtomicWrite(w, d, next);
      && (ValidState(w, next) ==> StoreInv(w, s, e))
      && (error.None? ==> ValidState(w, next) && Settled(w, next, e))
  {
    var next := Next(w, b, s);
    var docs := {w.encode(s)};
    WriteIsAtomic(w, d, next, docs);
    var (e, error) := AtomicWrite(w, d, next);
    if ValidState(w, next) {
      if Storable(w, next) {
        OutcomesAreInv(w, s, d, e, b, error.None?);
      } else {
        assert Settled(w, s, e);
      }
    }
  }

  lemma OutcomesAreInv(w: World, s: State, d: Disk, e: Disk, b: Bind, settled: bool)
    requires Settled(w, s, d) && Allowed(w, s, b) && Outcomes(d, e, {w.encode(s)}, w.encode(Next(w, b, s)).value, settled)
    ensures StoreInv(w, s, e) && (settled ==> Settled(w, Next(w, b, s), e))
  {
    var document := w.encode(Next(w, b, s)).value;
    assert {w.encode(s)} + {Some(document)} == {w.encode(s), w.encode(Next(w, b, s))};
    if Whole(e, {w.encode(s)}) && Current(e) == Current(d) {
      assert Settled(w, s, e);
    } else {
      assert Ahead(w, s, e, b);
    }
  }

  /** The next state confirmed, or an error and the old one in memory. */
  ghost predicate Stepped(w: World, h: Handle, next: State, t: Handle, e: Disk, error: Option<StoreError>) {
    if error.None? then t == h.(state := next) && Settled(w, next, e) else t == h && StoreInv(w, h.state, e)
  }

  /** Advancing from agreement: confirmed, untouched, or one step ahead on disk. */
  lemma AdvanceOutcomes(w: World, h: Handle, d: Disk, b: Bind)
    requires LawfulCodec(w) && Settled(w, h.state, d) && ArgumentsOk(w, b) && h.state.stage == From(b)
    ensures var (t, e, error) := Advance(w, h, d, Next(w, b, h.state)); Stepped(w, h, Next(w, b, h.state), t, e, error)
  {
    var next := Next(w, b, h.state);
    WriteOutcomes(w, h.state, d, b);
    if ValidState(w, next) {
      var (d1, error) := AtomicWrite(w, d, next);
      if error.None? { ReadBack(w, h.state, next, d1); }
      AdvanceIsStepped(w, h, next, d1, error);
    } else {
      FailureIsStepped(w, h, next, d, Some(InvalidTransition));
    }
  }

  lemma FailureIsStepped(w: World, h: Handle, next: State, e: Disk, error: Option<StoreError>)
    requires StoreInv(w, h.state, e) && error.Some?
    ensures Stepped(w, h, next, h, e, error)
  {
  }

  /** The rest of Advance after its write. */
  lemma AdvanceIsStepped(w: World, h: Handle, next: State, d: Disk, error: Option<StoreError>)
    requires StoreInv(w, h.state, d)
    requires error.None? ==> StoreInv(w, h.state, ReadState(w, d).0) && Settled(w, next, ReadState(w, d).0)
    ensures error.Some? ==> Stepped(w, h, next, h, d, error)
    ensures error.None? ==> var (e, written) := ReadState(w, d);
      if written != Some(next) then Stepped(w, h, next, h, e, Some(BadStateFile)) else Stepped(w, h, next, h.(state := next), e, None)
  {
  }

  lemma ReadBack(w: World, s: State, next: State, d: Disk)
    requires StoreInv(w, s, d) && Settled(w, next, d)
    ensures var (e, read) := ReadState(w, d); StoreInv(w, s, e) && Settled(w, next, e)
  {
    ReadSees(w, d);
    var e := ReadState(w, d).0;
    SettledStays(w, next, d, e);
    InvStays(w, s, d, e);
  }

  /** A Bind that returned no error found agreement and leaves it one step on; an error leaves memory alone. */
  ghost predicate Bound(w: World, h: Handle, d: Disk, b: Bind, t: Handle, e: Disk, error: Option<StoreError>) {
    if error.None? then
      Settled(w, h.state, d) && h.state.stage == From(b) && t == h.(state := Next(w, b, h.state)) && Settled(w, t.state, e)
    else t == h && StoreInv(w, h.state, e)
  }

  lemma BindOutcomes(w: World, h: Handle, d: Disk, b: Bind)
    requires LawfulCodec(w) && StoreInv(w, h.state, d)
    ensures var (t, e, error) := DoBind(w, h, d, b); Bound(w, h, d, b, t, e, error)
  {
    var (t, e, error) := DoBind(w, h, d, b);
    if !ArgumentsOk(w, b) || !h.open || h.state.stage != From(b) {
      FailureIsBound(w, h, d, b, d, error);
    } else {
      ConfirmOutcomes(w, h, d);
      var (d1, unconfirmed) := Confirm(w, h, d);
      if unconfirmed.Some? {
        FailureIsBound(w, h, d, b, d1, error);
      } else {
        AdvanceOutcomes(w, h, d1, b);
        AdvanceIsBound(w, h, d, b, t, e, error);
      }
    }
  }

  lemma FailureIsBound(w: World, h: Handle, d: Disk, b: Bind, e: Disk, error: Option<StoreError>)
    requires StoreInv(w, h.state, e) && error.Some?
    ensures Bound(w, h, d, b, h, e, error)
  {
  }

  lemma AdvanceIsBound(w: World, h: Handle, d: Disk, b: Bind, t: Handle, e: Disk, error: Option<StoreError>)
    requires Settled(w, h.state, d) && h.state.stage == From(b)
    requires Stepped(w, h, Next(w, b, h.state), t, e, error)
    ensures Bound(w, h, d, b, t, e, error)
  {
  }

  /** Confirming finds agreement or reports an error, and changes nothing. */
  lemma ConfirmOutcomes(w: World, h: Handle, d: Disk)
    requires LawfulCodec(w) && StoreInv(w, h.state, d)
    ensures var (e, error) := Confirm(w, h, d);
      SameRoot(d, e) && StoreInv(w, h.state, e) && (error.None? ==> Settled(w, h.state, d) && Settled(w, h.state, e))
  {
    ConfirmSees(w, h, d);
    var (e, error) := Confirm(w, h, d);
    InvStays(w, h.state, d, e);
    if error.None? {
      if !Settled(w, h.state, d) {
        var c :| Ahead(w, h.state, d, c);
        AheadIsStuck(w, h, d, c);
      }
      SettledStays(w, h.state, d, e);
    }
  }

  /**
   In every reachable state the disk shows the state in memory or its one-step successor; a call
   that returns no error has confirmed the two equal, now and after a crash.
   */
  lemma ApplyKeepsInv(w: World, h: Handle, d: Disk, call: Call)
    requires LawfulCodec(w) && StoreInv(w, h.state, d)
    ensures var (h', e, error) := Apply(w, h, d, call);
      && StoreInv(w, h'.state, e)
      && (error.None? && !call.Closing? ==> Settled(w, h'.state, e))
  {
    match call
    case Binding(b) =>
      BindKeepsInv(w, h, d, b);
      var (h', e, error) := DoBind(w, h, d, b);
      LeavesInv(w, h'.state, e, error);
    case Validating => ValidateKeepsInv(w, h, d);
    case Closing(_) =>
  }

  /** What a call may leave: agreement after a success, at least the invariant after an error. */
  ghost predicate Leaves(w: World, s: State, d: Disk, error: Option<StoreError>) {
    if error.None? then Settled(w, s, d) else StoreInv(w, s, d)
  }

  lemma BoundLeaves(w: World, h: Handle, d: Disk, b: Bind, t: Handle, e: Disk, error: Option<StoreError>)
    requires Bound(w, h, d, b, t, e, error)
    ensures Leaves(w, t.state, e, error)
  {
  }

  lemma BindKeepsInv(w: World, h: Handle, d: Disk, b: Bind)
    requires LawfulCodec(w) && StoreInv(w, h.state, d)
    ensures var (t, e, error) := DoBind(w, h, d, b); Leaves(w, t.state, e, error)
  {
    BindOutcomes(w, h, d, b);
    var (t, e, error) := DoBind(w, h, d, b);
    BoundLeaves(w, h, d, b, t, e, error);
  }

  lemma LeavesInv(w: World, s: State, d: Disk, error: Option<StoreError>)
    requires Leaves(w, s, d, error)
    ensures StoreInv(w, s, d)
  {
  }

  lemma ValidateKeepsInv(w: World, h: Handle, d: Disk)
    requires LawfulCodec(w) && StoreInv(w, h.state, d)
    ensures var (e, error) := ValidateUnchanged(w, h, d);
      StoreInv(w, h.state, e) && (error.None? ==> Settled(w, h.state, e))
  {
    if h.open { ConfirmOutcomes(w, h, d); }
  }

  /** A call moves the state in memory exactly when it is a Bind that returns no error, by its own step. */
  lemma ApplyMoves(w: World, h: Handle, d: Disk, call: Call)
    ensures var (h', e, error) := Apply(w, h, d, call);
      && h'.state == (if error.None? && call.Binding? then Next(w, call.b, h.state) else h.state)
      && (error.None? && call.Binding? ==> h.open && h.state.stage == From(call.b))
  {
    if call.Binding? { BindMoves(w, h, d, call.b); }
  }

  lemma BindMoves(w: World, h: Handle, d: Disk, b: Bind)
    ensures var (h', e, error) := DoBind(w, h, d, b);
      h' == (if error.None? then h.(state := Next(w, b, h.state)) else h) && (error.None? ==> h.open && h.state.stage == From(b))
  {
    AdvanceMoves(w, h, Confirm(w, h, d).0, Next(w, b, h.state));
  }

  lemma AdvanceMoves(w: World, h: Handle, d: Disk, next: State)
    ensures var (h', e, error) := Advance(w, h, d, next); h' == if error.None? then h.(state := next) else h
  {
  }

  /** Once the disk is ahead, every Bind and every ValidateUnchanged fails and nothing moves. */
  lemma AheadRefuses(w: World, h: Handle, d: Disk, call: Call, b: Bind)
    requires LawfulCodec(w) && Ahead(w, h.state, d, b)
    ensures var (h', e, error) := Apply(w, h, d, call);
      && h'.state == h.state && SameRoot(d, e) && Ahead(w, h.state, e, b)
      && (!call.Closing? ==> error.Some?)
  {
    AheadIsStuck(w, h, d, b);
    ConfirmSees(w, h, d);
    AheadStays(w, h.state, d, Apply(w, h, d, call).1, b);
  }

  lemma {:induction false} AheadForever(w: World, h: Handle, d: Disk, calls: seq<Call>, b: Bind)
    requires LawfulCodec(w) && Ahead(w, h.state, d, b)
    ensures var (h', e) := Calls(w, h, d, calls); h'.state == h.state && SameRoot(d, e) && Ahead(w, h.state, e, b)
    decreases |calls|
  {
    if calls != [] {
      AheadRefuses(w, h, d, calls[0], b);
      var (h1, d1, _) := Apply(w, h, d, calls[0]);
      AheadForever(w, h1, d1, calls[1..], b);
    }
  }

  // ----- whole runs -----

  /** How many binding calls of the run returned no error. */
  function Successes(w: World, h: Handle, d: Disk, calls: seq<Call>): nat
    decreases |calls|
  {
    if calls == [] then 0
    else
      var (h1, d1, error) := Apply(w, h, d, calls[0]);
      Gain(calls[0], error) + Successes(w, h1, d1, calls[1..])
  }

  /** The stage tells the revision: no transition is lost or applied twice. */
  predicate InStep(s: State) { s.storeRevision == 1 + Rank(s.stage) }

  lemma NextStaysInStep(w: World, b: Bind, s: State)
    requires InStep(s) && s.stage == From(b)
    ensures InStep(Next(w, b, s)) && Next(w, b, s).plan == s.plan && Next(w, b, s).storeRevision == s.storeRevision + 1
  {
  }

  function Gain(call: Call, error: Option<StoreError>): nat { if call.Binding? && error.None? then 1 else 0 }

  predicate Advanced(s: State, t: State, gain: nat) {
    InStep(t) && t.plan == s.plan && t.storeRevision == s.storeRevision + gain
  }

  lemma ApplyStaysInStep(w: World, h: Handle, d: Disk, call: Call)
    requires InStep(h.state)
    ensures var (h', _, error) := Apply(w, h, d, call); Advanced(h.state, h'.state, Gain(call, error))
  {
    ApplyMoves(w, h, d, call);
    if call.Binding? && h.state.stage == From(call.b) { NextStaysInStep(w, call.b, h.state); }
  }

  lemma {:induction false} CallsKeepInv(w: World, h: Handle, d: Disk, calls: seq<Call>)
    requires LawfulCodec(w) && StoreInv(w, h.state, d)
    ensures var (h', e) := Calls(w, h, d, calls); StoreInv(w, h'.state, e)
    decreases |calls|
  {
    if calls != [] {
      ApplyKeepsInv(w, h, d, calls[0]);
      var (h1, d1, error) := Apply(w, h, d, calls[0]);
      CallsKeepInv(w, h1, d1, calls[1..]);
    }
  }

  /** Each successful Bind is one revision and one stage, and the plan never changes. */
  lemma {:induction false} CallsStayInStep(w: World, h: Handle, d: Disk, calls: seq<Call>)
    requires InStep(h.state)
    ensures var (h', e) := Calls(w, h, d, calls);
      Advanced(h.state, h'.state, Successes(w, h, d, calls))
    decreases |calls|
  {
    if calls != [] {
      ApplyStaysInStep(w, h, d, calls[0]);
      var (h1, d1, error) := Apply(w, h, d, calls[0]);
      CallsStayInStep(w, h1, d1, calls[1..]);
    }
  }

  /** No call ever advances a complete state. */
  lemma CompleteIsFinal(w: World, h: Handle, d: Disk, b: Bind)
    requires h.state.stage == InitialComplete
    ensures DoBind(w, h, d, b).2.Some? && DoBind(w, h, d, b).0 == h && SameRoot(d, DoBind(w, h, d, b).1)
  {
    NothingStartsComplete(b);
  }

  lemma NothingStartsComplete(b: Bind)
    ensures From(b) != InitialComplete
  {
  }

  // ----- creation -----

  /** A root the supervisor has just made: no entry, now or after a crash. */
  predicate FreshRoot(d: Disk) {
    DiskOk(d) && d.dir == map[] && Candidates(d, StateFile) == {None}
  }

  /** The document the first write puts down. */
  function FirstDocument(w: World, plan: Option<Plan>): Option<Bytes> {
    if plan.None? || !ValidState(w, InitialState(w, plan.value)) then None else w.encode(InitialState(w, plan.value))
  }

  lemma CreationIsAtomic(w: World, d: Disk, plan: Option<Plan>)
    requires LawfulCodec(w) && FreshRoot(d)
    ensures var (e, r) := CreateInitial(w, d, plan);
      && DiskOk(e) && Whole(e, {None, FirstDocument(w, plan)})
      && (r.Ok? ==> plan.Some? && r.value == Handle(true, InitialState(w, plan.value)) && Settled(w, r.value.state, e))
  {
    ChecksChangeNothing(d, 5);
    var d1 := Checks(d, 5).0;
    ChecksChangeNothing(d1, 3);
    var d2 := Entries(d1, true).0;
    StillVacant(w, d, d1, plan);
    StillVacant(w, d, d2, plan);
    if plan.Some? && ValidState(w, InitialState(w, plan.value)) {
      FirstSaveIsAtomic(w, d2, plan.value);
    }
  }

  lemma FirstSaveIsAtomic(w: World, d: Disk, plan: Plan)
    requires DiskOk(d) && Whole(d, {None}) && ValidState(w, InitialState(w, plan))
    ensures var s := InitialState(w, plan);
      var (e, r) := FirstSave(w, d, s);
      && DiskOk(e) && Whole(e, {None, w.encode(s)})
      && (r.Ok? ==> r.value == Handle(true, s) && Settled(w, s, e))
  {
    FirstWrite(w, d, plan);
    AfterFirstWrite(w, AtomicWrite(w, d, InitialState(w, plan)).0, InitialState(w, plan));
  }

  lemma StillVacant(w: World, d: Disk, e: Disk, plan: Option<Plan>)
    requires FreshRoot(d) && SameRoot(d, e)
    ensures DiskOk(e) && Whole(e, {None}) && Whole(e, {None, FirstDocument(w, plan)})
  {
    WholeGrows(e, {None}, {None, FirstDocument(w, plan)});
  }

  lemma AfterFirstWrite(w: World, d: Disk, s: State)
    requires DiskOk(d) && Whole(d, {None, w.encode(s)})
    ensures var d4 := ReadState(w, d).0;
      var d5 := Entries(d4, false).0;
      && DiskOk(d4) && Whole(d4, {None, w.encode(s)}) && DiskOk(d5) && Whole(d5, {None, w.encode(s)})
      && (Settled(w, s, d) ==> Settled(w, s, d5))
  {
    ReadSees(w, d);
    var d4 := ReadState(w, d).0;
    ChecksChangeNothing(d4, 3);
    var d5 := Entries(d4, false).0;
    ElsewhereKeepsWhole(d, d4, {None, w.encode(s)});
    ElsewhereKeepsWhole(d, d5, {None, w.encode(s)});
    if Settled(w, s, d) { SettledStays(w, s, d, d5); }
  }

  lemma FirstWrite(w: World, d: Disk, plan: Plan)
    requires DiskOk(d) && Whole(d, {None}) && ValidState(w, InitialState(w, plan))
    ensures var s := InitialState(w, plan);
      var (e, error) := AtomicWrite(w, d, s);
      && DiskOk(e) && Whole(e, {None, w.encode(s)})
      && (error.None? ==> Settled(w, s, e))
  {
    var s := InitialState(w, plan);
    var (e, error) := AtomicWrite(w, d, s);
    WriteIsAtomic(w, d, s, {None});
    if Whole(e, {None}) { WholeGrows(e, {None}, {None, w.encode(s)}); }
    if w.encode(s).Some? { assert {None} + {Some(w.encode(s).value)} == {None, w.encode(s)}; }
  }

  // ----- crash and reopening -----

  /** t is in memory, or the one step from it that the disk may already show. */
  ghost predicate Committed(w: World, s: State, t: State) {
    t == s || exists b :: Allowed(w, s, b) && t == Next(w, b, s)
  }

  /** After a crash of a live store the file is a whole document of a committed state. */
  lemma CrashLeavesACommittedState(w: World, s: State, d: Disk, e: Disk)
    requires LawfulCodec(w) && StoreInv(w, s, d) && AfterCrash(d, e)
    ensures exists t :: Committed(w, s, t) && ValidState(w, t) && w.encode(t).Some? && Current(e) == w.encode(t)
  {
    if Settled(w, s, d) {
      CrashKeepsWhole(d, e, {w.encode(s)});
      assert Committed(w, s, s) && Current(e) == w.encode(s);
    } else {
      var b :| Ahead(w, s, d, b);
      CrashKeepsWhole(d, e, {w.encode(s), w.encode(Next(w, b, s))});
      assert Committed(w, s, s) && Committed(w, s, Next(w, b, s));
    }
  }

  /** What a successful call has confirmed no crash takes back. */
  lemma SettledSurvivesCrash(w: World, s: State, d: Disk, e: Disk)
    requires Settled(w, s, d) && AfterCrash(d, e)
    ensures Current(e) == w.encode(s)
  {
    CrashKeepsWhole(d, e, {w.encode(s)});
  }

  /** The next n answers of a live disk are that the operation works. */
  predicate NextWork(d: Disk, n: nat) {
    !d.dead && |d.script| >= n && forall i :: 0 <= i < n ==> d.script[i].outcome == Works
  }

  lemma {:induction false} ChecksWork(d: Disk, n: nat)
    requires NextWork(d, n)
    ensures Checks(d, n) == (d.(script := d.script[n..]), true)
    decreases n
  {
    if n > 0 {
      var e := Act(d, d).0;
      assert e == d.(script := d.script[1..]);
      ChecksWork(e, n - 1);
      assert d.script[1..][n - 1..] == d.script[n..];
    }
  }

  lemma {:induction false} ChecksNeed(d: Disk, n: nat)
    requires Checks(d, n).1 && !d.dead
    ensures NextWork(d, n)
    decreases n
  {
    if n > 0 {
      var e := Act(d, d).0;
      assert e == d.(script := d.script[1..]);
      ChecksNeed(e, n - 1);
      forall i | 0 <= i < n ensures d.script[i].outcome == Works {
        if i > 0 { assert d.script[i] == e.script[i - 1]; }
      }
    }
  }

  /** Checks work exactly when the disk answers so. */
  lemma ChecksExactly(d: Disk, n: nat)
    requires n > 0
    ensures Checks(d, n).1 <==> NextWork(d, n)
    ensures Checks(d, n).1 ==> Checks(d, n).0 == d.(script := d.script[n..])
  {
    if NextWork(d, n) { ChecksWork(d, n); }
    if Checks(d, n).1 && !d.dead { ChecksNeed(d, n); }
  }

  /** Two lots of answers in a row. */
  lemma AnswersJoin(d: Disk, n: nat, m: nat)
    ensures NextWork(d, n + m) <==> NextWork(d, n) && |d.script| >= n && NextWork(d.(script := d.script[n..]), m)
  {
    if NextWork(d, n) && |d.script| >= n && NextWork(d.(script := d.script[n..]), m) {
      forall i | 0 <= i < n + m ensures d.script[i].outcome == Works {
        if i >= n { assert d.script[i] == d.script[n..][i - n]; }
      }
    }
  }

  /** Opening consults the disk fifteen times: the root, its entries, the file. */
  lemma OpenExactly(w: World, d: Disk)
    ensures var r := OpenReconstruction(w, d).1;
      r.Ok? <==> NextWork(d, 15) && d.dir.Keys == {StateFile} && Decoded(w, d).Some? && Decoded(w, d).value.stage == InitialComplete
    ensures var r := OpenReconstruction(w, d).1; r.Ok? ==> r.value == Handle(true, Decoded(w, d).value)
  {
    var d1 := d.(script := if |d.script| >= 5 then d.script[5..] else []);
    var d2 := d1.(script := if |d1.script| >= 3 then d1.script[3..] else []);
    AnswersJoin(d, 5, 10);
    AnswersJoin(d1, 3, 7);
    ChecksExactly(d, 5);
    ChecksExactly(d1, 3);
    ChecksExactly(d2, 7);
    assert Decoded(w, d2) == Decoded(w, d);
  }

  /** The state file is there, private, of a size that is read, and its bytes decode to this valid state. */
  predicate FileHolds(w: World, d: Disk, s: State) {
    && StateFile in d.dir && d.dir[StateFile] < |d.files|
    && var file := d.files[d.dir[StateFile]];
    && file.private && 1 <= |file.data| <= 65536 && w.decode(file.data) == Some(s) && ValidState(w, s)
  }

  /** Whatever is on the disk: reconstruction opens a state exactly when it is complete, its file alone and as it must be, and all operations work. */
  lemma OpensIff(w: World, d: Disk, s: State)
    ensures OpenReconstruction(w, d).1 == Ok(Handle(true, s)) <==>
      NextWork(d, 15) && d.dir.Keys == {StateFile} && FileHolds(w, d, s) && s.stage == InitialComplete
  {
    OpenExactly(w, d);
  }

  /**
   A complete state, confirmed before a crash, is the one reconstruction opens; it opens exactly
   when the state file is alone in the root and the disk answers all fifteen operations.
   */
  lemma CompleteReopens(w: World, s: State, d: Disk, e: Disk)
    requires LawfulCodec(w) && Settled(w, s, d) && AfterCrash(d, e) && s.stage == InitialComplete
    ensures var r := OpenReconstruction(w, e).1;
      (r.Ok? <==> NextWork(e, 15) && e.dir.Keys == {StateFile}) && (r.Ok? ==> r.value == Handle(true, s))
  {
    SettledSurvivesCrash(w, s, d, e);
    var c := Lookup(e, StateFile);
    assert c in Candidates(d, StateFile) && Holds(d, c, {w.encode(s)});
    assert Decoded(w, e) == Some(s);
    OpenExactly(w, e);
  }

  /** Reconstruction opens what the state file holds, and only a complete state. */
  lemma OpenSees(w: World, d: Disk)
    ensures var (e, r) := OpenReconstruction(w, d);
      && SameRoot(d, e)
      && (r.Ok? ==> Current(d).Some? && w.decode(Current(d).value) == Some(r.value.state) && r.value.state.stage == InitialComplete &&
                    r.value.open && ValidState(w, r.value.state))
  {
    ChecksChangeNothing(d, 5);
    var d1 := Checks(d, 5).0;
    ChecksChangeNothing(d1, 3);
    var d2 := Entries(d1, false).0;
    ReadSees(w, d2);
    assert Current(d2) == Current(d);
  }

  /** A crash during creation leaves no file or the whole first document, and nothing to reconstruct from. */
  lemma CrashDuringCreation(w: World, d: Disk, plan: Option<Plan>, e: Disk)
    requires LawfulCodec(w) && FreshRoot(d) && AfterCrash(CreateInitial(w, d, plan).0, e)
    ensures Current(e) in {None, FirstDocument(w, plan)} && OpenReconstruction(w, e).1.Err?
  {
    CreationIsAtomic(w, d, plan);
    CrashKeepsWhole(CreateInitial(w, d, plan).0, e, {None, FirstDocument(w, plan)});
    OpenSees(w, e);
  }

  lemma OpenFinds(w: World, e: Disk, t: State)
    requires LawfulCodec(w) && ValidState(w, t) && w.encode(t).Some? && Current(e) == w.encode(t)
    ensures var r := OpenReconstruction(w, e).1; r.Ok? ==> r.value.state == t && t.stage == InitialComplete
  {
    OpenSees(w, e);
  }

  /** A reopened store is a committed, complete one. */
  lemma CrashDuringUse(w: World, s: State, d: Disk, e: Disk)
    requires LawfulCodec(w) && StoreInv(w, s, d) && InStep(s) && AfterCrash(d, e)
    ensures var r := OpenReconstruction(w, e).1;
      r.Ok? ==>
        && Committed(w, s, r.value.state) && r.value.state.stage == InitialComplete
        && r.value.state.storeRevision == 6 && r.value.state.plan == s.plan
  {
    CrashLeavesACommittedState(w, s, d, e);
    var t :| Committed(w, s, t) && ValidState(w, t) && w.encode(t).Some? && Current(e) == w.encode(t);
    CommittedReopens(w, s, t, e);
  }

  predicate Recovered(r: Result<Handle, StoreError>, t: State) {
    r.Ok? ==> r.value.state == t && t.stage == InitialComplete && t.storeRevision == 6
  }

  lemma CommittedReopens(w: World, s: State, t: State, e: Disk)
    requires LawfulCodec(w) && InStep(s) && Committed(w, s, t)
    requires ValidState(w, t) && w.encode(t).Some? && Current(e) == w.encode(t)
    ensures Recovered(OpenReconstruction(w, e).1, t) && t.plan == s.plan
  {
    OpenFinds(w, e, t);
    CommittedInStep(w, s, t);
    FoundIsRecovered(OpenReconstruction(w, e).1, t);
  }

  lemma FoundIsRecovered(r: Result<Handle, StoreError>, t: State)
    requires InStep(t) && (r.Ok? ==> r.value.state == t && t.stage == InitialComplete)
    ensures Recovered(r, t)
  {
  }

  lemma CommittedInStep(w: World, s: State, t: State)
    requires InStep(s) && Committed(w, s, t)
    ensures InStep(t) && t.plan == s.plan
  {
    if t != s {
      var b :| Allowed(w, s, b) && t == Next(w, b, s);
      NextStaysInStep(w, b, s);
    }
  }

  /**
   From an empty root, through creation and any calls, with any answers of the disk, to a crash
   at any point: the file holds a whole committed state, and reconstruction accepts only the
   complete revision 6 of the run's own plan.
   */
  lemma WhatReconstructionAccepts(w: World, d: Disk, plan: Option<Plan>, calls: seq<Call>, e: Disk)
    requires LawfulCodec(w) && FreshRoot(d)
    ensures var (d1, r) := CreateInitial(w, d, plan);
      r.Ok? && AfterCrash(Calls(w, r.value, d1, calls).1, e) ==> plan.Some? && Reopens(w, Calls(w, r.value, d1, calls).0.state, plan.value, e)
  {
    CreationIsAtomic(w, d, plan);
    var (d1, r) := CreateInitial(w, d, plan);
    if r.Ok? {
      CallsKeepInv(w, r.value, d1, calls);
      CallsStayInStep(w, r.value, d1, calls);
      var (h, d2) := Calls(w, r.value, d1, calls);
      if AfterCrash(d2, e) {
        CrashLeavesACommittedState(w, h.state, d2, e);
        CrashDuringUse(w, h.state, d2, e);
      }
    }
  }

  /** The root holds a committed state of this plan, and reopening accepts only its complete revision 6. */
  ghost predicate Reopens(w: World, s: State, plan: Plan, e: Disk) {
    && s.plan == plan
    && (exists t :: Committed(w, s, t) && ValidState(w, t) && w.encode(t).Some? && Current(e) == w.encode(t))
    && var r := OpenReconstruction(w, e).1;
       (r.Ok? ==> Committed(w, s, r.value.state) && r.value.state.storeRevision == 6 &&
                  r.value.state.stage == InitialComplete && r.value.state.plan == plan)
  }
}
