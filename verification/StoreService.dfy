/** What the disk must answer for a call of the store to succeed, exactly. */
module StoreService {
  import opened Prelude
  import opened JcsUtf8
  import opened StoreState
  import opened StoreDisk
  import opened Store
  import opened StoreWrite
  import opened StoreSafety

  /** Operations in a row, or the writing of so many bytes by as many calls as it takes. */
  datatype Work = Plain(n: nat) | Writing(n: nat)

  /** The answers left over when the next n operations work. */
  function AfterPlain(script: seq<Answer>, n: nat): Option<seq<Answer>>
    decreases n
  {
    if n == 0 then Some(script)
    else if script == [] || script[0].outcome != Works then None
    else AfterPlain(script[1..], n - 1)
  }

  /** The answers left over when n bytes are written: each call takes at least one byte and no more than it is given. */
  function AfterBytes(script: seq<Answer>, n: nat): Option<seq<Answer>>
    decreases n
  {
    if n == 0 then Some(script)
    else if script == [] || script[0].outcome != Works || script[0].count == 0 || script[0].count > n then None
    else AfterBytes(script[1..], n - script[0].count)
  }

  function AfterOne(script: seq<Answer>, work: Work): Option<seq<Answer>> {
    match work
    case Plain(n) => AfterPlain(script, n)
    case Writing(n) => AfterBytes(script, n)
  }

  /** The answers left over when all of this works. */
  function AfterAll(script: seq<Answer>, work: seq<Work>): Option<seq<Answer>>
    decreases |work|
  {
    if work == [] then Some(script)
    else
      var rest := AfterOne(script, work[0]);
      if rest.None? then None else AfterAll(rest.value, work[1..])
  }

  function Then(r: Option<seq<Answer>>, work: seq<Work>): Option<seq<Answer>> {
    if r.None? then None else AfterAll(r.value, work)
  }

  lemma {:induction false} WorkJoins(script: seq<Answer>, a: seq<Work>, b: seq<Work>)
    ensures AfterAll(script, a + b) == Then(AfterAll(script, a), b)
    decreases |a|
  {
    if a == [] {
      assert a + b == b;
    } else {
      assert (a + b)[1..] == a[1..] + b;
      var rest := AfterOne(script, a[0]);
      if rest.Some? { WorkJoins(rest.value, a[1..], b); }
    }
  }

  lemma OneWork(script: seq<Answer>, work: Work)
    ensures AfterAll(script, [work]) == AfterOne(script, work)
  {
  }

  /** From d to e it all worked, or not, exactly as the disk's answers to this work say. */
  predicate Does(d: Disk, e: Disk, ok: bool, work: seq<Work>) {
    var rest := AfterAll(d.script, work);
    (ok <==> rest.Some?) && (ok ==> e.script == rest.value && !e.dead)
  }

  lemma DoesThen(d: Disk, e: Disk, ok: bool, a: seq<Work>, f: Disk, ok2: bool, b: seq<Work>)
    requires Does(d, e, ok, a) && (ok ==> Does(e, f, ok2, b))
    ensures Does(d, f, ok && ok2, a + b)
  {
    WorkJoins(d.script, a, b);
  }

  // ----- operations -----

  lemma ActDoes(d: Disk, after: Disk)
    requires !d.dead
    ensures Does(d, Act(d, after).0, Act(d, after).1, [Plain(1)])
  {
    OneWork(d.script, Plain(1));
    if d.script != [] { assert AfterPlain(d.script[1..], 0) == Some(d.script[1..]); }
  }

  lemma {:induction false} ChecksDo(d: Disk, n: nat)
    requires !d.dead
    ensures Does(d, Checks(d, n).0, Checks(d, n).1, [Plain(n)])
    decreases n
  {
    OneWork(d.script, Plain(n));
    if n > 0 {
      ActDoes(d, d);
      OneWork(d.script, Plain(1));
      var (e, ok) := Act(d, d);
      if ok {
        assert e.script == d.script[1..];
        ChecksDo(e, n - 1);
        OneWork(e.script, Plain(n - 1));
      }
    }
  }

  lemma {:induction false} WriteAllDoes(d: Disk, f: nat, document: Bytes)
    requires !d.dead && f < |d.files|
    ensures Does(d, WriteAll(d, f, document).0, WriteAll(d, f, document).1, [Writing(|document|)])
    decreases |document|
  {
    OneWork(d.script, Writing(|document|));
    if document != [] {
      var (e, n) := Write(d, f, document);
      if n.Some? && 0 < n.value <= |document| {
        assert e.script == d.script[1..] && n.value == d.script[0].count;
        WriteAllDoes(e, f, document[n.value..]);
        OneWork(e.script, Writing(|document[n.value..]|));
      }
    }
  }

  function FillWork(n: nat): seq<Work> { [Writing(n)] + ([Plain(1)] + ([Plain(1)] + [Plain(1)])) }

  lemma FillDoes(d: Disk, f: nat, document: Bytes)
    requires !d.dead && f < |d.files|
    ensures Does(d, Fill(d, f, document).0, Fill(d, f, document).1, FillWork(|document|))
  {
    WriteAllDoes(d, f, document);
    var (d1, written) := WriteAll(d, f, document);
    if written { ModeDoes(d1, f); }
    var (e, ok) := if written then ModeSyncClose(d1, f) else (d1, false);
    DoesThen(d, d1, written, [Writing(|document|)], e, ok, [Plain(1)] + ([Plain(1)] + [Plain(1)]));
  }

  /** The rest of Fill. */
  function ModeSyncClose(d: Disk, f: nat): (Disk, bool)
    requires f < |d.files|
  {
    var (d2, moded) := Chmod(d, f);
    if !moded then (d2, false)
    else
      var (d3, synced) := Sync(d2, f);
      if !synced then (d3, false) else Act(d3, d3)
  }

  lemma ModeDoes(d: Disk, f: nat)
    requires !d.dead && f < |d.files|
    ensures var (e, ok) := ModeSyncClose(d, f); Does(d, e, ok, [Plain(1)] + ([Plain(1)] + [Plain(1)]))
  {
    ActDoes(d, SetFile(d, f, d.files[f].(private := true, synced := false)));
    var (d2, moded) := Chmod(d, f);
    if moded { SyncDoes(d2, f); }
    var (e, ok) := if moded then SyncClose(d2, f) else (d2, false);
    DoesThen(d, d2, moded, [Plain(1)], e, ok, [Plain(1)] + [Plain(1)]);
  }

  function SyncClose(d: Disk, f: nat): (Disk, bool)
    requires f < |d.files|
  {
    var (d3, synced) := Sync(d, f);
    if !synced then (d3, false) else Act(d3, d3)
  }

  lemma SyncDoes(d: Disk, f: nat)
    requires !d.dead && f < |d.files|
    ensures var (e, ok) := SyncClose(d, f); Does(d, e, ok, [Plain(1)] + [Plain(1)])
  {
    ActDoes(d, SetFile(d, f, d.files[f].(synced := true)));
    var (d3, synced) := Sync(d, f);
    if synced { ActDoes(d3, d3); }
    var (e, ok) := if synced then Act(d3, d3) else (d3, false);
    DoesThen(d, d3, synced, [Plain(1)], e, ok, [Plain(1)]);
  }

  const PUBLISH_WORK: seq<Work> := [Plain(1)] + ([Plain(1)] + ([Plain(1)] + [Plain(1)]))

  lemma PublishDoes(d: Disk, n: Name)
    requires !d.dead && n in d.dir
    ensures var (e, _, published) := Publish(d, n); Does(d, e, published, PUBLISH_WORK)
  {
    ActDoes(d, Rebind(Rebind(d, StateFile, Some(d.dir[n])), n, None));
    var (d1, renamed) := Rename(d, n, StateFile);
    if renamed { ReachDoes(d1); }
    var (e, ok) := if renamed then ReachSyncClose(d1) else (d1, false);
    DoesThen(d, d1, renamed, [Plain(1)], e, ok, [Plain(1)] + ([Plain(1)] + [Plain(1)]));
  }

  /** The rest of Publish. */
  function ReachSyncClose(d: Disk): (Disk, bool) {
    var (d2, reached) := Act(d, d);
    if !reached then (d2, false) else SyncDirClose(d2)
  }

  function SyncDirClose(d: Disk): (Disk, bool) {
    var (d3, synced) := SyncDir(d);
    var (d4, closed) := Act(d3, d3);
    (d4, synced && closed)
  }

  lemma ReachDoes(d: Disk)
    requires !d.dead
    ensures var (e, ok) := ReachSyncClose(d); Does(d, e, ok, [Plain(1)] + ([Plain(1)] + [Plain(1)]))
  {
    ActDoes(d, d);
    var (d2, reached) := Act(d, d);
    if reached { SyncDirDoes(d2); }
    var (e, ok) := if reached then SyncDirClose(d2) else (d2, false);
    DoesThen(d, d2, reached, [Plain(1)], e, ok, [Plain(1)] + [Plain(1)]);
  }

  lemma SyncDirDoes(d: Disk)
    requires !d.dead
    ensures var (e, ok) := SyncDirClose(d); Does(d, e, ok, [Plain(1)] + [Plain(1)])
  {
    ActDoes(d, d.(pending := map n | n in d.pending :: {Lookup(d, n)}));
    var (d3, synced) := SyncDir(d);
    if synced { ActDoes(d3, d3); }
    var (e, ok) := Act(d3, d3);
    DoesThen(d, d3, synced, [Plain(1)], e, synced && ok, [Plain(1)]);
  }

  // ----- a write -----

  function TempWork(n: nat): seq<Work> { FillWork(n) + PUBLISH_WORK }

  lemma WriteTempDoes(d: Disk, f: nat, n: Name, document: Bytes)
    requires !d.dead && f < |d.files| && n in d.dir
    ensures var (e, error) := WriteTemp(d, f, n, document); Does(d, e, error.None?, TempWork(|document|))
    ensures var (e, error) := WriteTemp(d, f, n, document); error.None? ==> e.dir.Keys == d.dir.Keys + {StateFile} - {n}
  {
    FillDoes(d, f, document);
    FillMakesWhole(d, f, document);
    var (d1, filled) := Fill(d, f, document);
    if filled { PublishDoes(d1, n); }
    PublishBinds(d1, n);
    var (d2, _, published) := Publish(d1, n);
    DoesThen(d, d1, filled, FillWork(|document|), d2, filled && published, PUBLISH_WORK);
  }

  lemma PublishBinds(d: Disk, n: Name)
    requires n in d.dir
    ensures var (e, renamed, published) := Publish(d, n);
      (published ==> renamed && e.dir == d.dir[StateFile := d.dir[n]] - {n})
  {
    var after := Rebind(Rebind(d, StateFile, Some(d.dir[n])), n, None);
    ActEither(d, after);
    var (d1, renamed) := Rename(d, n, StateFile);
    if renamed {
      ActEither(d1, d1);
      var d2 := Act(d1, d1).0;
      ActEither(d2, d2.(pending := map n | n in d2.pending :: {Lookup(d2, n)}));
      var d3 := SyncDir(d2).0;
      ActEither(d3, d3);
    }
  }

  function SaveWork(n: nat): seq<Work> { [Plain(1)] + ([Plain(1)] + TempWork(n)) }

  /** The new document is alone in the root when all of a save has worked. */
  lemma SaveDoes(d: Disk, document: Bytes)
    requires !d.dead && d.dir.Keys <= {StateFile}
    ensures var (e, error) := Save(d, document);
      Does(d, e, error.None?, SaveWork(|document|)) && (error.None? ==> e.dir.Keys == {StateFile})
  {
    ActDoes(d, d);
    ActEither(d, d);
    var (d1, id) := Draw(d);
    if id.Some? { CreatedDoes(d1, Temp(id.value), document); }
    var (e, error) := Save(d, document);
    DoesThen(d, d1, id.Some?, [Plain(1)], e, error.None?, [Plain(1)] + TempWork(|document|));
  }

  /** The rest of a save once it has its name. */
  function CreateAndWrite(d: Disk, n: Name, document: Bytes): (Disk, bool) {
    var (d2, created) := Create(d, n);
    if !created then (d2, false)
    else
      var (e, error) := WriteTemp(d2, |d.files|, n, document);
      (e, error.None?)
  }

  lemma CreatedDoes(d: Disk, n: Name, document: Bytes)
    requires !d.dead && d.dir.Keys <= {StateFile} && n != StateFile
    ensures var (e, ok) := CreateAndWrite(d, n, document);
      Does(d, e, ok, [Plain(1)] + TempWork(|document|)) && (ok ==> e.dir.Keys == {StateFile})
  {
    var after := Rebind(d.(files := d.files + [File([], false, false)]), n, Some(|d.files|));
    ActDoes(d, after);
    ActEither(d, after);
    var (d2, created) := Create(d, n);
    if created { WriteTempDoes(d2, |d.files|, n, document); }
    var (e, ok) := CreateAndWrite(d, n, document);
    DoesThen(d, d2, created, [Plain(1)], e, ok, TempWork(|document|));
  }

  // ----- the store's calls -----

  /** The state in memory is alone on a disk that still answers, and will be after any crash. */
  ghost predicate Clean(w: World, s: State, d: Disk) {
    Settled(w, s, d) && d.dir.Keys == {StateFile} && !d.dead
  }

  lemma CleanDecodes(w: World, s: State, d: Disk)
    requires LawfulCodec(w) && Settled(w, s, d)
    ensures Decoded(w, d) == Some(s)
  {
    assert Holds(d, Lookup(d, StateFile), {w.encode(s)});
  }

  lemma ReadDoes(w: World, s: State, d: Disk)
    requires !d.dead && Decoded(w, d) == Some(s)
    ensures var (e, read) := ReadState(w, d); Does(d, e, read == Some(s), [Plain(7)]) && SameRoot(d, e)
  {
    ChecksDo(d, 7);
    ChecksChangeNothing(d, 7);
  }

  lemma EntriesDo(d: Disk, initial: bool)
    requires !d.dead && (if initial then d.dir == map[] else d.dir.Keys == {StateFile})
    ensures var (e, ok) := Entries(d, initial); Does(d, e, ok, [Plain(3)]) && SameRoot(d, e)
  {
    ChecksDo(d, 3);
    ChecksChangeNothing(d, 3);
  }

  const CONFIRM_WORK: seq<Work> := [Plain(1)] + ([Plain(3)] + [Plain(7)])

  lemma ConfirmDoes(w: World, h: Handle, d: Disk)
    requires !d.dead && d.dir.Keys == {StateFile} && Decoded(w, d) == Some(h.state)
    ensures var (e, error) := Confirm(w, h, d); Does(d, e, error.None?, CONFIRM_WORK) && SameRoot(d, e)
  {
    ChecksDo(d, 1);
    ChecksChangeNothing(d, 1);
    var (d1, private) := Checks(d, 1);
    if private { EntriesReadDo(w, h.state, d1); }
    var (e, error) := Confirm(w, h, d);
    DoesThen(d, d1, private, [Plain(1)], e, error.None?, [Plain(3)] + [Plain(7)]);
  }

  function EntriesThenRead(w: World, d: Disk): (Disk, Option<State>) {
    var (d2, alone) := Entries(d, false);
    if !alone then (d2, None) else ReadState(w, d2)
  }

  lemma EntriesReadDo(w: World, s: State, d: Disk)
    requires !d.dead && d.dir.Keys == {StateFile} && Decoded(w, d) == Some(s)
    ensures var (e, read) := EntriesThenRead(w, d); Does(d, e, read == Some(s), [Plain(3)] + [Plain(7)]) && SameRoot(d, e)
  {
    EntriesDo(d, false);
    var (d2, alone) := Entries(d, false);
    if alone { ReadDoes(w, s, d2); }
    var (e, read) := EntriesThenRead(w, d);
    DoesThen(d, d2, alone, [Plain(3)], e, read == Some(s), [Plain(7)]);
  }

  /** Whatever is on a live disk: it confirms the state in memory exactly when the file is alone, holds it, and the disk answers well. */
  lemma ConfirmsIff(w: World, h: Handle, d: Disk)
    requires !d.dead
    ensures Confirm(w, h, d).1.None? <==>
      d.dir.Keys == {StateFile} && FileHolds(w, d, h.state) && AfterAll(d.script, CONFIRM_WORK).Some?
  {
    if d.dir.Keys == {StateFile} && Decoded(w, d) == Some(h.state) { ConfirmDoes(w, h, d); }
    ChecksChangeNothing(d, 1);
    var d1 := Checks(d, 1).0;
    ChecksChangeNothing(d1, 3);
    assert Confirm(w, h, d).1.None? ==> d1.dir.Keys == {StateFile} && Decoded(w, d) == Some(h.state) by {
      if Confirm(w, h, d).1.None? { ChecksChangeNothing(Entries(d1, false).0, 7); }
    }
  }

  lemma CleanConfirms(w: World, h: Handle, d: Disk)
    requires LawfulCodec(w) && Clean(w, h.state, d)
    ensures var (e, error) := Confirm(w, h, d); Does(d, e, error.None?, CONFIRM_WORK) && (error.None? ==> Clean(w, h.state, e))
  {
    CleanDecodes(w, h.state, d);
    ConfirmDoes(w, h, d);
    SettledStays(w, h.state, d, Confirm(w, h, d).0);
  }

  /** The size of a state's document. */
  function Size(w: World, s: State): nat { if w.encode(s).Some? then |w.encode(s).value| else 0 }

  lemma AdvanceDoes(w: World, h: Handle, d: Disk, b: Bind)
    requires LawfulCodec(w) && Clean(w, h.state, d) && Allowed(w, h.state, b)
    ensures var next := Next(w, b, h.state);
      var (_, e, error) := Advance(w, h, d, next);
      Does(d, e, error.None?, SaveWork(Size(w, next)) + [Plain(7)]) && (error.None? ==> Clean(w, next, e))
  {
    var next := Next(w, b, h.state);
    SaveDoes(d, w.encode(next).value);
    WriteOutcomes(w, h.state, d, b);
    var (d1, error) := AtomicWrite(w, d, next);
    if error.None? {
      CleanDecodes(w, next, d1);
      ReadDoes(w, next, d1);
      SettledStays(w, next, d1, ReadState(w, d1).0);
    }
    var (_, e, last) := Advance(w, h, d, next);
    DoesThen(d, d1, error.None?, SaveWork(Size(w, next)), e, last.None?, [Plain(7)]);
  }

  function BindWork(w: World, next: State): seq<Work> { CONFIRM_WORK + (SaveWork(Size(w, next)) + [Plain(7)]) }

  /**
   From a clean root, a binding returns no error exactly when the store is open at the binding's stage, its
   arguments pass, its next state is valid and has a document that the store writes, and the disk answers well; it leaves a clean root.
   */
  lemma BindSucceedsIff(w: World, h: Handle, d: Disk, b: Bind)
    requires LawfulCodec(w) && Clean(w, h.state, d)
    ensures var (h', e, error) := DoBind(w, h, d, b);
      && (error.None? <==> h.open && Allowed(w, h.state, b) && AfterAll(d.script, BindWork(w, Next(w, b, h.state))).Some?)
      && (error.None? ==>
            && h' == h.(state := Next(w, b, h.state)) && Clean(w, h'.state, e)
            && AfterAll(d.script, BindWork(w, h'.state)) == Some(e.script))
  {
    BindMoves(w, h, d, b);
    var (h', e, error) := DoBind(w, h, d, b);
    if error.None? { SuccessIsAllowed(w, h, d, b); }
    if h.open && Allowed(w, h.state, b) {
      CleanConfirms(w, h, d);
      var (d1, unconfirmed) := Confirm(w, h, d);
      if unconfirmed.None? { AdvanceDoes(w, h, d1, b); }
      DoesThen(d, d1, unconfirmed.None?, CONFIRM_WORK, e, error.None?, SaveWork(Size(w, Next(w, b, h.state))) + [Plain(7)]);
    }
  }

  lemma SuccessIsAllowed(w: World, h: Handle, d: Disk, b: Bind)
    requires DoBind(w, h, d, b).2.None?
    ensures h.open && Allowed(w, h.state, b)
  {
  }

  // ----- creation -----

  function CreateWork(n: nat): seq<Work> { [Plain(5)] + ([Plain(3)] + (SaveWork(n) + ([Plain(7)] + [Plain(3)]))) }

  lemma FirstSaveDoes(w: World, d: Disk, plan: Plan)
    requires LawfulCodec(w) && FreshRoot(d) && !d.dead && ValidState(w, InitialState(w, plan)) && Storable(w, InitialState(w, plan))
    ensures var s := InitialState(w, plan);
      var (e, r) := FirstSave(w, d, s);
      Does(d, e, r.Ok?, SaveWork(Size(w, s)) + ([Plain(7)] + [Plain(3)])) && (r.Ok? ==> Clean(w, s, e))
  {
    var s := InitialState(w, plan);
    StillVacant(w, d, d, Some(plan));
    FirstWrite(w, d, plan);
    SaveDoes(d, w.encode(s).value);
    var (d1, error) := AtomicWrite(w, d, s);
    if error.None? { ReadBackDoes(w, s, d1); }
    var (e, r) := FirstSave(w, d, s);
    DoesThen(d, d1, error.None?, SaveWork(Size(w, s)), e, r.Ok?, [Plain(7)] + [Plain(3)]);
  }

  /** The rest of creation after the first write. */
  function ReadThenEntries(w: World, d: Disk, s: State): (Disk, bool) {
    var (d2, written) := ReadState(w, d);
    if written != Some(s) then (d2, false) else Entries(d2, false)
  }

  lemma ReadBackDoes(w: World, s: State, d: Disk)
    requires LawfulCodec(w) && Clean(w, s, d)
    ensures var (e, ok) := ReadThenEntries(w, d, s); Does(d, e, ok, [Plain(7)] + [Plain(3)]) && (ok ==> Clean(w, s, e))
  {
    CleanDecodes(w, s, d);
    ReadDoes(w, s, d);
    var (d2, written) := ReadState(w, d);
    if written == Some(s) {
      SettledStays(w, s, d, d2);
      EntriesDo(d2, false);
      SettledStays(w, s, d2, Entries(d2, false).0);
    }
    var (e, ok) := ReadThenEntries(w, d, s);
    DoesThen(d, d2, written == Some(s), [Plain(7)], e, ok, [Plain(3)]);
  }

  /**
   From the empty root of a live disk, creation gives a store exactly when a plan was drawn, its first state is valid and
   has a document that the store writes, and the disk answers well; it leaves a clean root.
   */
  lemma CreationSucceedsIff(w: World, d: Disk, plan: Option<Plan>)
    requires LawfulCodec(w) && FreshRoot(d) && !d.dead
    ensures var (e, r) := CreateInitial(w, d, plan);
      && (r.Ok? <==>
            && plan.Some? && ValidState(w, InitialState(w, plan.value)) && Storable(w, InitialState(w, plan.value))
            && AfterAll(d.script, CreateWork(Size(w, InitialState(w, plan.value)))).Some?)
      && (r.Ok? ==> r.value == Handle(true, InitialState(w, plan.value)) && Clean(w, r.value.state, e))
  {
    ChecksDo(d, 5);
    ChecksChangeNothing(d, 5);
    var (d1, reached) := Checks(d, 5);
    if plan.Some? && ValidState(w, InitialState(w, plan.value)) && Storable(w, InitialState(w, plan.value)) {
      var s := InitialState(w, plan.value);
      if reached { VacantDoes(w, d1, plan.value); }
      var (e, r) := CreateInitial(w, d, plan);
      DoesThen(d, d1, reached, [Plain(5)], e, r.Ok?, [Plain(3)] + (SaveWork(Size(w, s)) + ([Plain(7)] + [Plain(3)])));
    }
    CreationNeeds(w, d, plan);
  }

  lemma CreationNeeds(w: World, d: Disk, plan: Option<Plan>)
    ensures var r := CreateInitial(w, d, plan).1;
      r.Ok? ==> plan.Some? && ValidState(w, InitialState(w, plan.value)) && Storable(w, InitialState(w, plan.value)) &&
                r.value == Handle(true, InitialState(w, plan.value))
  {
  }

  function VacantThenSave(w: World, d: Disk, s: State): (Disk, bool) {
    var (d2, vacant) := Entries(d, true);
    if !vacant then (d2, false)
    else
      var (e, r) := FirstSave(w, d2, s);
      (e, r.Ok?)
  }

  lemma VacantDoes(w: World, d: Disk, plan: Plan)
    requires LawfulCodec(w) && FreshRoot(d) && !d.dead && ValidState(w, InitialState(w, plan)) && Storable(w, InitialState(w, plan))
    ensures var s := InitialState(w, plan);
      var (e, ok) := VacantThenSave(w, d, s);
      Does(d, e, ok, [Plain(3)] + (SaveWork(Size(w, s)) + ([Plain(7)] + [Plain(3)]))) && (ok ==> Clean(w, s, e))
  {
    var s := InitialState(w, plan);
    EntriesDo(d, true);
    var (d2, vacant) := Entries(d, true);
    if vacant { FirstSaveDoes(w, d2, plan); }
    var (e, ok) := VacantThenSave(w, d, s);
    DoesThen(d, d2, vacant, [Plain(3)], e, ok, SaveWork(Size(w, s)) + ([Plain(7)] + [Plain(3)]));
  }

  // ----- refusals -----

  /** A store whose disk is a step ahead says so, when the disk answers well. */
  lemma AheadSaysChanged(w: World, h: Handle, d: Disk, b: Bind)
    requires LawfulCodec(w) && Ahead(w, h.state, d, b) && !d.dead && d.dir.Keys == {StateFile}
    ensures AfterAll(d.script, CONFIRM_WORK).Some? ==> Confirm(w, h, d).1 == Some(StateChanged)
  {
    var next := Next(w, b, h.state);
    assert StoreBound(w, next, d);
    BoundDecodes(w, next, d, {w.encode(h.state), w.encode(next)});
    ConfirmDoes(w, h.(state := next), d);
    var (d1, private) := Checks(d, 1);
    ChecksChangeNothing(d, 1);
    if private && Entries(d1, false).1 { assert Confirm(w, h.(state := next), d).1.None? ==> EntriesThenRead(w, d1).1 == Some(next); }
    assert next.storeRevision != h.state.storeRevision;
  }

  /** The document in the root is this state's. */
  ghost predicate StoreBound(w: World, s: State, d: Disk) { ValidState(w, s) && Storable(w, s) && Current(d) == w.encode(s) }

  lemma BoundDecodes(w: World, s: State, d: Disk, docs: set<Option<Bytes>>)
    requires LawfulCodec(w) && StoreBound(w, s, d) && Whole(d, docs)
    ensures Decoded(w, d) == Some(s)
  {
    assert Holds(d, Lookup(d, StateFile), docs);
  }

  /** A closed store refuses every call and asks nothing of the disk. */
  lemma ClosedRefuses(w: World, h: Handle, d: Disk, b: Bind)
    requires ArgumentsOk(w, b)
    ensures var (closed, e, error) := Apply(w, h, d, Closing(false));
      && error.None? && e == d
      && DoBind(w, closed, d, b) == (closed, d, Some(StoreClosed)) && ValidateUnchanged(w, closed, d) == (d, Some(StoreClosed))
  {
  }
}
