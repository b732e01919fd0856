/** What one atomic write can do to the root, wherever it fails or the process dies. */
module StoreWrite {
  import opened Prelude
  import opened JcsUtf8
  import opened StoreState
  import opened StoreDisk
  import opened Store

  /** The state file, all it may be after a crash, and the files that were there, are untouched. */
  ghost predicate Elsewhere(d: Disk, e: Disk) {
    && Lookup(e, StateFile) == Lookup(d, StateFile) && Candidates(e, StateFile) == Candidates(d, StateFile)
    && |d.files| <= |e.files| && forall f :: 0 <= f < |d.files| ==> e.files[f] == d.files[f]
  }

  lemma ElsewhereKeepsWhole(d: Disk, e: Disk, docs: set<Option<Bytes>>)
    requires DiskOk(d) && Whole(d, docs) && Elsewhere(d, e)
    ensures Whole(e, docs) && Current(e) == Current(d)
  {
    forall c | c in Candidates(e, StateFile) ensures Holds(e, c, docs) { assert Holds(d, c, docs); }
  }

  lemma ActIsOk(d: Disk, after: Disk)
    requires DiskOk(d) && DiskOk(after)
    ensures DiskOk(Act(d, after).0)
  {
    ActEither(d, after);
  }

  lemma RebindIsOk(d: Disk, n: Name, f: Option<nat>)
    requires DiskOk(d) && (f.Some? ==> f.value < |d.files|)
    ensures var e := Rebind(d, n, f);
      DiskOk(e) && Lookup(e, n) == f && forall m :: m != n ==> Lookup(e, m) == Lookup(d, m) && Candidates(e, m) == Candidates(d, m)
  {
    var e := Rebind(d, n, f);
    forall m | m in e.pending ensures Lookup(e, m) in e.pending[m] {
      if m != n { assert Lookup(e, m) == Lookup(d, m); }
    }
  }

  lemma CreateTemp(d: Disk, id: nat)
    requires DiskOk(d)
    ensures var (e, ok) := Create(d, Temp(id));
      && DiskOk(e) && Elsewhere(d, e)
      && (ok ==> |e.files| == |d.files| + 1 && e.files[|d.files|] == File([], false, false) && Lookup(e, Temp(id)) == Some(|d.files|))
  {
    if Temp(id) in d.dir {
      ActEither(d, d);
      ActIsOk(d, d);
    } else {
      var roomy := d.(files := d.files + [File([], false, false)]);
      assert DiskOk(roomy);
      RebindIsOk(roomy, Temp(id), Some(|d.files|));
      var after := Rebind(roomy, Temp(id), Some(|d.files|));
      ActEither(d, after);
      ActIsOk(d, after);
      assert Candidates(roomy, StateFile) == Candidates(d, StateFile);
      assert Lookup(roomy, StateFile) == Lookup(d, StateFile);
      assert Elsewhere(d, after);
    }
  }

  lemma RemoveTemp(d: Disk, id: nat)
    requires DiskOk(d)
    ensures DiskOk(Remove(d, Temp(id)).0) && Elsewhere(d, Remove(d, Temp(id)).0)
  {
    RebindIsOk(d, Temp(id), None);
    var after := if Temp(id) in d.dir then Rebind(d, Temp(id), None) else d;
    ActEither(d, after);
    ActIsOk(d, after);
  }

  // ----- filling the temporary file -----

  /** Only file f has changed. */
  predicate FileOnly(d: Disk, e: Disk, f: nat) {
    && e.dir == d.dir && e.pending == d.pending && |e.files| == |d.files|
    && forall g :: 0 <= g < |d.files| && g != f ==> e.files[g] == d.files[g]
  }

  lemma SetFileOnly(d: Disk, f: nat, file: File)
    requires f < |d.files|
    ensures var (e, ok) := Act(d, SetFile(d, f, file)); FileOnly(d, e, f) && (ok ==> e.files[f] == file)
  {
    ActEither(d, SetFile(d, f, file));
  }

  lemma {:induction false} WriteAllFills(d: Disk, f: nat, document: Bytes)
    requires f < |d.files|
    ensures var (e, ok) := WriteAll(d, f, document);
      FileOnly(d, e, f) && (ok ==> e.files[f].data == d.files[f].data + document)
    decreases |document|
  {
    if document != [] {
      var n := if d.script == [] then 0 else d.script[0].count;
      var took := document[..if n <= |document| then n else |document|];
      SetFileOnly(d, f, d.files[f].(data := d.files[f].data + took, synced := false));
      var (e, m) := Write(d, f, document);
      if m.Some? && 0 < m.value <= |document| {
        WriteAllFills(e, f, document[m.value..]);
        assert took + document[m.value..] == document;
        assert d.files[f].data + took + document[m.value..] == d.files[f].data + document;
      }
    }
  }

  lemma FillMakesWhole(d: Disk, f: nat, document: Bytes)
    requires f < |d.files|
    ensures var (e, ok) := Fill(d, f, document);
      FileOnly(d, e, f) && (ok ==> e.files[f] == File(d.files[f].data + document, true, true))
  {
    WriteAllFills(d, f, document);
    var (d1, written) := WriteAll(d, f, document);
    if written {
      SetFileOnly(d1, f, d1.files[f].(private := true, synced := false));
      var (d2, moded) := Chmod(d1, f);
      if moded {
        SetFileOnly(d2, f, d2.files[f].(synced := true));
        var (d3, synced) := Sync(d2, f);
        if synced { ActEither(d3, d3); }
      }
    }
  }

  lemma FileOnlyKeeps(d: Disk, e: Disk, f: nat, docs: set<Option<Bytes>>)
    requires DiskOk(d) && Whole(d, docs) && FileOnly(d, e, f) && Unlinked(d, f)
    ensures DiskOk(e) && Whole(e, docs) && Current(e) == Current(d) && Unlinked(e, f)
  {
    forall c | c in Candidates(e, StateFile) ensures Holds(e, c, docs) { assert Holds(d, c, docs); }
    assert Lookup(e, StateFile) == Lookup(d, StateFile);
  }

  /** File f is not, and after a crash could not be, the state file. */
  ghost predicate Unlinked(d: Disk, f: nat) {
    Lookup(d, StateFile) != Some(f) && Some(f) !in Candidates(d, StateFile)
  }

  // ----- publishing it -----

  /** The root after a rename that has taken effect. */
  function Renamed(d: Disk, id: nat, f: nat): Disk {
    Rebind(Rebind(d, StateFile, Some(f)), Temp(id), None)
  }

  lemma RenamedIsOk(d: Disk, id: nat, f: nat)
    requires DiskOk(d) && Lookup(d, Temp(id)) == Some(f)
    ensures DiskOk(Renamed(d, id, f)) && Lookup(Renamed(d, id, f), StateFile) == Some(f)
    ensures Candidates(Renamed(d, id, f), StateFile) == Candidates(d, StateFile) + {Some(f)} && Renamed(d, id, f).files == d.files
  {
    RebindIsOk(d, StateFile, Some(f));
    RebindIsOk(Rebind(d, StateFile, Some(f)), Temp(id), None);
  }

  lemma RenamedIsWhole(d: Disk, id: nat, f: nat, docs: set<Option<Bytes>>, document: Bytes)
    requires DiskOk(d) && Whole(d, docs) && Lookup(d, Temp(id)) == Some(f) && d.files[f] == File(document, true, true)
    ensures var after := Renamed(d, id, f); Whole(after, docs + {Some(document)}) && Current(after) == Some(document)
  {
    RenamedIsOk(d, id, f);
    var after := Renamed(d, id, f);
    forall c | c in Candidates(after, StateFile) ensures Holds(after, c, docs + {Some(document)}) {
      if c != Some(f) { assert Holds(d, c, docs); }
    }
  }

  /** The rename alone: all or nothing. */
  lemma RenamePublishes(d: Disk, id: nat, f: nat, docs: set<Option<Bytes>>, document: Bytes)
    requires DiskOk(d) && Whole(d, docs) && Lookup(d, Temp(id)) == Some(f)
    requires d.files[f] == File(document, true, true)
    ensures var (e, ok) := Rename(d, Temp(id), StateFile);
      && DiskOk(e) && |e.files| == |d.files|
      && ((Whole(e, docs) && Current(e) == Current(d) && !ok) || (Whole(e, docs + {Some(document)}) && Current(e) == Some(document)))
  {
    var after := Renamed(d, id, f);
    RenamedIsOk(d, id, f);
    RenamedIsWhole(d, id, f, docs, document);
    ActIsOk(d, after);
    ActEither(d, after);
    var e := Rename(d, Temp(id), StateFile).0;
    if SameRoot(after, e) {
      ElsewhereKeepsWhole(after, e, docs + {Some(document)});
    } else {
      ElsewhereKeepsWhole(d, e, docs);
    }
  }

  /** The root once its directory has been synced. */
  function Synced(d: Disk): Disk { d.(pending := map n | n in d.pending :: {Lookup(d, n)}) }

  lemma SyncedIsSettled(d: Disk, docs: set<Option<Bytes>>, document: Bytes)
    requires DiskOk(d) && Whole(d, docs) && Current(d) == Some(document)
    ensures var after := Synced(d); DiskOk(after) && Whole(after, {Some(document)}) && Whole(after, docs) && Current(after) == Some(document)
  {
    var after := Synced(d);
    var c := Lookup(d, StateFile);
    assert StateFile in d.dir && c in Candidates(d, StateFile);
    assert Candidates(after, StateFile) == {c};
    assert Holds(d, c, docs);
    WholeGrows(after, {Some(document)}, docs);
  }

  /** Syncing the directory settles the state file on what it is now. */
  lemma SyncSettles(d: Disk, docs: set<Option<Bytes>>, document: Bytes)
    requires DiskOk(d) && Whole(d, docs) && Current(d) == Some(document)
    ensures var (e, ok) := SyncDir(d);
      && DiskOk(e) && Whole(e, docs) && Current(e) == Some(document)
      && (ok ==> Whole(e, {Some(document)}))
  {
    var after := Synced(d);
    SyncedIsSettled(d, docs, document);
    ActIsOk(d, after);
    ActEither(d, after);
    var e := SyncDir(d).0;
    if SameRoot(after, e) {
      ElsewhereKeepsWhole(after, e, docs);
      ElsewhereKeepsWhole(after, e, {Some(document)});
    } else {
      ElsewhereKeepsWhole(d, e, docs);
    }
  }

  /**
   How the root stands after trying to put document in place of docs: untouched as far as the
   state file goes, or showing document, with docs still possible after a crash unless settled.
   */
  ghost predicate Outcomes(d: Disk, e: Disk, docs: set<Option<Bytes>>, document: Bytes, settled: bool) {
    && DiskOk(e)
    && ((!settled && Whole(e, docs) && Current(e) == Current(d)) ||
        (Whole(e, docs + {Some(document)}) && Current(e) == Some(document)))
    && (settled ==> Whole(e, {Some(document)}) && Current(e) == Some(document))
  }

  lemma OutcomesStay(d: Disk, e: Disk, e': Disk, docs: set<Option<Bytes>>, document: Bytes, settled: bool)
    requires Outcomes(d, e, docs, document, settled) && SameRoot(e, e')
    ensures Outcomes(d, e', docs, document, settled)
  {
    if Whole(e, docs) { ElsewhereKeepsWhole(e, e', docs); }
    if Whole(e, docs + {Some(document)}) { ElsewhereKeepsWhole(e, e', docs + {Some(document)}); }
    if settled { ElsewhereKeepsWhole(e, e', {Some(document)}); }
  }

  lemma PublishOutcomes(d: Disk, id: nat, f: nat, docs: set<Option<Bytes>>, document: Bytes)
    requires DiskOk(d) && Whole(d, docs) && Lookup(d, Temp(id)) == Some(f)
    requires d.files[f] == File(document, true, true)
    ensures var (e, renamed, published) := Publish(d, Temp(id));
      && Outcomes(d, e, docs, document, published)
      && (published ==> renamed)
  {
    RenamePublishes(d, id, f, docs, document);
    var (d1, renamed) := Rename(d, Temp(id), StateFile);
    if renamed {
      var (d2, reached) := Act(d1, d1);
      ActEither(d1, d1);
      OutcomesStay(d, d1, d2, docs, document, false);
      if reached {
        SyncSettles(d2, docs + {Some(document)}, document);
        var (d3, synced) := SyncDir(d2);
        var (d4, closed) := Act(d3, d3);
        ActEither(d3, d3);
        OutcomesStay(d, d3, d4, docs, document, synced);
      }
    }
  }

  lemma RemovingKeepsOutcomes(d: Disk, e: Disk, id: nat, docs: set<Option<Bytes>>, document: Bytes)
    requires Outcomes(d, e, docs, document, false)
    ensures Outcomes(d, Remove(e, Temp(id)).0, docs, document, false)
  {
    RemoveTemp(e, id);
    var e' := Remove(e, Temp(id)).0;
    if Whole(e, docs) { ElsewhereKeepsWhole(e, e', docs); }
    if Whole(e, docs + {Some(document)}) { ElsewhereKeepsWhole(e, e', docs + {Some(document)}); }
  }

  lemma WriteTempOutcomes(d: Disk, f: nat, id: nat, docs: set<Option<Bytes>>, document: Bytes)
    requires DiskOk(d) && Whole(d, docs) && f < |d.files| && Unlinked(d, f)
    requires d.files[f].data == [] && Lookup(d, Temp(id)) == Some(f)
    ensures var (e, error) := WriteTemp(d, f, Temp(id), document); Outcomes(d, e, docs, document, error.None?)
  {
    FillMakesWhole(d, f, document);
    var (d1, filled) := Fill(d, f, document);
    FileOnlyKeeps(d, d1, f, docs);
    if !filled {
      ActEither(d1, d1);
      OutcomesStay(d, d1, Act(d1, d1).0, docs, document, false);
      RemovingKeepsOutcomes(d, Act(d1, d1).0, id, docs, document);
    } else {
      assert [] + document == document;
      PublishOutcomes(d1, id, f, docs, document);
      var (d2, renamed, published) := Publish(d1, Temp(id));
      if !renamed { RemovingKeepsOutcomes(d1, d2, id, docs, document); }
    }
  }

  /** What is left when nothing of a new document was put in place. */
  ghost predicate Untouched(d: Disk, e: Disk, docs: set<Option<Bytes>>) {
    DiskOk(e) && Whole(e, docs) && Current(e) == Current(d)
  }

  /** One atomic write, stopped anywhere: the old document, or the whole new one. */
  lemma WriteIsAtomic(w: World, d: Disk, s: State, docs: set<Option<Bytes>>)
    requires DiskOk(d) && Whole(d, docs)
    ensures var (e, error) := AtomicWrite(w, d, s);
      && (Storable(w, s) ==> Outcomes(d, e, docs, w.encode(s).value, error.None?))
      && (!Storable(w, s) ==> error.Some? && Untouched(d, e, docs))
      && (error.None? ==> ValidState(w, s))
  {
    if ValidState(w, s) && Storable(w, s) { SaveIsAtomic(d, w.encode(s).value, docs); }
  }

  lemma SaveIsAtomic(d: Disk, document: Bytes, docs: set<Option<Bytes>>)
    requires DiskOk(d) && Whole(d, docs)
    ensures var (e, error) := Save(d, document); Outcomes(d, e, docs, document, error.None?)
  {
    var (d1, id) := Draw(d);
    ActEither(d, d);
    ElsewhereKeepsWhole(d, d1, docs);
    if id.Some? {
      CreateTemp(d1, id.value);
      var (d2, created) := Create(d1, Temp(id.value));
      ElsewhereKeepsWhole(d1, d2, docs);
      if created {
        assert Unlinked(d2, |d1.files|);
        WriteTempOutcomes(d2, |d1.files|, id.value, docs, document);
      }
    }
  }
}
