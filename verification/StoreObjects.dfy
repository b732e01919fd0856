/** The root directory and the store as the objects they are. */
module StoreObjects {
  import opened Prelude
  import opened JcsUtf8
  import opened StoreState
  import opened StoreDisk
  import opened Store
  import opened StoreBindings

  class Root {
    var files: seq<File>
    var dir: map<Name, nat>
    ghost var pending: map<Name, set<Option<nat>>>
    var script: seq<Answer>
    var dead: bool

    constructor (answers: seq<Answer>)
      ensures View() == Disk([], map[], map[], answers, false)
    {
      files, dir, pending, script, dead := [], map[], map[], answers, false;
    }

    ghost function View(): Disk
      reads this
    {
      Disk(files, dir, pending, script, dead)
    }

    /** Takes the next answer: whether the operation has its effect, and whether it reports success. */
    method Take() returns (go: bool, ok: bool, count: nat)
      modifies this`script, this`dead
      ensures old(dead || script == []) ==> !go && !ok && dead && script == old(script)
      ensures !old(dead || script == []) ==>
        var a := old(script)[0];
        go == (a.outcome == Works || a.effect) && ok == (a.outcome == Works) && count == a.count &&
        script == old(script)[1..] && dead == (a.outcome == Stops)
    {
      if dead || script == [] {
        dead := true;
        return false, false, 0;
      }
      var a := script[0];
      script, dead := script[1..], a.outcome == Stops;
      return a.outcome == Works || a.effect, a.outcome == Works, a.count;
    }

    method Check() returns (ok: bool)
      modifies this`script, this`dead
      ensures (View(), ok) == Act(old(View()), old(View()))
    {
      var _, fine, _ := Take();
      ok := fine;
    }

    /** A series of read-only operations. */
    method CheckAll(n: nat) returns (ok: bool)
      modifies this`script, this`dead
      ensures (View(), ok) == Checks(old(View()), n)
    {
      ghost var start := View();
      var left: nat := n;
      ok := true;
      while ok && left > 0
        invariant left <= n
        invariant if ok then Checks(View(), left) == Checks(start, n) else (View(), false) == Checks(start, n)
        decreases left
      {
        ok := Check();
        left := left - 1;
      }
    }

    method DrawName() returns (id: Option<nat>)
      modifies this`script, this`dead
      ensures (View(), id) == Draw(old(View()))
    {
      var _, ok, count := Take();
      id := if ok then Some(count) else None;
    }

    method CreateFile(n: Name) returns (ok: bool)
      modifies this
      ensures (View(), ok) == Create(old(View()), n)
    {
      if n in dir {
        var _ := Check();
        return false;
      }
      var go, fine, _ := Take();
      if go {
        pending := pending[n := Candidates(View(), n) + {Some(|files|)}];
        dir := dir[n := |files|];
        files := files + [File([], false, false)];
      }
      ok := fine;
    }

    method WriteFile(f: nat, document: Bytes) returns (n: Option<nat>)
      requires f < |files|
      modifies this
      ensures (View(), n) == Write(old(View()), f, document)
    {
      var go, ok, count := Take();
      if go {
        var took := document[..if count <= |document| then count else |document|];
        files := files[f := files[f].(data := files[f].data + took, synced := false)];
      }
      n := if ok then Some(count) else None;
    }

    method ChmodFile(f: nat) returns (ok: bool)
      requires f < |files|
      modifies this
      ensures (View(), ok) == Chmod(old(View()), f)
    {
      var go, fine, _ := Take();
      if go { files := files[f := files[f].(private := true, synced := false)]; }
      ok := fine;
    }

    method SyncFile(f: nat) returns (ok: bool)
      requires f < |files|
      modifies this
      ensures (View(), ok) == Sync(old(View()), f)
    {
      var go, fine, _ := Take();
      if go { files := files[f := files[f].(synced := true)]; }
      ok := fine;
    }

    method RemoveName(n: Name) returns (ok: bool)
      modifies this
      ensures (View(), ok) == Remove(old(View()), n)
    {
      if n !in dir {
        var _ := Check();
        return false;
      }
      var go, fine, _ := Take();
      if go {
        pending := pending[n := Candidates(View(), n) + {None}];
        dir := dir - {n};
      }
      ok := fine;
    }

    method RenameOver(from: Name, to: Name) returns (ok: bool)
      modifies this
      ensures (View(), ok) == Rename(old(View()), from, to)
    {
      if from !in dir {
        var _ := Check();
        return false;
      }
      var go, fine, _ := Take();
      if go {
        ghost var after := Rebind(Rebind(View(), to, Some(dir[from])), from, None);
        dir := dir[to := dir[from]] - {from};
        pending := after.pending;
      }
      ok := fine;
    }

    method SyncDirectory() returns (ok: bool)
      modifies this
      ensures (View(), ok) == SyncDir(old(View()))
    {
      ghost var start := View();
      var go, fine, _ := Take();
      if go { pending := map n | n in pending :: {Lookup(start, n)}; }
      ok := fine;
    }

    // ----- the store's file operations -----

    method RootEntries(initial: bool) returns (ok: bool)
      modifies this`script, this`dead
      ensures (View(), ok) == Entries(old(View()), initial)
    {
      ok := CheckAll(3);
      if ok { ok := if initial then dir == map[] else dir.Keys == {StateFile}; }
    }

    method Read(w: World) returns (s: Option<State>)
      modifies this`script, this`dead
      ensures (View(), s) == ReadState(w, old(View()))
    {
      var ok := CheckAll(7);
      if !ok || StateFile !in dir || dir[StateFile] >= |files| { return None; }
      var file := files[dir[StateFile]];
      if !file.private || file.data == [] || |file.data| > MAX_STATE_BYTES { return None; }
      s := w.decode(file.data);
      if s.Some? && !ValidState(w, s.value) { s := None; }
    }

    /** The loop of writeAll. */
    method WriteWhole(f: nat, document: Bytes) returns (ok: bool)
      requires f < |files|
      modifies this
      ensures |files| == old(|files|)
      ensures (View(), ok) == WriteAll(old(View()), f, document)
    {
      ghost var start := View();
      var rest := document;
      while rest != []
        invariant f < |files| == |start.files|
        invariant WriteAll(View(), f, rest) == WriteAll(start, f, document)
        decreases |rest|
      {
        var n := WriteFile(f, rest);
        if n.None? || n.value == 0 || n.value > |rest| { return false; }
        rest := rest[n.value..];
      }
      ok := true;
    }

    method FillFile(f: nat, document: Bytes) returns (ok: bool)
      requires f < |files|
      modifies this
      ensures (View(), ok) == Fill(old(View()), f, document)
    {
      ok := WriteWhole(f, document);
      if ok { ok := ChmodFile(f); }
      if ok { ok := SyncFile(f); }
      if ok { ok := Check(); }
    }

    method PublishName(n: Name) returns (renamed: bool, ok: bool)
      modifies this
      ensures (View(), renamed, ok) == Publish(old(View()), n)
    {
      renamed := RenameOver(n, StateFile);
      if !renamed { return false, false; }
      var reached := Check();
      if !reached { return true, false; }
      var synced := SyncDirectory();
      var closed := Check();
      return true, synced && closed;
    }

    /** The rest of atomicWriteState once the temporary file exists; its deferred removal is the last branch. */
    method FillAndPublish(f: nat, n: Name, document: Bytes) returns (error: Option<StoreError>)
      modifies this
      ensures (View(), error) == WriteTemp(old(View()), f, n, document)
    {
      if f >= |files| { return Some(BadStateFile); }
      var renamed := false;
      var ok := FillFile(f, document);
      if ok {
        renamed, ok := PublishName(n);
      } else {
        var _ := Check();
      }
      if !renamed { var _ := RemoveName(n); }
      error := if ok then None else Some(BadStateFile);
    }

    method AtomicWriteState(w: World, s: State) returns (error: Option<StoreError>)
      modifies this
      ensures (View(), error) == AtomicWrite(w, old(View()), s)
    {
      if !ValidState(w, s) { return Some(InvalidState); }
      var document := w.encode(s);
      if document.None? || document.value == [] || |document.value| > MAX_STATE_BYTES { return Some(BadStateFile); }
      var id := DrawName();
      if id.None? { return Some(Entropy); }
      var f := |files|;
      var created := CreateFile(Temp(id.value));
      if !created { return Some(BadStateFile); }
      error := FillAndPublish(f, Temp(id.value), document.value);
    }
  }

  class StoreObject {
    const w: World
    const root: Root
    var open: bool
    var state: State

    ghost function View(): Handle
      reads this
    {
      Handle(open, state)
    }

    constructor (world: World, directory: Root, s: State)
      ensures w == world && root == directory && View() == Handle(true, s)
    {
      w, root, open, state := world, directory, true, s;
    }

    method Confirm() returns (error: Option<StoreError>)
      modifies root`script, root`dead
      ensures (root.View(), error) == Store.Confirm(w, View(), old(root.View()))
    {
      var ok := root.CheckAll(1);
      if !ok { return Some(RootSecurity); }
      ok := root.RootEntries(false);
      if !ok { return Some(RootContents); }
      var onDisk := root.Read(w);
      if onDisk.None? { return Some(BadStateFile); }
      error := if onDisk.value != state then Some(StateChanged) else None;
    }

    method ValidateUnchanged() returns (error: Option<StoreError>)
      modifies root`script, root`dead
      ensures (root.View(), error) == Store.ValidateUnchanged(w, View(), old(root.View()))
    {
      if !open { return Some(StoreClosed); }
      error := Confirm();
    }

    method Save(next: State) returns (error: Option<StoreError>)
      modifies this`state, root
      ensures (View(), root.View(), error) == Advance(w, old(View()), old(root.View()), next)
    {
      if !ValidState(w, next) { return Some(InvalidTransition); }
      error := root.AtomicWriteState(w, next);
      if error.Some? { return; }
      var written := root.Read(w);
      if written != Some(next) { return Some(BadStateFile); }
      state := next;
    }

    /** transition, with the binding's own change of the next state. */
    method Transition(b: Bind) returns (error: Option<StoreError>)
      requires ArgumentsOk(w, b)
      modifies this`state, root
      ensures (View(), root.View(), error) == DoBind(w, old(View()), old(root.View()), b)
      ensures if error.None? then KeepsArguments(w, old(state), state, b) else state == old(state)
    {
      BindHolds(w, View(), root.View(), b);
      if !open { return Some(StoreClosed); }
      if state.stage != From(b) { return Some(InvalidTransition); }
      error := Confirm();
      if error.None? { error := Save(Next(w, b, state)); }
    }

    method BindCapabilities(revisionId: string, snapshot: Bytes, policyDigest: string, decidedAt: string)
      returns (error: Option<StoreError>)
      modifies this`state, root
      ensures (View(), root.View(), error) ==
              DoBind(w, old(View()), old(root.View()), Bind.BindCapabilities(revisionId, snapshot, policyDigest, decidedAt))
      ensures if error.None? then HoldsCapabilities(w, old(state), state, revisionId, snapshot, policyDigest, decidedAt) else state == old(state)
    {
      if !ValidIdentifier(revisionId) || |snapshot| == 0 || |snapshot| > MAX_SNAPSHOT_BYTES || !ValidDigest(policyDigest) || !w.dateTime(decidedAt) {
        return Some(InvalidTransition);
      }
      error := Transition(Bind.BindCapabilities(revisionId, snapshot, policyDigest, decidedAt));
    }

    method BindLifecycle(token: int) returns (error: Option<StoreError>)
      modifies this`state, root
      ensures (View(), root.View(), error) == DoBind(w, old(View()), old(root.View()), Bind.BindLifecycle(token))
      ensures if error.None? then HoldsLifecycle(old(state), state, token) else state == old(state)
    {
      if token < 1 || token > MAX_SAFE_INTEGER { return Some(InvalidTransition); }
      error := Transition(Bind.BindLifecycle(token));
    }

    method BindExec(token: int, resultDigest: string, usageDigest: string) returns (error: Option<StoreError>)
      modifies this`state, root
      ensures (View(), root.View(), error) == DoBind(w, old(View()), old(root.View()), Bind.BindExec(token, resultDigest, usageDigest))
      ensures if error.None? then HoldsExec(old(state), state, token, resultDigest, usageDigest) else state == old(state)
    {
      if token < 1 || token > MAX_SAFE_INTEGER || !ValidDigest(resultDigest) || !ValidDigest(usageDigest) { return Some(InvalidTransition); }
      error := Transition(Bind.BindExec(token, resultDigest, usageDigest));
    }

    method BindTerminal(token: int, sessionId: string, handoffReference: string) returns (error: Option<StoreError>)
      modifies this`state, root
      ensures (View(), root.View(), error) == DoBind(w, old(View()), old(root.View()), Bind.BindTerminal(token, sessionId, handoffReference))
      ensures if error.None? then HoldsTerminal(w, old(state), state, token, sessionId, handoffReference) else state == old(state)
    {
      if token < 1 || token > MAX_SAFE_INTEGER || !ValidIdentifier(sessionId) || !w.reference(handoffReference) { return Some(InvalidTransition); }
      error := Transition(Bind.BindTerminal(token, sessionId, handoffReference));
    }

    method BindArtifact(token: int, evidenceDigest: string) returns (error: Option<StoreError>)
      modifies this`state, root
      ensures (View(), root.View(), error) == DoBind(w, old(View()), old(root.View()), Bind.BindArtifact(token, evidenceDigest))
      ensures if error.None? then HoldsArtifact(old(state), state, token, evidenceDigest) else state == old(state)
    {
      ghost var b := Bind.BindArtifact(token, evidenceDigest);
      if token < 1 || token > MAX_SAFE_INTEGER || !ValidDigest(evidenceDigest) {
        assert !ArgumentsOk(w, b);
        return Some(InvalidTransition);
      }
      assert ArgumentsOk(w, b);
      error := Transition(Bind.BindArtifact(token, evidenceDigest));
    }

    method Close()
      modifies this`open
      ensures View() == old(View()).(open := false)
    {
      open := false;
    }
  }

  method CreateInitialStore(w: World, root: Root, plan: Option<Plan>) returns (store: StoreObject?, ghost r: Result<Handle, StoreError>)
    modifies root
    ensures (root.View(), r) == CreateInitial(w, old(root.View()), plan)
    ensures if r.Ok? then store != null && fresh(store) && store.w == w && store.root == root && store.View() == r.value else store == null
  {
    var ok := root.CheckAll(5);
    if !ok { return null, Err(RootSecurity); }
    ok := root.RootEntries(true);
    if !ok { return null, Err(RootContents); }
    if plan.None? { return null, Err(Entropy); }
    var s := InitialState(w, plan.value);
    if !ValidState(w, s) { return null, Err(InvalidState); }
    var error := root.AtomicWriteState(w, s);
    if error.Some? { return null, Err(error.value); }
    var written := root.Read(w);
    if written != Some(s) { return null, Err(BadStateFile); }
    ok := root.RootEntries(false);
    if !ok { return null, Err(BadStateFile); }
    store := new StoreObject(w, root, s);
    r := Ok(Handle(true, s));
  }

  method OpenReconstructionStore(w: World, root: Root) returns (store: StoreObject?, ghost r: Result<Handle, StoreError>)
    modifies root`script, root`dead
    ensures (root.View(), r) == OpenReconstruction(w, old(root.View()))
    ensures if r.Ok? then store != null && fresh(store) && store.w == w && store.root == root && store.View() == r.value else store == null
  {
    var ok := root.CheckAll(5);
    if !ok { return null, Err(RootSecurity); }
    ok := root.RootEntries(false);
    if !ok { return null, Err(RootContents); }
    var s := root.Read(w);
    if s.None? { return null, Err(BadStateFile); }
    if s.value.stage != InitialComplete { return null, Err(InvalidState); }
    store := new StoreObject(w, root, s.value);
    r := Ok(Handle(true, s.value));
  }
}
