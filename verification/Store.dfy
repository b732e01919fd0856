/** The durable store: reading, atomic writing, transitions, and opening. */
module Store {
  import opened Prelude
  import opened JcsUtf8
  import opened StoreState
  import opened StoreDisk

  datatype StoreError =
    | StoreClosed | InvalidTransition | InvalidState | RootSecurity | RootContents | BadStateFile | StateChanged | Entropy

  /** The in-memory half of the store: whether the root is open, and the state it believes in. */
  datatype Handle = Handle(open: bool, state: State)

  /** validateRootEntries: open, list, close; nothing there yet, or just the state file. */
  function Entries(d: Disk, initial: bool): (Disk, bool) {
    var (e, ok) := Checks(d, 3);
    (e, ok && (if initial then d.dir == map[] else d.dir.Keys == {StateFile}))
  }

  /** readState: a private regular file of sane size whose whole content decodes to a valid state. */
  function ReadState(w: World, d: Disk): (Disk, Option<State>) {
    var (e, ok) := Checks(d, 7);
    (e, if ok then Decoded(w, d) else None)
  }

  function Decoded(w: World, d: Disk): Option<State> {
    if StateFile !in d.dir || d.dir[StateFile] >= |d.files| then None
    else
      var file := d.files[d.dir[StateFile]];
      if !file.private || file.data == [] || |file.data| > MAX_STATE_BYTES then None
      else
        var s := w.decode(file.data);
        if s.Some? && ValidState(w, s.value) then s else None
  }

  function WriteAll(d: Disk, f: nat, document: Bytes): (Disk, bool)
    requires f < |d.files|
    ensures |WriteAll(d, f, document).0.files| == |d.files|
    decreases |document|
  {
    if document == [] then (d, true)
    else
      var (e, n) := Write(d, f, document);
      if n.None? || n.value == 0 || n.value > |document| then (e, false)
      else WriteAll(e, f, document[n.value..])
  }

  /** Writes the document, fixes the mode, syncs and closes. */
  function Fill(d: Disk, f: nat, document: Bytes): (Disk, bool)
    requires f < |d.files|
    ensures |Fill(d, f, document).0.files| == |d.files|
  {
    var (d1, written) := WriteAll(d, f, document);
    if !written then (d1, false)
    else
      var (d2, moded) := Chmod(d1, f);
      if !moded then (d2, false)
      else
        var (d3, synced) := Sync(d2, f);
        if !synced then (d3, false) else Act(d3, d3)
  }

  /** Rename over the state file, then sync the directory; false only when the rename itself failed. */
  function Publish(d: Disk, n: Name): (Disk, bool, bool) {
    var (d1, renamed) := Rename(d, n, StateFile);
    if !renamed then (d1, false, false)
    else
      var (d2, reached) := Act(d1, d1);
      if !reached then (d2, true, false)
      else
        var (d3, synced) := SyncDir(d2);
        var (d4, closed) := Act(d3, d3);
        (d4, true, synced && closed)
  }

  function AtomicWrite(w: World, d: Disk, s: State): (Disk, Option<StoreError>) {
    if !ValidState(w, s) then (d, Some(InvalidState))
    else if w.encode(s).None? || w.encode(s).value == [] || |w.encode(s).value| > MAX_STATE_BYTES then (d, Some(BadStateFile))
    else Save(d, w.encode(s).value)
  }

  /** An atomic write once the state and its document have passed their checks. */
  function Save(d: Disk, document: Bytes): (Disk, Option<StoreError>) {
    var (d1, id) := Draw(d);
    if id.None? then (d1, Some(Entropy))
    else
      var (d2, created) := Create(d1, Temp(id.value));
      if !created then (d2, Some(BadStateFile)) else WriteTemp(d2, |d1.files|, Temp(id.value), document)
  }

  /** From an empty temporary file on. */
  function WriteTemp(d: Disk, f: nat, n: Name, document: Bytes): (Disk, Option<StoreError>) {
    if f >= |d.files| then (d, Some(BadStateFile))
    else
      var (d1, filled) := Fill(d, f, document);
      if !filled then (Remove(Act(d1, d1).0, n).0, Some(BadStateFile))
      else
        var (d2, renamed, published) := Publish(d1, n);
        if !renamed then (Remove(d2, n).0, Some(BadStateFile))
        else (d2, if published then None else Some(BadStateFile))
  }

  // ----- opening -----

  /** newPlan: None stands for failed randomness. */
  function CreateInitial(w: World, d: Disk, plan: Option<Plan>): (Disk, Result<Handle, StoreError>) {
    var (d1, reached) := Checks(d, 5);
    if !reached then (d1, Err(RootSecurity))
    else
      var (d2, vacant) := Entries(d1, true);
      if !vacant then (d2, Err(RootContents))
      else if plan.None? then (d2, Err(Entropy))
      else
        var s := InitialState(w, plan.value);
        if !ValidState(w, s) then (d2, Err(InvalidState))
        else FirstSave(w, d2, s)
  }

  /** Writes the first document, reads it back, and finds it alone. */
  function FirstSave(w: World, d: Disk, s: State): (Disk, Result<Handle, StoreError>) {
    var (d1, error) := AtomicWrite(w, d, s);
    if error.Some? then (d1, Err(error.value))
    else
      var (d2, written) := ReadState(w, d1);
      if written != Some(s) then (d2, Err(BadStateFile))
      else
        var (d3, alone) := Entries(d2, false);
        (d3, if alone then Ok(Handle(true, s)) else Err(BadStateFile))
  }

  function OpenReconstruction(w: World, d: Disk): (Disk, Result<Handle, StoreError>) {
    var (d1, reached) := Checks(d, 5);
    if !reached then (d1, Err(RootSecurity))
    else
      var (d2, alone) := Entries(d1, false);
      if !alone then (d2, Err(RootContents))
      else
        var (d3, s) := ReadState(w, d2);
        if s.None? then (d3, Err(BadStateFile))
        else if s.value.stage != InitialComplete then (d3, Err(InvalidState))
        else (d3, Ok(Handle(true, s.value)))
  }

  // ----- use -----

  /** The root is private and holds exactly the state the handle believes in. */
  function Confirm(w: World, h: Handle, d: Disk): (Disk, Option<StoreError>) {
    var (d1, private) := Checks(d, 1);
    if !private then (d1, Some(RootSecurity))
    else
      var (d2, alone) := Entries(d1, false);
      if !alone then (d2, Some(RootContents))
      else
        var (d3, s) := ReadState(w, d2);
        (d3, if s.None? then Some(BadStateFile) else if s.value != h.state then Some(StateChanged) else None)
  }

  function ValidateUnchanged(w: World, h: Handle, d: Disk): (Disk, Option<StoreError>) {
    if !h.open then (d, Some(StoreClosed)) else Confirm(w, h, d)
  }

  function DoBind(w: World, h: Handle, d: Disk, b: Bind): (Handle, Disk, Option<StoreError>) {
    if !ArgumentsOk(w, b) then (h, d, Some(InvalidTransition))
    else if !h.open then (h, d, Some(StoreClosed))
    else if h.state.stage != From(b) then (h, d, Some(InvalidTransition))
    else
      var (d1, error) := Confirm(w, h, d);
      if error.Some? then (h, d1, error) else Advance(w, h, d1, Next(w, b, h.state))
  }

  /** The rest of a transition once memory and disk agree. */
  function Advance(w: World, h: Handle, d: Disk, next: State): (Handle, Disk, Option<StoreError>) {
    if !ValidState(w, next) then (h, d, Some(InvalidTransition))
    else
      var (d1, error) := AtomicWrite(w, d, next);
      if error.Some? then (h, d1, error)
      else
        var (d2, written) := ReadState(w, d1);
        if written != Some(next) then (h, d2, Some(BadStateFile)) else (h.(state := next), d2, None)
  }

  datatype Call = Binding(b: Bind) | Validating | Closing(fails: bool)

  /** One call of the store's interface; the disk's answers are in its script. */
  function Apply(w: World, h: Handle, d: Disk, call: Call): (Handle, Disk, Option<StoreError>) {
    match call
    case Binding(b) => DoBind(w, h, d, b)
    case Validating =>
      var (e, error) := ValidateUnchanged(w, h, d);
      (h, e, error)
    case Closing(_) => (h.(open := false), d, None)
  }

  function Calls(w: World, h: Handle, d: Disk, calls: seq<Call>): (Handle, Disk)
    decreases |calls|
  {
    if calls == [] then (h, d)
    else
      var (h', d', _) := Apply(w, h, d, calls[0]);
      Calls(w, h', d', calls[1..])
  }
}
