/**
 The private root directory: what processes see, and what a power loss may leave of it.

 Every operation consults a script of answers, so that it may work, fail with or without
 having taken effect, or be the last thing the process does.  Nobody else writes the root.
 */
module StoreDisk {
  import opened Prelude
  import opened JcsUtf8

  datatype Name = StateFile | Temp(id: nat)

  /** synced: data and mode have reached the disk since they last changed. */
  datatype File = File(data: Bytes, private: bool, synced: bool)

  datatype Outcome = Works | Fails | Stops

  /** effect is read when the outcome is not Works; count by a write and by a draw of randomness. */
  datatype Answer = Answer(outcome: Outcome, effect: bool, count: nat)

  /** pending: the bindings of a name that the disk may hold, since the directory was last synced. */
  datatype Disk = Disk(
    files: seq<File>, dir: map<Name, nat>, pending: map<Name, set<Option<nat>>>,
    script: seq<Answer>, dead: bool)

  function Lookup(d: Disk, n: Name): Option<nat> { if n in d.dir then Some(d.dir[n]) else None }

  function Candidates(d: Disk, n: Name): set<Option<nat>> { if n in d.pending then d.pending[n] else {None} }

  /** One operation whose effect would be `after`. */
  function Act(d: Disk, after: Disk): (Disk, bool) {
    if d.dead || d.script == [] then (d.(dead := true), false)
    else
      var a := d.script[0];
      var base := if a.outcome == Works || a.effect then after else d;
      (base.(script := d.script[1..], dead := a.outcome == Stops), a.outcome == Works)
  }

  /** n read-only operations, each of which must work. */
  function Checks(d: Disk, n: nat): (Disk, bool)
    decreases n
  {
    if n == 0 then (d, true)
    else
      var (e, ok) := Act(d, d);
      if ok then Checks(e, n - 1) else (e, false)
  }

  /** The random part of a temporary name. */
  function Draw(d: Disk): (Disk, Option<nat>) {
    var (e, ok) := Act(d, d);
    (e, if ok then Some(d.script[0].count) else None)
  }

  function Rebind(d: Disk, n: Name, f: Option<nat>): Disk {
    d.(dir := if f.Some? then d.dir[n := f.value] else d.dir - {n},
       pending := d.pending[n := Candidates(d, n) + {f}])
  }

  /** OpenFile with O_CREATE and O_EXCL. */
  function Create(d: Disk, n: Name): (Disk, bool) {
    if n in d.dir then (Act(d, d).0, false)
    else Act(d, Rebind(d.(files := d.files + [File([], false, false)]), n, Some(|d.files|)))
  }

  function SetFile(d: Disk, f: nat, file: File): Disk
    requires f < |d.files|
  {
    d.(files := d.files[f := file])
  }

  /** One Write call: how many bytes it says it took, None for an error. */
  function Write(d: Disk, f: nat, document: Bytes): (Disk, Option<nat>)
    requires f < |d.files|
  {
    var n := if d.script == [] then 0 else d.script[0].count;
    var took := document[..if n <= |document| then n else |document|];
    var (e, ok) := Act(d, SetFile(d, f, d.files[f].(data := d.files[f].data + took, synced := false)));
    (e, if ok then Some(n) else None)
  }

  function Chmod(d: Disk, f: nat): (Disk, bool)
    requires f < |d.files|
  {
    Act(d, SetFile(d, f, d.files[f].(private := true, synced := false)))
  }

  function Sync(d: Disk, f: nat): (Disk, bool)
    requires f < |d.files|
  {
    Act(d, SetFile(d, f, d.files[f].(synced := true)))
  }

  function Remove(d: Disk, n: Name): (Disk, bool) {
    if n !in d.dir then (Act(d, d).0, false) else Act(d, Rebind(d, n, None))
  }

  function Rename(d: Disk, from: Name, to: Name): (Disk, bool) {
    if from !in d.dir then (Act(d, d).0, false)
    else Act(d, Rebind(Rebind(d, to, Some(d.dir[from])), from, None))
  }

  /** Sync of the directory: its bindings have reached the disk. */
  function SyncDir(d: Disk): (Disk, bool) {
    Act(d, d.(pending := map n | n in d.pending :: {Lookup(d, n)}))
  }

  /** What a power loss may leave: any pending binding of each name, any contents of unsynced files. */
  ghost predicate AfterCrash(d: Disk, e: Disk) {
    && |e.files| == |d.files|
    && (forall f :: 0 <= f < |d.files| ==> d.files[f].synced ==> e.files[f] == d.files[f])
    && (forall n :: Lookup(e, n) in Candidates(d, n))
  }

  // ----- what the state file may hold -----

  predicate DiskOk(d: Disk) {
    && (forall n :: n in d.dir ==> d.dir[n] < |d.files| && n in d.pending && Some(d.dir[n]) in d.pending[n])
    && (forall n :: n in d.pending ==> Lookup(d, n) in d.pending[n])
    && (forall n, c :: n in d.pending && c in d.pending[n] && c.Some? ==> c.value < |d.files|)
  }

  /** A whole, private, synced document of docs; None in docs allows no file. */
  predicate Holds(d: Disk, c: Option<nat>, docs: set<Option<Bytes>>) {
    if c.None? then None in docs
    else c.value < |d.files| && d.files[c.value].private && d.files[c.value].synced && Some(d.files[c.value].data) in docs
  }

  /** Now and after a crash the state file is one of docs. */
  ghost predicate Whole(d: Disk, docs: set<Option<Bytes>>) {
    Holds(d, Lookup(d, StateFile), docs) && forall c :: c in Candidates(d, StateFile) ==> Holds(d, c, docs)
  }

  /** What a process sees in the state file. */
  function Current(d: Disk): Option<Bytes> {
    match Lookup(d, StateFile)
    case None => None
    case Some(f) => if f < |d.files| then Some(d.files[f].data) else None
  }

  lemma WholeGrows(d: Disk, docs: set<Option<Bytes>>, more: set<Option<Bytes>>)
    requires Whole(d, docs) && docs <= more
    ensures Whole(d, more)
  {
  }

  /** The state file after a crash is one of the documents it could hold before. */
  lemma CrashKeepsWhole(d: Disk, e: Disk, docs: set<Option<Bytes>>)
    requires DiskOk(d) && Whole(d, docs) && AfterCrash(d, e)
    ensures Current(e) in docs
  {
    var c := Lookup(e, StateFile);
    assert c in Candidates(d, StateFile);
    assert Holds(d, c, docs);
    if c.Some? { assert e.files[c.value] == d.files[c.value]; }
  }

  /** The same files and bindings. */
  predicate SameRoot(d: Disk, e: Disk) {
    e.files == d.files && e.dir == d.dir && e.pending == d.pending
  }

  lemma ActEither(d: Disk, after: Disk)
    ensures var (e, ok) := Act(d, after);
      (SameRoot(d, e) || SameRoot(after, e)) && (ok ==> SameRoot(after, e) && !d.dead && !e.dead) && (d.dead ==> SameRoot(d, e) && e.dead)
  {
  }

  lemma {:induction false} ChecksChangeNothing(d: Disk, n: nat)
    ensures SameRoot(d, Checks(d, n).0)
    decreases n
  {
    if n > 0 && Act(d, d).1 { ChecksChangeNothing(Act(d, d).0, n - 1); }
  }
}
