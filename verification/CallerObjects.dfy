/** The caller process over a live store object. */
module CallerObjects {
  import opened Prelude
  import opened StoreState
  import opened StoreDisk
  import opened Store
  import opened StoreObjects
  import opened CallerRun

  /** One call, however the executor reaches it. */
  method Perform(store: StoreObject, call: Call)
    modifies store, store.root
    ensures var (h, d, _) := Apply(store.w, old(store.View()), old(store.root.View()), call);
      store.View() == h && store.root.View() == d
  {
    match call
    case Binding(b) => if ArgumentsOk(store.w, b) { var _ := store.Transition(b); }
    case Validating => var _ := store.ValidateUnchanged();
    case Closing(_) => store.Close();
  }

  method PerformAll(store: StoreObject, calls: seq<Call>)
    modifies store, store.root
    ensures (store.View(), store.root.View()) == Calls(store.w, old(store.View()), old(store.root.View()), calls)
  {
    ghost var (h, d) := (store.View(), store.root.View());
    var rest := calls;
    while rest != []
      invariant Calls(store.w, store.View(), store.root.View(), rest) == Calls(store.w, h, d, calls)
      decreases |rest|
    {
      Perform(store, rest[0]);
      rest := rest[1..];
    }
  }

  method RunScenario(store: StoreObject, phase: Phase, id: CaseId, turn: Turn) returns (code: int)
    modifies store, store.root
    ensures (store.View(), store.root.View(), code) ==
            RunCase(store.w, StoreInterface(store.w), old(store.View()), old(store.root.View()), phase, id, turn)
  {
    var before := store.state;
    PerformAll(store, turn.calls);
    if !turn.dataOk { return EXIT_SOFTWARE; }
    if !Gate(phase, id, before, store.state) { return EXIT_SOFTWARE; }
    var error := store.ValidateUnchanged();
    if error.Some? { return EXIT_SOFTWARE; }
    if !turn.resultOk { return EXIT_DATA; }
    if !turn.written { return EXIT_IO; }
    code := EXIT_SUCCESS;
  }

  function Ends(r: (Handle, Disk, int, seq<State>)): (Handle, Disk, int) { (r.0, r.1, r.2) }

  /** The request's case and then the continuation loop. */
  method RunInOrder(store: StoreObject, phase: Phase, cases: seq<CaseId>, turns: seq<Turn>) returns (code: int)
    modifies store, store.root
    ensures (store.View(), store.root.View(), code) ==
            Ends(RunCases(CaseRun(store.w, StoreInterface(store.w), phase), old(store.View()), old(store.root.View()), cases, turns))
  {
    ghost var run := CaseRun(store.w, StoreInterface(store.w), phase);
    ghost var goal := Ends(RunCases(run, store.View(), store.root.View(), cases, turns));
    var (rest, left) := (cases, turns);
    while rest != []
      invariant Ends(RunCases(run, store.View(), store.root.View(), rest, left)) == goal
      decreases |rest|
    {
      if left == [] || !left[0].commandOk { return EXIT_DATA; }
      code := RunNext(store, phase, rest, left);
      if code != EXIT_SUCCESS { return; }
      rest, left := rest[1..], left[1..];
    }
    code := EXIT_SUCCESS;
  }

  /** The first of the remaining cases: a code ends the run, and success leaves the rest of it. */
  method RunNext(store: StoreObject, phase: Phase, cases: seq<CaseId>, turns: seq<Turn>) returns (code: int)
    requires cases != [] && turns != [] && turns[0].commandOk
    modifies store, store.root
    ensures var run := CaseRun(store.w, StoreInterface(store.w), phase);
      Ends(RunCases(run, old(store.View()), old(store.root.View()), cases, turns)) ==
      if code != EXIT_SUCCESS then (store.View(), store.root.View(), code)
      else Ends(RunCases(run, store.View(), store.root.View(), cases[1..], turns[1..]))
  {
    ghost var run := CaseRun(store.w, StoreInterface(store.w), phase);
    ghost var (h, d) := (store.View(), store.root.View());
    code := RunScenario(store, phase, cases[0], turns[0]);
    assert (store.View(), store.root.View(), code) == run(h, d, cases[0], turns[0]);
  }

  method RunWithScenarios(store: StoreObject, phase: Phase, first: CaseId, turns: seq<Turn>, ending: Ending) returns (code: int)
    modifies store, store.root
    ensures (store.View(), store.root.View(), code) ==
            Ends(RunCaller(store.w, StoreInterface(store.w), old(store.View()), old(store.root.View()), phase, first, turns, ending))
  {
    code := RunInOrder(store, phase, [first] + ContinuationCases(phase), turns);
    if code != EXIT_SUCCESS { return; }
    if !ending.atEnd { return EXIT_DATA; }
    PerformAll(store, ending.calls);
    var error := store.ValidateUnchanged();
    code := if !ending.closed || error.Some? then EXIT_SOFTWARE else EXIT_SUCCESS;
  }
}
