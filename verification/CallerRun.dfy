/** The caller process: an arbitrary executor between the state gates of runScenario. */
module CallerRun {
  import opened Prelude
  import opened StoreState
  import opened StoreDisk
  import opened Store
  import opened StoreSafety

  datatype Phase = Initial | Reconstruction | OtherPhase

  datatype CaseId =
    | Capability | Lifecycle | Replay | LifecycleCompletion | ExecResultUsage | StaleFencing | ExecCancellation
    | TerminalSession | GatewayRoundTrip | GatewayAuthorityRejection | GatewayGrantExpiry | GatewayRevocation
    | ArtifactStaging | CrossTenantArtifact | MtlsCallerBinding
    | ReconstructionCapability | ReconstructionLifecycle | ReconstructionEvidence | ReconstructionHandoff | ReconstructionReconnect
    | OtherCase

  const EXIT_SUCCESS: int := 0
  const EXIT_DATA: int := 65
  const EXIT_SOFTWARE: int := 70
  const EXIT_IO: int := 74

  function ContinuationCases(phase: Phase): seq<CaseId> {
    match phase
    case Reconstruction => [ReconstructionLifecycle, ReconstructionEvidence, ReconstructionHandoff, ReconstructionReconnect]
    case Initial =>
      [Lifecycle, Replay, LifecycleCompletion, ExecResultUsage, StaleFencing, ExecCancellation, TerminalSession,
       GatewayRoundTrip, GatewayAuthorityRejection, GatewayGrantExpiry, GatewayRevocation, ArtifactStaging,
       CrossTenantArtifact, MtlsCallerBinding]
    case OtherPhase => []
  }

  /** What runScenario demands of the states around one case. */
  predicate Gate(phase: Phase, id: CaseId, before: State, after: State) {
    var bound := after.provider.Some? && after.plan == before.plan;
    var next := after.storeRevision == before.storeRevision + 1;
    match id
    case ReconstructionCapability => Kept(phase, before, after)
    case ReconstructionLifecycle => Kept(phase, before, after)
    case ReconstructionEvidence => Kept(phase, before, after)
    case ReconstructionHandoff => Kept(phase, before, after)
    case ReconstructionReconnect => Kept(phase, before, after)
    case Capability => bound && before.stage == Planned && after.stage == CapabilitiesBound && next
    case Lifecycle => bound && before.stage == CapabilitiesBound && after == before
    case Replay => bound && before.stage == CapabilitiesBound && after == before
    case LifecycleCompletion =>
      bound && before.stage == CapabilitiesBound && after.stage == LifecycleBound && next && after.lifecycle.Some?
    case ExecResultUsage => bound && before.stage == LifecycleBound && after.stage == ExecBound && next && after.exec.Some?
    case StaleFencing => bound && before.stage == ExecBound && after == before
    case ExecCancellation => bound && before.stage == ExecBound && after == before
    case TerminalSession => bound && before.stage == ExecBound && after.stage == TerminalBound && next && after.terminal.Some?
    case GatewayRoundTrip => bound && before.stage == TerminalBound && after == before
    case GatewayAuthorityRejection => bound && before.stage == TerminalBound && after == before
    case GatewayGrantExpiry => bound && before.stage == TerminalBound && after == before
    case GatewayRevocation => bound && before.stage == TerminalBound && after == before
    case ArtifactStaging => bound && before.stage == TerminalBound && after.stage == InitialComplete && next && after.artifact.Some?
    case CrossTenantArtifact => bound && before.stage == InitialComplete && after == before
    case MtlsCallerBinding => bound && before.stage == InitialComplete && after == before
    case OtherCase => false
  }

  predicate Kept(phase: Phase, before: State, after: State) {
    phase == Reconstruction && before.stage == InitialComplete && before.storeRevision == 6 && after == before
  }

  /**
   One case as its surroundings decide it: whether its command arrives and matches, what the
   executor does to the store, and whether the result is well formed and gets written.
   */
  datatype Turn = Turn(commandOk: bool, calls: seq<Call>, dataOk: bool, resultOk: bool, written: bool)

  /** All an executor can do to the store: a sequence of calls of its interface. */
  type Interface = (Handle, Disk, seq<Call>) -> (Handle, Disk)

  function StoreInterface(w: World): Interface { (h, d, calls) => Calls(w, h, d, calls) }

  function RunCase(w: World, api: Interface, h: Handle, d: Disk, phase: Phase, id: CaseId, turn: Turn): (Handle, Disk, int) {
    var (h1, d1) := api(h, d, turn.calls);
    if !turn.dataOk then (h1, d1, EXIT_SOFTWARE)
    else if !Gate(phase, id, h.state, h1.state) then (h1, d1, EXIT_SOFTWARE)
    else
      var (d2, error) := ValidateUnchanged(w, h1, d1);
      if error.Some? then (h1, d2, EXIT_SOFTWARE)
      else if !turn.resultOk then (h1, d2, EXIT_DATA)
      else if !turn.written then (h1, d2, EXIT_IO)
      else (h1, d2, EXIT_SUCCESS)
  }

  type CaseRunner = (Handle, Disk, CaseId, Turn) -> (Handle, Disk, int)

  function CaseRun(w: World, api: Interface, phase: Phase): CaseRunner {
    (h, d, id, turn) => RunCase(w, api, h, d, phase, id, turn)
  }

  /** The commanded cases, in order; the states after each are kept for the statements below. */
  function RunCases(run: CaseRunner, h: Handle, d: Disk, cases: seq<CaseId>, turns: seq<Turn>): (Handle, Disk, int, seq<State>)
    decreases |cases|
  {
    if cases == [] then (h, d, EXIT_SUCCESS, [])
    else if turns == [] || !turns[0].commandOk then (h, d, EXIT_DATA, [])
    else
      var (h1, d1, code) := run(h, d, cases[0], turns[0]);
      if code != EXIT_SUCCESS then (h1, d1, code, [])
      else
        var (h2, d2, last, states) := RunCases(run, h1, d1, cases[1..], turns[1..]);
        (h2, d2, last, [h1.state] + states)
  }

  /** The first case is the request's; then the continuation, end of input, and the closing of the executor. */
  datatype Ending = Ending(atEnd: bool, calls: seq<Call>, closed: bool)

  /** After the last case: the end of the input, and the closing of the executor. */
  function EndRun(w: World, api: Interface, h: Handle, d: Disk, ending: Ending): (Handle, Disk, int) {
    if !ending.atEnd then (h, d, EXIT_DATA)
    else
      var (h1, d1) := api(h, d, ending.calls);
      var (d2, error) := ValidateUnchanged(w, h1, d1);
      (h1, d2, if !ending.closed || error.Some? then EXIT_SOFTWARE else EXIT_SUCCESS)
  }

  function RunCaller(w: World, api: Interface, h: Handle, d: Disk, phase: Phase, first: CaseId, turns: seq<Turn>, ending: Ending): (Handle, Disk, int, seq<State>) {
    var (h1, d1, code, states) := RunCases(CaseRun(w, api, phase), h, d, [first] + ContinuationCases(phase), turns);
    if code != EXIT_SUCCESS then (h1, d1, code, states)
    else
      var (h2, d2, last) := EndRun(w, api, h1, d1, ending);
      (h2, d2, last, states)
  }

  // ----- the initial run -----

  /** The stage every case of the initial phase ends in. */
  function StageAfter(id: CaseId): Stage {
    match id
    case Capability => CapabilitiesBound
    case Lifecycle => CapabilitiesBound
    case Replay => CapabilitiesBound
    case LifecycleCompletion => LifecycleBound
    case ExecResultUsage => ExecBound
    case StaleFencing => ExecBound
    case ExecCancellation => ExecBound
    case TerminalSession => TerminalBound
    case GatewayRoundTrip => TerminalBound
    case GatewayAuthorityRejection => TerminalBound
    case GatewayGrantExpiry => TerminalBound
    case GatewayRevocation => TerminalBound
    case _ => InitialComplete
  }

  lemma GateFixesStage(phase: Phase, id: CaseId, before: State, after: State)
    requires Gate(phase, id, before, after)
    ensures after.stage == StageAfter(id)
    ensures before.stage == Planned ==> id == Capability
  {
  }

  /** What calls of the store's interface keep. */
  ghost predicate Safe(w: World, api: Interface) {
    forall h: Handle, d: Disk, calls: seq<Call> :: StoreInv(w, h.state, d) && InStep(h.state) ==>
      var (h', e) := api(h, d, calls);
      StoreInv(w, h'.state, e) && InStep(h'.state) && h'.state.plan == h.state.plan
  }

  lemma InterfaceIsSafe(w: World)
    requires LawfulCodec(w)
    ensures Safe(w, StoreInterface(w))
  {
    forall h: Handle, d: Disk, calls: seq<Call> | StoreInv(w, h.state, d) && InStep(h.state)
      ensures var (h', e) := StoreInterface(w)(h, d, calls);
        StoreInv(w, h'.state, e) && InStep(h'.state) && h'.state.plan == h.state.plan
    {
      CallsKeepInv(w, h, d, calls);
      CallsStayInStep(w, h, d, calls);
    }
  }

  /** A case that succeeds has passed its gate and leaves memory and disk equal. */
  lemma CaseSettles(w: World, api: Interface, h: Handle, d: Disk, phase: Phase, id: CaseId, turn: Turn)
    requires LawfulCodec(w) && Safe(w, api) && StoreInv(w, h.state, d) && InStep(h.state)
    requires RunCase(w, api, h, d, phase, id, turn).2 == EXIT_SUCCESS
    ensures var (h', e, _) := RunCase(w, api, h, d, phase, id, turn);
      && Settled(w, h'.state, e) && InStep(h'.state)
      && h'.state.plan == h.state.plan && h'.state.stage == StageAfter(id) && (h.state.stage == Planned ==> id == Capability)
  {
    var (h1, d1) := api(h, d, turn.calls);
    GateFixesStage(phase, id, h.state, h1.state);
    ValidateKeepsInv(w, h1, d1);
  }

  /** The states after each case follow the plan of stages. */
  predicate Staged(states: seq<State>, cases: seq<CaseId>) {
    |states| == |cases| && forall k :: 0 <= k < |cases| ==> states[k].stage == StageAfter(cases[k]) && InStep(states[k])
  }

  lemma StagedGrows(s: State, id: CaseId, states: seq<State>, cases: seq<CaseId>)
    requires Staged(states, cases) && s.stage == StageAfter(id) && InStep(s)
    ensures Staged([s] + states, [id] + cases)
  {
  }

  /** What a successful case keeps, for a runner and a condition on state and disk taken abstractly. */
  ghost predicate KeepsGood(run: CaseRunner, good: (State, Disk) -> bool) {
    forall h: Handle, d: Disk, id: CaseId, turn: Turn :: good(h.state, d) && run(h, d, id, turn).2 == EXIT_SUCCESS ==>
      var (h', e, _) := run(h, d, id, turn);
      && good(h'.state, e) && InStep(h'.state) && h'.state.plan == h.state.plan
      && h'.state.stage == StageAfter(id) && (h.state.stage == Planned ==> id == Capability)
  }

  lemma {:induction false} CasesSettle(
    run: CaseRunner, good: (State, Disk) -> bool, h: Handle, d: Disk, cases: seq<CaseId>, turns: seq<Turn>)
    requires KeepsGood(run, good) && good(h.state, d)
    requires RunCases(run, h, d, cases, turns).2 == EXIT_SUCCESS
    ensures var (h', e, _, states) := RunCases(run, h, d, cases, turns);
      && good(h'.state, e) && h'.state.plan == h.state.plan && Staged(states, cases)
      && (cases != [] ==> InStep(h'.state) && h'.state.stage == StageAfter(cases[|cases| - 1]))
      && (cases != [] && h.state.stage == Planned ==> cases[0] == Capability)
    decreases |cases|
  {
    if cases != [] {
      var (h1, d1, _) := run(h, d, cases[0], turns[0]);
      CasesSettle(run, good, h1, d1, cases[1..], turns[1..]);
      var (_, _, _, states) := RunCases(run, h1, d1, cases[1..], turns[1..]);
      StagedGrows(h1.state, cases[0], states, cases[1..]);
      assert [cases[0]] + cases[1..] == cases;
    }
  }

  ghost function Agreement(w: World): (State, Disk) -> bool { (s, d) => Settled(w, s, d) && InStep(s) }

  lemma CaseRunKeepsAgreement(w: World, api: Interface, phase: Phase)
    requires LawfulCodec(w) && Safe(w, api)
    ensures KeepsGood(CaseRun(w, api, phase), Agreement(w))
  {
    forall h: Handle, d: Disk, id: CaseId, turn: Turn
      | Agreement(w)(h.state, d) && CaseRun(w, api, phase)(h, d, id, turn).2 == EXIT_SUCCESS
      ensures var (h', e, _) := CaseRun(w, api, phase)(h, d, id, turn);
        && Agreement(w)(h'.state, e) && InStep(h'.state) && h'.state.plan == h.state.plan
        && h'.state.stage == StageAfter(id) && (h.state.stage == Planned ==> id == Capability)
    {
      CaseSettles(w, api, h, d, phase, id, turn);
    }
  }

  // ----- complete states -----

  /** From a complete state no calls move anything. */
  ghost predicate LeavesComplete(api: Interface) {
    forall h: Handle, d: Disk, calls: seq<Call> :: h.state.stage == InitialComplete ==>
      var (h', e) := api(h, d, calls); h'.state == h.state && SameRoot(d, e)
  }

  lemma CallLeavesComplete(w: World, h: Handle, d: Disk, call: Call)
    requires h.state.stage == InitialComplete
    ensures var (h', e, _) := Apply(w, h, d, call); h'.state == h.state && SameRoot(d, e)
  {
    match call
    case Binding(b) => CompleteIsFinal(w, h, d, b);
    case Validating => ConfirmSees(w, h, d);
    case Closing(_) =>
  }

  lemma {:induction false} CallsLeaveComplete(w: World, h: Handle, d: Disk, calls: seq<Call>)
    requires h.state.stage == InitialComplete
    ensures var (h', e) := Calls(w, h, d, calls); h'.state == h.state && SameRoot(d, e)
    decreases |calls|
  {
    if calls != [] {
      CallLeavesComplete(w, h, d, calls[0]);
      var (h1, d1, _) := Apply(w, h, d, calls[0]);
      CallsLeaveComplete(w, h1, d1, calls[1..]);
    }
  }

  lemma InterfaceLeavesComplete(w: World)
    ensures LeavesComplete(StoreInterface(w))
  {
    forall h: Handle, d: Disk, calls: seq<Call> | h.state.stage == InitialComplete
      ensures var (h', e) := StoreInterface(w)(h, d, calls); h'.state == h.state && SameRoot(d, e)
    {
      CallsLeaveComplete(w, h, d, calls);
    }
  }

  lemma EndingLeavesComplete(w: World, api: Interface, h: Handle, d: Disk, calls: seq<Call>)
    requires LeavesComplete(api) && h.state.stage == InitialComplete
    ensures var (h1, d1) := api(h, d, calls);
      h1.state == h.state && SameRoot(d, ValidateUnchanged(w, h1, d1).0)
  {
    var (h1, d1) := api(h, d, calls);
    ConfirmSees(w, h1, d1);
  }

  /** From planned revision 1 to complete revision 6, a stage per revision, on one plan, disk equal to memory. */
  ghost predicate RanInitial(w: World, before: State, after: State, d: Disk, first: CaseId, states: seq<State>) {
    && before.storeRevision == 1 && after.storeRevision == 6 && after.stage == InitialComplete
    && after.plan == before.plan && Settled(w, after, d)
    && first == Capability && Staged(states, [first] + ContinuationCases(Initial))
  }

  lemma RanInitialStays(w: World, before: State, after: State, d: Disk, e: Disk, first: CaseId, states: seq<State>)
    requires RanInitial(w, before, after, d, first, states) && SameRoot(d, e)
    ensures RanInitial(w, before, after, e, first, states)
  {
    SettledStays(w, after, d, e);
  }

  lemma InitialCasesComplete(w: World, api: Interface, h: Handle, d: Disk, first: CaseId, turns: seq<Turn>)
    requires LawfulCodec(w) && Safe(w, api)
    requires Settled(w, h.state, d) && InStep(h.state) && h.state.stage == Planned
    requires RunCases(CaseRun(w, api, Initial), h, d, [first] + ContinuationCases(Initial), turns).2 == EXIT_SUCCESS
    ensures var (h', e, _, states) := RunCases(CaseRun(w, api, Initial), h, d, [first] + ContinuationCases(Initial), turns);
      RanInitial(w, h.state, h'.state, e, first, states)
  {
    var cases := [first] + ContinuationCases(Initial);
    CaseRunKeepsAgreement(w, api, Initial);
    assert Agreement(w)(h.state, d);
    CasesSettle(CaseRun(w, api, Initial), Agreement(w), h, d, cases, turns);
    var (h1, d1, _, states) := RunCases(CaseRun(w, api, Initial), h, d, cases, turns);
    RanAllCases(w, h.state, h1.state, d1, first, states, cases);
  }

  lemma RanAllCases(w: World, before: State, after: State, d: Disk, first: CaseId, states: seq<State>, cases: seq<CaseId>)
    requires cases == [first] + ContinuationCases(Initial)
    requires InStep(before) && before.stage == Planned && after.plan == before.plan
    requires Agreement(w)(after, d) && Staged(states, cases)
    requires after.stage == StageAfter(cases[|cases| - 1]) && cases[0] == Capability
    ensures RanInitial(w, before, after, d, first, states)
  {
    LastInitialCase(first);
  }

  /**
   Whatever the executor does through the store, a successful initial run has taken the planned
   revision 1 to the complete revision 6, one stage per revision, on the same plan, with every
   case leaving the stage it stands for and the disk equal to memory.
   */
  lemma InitialRunCompletes(w: World, h: Handle, d: Disk, first: CaseId, turns: seq<Turn>, ending: Ending)
    requires LawfulCodec(w) && Settled(w, h.state, d) && InStep(h.state) && h.state.stage == Planned
    ensures var (h', e, code, states) := RunCaller(w, StoreInterface(w), h, d, Initial, first, turns, ending);
      code == EXIT_SUCCESS ==> RanInitial(w, h.state, h'.state, e, first, states)
  {
    var api := StoreInterface(w);
    InterfaceIsSafe(w);
    InterfaceLeavesComplete(w);
    if RunCaller(w, api, h, d, Initial, first, turns, ending).2 == EXIT_SUCCESS {
      InitialCasesComplete(w, api, h, d, first, turns);
      EndsWhereCasesEnd(w, api, h, d, first, turns, ending);
    }
  }

  lemma EndsWhereCasesEnd(w: World, api: Interface, h: Handle, d: Disk, first: CaseId, turns: seq<Turn>, ending: Ending)
    requires LeavesComplete(api)
    requires RunCaller(w, api, h, d, Initial, first, turns, ending).2 == EXIT_SUCCESS
    requires var (h1, d1, _, states) := RunCases(CaseRun(w, api, Initial), h, d, [first] + ContinuationCases(Initial), turns);
      RanInitial(w, h.state, h1.state, d1, first, states)
    ensures var (h', e, _, states) := RunCaller(w, api, h, d, Initial, first, turns, ending);
      RanInitial(w, h.state, h'.state, e, first, states)
  {
    var (h1, d1, _, states) := RunCases(CaseRun(w, api, Initial), h, d, [first] + ContinuationCases(Initial), turns);
    EndingLeavesComplete(w, api, h1, d1, ending.calls);
    var (h2, d2) := api(h1, d1, ending.calls);
    RanInitialStays(w, h.state, h1.state, d1, ValidateUnchanged(w, h2, d2).0, first, states);
  }

  lemma LastInitialCase(first: CaseId)
    ensures var cases := [first] + ContinuationCases(Initial); |cases| == 15 && cases[|cases| - 1] == MtlsCallerBinding && cases[0] == first
  {
  }

  // ----- the reconstruction run -----

  lemma CaseLeavesComplete(w: World, api: Interface, h: Handle, d: Disk, phase: Phase, id: CaseId, turn: Turn)
    requires LeavesComplete(api) && h.state.stage == InitialComplete
    ensures var (h', e, code) := RunCase(w, api, h, d, phase, id, turn);
      h'.state == h.state && SameRoot(d, e) && (code == EXIT_SUCCESS ==> Gate(phase, id, h.state, h.state))
  {
    EndingLeavesComplete(w, api, h, d, turn.calls);
  }

  ghost predicate LeavesCompleteGated(run: CaseRunner, phase: Phase) {
    forall h: Handle, d: Disk, id: CaseId, turn: Turn :: h.state.stage == InitialComplete ==>
      var (h', e, code) := run(h, d, id, turn);
      h'.state == h.state && SameRoot(d, e) && (code == EXIT_SUCCESS ==> Gate(phase, id, h.state, h.state))
  }

  lemma {:induction false} CasesLeaveComplete(run: CaseRunner, phase: Phase, h: Handle, d: Disk, cases: seq<CaseId>, turns: seq<Turn>)
    requires LeavesCompleteGated(run, phase) && h.state.stage == InitialComplete
    ensures var (h', e, code, states) := RunCases(run, h, d, cases, turns);
      && h'.state == h.state && SameRoot(d, e)
      && (code == EXIT_SUCCESS ==> forall k :: 0 <= k < |cases| ==> Gate(phase, cases[k], h.state, h.state))
    decreases |cases|
  {
    if cases != [] && turns != [] {
      var (h1, d1, code) := run(h, d, cases[0], turns[0]);
      if code == EXIT_SUCCESS { CasesLeaveComplete(run, phase, h1, d1, cases[1..], turns[1..]); }
    }
  }

  lemma CaseRunLeavesComplete(w: World, api: Interface, phase: Phase)
    requires LeavesComplete(api)
    ensures LeavesCompleteGated(CaseRun(w, api, phase), phase)
  {
    forall h: Handle, d: Disk, id: CaseId, turn: Turn | h.state.stage == InitialComplete
      ensures var (h', e, code) := CaseRun(w, api, phase)(h, d, id, turn);
        h'.state == h.state && SameRoot(d, e) && (code == EXIT_SUCCESS ==> Gate(phase, id, h.state, h.state))
    {
      CaseLeavesComplete(w, api, h, d, phase, id, turn);
    }
  }

  lemma ReconstructionRunOver(w: World, api: Interface, h: Handle, d: Disk, first: CaseId, turns: seq<Turn>, ending: Ending)
    requires LeavesComplete(api) && h.state.stage == InitialComplete
    ensures var (h', e, code, _) := RunCaller(w, api, h, d, Reconstruction, first, turns, ending);
      && h'.state == h.state && SameRoot(d, e)
      && (code == EXIT_SUCCESS ==> h.state.storeRevision == 6)
  {
    ReconstructionCases(w, api, h, d, first, turns);
    var (h1, d1, _, _) := RunCases(CaseRun(w, api, Reconstruction), h, d, [first] + ContinuationCases(Reconstruction), turns);
    EndingLeavesComplete(w, api, h1, d1, ending.calls);
  }

  lemma ReconstructionCases(w: World, api: Interface, h: Handle, d: Disk, first: CaseId, turns: seq<Turn>)
    requires LeavesComplete(api) && h.state.stage == InitialComplete
    ensures var (h', e, code, _) := RunCases(CaseRun(w, api, Reconstruction), h, d, [first] + ContinuationCases(Reconstruction), turns);
      && h'.state == h.state && SameRoot(d, e)
      && (code == EXIT_SUCCESS ==> h.state.storeRevision == 6)
  {
    var cases := [first] + ContinuationCases(Reconstruction);
    CaseRunLeavesComplete(w, api, Reconstruction);
    CasesLeaveComplete(CaseRun(w, api, Reconstruction), Reconstruction, h, d, cases, turns);
    SecondReconstructionCase(first);
    if RunCases(CaseRun(w, api, Reconstruction), h, d, cases, turns).2 == EXIT_SUCCESS {
      assert Gate(Reconstruction, cases[1], h.state, h.state);
      KeptNeedsRevisionSix(h.state);
    }
  }

  lemma SecondReconstructionCase(first: CaseId)
    ensures var cases := [first] + ContinuationCases(Reconstruction); |cases| == 5 && cases[1] == ReconstructionLifecycle
  {
  }

  lemma KeptNeedsRevisionSix(s: State)
    requires Gate(Reconstruction, ReconstructionLifecycle, s, s)
    ensures s.storeRevision == 6
  {
  }

  /** What is claimed of any store interface that leaves a complete state alone. */
  lemma LeftByAnyInterface(w: World, api: Interface, root: Disk, d: Disk, h: Handle, first: CaseId, turns: seq<Turn>, ending: Ending)
    requires LeavesComplete(api) && h.state.stage == InitialComplete && SameRoot(root, d)
    requires Current(root).Some? && w.decode(Current(root).value) == Some(h.state)
    ensures LeftAsFound(w, root, h, RunCaller(w, api, h, d, Reconstruction, first, turns, ending))
  {
    ReconstructionRunOver(w, api, h, d, first, turns, ending);
    SameCurrent(root, RunCaller(w, api, h, d, Reconstruction, first, turns, ending).1);
  }

  lemma SameCurrent(d: Disk, e: Disk)
    requires SameRoot(d, e)
    ensures Current(e) == Current(d)
  {
  }

  /**
   A reconstruction run, successful or not, leaves the state it opened and the root as it found
   them; it succeeds only on revision 6, with the root still holding that state.
   */
  lemma ReconstructionChangesNothing(w: World, root: Disk, first: CaseId, turns: seq<Turn>, ending: Ending)
    ensures var (d, r) := OpenReconstruction(w, root);
      r.Ok? ==> LeftAsFound(w, root, r.value, RunCaller(w, StoreInterface(w), r.value, d, Reconstruction, first, turns, ending))
  {
    OpenSees(w, root);
    InterfaceLeavesComplete(w);
    var (d, r) := OpenReconstruction(w, root);
    if r.Ok? { LeftByAnyInterface(w, StoreInterface(w), root, d, r.value, first, turns, ending); }
  }

  /** The run ends with the state it opened and the root as it was; success needs revision 6. */
  predicate LeftAsFound(w: World, root: Disk, found: Handle, run: (Handle, Disk, int, seq<State>)) {
    && run.0.state == found.state && SameRoot(root, run.1)
    && Current(run.1).Some? && w.decode(Current(run.1).value) == Some(found.state)
    && (run.2 == EXIT_SUCCESS ==> found.state.storeRevision == 6)
  }
}
