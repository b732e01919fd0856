/** Which runs of the caller are let through: the gates in closed form, and the runs that exit 0. */
module CallerSuccess {
  import opened Prelude
  import opened StoreState
  import opened StoreDisk
  import opened Store
  import opened StoreSafety
  import opened StoreService
  import opened CallerRun

  // ----- the gates -----

  /** The stage every case starts in. */
  function StageBefore(id: CaseId): Stage {
    match id
    case Capability => Planned
    case Lifecycle => CapabilitiesBound
    case Replay => CapabilitiesBound
    case LifecycleCompletion => CapabilitiesBound
    case ExecResultUsage => LifecycleBound
    case StaleFencing => ExecBound
    case ExecCancellation => ExecBound
    case TerminalSession => ExecBound
    case GatewayRoundTrip => TerminalBound
    case GatewayAuthorityRejection => TerminalBound
    case GatewayGrantExpiry => TerminalBound
    case GatewayRevocation => TerminalBound
    case ArtifactStaging => TerminalBound
    case _ => InitialComplete
  }

  predicate IsReconstruction(id: CaseId) {
    id.ReconstructionCapability? || id.ReconstructionLifecycle? || id.ReconstructionEvidence? || id.ReconstructionHandoff? || id.ReconstructionReconnect?
  }

  /** A case of this phase; the initial cases do not look at it. */
  predicate Belongs(phase: Phase, id: CaseId) {
    !id.OtherCase? && (IsReconstruction(id) ==> phase == Reconstruction)
  }

  /** A later state of one store: on the same plan, and the very same while the stage is the same. */
  predicate Grown(s: State, t: State) {
    InStep(s) && InStep(t) && t.plan == s.plan && Rank(s.stage) <= Rank(t.stage) && (s.stage == t.stage ==> s == t)
  }

  lemma ApplyGrows(w: World, h: Handle, d: Disk, call: Call)
    requires InStep(h.state)
    ensures Grown(h.state, Apply(w, h, d, call).0.state)
  {
    ApplyMoves(w, h, d, call);
    ApplyStaysInStep(w, h, d, call);
  }

  lemma {:induction false} CallsGrow(w: World, h: Handle, d: Disk, calls: seq<Call>)
    requires InStep(h.state)
    ensures Grown(h.state, Calls(w, h, d, calls).0.state)
    decreases |calls|
  {
    if calls != [] {
      ApplyGrows(w, h, d, calls[0]);
      var (h1, d1, _) := Apply(w, h, d, calls[0]);
      CallsGrow(w, h1, d1, calls[1..]);
    }
  }

  lemma GrownGate(w: World, phase: Phase, id: CaseId, s: State, t: State)
    requires Grown(s, t) && ValidState(w, t)
    ensures Gate(phase, id, s, t) <==> Belongs(phase, id) && s.stage == StageBefore(id) && t.stage == StageAfter(id)
  {
    if IsReconstruction(id) {
      KeptGate(phase, id, s, t);
    } else if StageBefore(id) == StageAfter(id) {
      StillGate(w, phase, id, s, t);
    } else {
      MovingGate(w, phase, id, s, t);
    }
  }

  lemma KeptGate(phase: Phase, id: CaseId, s: State, t: State)
    requires Grown(s, t) && IsReconstruction(id)
    ensures Gate(phase, id, s, t) <==> Belongs(phase, id) && s.stage == StageBefore(id) && t.stage == StageAfter(id)
  {
  }

  lemma StillGate(w: World, phase: Phase, id: CaseId, s: State, t: State)
    requires Grown(s, t) && ValidState(w, t) && !IsReconstruction(id) && StageBefore(id) == StageAfter(id)
    ensures Gate(phase, id, s, t) <==> Belongs(phase, id) && s.stage == StageBefore(id) && t.stage == StageAfter(id)
  {
    assert Rank(t.stage) >= 1 ==> t.provider.Some?;
  }

  lemma MovingGate(w: World, phase: Phase, id: CaseId, s: State, t: State)
    requires Grown(s, t) && ValidState(w, t) && !IsReconstruction(id) && StageBefore(id) != StageAfter(id)
    ensures Gate(phase, id, s, t) <==> Belongs(phase, id) && s.stage == StageBefore(id) && t.stage == StageAfter(id)
  {
    assert Rank(t.stage) >= 1 ==> t.provider.Some?;
    assert Rank(t.stage) >= 2 ==> t.lifecycle.Some?;
    assert Rank(t.stage) >= 3 ==> t.exec.Some?;
    assert Rank(t.stage) >= 4 ==> t.terminal.Some?;
    assert Rank(t.stage) >= 5 ==> t.artifact.Some?;
  }

  /**
   Whatever calls a case makes of the store, its gate opens exactly when the case belongs to the phase, started in its
   own stage and leaves the store in its own stage.
   */
  lemma GateIff(w: World, h: Handle, d: Disk, phase: Phase, id: CaseId, calls: seq<Call>)
    requires LawfulCodec(w) && StoreInv(w, h.state, d) && InStep(h.state)
    ensures var t := Calls(w, h, d, calls).0.state;
      Gate(phase, id, h.state, t) <==> Belongs(phase, id) && h.state.stage == StageBefore(id) && t.stage == StageAfter(id)
  {
    CallsGrow(w, h, d, calls);
    CallsKeepInv(w, h, d, calls);
    GrownGate(w, phase, id, h.state, Calls(w, h, d, calls).0.state);
  }

  // ----- one case -----

  /** Arguments that pass, and a next state that the store writes. */
  predicate Good(w: World, s: State, b: Bind) {
    ArgumentsOk(w, b) && (b.BindCapabilities? ==> ValidDigest(w.hash(b.snapshot))) && Storable(w, Next(w, b, s))
  }

  predicate Binds(w: World, s: State, calls: seq<Call>) { |calls| == 1 && calls[0].Binding? && Good(w, s, calls[0].b) }

  /** The five cases that bind make their own binding and nothing else; the others leave the store alone. */
  predicate RightCalls(w: World, s: State, id: CaseId, calls: seq<Call>) {
    match id
    case Capability => Binds(w, s, calls) && calls[0].b.BindCapabilities?
    case LifecycleCompletion => Binds(w, s, calls) && calls[0].b.BindLifecycle?
    case ExecResultUsage => Binds(w, s, calls) && calls[0].b.BindExec?
    case TerminalSession => Binds(w, s, calls) && calls[0].b.BindTerminal?
    case ArtifactStaging => Binds(w, s, calls) && calls[0].b.BindArtifact?
    case _ => calls == []
  }

  /** The state these calls make. */
  function Made(w: World, s: State, calls: seq<Call>): State {
    if calls != [] && calls[0].Binding? then Next(w, calls[0].b, s) else s
  }

  function CallsWork(w: World, s: State, calls: seq<Call>): seq<Work> {
    if calls == [] then [] else BindWork(w, Made(w, s, calls))
  }

  function CaseWork(w: World, s: State, calls: seq<Call>): seq<Work> { CallsWork(w, s, calls) + CONFIRM_WORK }

  /** An open store in its own stage, clean on disk. */
  ghost predicate Stands(w: World, h: Handle, d: Disk, stage: Stage) {
    h.open && Clean(w, h.state, d) && InStep(h.state) && h.state.stage == stage
  }

  lemma RightBindIsAllowed(w: World, s: State, id: CaseId, b: Bind)
    requires ValidState(w, s) && InStep(s) && s.stage == StageBefore(id) && RightCalls(w, s, id, [Binding(b)])
    ensures Allowed(w, s, b) && Next(w, b, s).stage == StageAfter(id) && InStep(Next(w, b, s))
  {
    NextIsValidIff(w, b, s);
    NextStaysInStep(w, b, s);
  }

  lemma OneCall(w: World, h: Handle, d: Disk, b: Bind)
    ensures Calls(w, h, d, [Binding(b)]) == (DoBind(w, h, d, b).0, DoBind(w, h, d, b).1)
  {
    var (h1, d1, _) := Apply(w, h, d, Binding(b));
    assert [Binding(b)][1..] == [] && Calls(w, h1, d1, []) == (h1, d1);
  }

  /** A case's right calls bring the store into the case's own stage exactly when the disk answers well. */
  lemma RightCallsDo(w: World, h: Handle, d: Disk, id: CaseId, calls: seq<Call>)
    requires LawfulCodec(w) && Stands(w, h, d, StageBefore(id)) && RightCalls(w, h.state, id, calls)
    ensures var (h1, d1) := Calls(w, h, d, calls);
      && (h1.state.stage == StageAfter(id) <==> AfterAll(d.script, CallsWork(w, h.state, calls)).Some?)
      && (h1.state.stage == StageAfter(id) ==>
            && h1 == Handle(true, Made(w, h.state, calls)) && Stands(w, h1, d1, StageAfter(id))
            && AfterAll(d.script, CallsWork(w, h.state, calls)) == Some(d1.script))
  {
    if calls == [] {
      assert Calls(w, h, d, calls) == (h, d);
    } else {
      var b := calls[0].b;
      assert calls == [Binding(b)];
      RightBindIsAllowed(w, h.state, id, b);
      OneCall(w, h, d, b);
      BindSucceedsIff(w, h, d, b);
      BindMoves(w, h, d, b);
    }
  }

  /** The exit code of a case by its cause. */
  function CodeOf(turn: Turn, served: bool): int {
    if !turn.dataOk || !served then 70 else if !turn.resultOk then 65 else if !turn.written then 74 else 0
  }

  /** A case once its calls are made and its gate is known to open or not. */
  lemma CaseOf(w: World, api: Interface, h: Handle, d: Disk, phase: Phase, id: CaseId, turn: Turn, h1: Handle, d1: Disk, opens: bool)
    requires api(h, d, turn.calls) == (h1, d1) && (opens <==> Gate(phase, id, h.state, h1.state))
    ensures var (d2, error) := ValidateUnchanged(w, h1, d1);
      var (h', e, code) := RunCase(w, api, h, d, phase, id, turn);
      && code == CodeOf(turn, opens && error.None?) && (code == EXIT_SUCCESS ==> h' == h1 && e == d2)
  {
  }

  /** With the calls made, the rest of the case confirms the state, if the case's stage was reached. */
  lemma ConfirmedDoes(w: World, h: Handle, d: Disk, h1: Handle, d1: Disk, work: seq<Work>, stage: Stage, reached: bool)
    requires LawfulCodec(w) && (reached <==> AfterAll(d.script, work).Some?)
    requires reached ==> Stands(w, h1, d1, stage) && AfterAll(d.script, work) == Some(d1.script)
    ensures var (d2, error) := ValidateUnchanged(w, h1, d1);
      var left := AfterAll(d.script, work + CONFIRM_WORK);
      && (reached && error.None? <==> left.Some?)
      && (left.Some? ==> Stands(w, h1, d2, stage) && left == Some(d2.script))
  {
    WorkJoins(d.script, work, CONFIRM_WORK);
    if reached { CleanConfirms(w, h1, d1); }
  }

  /**
   A case that belongs, in its own stage and with its own calls, exits 0 exactly when its result is there and well formed, the disk
   answers well and the result gets written; what goes wrong decides the code. A success leaves the next stage, clean.
   */
  lemma CaseSucceedsIff(w: World, h: Handle, d: Disk, phase: Phase, id: CaseId, turn: Turn)
    requires LawfulCodec(w) && Stands(w, h, d, StageBefore(id)) && RightCalls(w, h.state, id, turn.calls) && Belongs(phase, id)
    ensures var (h', e, code) := RunCase(w, StoreInterface(w), h, d, phase, id, turn);
      var left := AfterAll(d.script, CaseWork(w, h.state, turn.calls));
      && code == CodeOf(turn, left.Some?)
      && (code == EXIT_SUCCESS ==>
            h' == Handle(true, Made(w, h.state, turn.calls)) && Stands(w, h', e, StageAfter(id)) && left == Some(e.script))
  {
    var (h1, d1) := Calls(w, h, d, turn.calls);
    var reached := h1.state.stage == StageAfter(id);
    RightCallsDo(w, h, d, id, turn.calls);
    GateIff(w, h, d, phase, id, turn.calls);
    ConfirmedDoes(w, h, d, h1, d1, CallsWork(w, h.state, turn.calls), StageAfter(id), reached);
    CaseOf(w, StoreInterface(w), h, d, phase, id, turn, h1, d1, reached);
  }

  // ----- whole runs -----

  predicate RightRun(w: World, s: State, cases: seq<CaseId>, turns: seq<Turn>)
    decreases |cases|
  {
    cases == [] ||
      (turns != [] && RightCalls(w, s, cases[0], turns[0].calls) && RightRun(w, Made(w, s, turns[0].calls), cases[1..], turns[1..]))
  }

  function RunWork(w: World, s: State, cases: seq<CaseId>, turns: seq<Turn>): seq<Work>
    decreases |cases|
  {
    if cases == [] || turns == [] then []
    else CaseWork(w, s, turns[0].calls) + RunWork(w, Made(w, s, turns[0].calls), cases[1..], turns[1..])
  }

  function MadeByAll(w: World, s: State, cases: seq<CaseId>, turns: seq<Turn>): State
    decreases |cases|
  {
    if cases == [] || turns == [] then s else MadeByAll(w, Made(w, s, turns[0].calls), cases[1..], turns[1..])
  }

  /** Every command arrives and matches, and every result is there, well formed and written. */
  predicate AllWell(turns: seq<Turn>, n: nat) {
    |turns| >= n && forall k :: 0 <= k < n ==> TurnWell(turns[k])
  }

  predicate TurnWell(turn: Turn) { turn.commandOk && turn.dataOk && turn.resultOk && turn.written }

  lemma AllWellNext(turns: seq<Turn>, n: nat)
    requires turns != [] && n > 0
    ensures AllWell(turns, n) <==>
      TurnWell(turns[0]) && AllWell(turns[1..], n - 1)
  {
    if AllWell(turns[1..], n - 1) {
      forall k | 1 <= k < n ensures turns[k] == turns[1..][k - 1] { }
    }
  }

  /** Each case starts where the one before it ends, and the last ends at last. */
  predicate Chained(phase: Phase, cases: seq<CaseId>, first: Stage, last: Stage)
    decreases |cases|
  {
    if cases == [] then first == last
    else Belongs(phase, cases[0]) && StageBefore(cases[0]) == first && Chained(phase, cases[1..], StageAfter(cases[0]), last)
  }

  /** Exit 0 exactly when all goes well and the disk answers well, and then this store, clean and in this stage. */
  ghost predicate Succeeds(
    w: World, d: Disk, work: seq<Work>, well: bool, run: (Handle, Disk, int), final: Handle, last: Stage)
  {
    && (run.2 == EXIT_SUCCESS <==> well && AfterAll(d.script, work).Some?)
    && (run.2 == EXIT_SUCCESS ==> run.0 == final && Stands(w, final, run.1, last) && AfterAll(d.script, work) == Some(run.1.script))
  }

  lemma ThenSucceeds(
    w: World, d: Disk, a: seq<Work>, well: bool, run: (Handle, Disk, int), mid: Handle, middle: Stage,
    b: seq<Work>, well2: bool, next: (Handle, Disk, int), final: Handle, last: Stage)
    requires Succeeds(w, d, a, well, run, mid, middle)
    requires run.2 == EXIT_SUCCESS ==> Succeeds(w, run.1, b, well2, next, final, last)
    ensures Succeeds(w, d, a + b, well && well2, if run.2 == EXIT_SUCCESS then next else run, final, last)
  {
    WorkJoins(d.script, a, b);
  }

  /** A case whose command has come is a success in this sense. */
  lemma CaseSucceeds(w: World, h: Handle, d: Disk, phase: Phase, id: CaseId, turn: Turn)
    requires LawfulCodec(w) && Stands(w, h, d, StageBefore(id)) && RightCalls(w, h.state, id, turn.calls) && Belongs(phase, id)
    requires turn.commandOk
    ensures Succeeds(w, d, CaseWork(w, h.state, turn.calls), TurnWell(turn), RunCase(w, StoreInterface(w), h, d, phase, id, turn),
                     Handle(true, Made(w, h.state, turn.calls)), StageAfter(id))
  {
    CaseSucceedsIff(w, h, d, phase, id, turn);
  }

  /** The cases' exit code is that of the first, or of the rest after it. */
  lemma CasesUnfold(run: CaseRunner, h: Handle, d: Disk, cases: seq<CaseId>, turns: seq<Turn>)
    requires cases != [] && turns != [] && turns[0].commandOk
    ensures var first := run(h, d, cases[0], turns[0]);
      Ends(RunCases(run, h, d, cases, turns)) ==
      if first.2 == EXIT_SUCCESS then Ends(RunCases(run, first.0, first.1, cases[1..], turns[1..])) else first
  {
  }

  function Ends(r: (Handle, Disk, int, seq<State>)): (Handle, Disk, int) { (r.0, r.1, r.2) }

  lemma {:induction false} CasesSucceedIff(
    w: World, run: CaseRunner, h: Handle, d: Disk, phase: Phase, cases: seq<CaseId>, turns: seq<Turn>, first: Stage, last: Stage)
    requires LawfulCodec(w) && Stands(w, h, d, first) && Chained(phase, cases, first, last) && RightRun(w, h.state, cases, turns)
    requires run == CaseRun(w, StoreInterface(w), phase)
    ensures Succeeds(w, d, RunWork(w, h.state, cases, turns), AllWell(turns, |cases|), Ends(RunCases(run, h, d, cases, turns)),
                     Handle(true, MadeByAll(w, h.state, cases, turns)), last)
    decreases |cases|
  {
    if cases != [] && !turns[0].commandOk {
      assert RunCases(run, h, d, cases, turns).2 == EXIT_DATA;
    } else if cases != [] {
      var s := Made(w, h.state, turns[0].calls);
      CaseSucceeds(w, h, d, phase, cases[0], turns[0]);
      CasesUnfold(run, h, d, cases, turns);
      AllWellNext(turns, |cases|);
      var one := run(h, d, cases[0], turns[0]);
      if one.2 == EXIT_SUCCESS { CasesSucceedIff(w, run, one.0, one.1, phase, cases[1..], turns[1..], StageAfter(cases[0]), last); }
      ThenSucceeds(w, d, CaseWork(w, h.state, turns[0].calls), TurnWell(turns[0]), one, Handle(true, s), StageAfter(cases[0]),
                   RunWork(w, s, cases[1..], turns[1..]), AllWell(turns[1..], |cases| - 1),
                   Ends(RunCases(run, one.0, one.1, cases[1..], turns[1..])), Handle(true, MadeByAll(w, s, cases[1..], turns[1..])), last);
    }
  }

  /** The exit code of a run of right cases by its first cause: 65 for a command that does not come or match, else the case's own. */
  function CasesCode(w: World, s: State, cases: seq<CaseId>, turns: seq<Turn>, script: seq<Answer>): int
    decreases |cases|
  {
    if cases == [] then 0
    else if turns == [] || !turns[0].commandOk then 65
    else
      var left := AfterAll(script, CaseWork(w, s, turns[0].calls));
      if CodeOf(turns[0], left.Some?) != 0 || left.None? then CodeOf(turns[0], left.Some?)
      else CasesCode(w, Made(w, s, turns[0].calls), cases[1..], turns[1..], left.value)
  }

  lemma {:induction false} CasesExit(
    w: World, run: CaseRunner, h: Handle, d: Disk, phase: Phase, cases: seq<CaseId>, turns: seq<Turn>, first: Stage, last: Stage)
    requires LawfulCodec(w) && Stands(w, h, d, first) && Chained(phase, cases, first, last) && RightRun(w, h.state, cases, turns)
    requires run == CaseRun(w, StoreInterface(w), phase)
    ensures RunCases(run, h, d, cases, turns).2 == CasesCode(w, h.state, cases, turns, d.script)
    decreases |cases|
  {
    if cases != [] && turns[0].commandOk {
      CasesUnfold(run, h, d, cases, turns);
      CaseCode(w, h, d, phase, cases[0], turns[0], run(h, d, cases[0], turns[0]));
      var one := run(h, d, cases[0], turns[0]);
      if one.2 == EXIT_SUCCESS { CasesExit(w, run, one.0, one.1, phase, cases[1..], turns[1..], StageAfter(cases[0]), last); }
    }
  }

  lemma CaseCode(w: World, h: Handle, d: Disk, phase: Phase, id: CaseId, turn: Turn, one: (Handle, Disk, int))
    requires LawfulCodec(w) && Stands(w, h, d, StageBefore(id)) && RightCalls(w, h.state, id, turn.calls) && Belongs(phase, id)
    requires one == RunCase(w, StoreInterface(w), h, d, phase, id, turn)
    ensures var left := AfterAll(d.script, CaseWork(w, h.state, turn.calls));
      && one.2 == CodeOf(turn, left.Some?)
      && (one.2 == EXIT_SUCCESS ==>
            one.0.state == Made(w, h.state, turn.calls) && Stands(w, one.0, one.1, StageAfter(id)) && left == Some(one.1.script))
  {
    CaseSucceedsIff(w, h, d, phase, id, turn);
  }

  predicate EndsWell(ending: Ending) { ending.atEnd && ending.closed }

  lemma EndSucceedsIff(w: World, h: Handle, d: Disk, ending: Ending, stage: Stage)
    requires LawfulCodec(w) && Stands(w, h, d, stage) && ending.calls == []
    ensures var (h', e, code) := EndRun(w, StoreInterface(w), h, d, ending);
      && (code == EXIT_SUCCESS <==> EndsWell(ending) && AfterAll(d.script, CONFIRM_WORK).Some?)
      && (code == EXIT_SUCCESS ==> h' == h && Stands(w, h, e, stage))
  {
    assert StoreInterface(w)(h, d, []) == (h, d);
    CleanConfirms(w, h, d);
  }

  lemma RunSucceedsIff(
    w: World, h: Handle, d: Disk, phase: Phase, id: CaseId, turns: seq<Turn>, ending: Ending, first: Stage, last: Stage)
    requires LawfulCodec(w) && Stands(w, h, d, first) && ending.calls == []
    requires Chained(phase, [id] + ContinuationCases(phase), first, last)
    requires RightRun(w, h.state, [id] + ContinuationCases(phase), turns)
    ensures var cases := [id] + ContinuationCases(phase);
      var (h', e, code, _) := RunCaller(w, StoreInterface(w), h, d, phase, id, turns, ending);
      && (code == EXIT_SUCCESS <==>
            && AllWell(turns, |cases|) && EndsWell(ending)
            && AfterAll(d.script, RunWork(w, h.state, cases, turns) + CONFIRM_WORK).Some?)
      && (code == EXIT_SUCCESS ==> h' == Handle(true, MadeByAll(w, h.state, cases, turns)) && Stands(w, h', e, last))
  {
    var cases := [id] + ContinuationCases(phase);
    CasesSucceedIff(w, CaseRun(w, StoreInterface(w), phase), h, d, phase, cases, turns, first, last);
    WorkJoins(d.script, RunWork(w, h.state, cases, turns), CONFIRM_WORK);
    var (h1, d1, code, _) := RunCases(CaseRun(w, StoreInterface(w), phase), h, d, cases, turns);
    if code == EXIT_SUCCESS { EndSucceedsIff(w, h1, d1, ending, last); }
  }

  /** The exit code of the whole run: its cases', or 65 for input after them, or 70 for what goes wrong at the end. */
  function RunCode(w: World, s: State, cases: seq<CaseId>, turns: seq<Turn>, script: seq<Answer>, ending: Ending): int {
    var code := CasesCode(w, s, cases, turns, script);
    if code != 0 then code
    else if !ending.atEnd then 65
    else if !ending.closed || AfterAll(script, RunWork(w, s, cases, turns) + CONFIRM_WORK).None? then 70
    else 0
  }

  lemma RunExits(
    w: World, h: Handle, d: Disk, phase: Phase, id: CaseId, turns: seq<Turn>, ending: Ending, first: Stage, last: Stage)
    requires LawfulCodec(w) && Stands(w, h, d, first) && ending.calls == []
    requires Chained(phase, [id] + ContinuationCases(phase), first, last)
    requires RightRun(w, h.state, [id] + ContinuationCases(phase), turns)
    ensures RunCaller(w, StoreInterface(w), h, d, phase, id, turns, ending).2 ==
            RunCode(w, h.state, [id] + ContinuationCases(phase), turns, d.script, ending)
  {
    var cases := [id] + ContinuationCases(phase);
    var run := CaseRun(w, StoreInterface(w), phase);
    CasesExit(w, run, h, d, phase, cases, turns, first, last);
    CasesSucceedIff(w, run, h, d, phase, cases, turns, first, last);
    RunCallerCode(w, StoreInterface(w), h, d, phase, id, turns, ending);
    var (h1, d1, code, _) := RunCases(run, h, d, cases, turns);
    if code == EXIT_SUCCESS { EndExits(w, d, RunWork(w, h.state, cases, turns), h1, d1, ending, last); }
  }

  lemma RunCallerCode(w: World, api: Interface, h: Handle, d: Disk, phase: Phase, id: CaseId, turns: seq<Turn>, ending: Ending)
    ensures var (h1, d1, code, _) := RunCases(CaseRun(w, api, phase), h, d, [id] + ContinuationCases(phase), turns);
      RunCaller(w, api, h, d, phase, id, turns, ending).2 == if code != EXIT_SUCCESS then code else EndRun(w, api, h1, d1, ending).2
  {
  }

  /** The end of a run whose cases have all gone well, by the answers the disk had at its start. */
  lemma EndExits(w: World, start: Disk, work: seq<Work>, h: Handle, d: Disk, ending: Ending, stage: Stage)
    requires LawfulCodec(w) && Stands(w, h, d, stage) && ending.calls == [] && AfterAll(start.script, work) == Some(d.script)
    ensures EndRun(w, StoreInterface(w), h, d, ending).2 ==
      if !ending.atEnd then 65 else if !ending.closed || AfterAll(start.script, work + CONFIRM_WORK).None? then 70 else 0
  {
    WorkJoins(start.script, work, CONFIRM_WORK);
    EndSucceedsIff(w, h, d, ending, stage);
  }

  // ----- the two phases -----

  const INITIAL_CASES: seq<CaseId> := [
    Capability, Lifecycle, Replay, LifecycleCompletion, ExecResultUsage, StaleFencing, ExecCancellation, TerminalSession,
    GatewayRoundTrip, GatewayAuthorityRejection, GatewayGrantExpiry, GatewayRevocation, ArtifactStaging, CrossTenantArtifact, MtlsCallerBinding]

  const RECONSTRUCTION_CASES: seq<CaseId> := [
    ReconstructionCapability, ReconstructionLifecycle, ReconstructionEvidence, ReconstructionHandoff, ReconstructionReconnect]

  lemma ChainedNext(phase: Phase, cases: seq<CaseId>, k: nat, last: Stage)
    requires k < |cases| && Belongs(phase, cases[k])
    requires Chained(phase, cases[k + 1..], StageAfter(cases[k]), last)
    ensures Chained(phase, cases[k..], StageBefore(cases[k]), last)
  {
    assert cases[k..][1..] == cases[k + 1..];
  }

  lemma {:induction false} ChainedFrom(phase: Phase, cases: seq<CaseId>, k: nat)
    requires k < |cases| && forall i :: 0 <= i < |cases| ==> Belongs(phase, cases[i])
    requires forall i :: 0 <= i < |cases| - 1 ==> StageAfter(cases[i]) == StageBefore(cases[i + 1])
    ensures Chained(phase, cases[k..], StageBefore(cases[k]), StageAfter(cases[|cases| - 1]))
    decreases |cases| - k
  {
    if k + 1 < |cases| { ChainedFrom(phase, cases, k + 1); } else { assert cases[k + 1..] == []; }
    ChainedNext(phase, cases, k, StageAfter(cases[|cases| - 1]));
  }

  lemma InitialCasesBelong()
    ensures |INITIAL_CASES| == 15 && forall i :: 0 <= i < |INITIAL_CASES| ==> Belongs(Initial, INITIAL_CASES[i])
  {
  }

  lemma InitialCasesJoin(i: nat)
    requires i < |INITIAL_CASES| - 1
    ensures StageAfter(INITIAL_CASES[i]) == StageBefore(INITIAL_CASES[i + 1])
  {
  }

  lemma InitialCasesAre()
    ensures [Capability] + ContinuationCases(Initial) == INITIAL_CASES
  {
  }

  lemma ChainedAll(phase: Phase, cases: seq<CaseId>, first: Stage, last: Stage)
    requires cases != [] && forall i :: 0 <= i < |cases| ==> Belongs(phase, cases[i])
    requires forall i :: 0 <= i < |cases| - 1 ==> StageAfter(cases[i]) == StageBefore(cases[i + 1])
    requires first == StageBefore(cases[0]) && last == StageAfter(cases[|cases| - 1])
    ensures Chained(phase, cases, first, last)
  {
    ChainedFrom(phase, cases, 0);
    assert cases[0..] == cases;
  }

  lemma InitialEnds(cases: seq<CaseId>)
    requires cases == INITIAL_CASES
    ensures |cases| == 15 && StageBefore(cases[0]) == Planned && StageAfter(cases[14]) == InitialComplete
  {
  }

  lemma InitialIsChained(cases: seq<CaseId>)
    requires cases == INITIAL_CASES
    ensures Chained(Initial, cases, Planned, InitialComplete)
  {
    InitialEnds(cases);
    forall i | 0 <= i < |cases| ensures Belongs(Initial, cases[i]) { InitialCasesBelong(); }
    forall i | 0 <= i < |cases| - 1 ensures StageAfter(cases[i]) == StageBefore(cases[i + 1]) { InitialCasesJoin(i); }
    ChainedAll(Initial, cases, Planned, InitialComplete);
  }

  lemma ReconstructionIsChained()
    ensures [ReconstructionCapability] + ContinuationCases(Reconstruction) == RECONSTRUCTION_CASES
    ensures Chained(Reconstruction, RECONSTRUCTION_CASES, InitialComplete, InitialComplete)
  {
    ChainedFrom(Reconstruction, RECONSTRUCTION_CASES, 0);
    assert RECONSTRUCTION_CASES[0..] == RECONSTRUCTION_CASES;
  }

  /**
   From a planned store, clean on disk: a run of the fifteen cases whose executor makes the five right bindings, each in its
   own case, and nothing else, exits 0 exactly when every turn and the ending go well and the disk answers well; the state
   is then what the five bindings make, and clean.  Otherwise the first thing to go wrong decides the code.
   */
  lemma InitialRunSucceedsIff(w: World, h: Handle, d: Disk, turns: seq<Turn>, ending: Ending)
    requires LawfulCodec(w) && Stands(w, h, d, Planned) && RightRun(w, h.state, INITIAL_CASES, turns) && ending.calls == []
    ensures var (h', e, code, _) := RunCaller(w, StoreInterface(w), h, d, Initial, Capability, turns, ending);
      && (code == EXIT_SUCCESS <==>
            && AllWell(turns, 15) && EndsWell(ending)
            && AfterAll(d.script, RunWork(w, h.state, INITIAL_CASES, turns) + CONFIRM_WORK).Some?)
      && (code == EXIT_SUCCESS ==> h' == Handle(true, MadeByAll(w, h.state, INITIAL_CASES, turns)) && Stands(w, h', e, InitialComplete))
      && code == RunCode(w, h.state, INITIAL_CASES, turns, d.script, ending)
  {
    InitialCasesAre();
    InitialIsChained([Capability] + ContinuationCases(Initial));
    RunSucceedsIff(w, h, d, Initial, Capability, turns, ending, Planned, InitialComplete);
    RunExits(w, h, d, Initial, Capability, turns, ending, Planned, InitialComplete);
  }

  /** From a complete store, clean on disk: a run of the five cases that leaves the store alone exits 0 exactly when all goes well. */
  lemma ReconstructionRunSucceedsIff(w: World, h: Handle, d: Disk, turns: seq<Turn>, ending: Ending)
    requires LawfulCodec(w) && Stands(w, h, d, InitialComplete) && |turns| >= 5 && ending.calls == []
    requires forall k :: 0 <= k < 5 ==> turns[k].calls == []
    ensures var (h', e, code, _) := RunCaller(w, StoreInterface(w), h, d, Reconstruction, ReconstructionCapability, turns, ending);
      && (code == EXIT_SUCCESS <==>
            && AllWell(turns, 5) && EndsWell(ending)
            && AfterAll(d.script, RunWork(w, h.state, RECONSTRUCTION_CASES, turns) + CONFIRM_WORK).Some?)
      && (code == EXIT_SUCCESS ==> h' == h && Stands(w, h, e, InitialComplete))
  {
    ReconstructionIsChained();
    IdleRunIsRight(w, h.state, RECONSTRUCTION_CASES, turns);
    RunSucceedsIff(w, h, d, Reconstruction, ReconstructionCapability, turns, ending, InitialComplete, InitialComplete);
  }

  lemma {:induction false} IdleRunIsRight(w: World, s: State, cases: seq<CaseId>, turns: seq<Turn>)
    requires |turns| >= |cases| && forall k :: 0 <= k < |cases| ==> IsReconstruction(cases[k]) && turns[k].calls == []
    ensures RightRun(w, s, cases, turns) && MadeByAll(w, s, cases, turns) == s
    decreases |cases|
  {
    if cases != [] {
      forall k | 0 <= k < |cases| - 1 ensures IsReconstruction(cases[1..][k]) && turns[1..][k].calls == [] {
        assert cases[1..][k] == cases[k + 1] && turns[1..][k] == turns[k + 1];
      }
      IdleRunIsRight(w, s, cases[1..], turns[1..]);
    }
  }
}
