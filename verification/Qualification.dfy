/**
 One phase end to end: the adapter's phase machine, its session, the caller process and the
 caller's store, every one of them driven by the steps of the same distributed run.
 */
module Qualification {
  import opened Prelude
  import opened CallerRun
  import opened StoreState
  import opened StoreDisk
  import opened Store
  import opened StoreSafety
  import Pipe = AdapterPipeline
  import Protocol = Phase
  import Adapter = AdapterRun

  type Closing = (Handle, Disk, Ending) -> (Handle, Disk, int)

  /** The locked cases by name and by id, what runs them, and where both sides start. */
  datatype Setup = Setup(
    names: seq<string>, ids: seq<CaseId>, run: CaseRunner, close: Closing, calls: Adapter.MachineCalls,
    machine: Protocol.Machine, handle: Handle, disk: Disk)

  /** The adapter's process: its machine, the answers it has heard, and at the end its exit code. base and closed are history. */
  datatype Above = Above(
    machine: Protocol.Machine, base: Protocol.Machine, answers: seq<Adapter.CallerAnswer>, exit: Option<int>, closed: bool)

  /** The caller's store with the turns whose results were written; before and ending are history. */
  datatype Below = Below(
    handle: Handle, disk: Disk, before: (Handle, Disk), turns: seq<Turn>, doing: Option<(Turn, int)>, ending: Option<Ending>)

  datatype Play = Play(pipe: Pipe.State, above: Above, below: Below)

  /**
   Confesses and Concludes are failCaller and the end of RunWithCaller.  Executes is a case with its
   gate, Reports the writing of its result, Ends the closing after the end of input; Dies leaves
   whatever a killed process leaves.
   */
  datatype PlayStep =
    | Announces
    | Session(step: Pipe.Step)
    | Emits(data: Protocol.ResultData)
    | Confesses(failure: Option<string>, closes: bool)
    | Concludes(closes: bool)
    | Reads
    | Executes(turn: Turn)
    | Reports
    | Ends(ending: Ending)
    | Dies(code: int, handle: Handle, disk: Disk)

  function PlayInit(x: Setup, other: seq<string>): Play {
    Play(Pipe.Init(x.names, other), Above(x.machine, x.machine, [], None, true),
         Below(x.handle, x.disk, (x.handle, x.disk), [], None, None))
  }

  /** Steps of the session alone; the record of a failure is the machine's, in Confesses. */
  predicate OfSession(step: Pipe.Step) {
    step.SendCommand? || step.TakeResult? || step.SessionFinish? || step == Pipe.GiveUp(false)
  }

  predicate Started(x: Setup, p: Play) {
    p.pipe.adapter.Next? && p.pipe.adapter.k < |x.names| && x.calls(p.above.machine, Protocol.StartScenario(x.names[p.pipe.adapter.k])).1.None?
  }

  predicate Emitted(x: Setup, p: Play, data: Protocol.ResultData) {
    x.calls(p.above.machine, Protocol.Call.Result(data)).1.None?
  }

  /** The step of the two processes and their pipes. */
  function PipeStep(x: Setup, p: Play, step: PlayStep): Option<Pipe.Step> {
    match step
    case Announces => Some(Pipe.Announce(Started(x, p)))
    case Session(g) => Some(g)
    case Emits(data) => Some(Pipe.EmitResult(Emitted(x, p, data)))
    case Confesses(_, _) => None
    case Concludes(_) => None
    case Reads => Some(Pipe.ReadCommand)
    case Executes(turn) => Some(Pipe.FinishExecute(Outcome(x, p, turn).2 != EXIT_SOFTWARE))
    case Reports =>
      if p.below.doing.Some? && p.below.doing.value.1 == EXIT_DATA then Some(Pipe.Die(EXIT_DATA))
      else Some(Pipe.WriteResult(p.below.doing.Some? && p.below.doing.value.1 == EXIT_SUCCESS))
    case Ends(ending) =>
      if p.pipe.caller == Pipe.Reading(|x.names|) && LastOutcome(x, p, ending).2 != EXIT_SUCCESS
      then Some(Pipe.Die(LastOutcome(x, p, ending).2)) else Some(Pipe.ReadEnd)
    case Dies(code, _, _) => Some(Pipe.Die(code))
  }

  /** What the executor and the gates make of the case that is due. */
  function Outcome(x: Setup, p: Play, turn: Turn): (Handle, Disk, int) {
    if |p.below.turns| < |x.ids| then x.run(p.below.handle, p.below.disk, x.ids[|p.below.turns|], turn)
    else (p.below.handle, p.below.disk, EXIT_SOFTWARE)
  }

  function LastOutcome(x: Setup, p: Play, ending: Ending): (Handle, Disk, int) {
    x.close(p.below.handle, p.below.disk, ending)
  }

  /** When a step can run: the adapter's process has not exited, and the pipes are ready. */
  predicate CanPlay(x: Setup, p: Play, step: PlayStep) {
    && (PipeStep(x, p, step).Some? ==> Pipe.Enabled(p.pipe, PipeStep(x, p, step).value))
    && match step
       case Announces => p.above.exit.None?
       case Session(g) => p.above.exit.None? && OfSession(g)
       case Emits(data) =>
         p.above.exit.None? && p.pipe.adapter.Received? && p.pipe.adapter.k < |x.names| &&
         data.caseId == x.names[p.pipe.adapter.k] && data.disposition == "completed"
       case Confesses(_, _) => p.above.exit.None? && p.pipe.adapter.Failed?
       case Concludes(_) => p.above.exit.None? && p.pipe.adapter.Finished?
       case Reads => true
       case Executes(turn) => turn.commandOk
       case Reports => p.pipe.caller.Reporting?
       case Ends(ending) => p.pipe.caller.Reading? && p.pipe.commands == [] && p.pipe.inputClosed && ending.atEnd
       case Dies(_, _, _) => true
  }

  /** The adapter's process after its own step. */
  function AboveNext(x: Setup, p: Play, step: PlayStep): Above {
    var a := p.above;
    match step
    case Announces =>
      if !p.pipe.adapter.Next? || p.pipe.adapter.k >= |x.names| then a
      else
        var (m, error) := x.calls(a.machine, Protocol.StartScenario(x.names[p.pipe.adapter.k]));
        a.(machine := m, exit := if error.Some? then Some(Adapter.EXIT_IO) else None)
    case Emits(data) =>
      var (m, error) := x.calls(a.machine, Protocol.Call.Result(data));
      var b := a.(machine := m, answers := a.answers + [Adapter.Answer(data, true)]);
      if error.Some? then b.(exit := Some(Adapter.EXIT_IO)) else b.(base := m)
    case Confesses(code, closes) =>
      var (m, exit) := Adapter.FailCaller(x.calls, a.machine, closes, Adapter.PublicCode(code));
      a.(machine := m, answers := a.answers + [Adapter.CallerError(code)], exit := Some(exit), closed := closes)
    case Concludes(closes) =>
      if closes then
        var (m, exit) := Adapter.Conclude(x.calls, a.machine);
        a.(machine := m, exit := Some(exit), closed := true)
      else
        var (m, error) := x.calls(a.machine, Protocol.Fail("internal_failure"));
        a.(machine := m, exit := Some(if error.Some? then Adapter.EXIT_IO else Adapter.EXIT_SOFTWARE), closed := false)
    case _ => a
  }

  /** The caller's store and its turns after the caller's own step. */
  function BelowNext(x: Setup, p: Play, step: PlayStep): Below {
    var b := p.below;
    match step
    case Executes(turn) =>
      var (h, d, code) := Outcome(x, p, turn);
      b.(handle := h, disk := d, doing := Some((turn, code)))
    case Reports =>
      if b.doing.Some? && b.doing.value.1 == EXIT_SUCCESS
      then b.(before := (b.handle, b.disk), turns := b.turns + [b.doing.value.0], doing := None)
      else b
    case Ends(ending) =>
      if p.pipe.caller == Pipe.Reading(|x.names|) then
        var (h, d, _) := LastOutcome(x, p, ending);
        b.(handle := h, disk := d, ending := Some(ending))
      else b
    case Dies(_, h, d) => b.(handle := h, disk := d)
    case _ => b
  }

  function PlayNext(x: Setup, p: Play, step: PlayStep): Play
    requires CanPlay(x, p, step)
  {
    var g := PipeStep(x, p, step);
    Play(if g.Some? then Pipe.Apply(p.pipe, g.value) else p.pipe, AboveNext(x, p, step), BelowNext(x, p, step))
  }

  /** The i-th state is left by the i-th step. */
  ghost predicate Plays(x: Setup, trace: seq<Play>, steps: seq<PlayStep>, i: nat) {
    i < |steps| && i + 1 < |trace| && CanPlay(x, trace[i], steps[i]) && trace[i + 1] == PlayNext(x, trace[i], steps[i])
  }

  ghost predicate PlayRun(x: Setup, other: seq<string>, trace: seq<Play>, steps: seq<PlayStep>) {
    && |trace| == |steps| + 1
    && trace[0] == PlayInit(x, other)
    && forall i :: 0 <= i < |steps| ==> Plays(x, trace, steps, i)
  }

  /** As many cases in the one list as in the other. */
  predicate SetupOk(x: Setup) { x.names != [] && |x.names| == |x.ids| }

  // ----- the adapter's process is RunCases -----

  /** Whatever else is heard, a whole run gets to base after these answers. */
  ghost predicate Reaches(x: Setup, answers: seq<Adapter.CallerAnswer>, base: Protocol.Machine) {
    |answers| <= |x.names| && forall rest: seq<Adapter.CallerAnswer>, closes: bool :: SamePlay(x, answers, base, rest, closes)
  }

  predicate SamePlay(x: Setup, answers: seq<Adapter.CallerAnswer>, base: Protocol.Machine, rest: seq<Adapter.CallerAnswer>, closes: bool) {
    var caller := Adapter.Caller(answers + rest, closes);
    Adapter.PlayFrom(x.calls, x.machine, x.names, 0, caller) == Adapter.PlayFrom(x.calls, base, x.names, |answers|, caller)
  }

  lemma ReachesStart(x: Setup)
    ensures Reaches(x, [], x.machine)
  {
  }

  /** One case further. */
  lemma ReachesNext(x: Setup, answers: seq<Adapter.CallerAnswer>, base: Protocol.Machine, answer: Adapter.CallerAnswer, m: Protocol.Machine)
    requires Reaches(x, answers, base) && |answers| < |x.names|
    requires forall closes :: Adapter.PlayCase(x.calls, base, x.names[|answers|], answer, closes) == (m, None)
    ensures Reaches(x, answers + [answer], m)
  {
    forall rest: seq<Adapter.CallerAnswer>, closes: bool ensures SamePlay(x, answers + [answer], m, rest, closes) {
      assert SamePlay(x, answers, base, [answer] + rest, closes);
      assert answers + ([answer] + rest) == answers + [answer] + rest;
      assert Adapter.AnswerAt(Adapter.Caller(answers + [answer] + rest, closes), |answers|) == answer;
    }
  }

  /** The last case heard of ends the process. */
  lemma ReachesEnd(x: Setup, answers: seq<Adapter.CallerAnswer>, base: Protocol.Machine, answer: Adapter.CallerAnswer,
                   closes: bool, m: Protocol.Machine, code: int)
    requires Reaches(x, answers, base) && |answers| < |x.names|
    requires Adapter.PlayCase(x.calls, base, x.names[|answers|], answer, closes) == (m, Some(code))
    ensures Adapter.RunCases(x.calls, x.machine, x.names, Some(Adapter.Caller(answers + [answer], closes))) == (m, code)
  {
    assert SamePlay(x, answers, base, [answer], closes);
    assert Adapter.AnswerAt(Adapter.Caller(answers + [answer], closes), |answers|) == answer;
  }

  /** The machine refused to announce the next case: no answer is heard for it. */
  lemma ReachesRefusal(x: Setup, answers: seq<Adapter.CallerAnswer>, base: Protocol.Machine, closes: bool, m: Protocol.Machine)
    requires Reaches(x, answers, base) && |answers| < |x.names|
    requires x.calls(base, Protocol.StartScenario(x.names[|answers|])).1.Some? && m == x.calls(base, Protocol.StartScenario(x.names[|answers|])).0
    ensures Adapter.RunCases(x.calls, x.machine, x.names, Some(Adapter.Caller(answers, closes))) == (m, Adapter.EXIT_IO)
  {
    assert SamePlay(x, answers, base, [], closes);
    assert answers + [] == answers;
  }

  /** Every case is through. */
  lemma ReachesAll(x: Setup, answers: seq<Adapter.CallerAnswer>, base: Protocol.Machine, closes: bool)
    requires Reaches(x, answers, base) && |answers| == |x.names|
    ensures Adapter.PlayFrom(x.calls, x.machine, x.names, 0, Adapter.Caller(answers, closes)) == (base, None)
  {
    assert SamePlay(x, answers, base, [], closes);
    assert answers + [] == answers;
  }

  /** The machine is at base, or has announced the case after it. */
  ghost predicate Standing(x: Setup, adapter: Pipe.Adapter, a: Above) {
    match adapter
    case Next(k) => |a.answers| == k && a.machine == a.base
    case Announced(k) => HasAnnounced(x, a, k)
    case Waiting(k) => HasAnnounced(x, a, k)
    case Closing(k) => HasAnnounced(x, a, k)
    case Received(k) => HasAnnounced(x, a, k)
    case Finished => |a.answers| == |x.names| && a.machine == a.base
    case Failed => HasAnnounced(x, a, |a.answers|)
  }

  predicate HasAnnounced(x: Setup, a: Above, k: nat) {
    k < |x.names| && |a.answers| == k && x.calls(a.base, Protocol.StartScenario(x.names[k])) == (a.machine, None)
  }

  /** Exit code 0 stands behind a run of every case, or behind a written failure. */
  predicate ExitOk(adapter: Pipe.Adapter, a: Above) {
    a.exit == Some(Adapter.EXIT_SUCCESS) ==> (adapter.Finished? && a.closed) || Adapter.EndsInError(a.machine)
  }

  ghost predicate AboveOk(x: Setup, adapter: Pipe.Adapter, a: Above) {
    && a.machine.invocation == x.machine.invocation && ExitOk(adapter, a)
    && (a.exit.None? ==> Reaches(x, a.answers, a.base) && Standing(x, adapter, a))
    && (a.exit.Some? ==>
          Adapter.RunCases(x.calls, x.machine, x.names, Some(Adapter.Caller(a.answers, a.closed))) == (a.machine, a.exit.value))
  }

  /** The machine's calls are as AdapterRun needs them, and an invocation is bound. */
  ghost predicate CallsOk(x: Setup) {
    Adapter.FailsVisibly(x.calls) && Adapter.Binds(x.calls) && x.machine.invocation.Some?
  }

  lemma AnnouncesKeepsAbove(x: Setup, p: Play)
    requires CallsOk(x) && p.pipe.cases == x.names && AboveOk(x, p.pipe.adapter, p.above) && CanPlay(x, p, Announces)
    ensures AboveOk(x, PlayNext(x, p, Announces).pipe.adapter, AboveNext(x, p, Announces))
  {
    var a := p.above;
    var k := p.pipe.adapter.k;
    if x.calls(a.machine, Protocol.StartScenario(x.names[k])).1.Some? {
      ReachesRefusal(x, a.answers, a.base, a.closed, AboveNext(x, p, Announces).machine);
    }
  }

  lemma EmitsKeepsAbove(x: Setup, p: Play, data: Protocol.ResultData)
    requires CallsOk(x) && p.pipe.cases == x.names && AboveOk(x, p.pipe.adapter, p.above) && CanPlay(x, p, Emits(data))
    ensures AboveOk(x, PlayNext(x, p, Emits(data)).pipe.adapter, AboveNext(x, p, Emits(data)))
  {
    var a := p.above;
    var answer := Adapter.Answer(data, true);
    var (m, error) := x.calls(a.machine, Protocol.Call.Result(data));
    if error.Some? {
      ReachesEnd(x, a.answers, a.base, answer, a.closed, m, Adapter.EXIT_IO);
    } else {
      ReachesNext(x, a.answers, a.base, answer, m);
    }
  }

  lemma ConfessesKeepsAbove(x: Setup, p: Play, code: Option<string>, closes: bool)
    requires CallsOk(x) && AboveOk(x, p.pipe.adapter, p.above) && CanPlay(x, p, Confesses(code, closes))
    ensures AboveOk(x, p.pipe.adapter, AboveNext(x, p, Confesses(code, closes)))
  {
    var a := p.above;
    var (m, exit) := Adapter.FailCaller(x.calls, a.machine, closes, Adapter.PublicCode(code));
    Adapter.FailCallerShows(x.calls, a.machine, closes, Adapter.PublicCode(code));
    ReachesEnd(x, a.answers, a.base, Adapter.CallerError(code), closes, m, exit);
  }

  lemma ConcludesKeepsAbove(x: Setup, p: Play, closes: bool)
    requires CallsOk(x) && AboveOk(x, p.pipe.adapter, p.above) && CanPlay(x, p, Concludes(closes))
    ensures AboveOk(x, p.pipe.adapter, AboveNext(x, p, Concludes(closes)))
  {
    ReachesAll(x, p.above.answers, p.above.base, closes);
  }

  /** The session's steps leave the adapter behind its announcement, or make it fail there. */
  lemma SessionMoves(p: Pipe.State, step: Pipe.Step)
    requires Pipe.Enabled(p, step) && OfSession(step)
    ensures var (a, b) := (p.adapter, Pipe.Apply(p, step).adapter);
      Behind(a) && (b.Failed? || (Behind(b) && b.k == a.k))
  {
  }

  predicate Behind(a: Pipe.Adapter) { a.Announced? || a.Waiting? || a.Closing? || a.Received? }

  lemma SessionKeepsAbove(x: Setup, p: Play, step: Pipe.Step)
    requires AboveOk(x, p.pipe.adapter, p.above) && p.above.exit.None? && Pipe.Enabled(p.pipe, step) && OfSession(step)
    ensures AboveOk(x, Pipe.Apply(p.pipe, step).adapter, p.above)
  {
    SessionMoves(p.pipe, step);
  }

  lemma CallerLeavesAdapter(p: Pipe.State, step: Pipe.Step)
    requires Pipe.Enabled(p, step) && !Pipe.AdapterStep(step)
    ensures Pipe.Apply(p, step).adapter == p.adapter
  {
  }

  lemma KeepsAbove(x: Setup, p: Play, step: PlayStep)
    requires CallsOk(x) && p.pipe.cases == x.names && AboveOk(x, p.pipe.adapter, p.above) && CanPlay(x, p, step)
    ensures AboveOk(x, PlayNext(x, p, step).pipe.adapter, PlayNext(x, p, step).above)
  {
    match step
    case Announces => AnnouncesKeepsAbove(x, p);
    case Session(g) => SessionKeepsAbove(x, p, g);
    case Emits(data) => EmitsKeepsAbove(x, p, data);
    case Confesses(code, closes) => ConfessesKeepsAbove(x, p, code, closes);
    case Concludes(closes) => ConcludesKeepsAbove(x, p, closes);
    case _ => CallerLeavesAdapter(p.pipe, PipeStep(x, p, step).value);
  }

  // ----- the caller's process is RunCaller -----

  /** The turns are those of a run of the first cases, and it ends with this handle and disk. */
  predicate Ran(x: Setup, turns: seq<Turn>, end: (Handle, Disk)) {
    |turns| <= |x.ids| &&
    var (h, d, code, _) := RunCases(x.run, x.handle, x.disk, x.ids[..|turns|], turns);
    (h, d) == end && code == EXIT_SUCCESS
  }

  lemma {:induction false} CasesAppend(run: CaseRunner, h: Handle, d: Disk, cases: seq<CaseId>, turns: seq<Turn>, id: CaseId, turn: Turn)
    requires |cases| == |turns| && RunCases(run, h, d, cases, turns).2 == EXIT_SUCCESS && turn.commandOk
    requires run(RunCases(run, h, d, cases, turns).0, RunCases(run, h, d, cases, turns).1, id, turn).2 == EXIT_SUCCESS
    ensures var (h1, d1, _, _) := RunCases(run, h, d, cases, turns);
      var (h2, d2, code, _) := RunCases(run, h, d, cases + [id], turns + [turn]);
      run(h1, d1, id, turn) == (h2, d2, EXIT_SUCCESS) && code == EXIT_SUCCESS
    decreases |cases|
  {
    if cases == [] {
      OneCase(run, h, d, id, turn);
    } else {
      var (h1, d1, _) := run(h, d, cases[0], turns[0]);
      CasesAppend(run, h1, d1, cases[1..], turns[1..], id, turn);
      assert (cases + [id])[1..] == cases[1..] + [id] && (turns + [turn])[1..] == turns[1..] + [turn];
    }
  }

  lemma OneCase(run: CaseRunner, h: Handle, d: Disk, id: CaseId, turn: Turn)
    requires turn.commandOk && run(h, d, id, turn).2 == EXIT_SUCCESS
    ensures var (h2, d2, code, _) := RunCases(run, h, d, [] + [id], [] + [turn]);
      run(h, d, id, turn) == (h2, d2, EXIT_SUCCESS) && code == EXIT_SUCCESS
  {
    assert [] + [id] == [id] && [] + [turn] == [turn];
    assert [id][1..] == [] && [turn][1..] == [];
  }

  lemma RanNext(x: Setup, turns: seq<Turn>, end: (Handle, Disk), turn: Turn, next: (Handle, Disk))
    requires Ran(x, turns, end) && |turns| < |x.ids| && turn.commandOk
    requires x.run(end.0, end.1, x.ids[|turns|], turn) == (next.0, next.1, EXIT_SUCCESS)
    ensures Ran(x, turns + [turn], next)
  {
    CasesAppend(x.run, x.handle, x.disk, x.ids[..|turns|], turns, x.ids[|turns|], turn);
    assert x.ids[..|turns| + 1] == x.ids[..|turns|] + [x.ids[|turns|]];
  }

  /** Between cases, the store as the reported turns left it. */
  predicate Between(b: Below, j: nat) {
    |b.turns| == j && b.doing.None? && (b.handle, b.disk) == b.before
  }

  /** The case that is due has been run, its result is not written yet. */
  predicate HasRun(x: Setup, b: Below, j: nat) {
    && j < |x.ids| && |b.turns| == j && b.doing.Some? && b.doing.value.0.commandOk
    && b.doing.value.1 != EXIT_SOFTWARE
    && x.run(b.before.0, b.before.1, x.ids[j], b.doing.value.0) == (b.handle, b.disk, b.doing.value.1)
  }

  /** Every case was run and the run closed. */
  predicate HasClosed(x: Setup, b: Below) {
    && |b.turns| == |x.ids| && b.ending.Some?
    && x.close(b.before.0, b.before.1, b.ending.value) == (b.handle, b.disk, EXIT_SUCCESS)
  }

  predicate BelowOk(x: Setup, caller: Pipe.Caller, b: Below) {
    && Ran(x, b.turns, b.before)
    && match caller
       case Reading(j) => Between(b, j)
       case Executing(j) => Between(b, j)
       case Reporting(j) => HasRun(x, b, j)
       case Exited(code) => code == EXIT_SUCCESS ==> HasClosed(x, b)
  }

  lemma AdapterLeavesCaller(p: Pipe.State, step: Pipe.Step)
    requires Pipe.Enabled(p, step) && Pipe.AdapterStep(step)
    ensures Pipe.Apply(p, step).caller == p.caller
  {
  }

  lemma ExecutesKeepsBelow(x: Setup, p: Play, turn: Turn)
    requires BelowOk(x, p.pipe.caller, p.below) && p.pipe.cases == x.names && |x.names| == |x.ids| && CanPlay(x, p, Executes(turn))
    ensures BelowOk(x, PlayNext(x, p, Executes(turn)).pipe.caller, BelowNext(x, p, Executes(turn)))
  {
  }

  lemma ReportsKeepsBelow(x: Setup, p: Play)
    requires BelowOk(x, p.pipe.caller, p.below) && p.pipe.cases == x.names && |x.names| == |x.ids| && CanPlay(x, p, Reports)
    ensures BelowOk(x, PlayNext(x, p, Reports).pipe.caller, BelowNext(x, p, Reports))
  {
    var b := p.below;
    if b.doing.value.1 == EXIT_SUCCESS { RanNext(x, b.turns, b.before, b.doing.value.0, (b.handle, b.disk)); }
  }

  lemma EndsKeepsBelow(x: Setup, p: Play, ending: Ending)
    requires BelowOk(x, p.pipe.caller, p.below) && p.pipe.cases == x.names && |x.names| == |x.ids| && CanPlay(x, p, Ends(ending))
    ensures BelowOk(x, PlayNext(x, p, Ends(ending)).pipe.caller, BelowNext(x, p, Ends(ending)))
  {
  }

  lemma KeepsBelow(x: Setup, p: Play, step: PlayStep)
    requires BelowOk(x, p.pipe.caller, p.below) && p.pipe.cases == x.names && |x.names| == |x.ids| && CanPlay(x, p, step)
    ensures BelowOk(x, PlayNext(x, p, step).pipe.caller, PlayNext(x, p, step).below)
  {
    match step
    case Executes(turn) => ExecutesKeepsBelow(x, p, turn);
    case Reports => ReportsKeepsBelow(x, p);
    case Ends(ending) => EndsKeepsBelow(x, p, ending);
    case Announces => AdapterLeavesCaller(p.pipe, Pipe.Announce(Started(x, p)));
    case Session(g) => AdapterLeavesCaller(p.pipe, g);
    case Emits(data) => AdapterLeavesCaller(p.pipe, Pipe.EmitResult(Emitted(x, p, data)));
    case _ =>
  }

  // ----- results and turns -----

  /** How many results the adapter has taken. */
  function Taken(a: Pipe.Adapter, n: nat): nat {
    match a
    case Next(k) => k
    case Announced(k) => k
    case Waiting(k) => k
    case Closing(k) => k + 1
    case Received(k) => k + 1
    case Finished => n
    case Failed => 0
  }

  /** Every result that was written stands for a turn that was reported, and so does every one emitted. */
  predicate TurnsOk(x: Setup, pipe: Pipe.State, b: Below) {
    && pipe.cases == x.names
    && (!pipe.adapter.Failed? ==> Taken(pipe.adapter, |x.names|) + |pipe.results| == |b.turns|)
    && (forall i :: 0 <= i < |pipe.log| && pipe.log[i].Result? ==> i / 4 < |b.turns|)
  }

  lemma AdapterKeepsTurns(x: Setup, pipe: Pipe.State, b: Below, step: Pipe.Step)
    requires Pipe.Inv(pipe) && TurnsOk(x, pipe, b) && Pipe.Enabled(pipe, step) && Pipe.AdapterStep(step) && !step.EmitResult?
    ensures TurnsOk(x, Pipe.Apply(pipe, step), b)
  {
  }

  lemma EmitKeepsTurns(x: Setup, pipe: Pipe.State, b: Below, step: Pipe.Step)
    requires Pipe.Inv(pipe) && TurnsOk(x, pipe, b) && Pipe.Enabled(pipe, step) && step.EmitResult?
    ensures TurnsOk(x, Pipe.Apply(pipe, step), b)
  {
    assert (4 * pipe.adapter.k + 3) / 4 == pipe.adapter.k;
  }

  lemma CallerKeepsTurns(x: Setup, pipe: Pipe.State, b: Below, step: Pipe.Step)
    requires TurnsOk(x, pipe, b) && Pipe.Enabled(pipe, step) && !Pipe.AdapterStep(step) && step != Pipe.WriteResult(true)
    ensures TurnsOk(x, Pipe.Apply(pipe, step), b)
  {
  }

  lemma WriteKeepsTurns(x: Setup, pipe: Pipe.State, b: Below, c: Below)
    requires TurnsOk(x, pipe, b) && Pipe.Enabled(pipe, Pipe.WriteResult(true)) && |c.turns| == |b.turns| + 1
    ensures TurnsOk(x, Pipe.Apply(pipe, Pipe.WriteResult(true)), c)
  {
  }

  lemma SameTurns(x: Setup, pipe: Pipe.State, b: Below, c: Below)
    requires TurnsOk(x, pipe, b) && c.turns == b.turns
    ensures TurnsOk(x, pipe, c)
  {
  }

  lemma TurnsReported(x: Setup, p: Play, step: PlayStep)
    requires CanPlay(x, p, step)
    ensures PipeStep(x, p, step) == Some(Pipe.WriteResult(true)) ==> |BelowNext(x, p, step).turns| == |p.below.turns| + 1
    ensures PipeStep(x, p, step) != Some(Pipe.WriteResult(true)) ==> BelowNext(x, p, step).turns == p.below.turns
  {
  }

  lemma KeepsTurns(x: Setup, p: Play, step: PlayStep)
    requires Pipe.Inv(p.pipe) && TurnsOk(x, p.pipe, p.below) && CanPlay(x, p, step)
    ensures TurnsOk(x, PlayNext(x, p, step).pipe, PlayNext(x, p, step).below)
  {
    TurnsReported(x, p, step);
    var (g, c) := (PipeStep(x, p, step), BelowNext(x, p, step));
    if g.None? {
      SameTurns(x, p.pipe, p.below, c);
    } else if g == Some(Pipe.WriteResult(true)) {
      WriteKeepsTurns(x, p.pipe, p.below, c);
    } else {
      if !Pipe.AdapterStep(g.value) {
        CallerKeepsTurns(x, p.pipe, p.below, g.value);
      } else if g.value.EmitResult? {
        EmitKeepsTurns(x, p.pipe, p.below, g.value);
      } else {
        AdapterKeepsTurns(x, p.pipe, p.below, g.value);
      }
      SameTurns(x, Pipe.Apply(p.pipe, g.value), p.below, c);
    }
  }

  // ----- whole runs -----

  ghost predicate PlayInv(x: Setup, p: Play) {
    && Pipe.Inv(p.pipe) && TurnsOk(x, p.pipe, p.below)
    && AboveOk(x, p.pipe.adapter, p.above) && BelowOk(x, p.pipe.caller, p.below)
  }

  lemma KeepsPipe(x: Setup, p: Play, step: PlayStep)
    requires Pipe.Inv(p.pipe) && CanPlay(x, p, step)
    ensures Pipe.Inv(PlayNext(x, p, step).pipe)
  {
    var g := PipeStep(x, p, step);
    if g.Some? {
      if Pipe.AdapterStep(g.value) { Pipe.AdapterKeepsInv(p.pipe, g.value); } else { Pipe.CallerKeepsInv(p.pipe, g.value); }
    }
  }

  lemma StepKeepsPlay(x: Setup, p: Play, step: PlayStep)
    requires SetupOk(x) && CallsOk(x) && PlayInv(x, p) && CanPlay(x, p, step)
    ensures PlayInv(x, PlayNext(x, p, step))
  {
    KeepsPipe(x, p, step);
    KeepsTurns(x, p, step);
    KeepsAbove(x, p, step);
    KeepsBelow(x, p, step);
  }

  lemma StartIsInv(x: Setup, other: seq<string>)
    requires SetupOk(x) && CallsOk(x)
    ensures PlayInv(x, PlayInit(x, other))
  {
    ReachesStart(x);
    assert x.ids[..0] == [];
  }

  lemma {:induction false} RunKeepsPlay(x: Setup, other: seq<string>, trace: seq<Play>, steps: seq<PlayStep>, i: nat)
    requires SetupOk(x) && CallsOk(x) && PlayRun(x, other, trace, steps) && i < |trace|
    ensures PlayInv(x, trace[i])
  {
    if i == 0 {
      StartIsInv(x, other);
    } else {
      RunKeepsPlay(x, other, trace, steps, i - 1);
      PlayGoesOn(x, other, trace, steps, i - 1);
    }
  }

  lemma PlayGoesOn(x: Setup, other: seq<string>, trace: seq<Play>, steps: seq<PlayStep>, i: nat)
    requires SetupOk(x) && CallsOk(x) && PlayRun(x, other, trace, steps) && i + 1 < |trace| && PlayInv(x, trace[i])
    ensures PlayInv(x, trace[i + 1])
  {
    assert Plays(x, trace, steps, i);
    StepKeepsPlay(x, trace[i], steps[i]);
  }

  // ----- what a transcript says of the store -----

  /** The adapter's process in the run is AdapterRun's, with the answers it heard from the session. */
  lemma AdapterIsRunCases(x: Setup, other: seq<string>, trace: seq<Play>, steps: seq<PlayStep>, i: nat)
    requires SetupOk(x) && CallsOk(x) && PlayRun(x, other, trace, steps) && i < |trace| && trace[i].above.exit.Some?
    ensures var a := trace[i].above;
      Adapter.RunCases(x.calls, x.machine, x.names, Some(Adapter.Caller(a.answers, a.closed))) == (a.machine, a.exit.value)
  {
    RunKeepsPlay(x, other, trace, steps, i);
  }

  predicate EndedFinished(a: Above) { a.exit == Some(Adapter.EXIT_SUCCESS) && Adapter.EndsFinished(a.machine) }

  /** An adapter that exits with code 0 behind a finish has a caller that ran every case and closed well. */
  lemma FinishNeedsTheRun(x: Setup, other: seq<string>, trace: seq<Play>, steps: seq<PlayStep>, i: nat)
    requires SetupOk(x) && CallsOk(x) && PlayRun(x, other, trace, steps) && i < |trace| && EndedFinished(trace[i].above)
    ensures Ran(x, trace[i].below.turns, trace[i].below.before) && HasClosed(x, trace[i].below)
  {
    RunKeepsPlay(x, other, trace, steps, i);
    assert trace[i].pipe.adapter.Finished?;
  }

  function CloserOf(w: World): Closing { (h, d, ending) => EndRun(w, StoreInterface(w), h, d, ending) }

  /** The phases as they are run: the locked names, the commanded cases, the store and the machine's methods. */
  function PhaseSetup(w: World, marshal: Protocol.Marshal, phase: Phase, first: CaseId, m: Protocol.Machine, h: Handle, d: Disk): Setup
    requires phase != OtherPhase
  {
    Setup(if phase == Initial then Protocol.INITIAL_CASES else Protocol.RECONSTRUCTION_CASES,
          [first] + ContinuationCases(phase), CaseRun(w, StoreInterface(w), phase), CloserOf(w), Adapter.Methods(marshal), m, h, d)
  }

  lemma PhaseSetupIsOk(w: World, marshal: Protocol.Marshal, phase: Phase, first: CaseId, m: Protocol.Machine, h: Handle, d: Disk)
    requires phase != OtherPhase && m.invocation.Some?
    ensures SetupOk(PhaseSetup(w, marshal, phase, first, m, h, d)) && CallsOk(PhaseSetup(w, marshal, phase, first, m, h, d))
  {
    Adapter.MethodsFailVisibly(marshal);
    SameLength(phase, first);
  }

  lemma SameLength(phase: Phase, first: CaseId)
    requires phase != OtherPhase
    ensures |[first] + ContinuationCases(phase)| == |if phase == Initial then Protocol.INITIAL_CASES else Protocol.RECONSTRUCTION_CASES|
  {
  }

  /** A run of the cases and its closing are the whole of RunCaller. */
  lemma RanIsRunCaller(w: World, marshal: Protocol.Marshal, phase: Phase, first: CaseId, m: Protocol.Machine, h: Handle, d: Disk, b: Below)
    requires phase != OtherPhase && var x := PhaseSetup(w, marshal, phase, first, m, h, d); Ran(x, b.turns, b.before) && HasClosed(x, b)
    ensures var (h', d', code, _) := RunCaller(w, StoreInterface(w), h, d, phase, first, b.turns, b.ending.value);
      h' == b.handle && d' == b.disk && code == EXIT_SUCCESS
  {
    var ids := [first] + ContinuationCases(phase);
    assert ids[..|ids|] == ids;
  }

  /**
   The initial phase end to end: when the adapter has exited with code 0 behind a finish record, the
   caller's store has gone from planned revision 1 to complete revision 6 on one plan, a stage for
   every case, and the disk holds that state for good.
   */
  lemma FinishedInitialMeansCompleteStore(
    w: World, marshal: Protocol.Marshal, first: CaseId, m: Protocol.Machine, h: Handle, d: Disk,
    other: seq<string>, trace: seq<Play>, steps: seq<PlayStep>, i: nat)
    requires LawfulCodec(w) && Settled(w, h.state, d) && InStep(h.state)
    requires h.state.stage.Planned? && m.invocation.Some?
    requires PlayRun(PhaseSetup(w, marshal, Initial, first, m, h, d), other, trace, steps)
    requires i < |trace| && EndedFinished(trace[i].above)
    ensures trace[i].below.ending.Some?
    ensures var b := trace[i].below;
      var states := RunCaller(w, StoreInterface(w), h, d, Initial, first, b.turns, b.ending.value).3;
      RanInitial(w, h.state, b.handle.state, b.disk, first, states)
  {
    var x := PhaseSetup(w, marshal, Initial, first, m, h, d);
    PhaseSetupIsOk(w, marshal, Initial, first, m, h, d);
    FinishNeedsTheRun(x, other, trace, steps, i);
    var b := trace[i].below;
    RanIsRunCaller(w, marshal, Initial, first, m, h, d, b);
    InitialRunCompletes(w, h, d, first, b.turns, b.ending.value);
  }

  /** The reconstruction phase end to end: a finish means revision 6 was there and is there unchanged. */
  lemma FinishedReconstructionLeavesStore(
    w: World, marshal: Protocol.Marshal, root: Disk, first: CaseId, m: Protocol.Machine,
    other: seq<string>, trace: seq<Play>, steps: seq<PlayStep>, i: nat)
    requires OpenReconstruction(w, root).1.Ok? && m.invocation.Some?
    requires PlayRun(PhaseSetup(w, marshal, Reconstruction, first, m, OpenReconstruction(w, root).1.value, OpenReconstruction(w, root).0),
                     other, trace, steps)
    requires i < |trace| && EndedFinished(trace[i].above)
    ensures var (h, b) := (OpenReconstruction(w, root).1.value, trace[i].below);
      && b.handle.state == h.state && h.state.storeRevision == 6 && SameRoot(root, b.disk)
  {
    var (d, r) := OpenReconstruction(w, root);
    var x := PhaseSetup(w, marshal, Reconstruction, first, m, r.value, d);
    PhaseSetupIsOk(w, marshal, Reconstruction, first, m, r.value, d);
    FinishNeedsTheRun(x, other, trace, steps, i);
    var b := trace[i].below;
    RanIsRunCaller(w, marshal, Reconstruction, first, m, r.value, d, b);
    ReconstructionChangesNothing(w, root, first, b.turns, b.ending.value);
  }

  // ----- what one result says of the store -----

  lemma {:induction false} CasesPrefix(run: CaseRunner, h: Handle, d: Disk, cases: seq<CaseId>, turns: seq<Turn>, n: nat)
    requires |cases| == |turns| && n <= |cases| && RunCases(run, h, d, cases, turns).2 == EXIT_SUCCESS
    ensures RunCases(run, h, d, cases[..n], turns[..n]).2 == EXIT_SUCCESS
    decreases |cases|
  {
    if n > 0 {
      var (h1, d1, _) := run(h, d, cases[0], turns[0]);
      CasesPrefix(run, h1, d1, cases[1..], turns[1..], n - 1);
      assert cases[..n][1..] == cases[1..][..n - 1] && turns[..n][1..] == turns[1..][..n - 1];
    }
  }

  /** The first k + 1 turns. */
  function AfterResult(x: Setup, turns: seq<Turn>, k: nat): (Handle, Disk, int)
    requires k < |turns| && k < |x.ids|
  {
    var (h, d, code, _) := RunCases(x.run, x.handle, x.disk, x.ids[..k + 1], turns[..k + 1]);
    (h, d, code)
  }

  /**
   When the adapter has emitted the result of the k-th case, the caller has run and reported the
   first k + 1 cases, every one of them past its gate, and left its store in the stage of that case
   with the disk equal to memory.
   */
  lemma ResultsStandOnTheStore(
    w: World, marshal: Protocol.Marshal, first: CaseId, m: Protocol.Machine, h: Handle, d: Disk,
    other: seq<string>, trace: seq<Play>, steps: seq<PlayStep>, i: nat, p: nat)
    requires LawfulCodec(w) && Settled(w, h.state, d) && InStep(h.state) && m.invocation.Some?
    requires PlayRun(PhaseSetup(w, marshal, Initial, first, m, h, d), other, trace, steps)
    requires i < |trace| && p < |trace[i].pipe.log| && trace[i].pipe.log[p].Result?
    ensures p / 4 < |trace[i].below.turns| && p / 4 < |PhaseSetup(w, marshal, Initial, first, m, h, d).ids|
    ensures var x := PhaseSetup(w, marshal, Initial, first, m, h, d);
      var (h', d', code) := AfterResult(x, trace[i].below.turns, p / 4);
      && code == EXIT_SUCCESS && Settled(w, h'.state, d')
      && h'.state.stage == StageAfter(x.ids[p / 4]) && h'.state.plan == h.state.plan
  {
    var x := PhaseSetup(w, marshal, Initial, first, m, h, d);
    PhaseSetupIsOk(w, marshal, Initial, first, m, h, d);
    RunKeepsPlay(x, other, trace, steps, i);
    TurnsSettle(w, x, h, d, trace[i].below.turns, p / 4, trace[i].below.before);
  }

  lemma TurnsSettle(w: World, x: Setup, h: Handle, d: Disk, turns: seq<Turn>, k: nat, end: (Handle, Disk))
    requires LawfulCodec(w) && Settled(w, h.state, d) && InStep(h.state)
    requires x.run == CaseRun(w, StoreInterface(w), Initial) && x.handle == h && x.disk == d
    requires Ran(x, turns, end) && k < |turns|
    ensures var (h', d', code) := AfterResult(x, turns, k);
      && code == EXIT_SUCCESS && Settled(w, h'.state, d')
      && h'.state.stage == StageAfter(x.ids[k]) && h'.state.plan == h.state.plan
  {
    CasesPrefix(x.run, h, d, x.ids[..|turns|], turns, k + 1);
    assert x.ids[..|turns|][..k + 1] == x.ids[..k + 1];
    InterfaceIsSafe(w);
    CaseRunKeepsAgreement(w, StoreInterface(w), Initial);
    assert Agreement(w)(h.state, d);
    CasesSettle(x.run, Agreement(w), h, d, x.ids[..k + 1], turns[..k + 1]);
  }
}
