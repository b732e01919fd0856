/** The adapter process: its whole drive of the phase machine, and what its exit code says. */
module AdapterRun {
  import opened Prelude
  import opened OutputStream
  import opened Phase
  import opened PhaseTranscript

  const EXIT_SUCCESS: int := 0
  const EXIT_USAGE: int := 64
  const EXIT_SOFTWARE: int := 70
  const EXIT_IO: int := 74

  /** What Start or Run of the caller gives: data, with the verdict of its validation, or an error's public code. */
  datatype CallerAnswer = Answer(data: ResultData, valid: bool) | CallerError(code: Option<string>)

  datatype Caller = Caller(answers: seq<CallerAnswer>, closes: bool)

  datatype Surroundings = Surroundings(
    arguments: nat, decoded: Option<Invocation>, matches: bool, credentialsOk: bool, caller: Option<Caller>)

  /** callerFailureCode. */
  function PublicCode(code: Option<string>): (r: string)
    ensures FailureCode(r)
  {
    if code == Some("caller_start_failed") then "caller_start_failed"
    else if code == Some("internal_failure") then "internal_failure"
    else "scenario_execution_failed"
  }

  /** The methods of a phase machine. */
  type MachineCalls = (Machine, Call) -> (Machine, Option<CallError>)

  function Methods(marshal: Marshal): MachineCalls { (m, call) => Apply(marshal, m, call) }

  function FailCaller(api: MachineCalls, m: Machine, closes: bool, code: string): (Machine, int) {
    var (t, error) := api(m, Fail(if closes then code else "internal_failure"));
    (t, if error.Some? then EXIT_IO else if !closes then EXIT_SOFTWARE else EXIT_SUCCESS)
  }

  /** One supervised case; a code ends the process. */
  function PlayCase(api: MachineCalls, m: Machine, caseId: string, answer: CallerAnswer, closes: bool): (Machine, Option<int>) {
    var (t, error) := api(m, StartScenario(caseId));
    if error.Some? then (t, Some(EXIT_IO))
    else
      match answer
      case CallerError(code) =>
        var (u, exit) := FailCaller(api, t, closes, PublicCode(code));
        (u, Some(exit))
      case Answer(data, valid) =>
        if data.caseId != caseId || data.disposition != "completed" || !valid then
          var (u, exit) := FailCaller(api, t, closes, "scenario_execution_failed");
          (u, Some(exit))
        else
          var (u, written) := api(t, Call.Result(data));
          (u, if written.Some? then Some(EXIT_IO) else None)
  }

  function AnswerAt(caller: Caller, i: nat): CallerAnswer {
    if i < |caller.answers| then caller.answers[i] else CallerError(None)
  }

  /** The supervised cases from the i-th on. */
  function PlayFrom(api: MachineCalls, m: Machine, cases: seq<string>, i: nat, caller: Caller): (Machine, Option<int>)
    decreases |cases| - i
  {
    if i >= |cases| then (m, None)
    else
      var (t, exit) := PlayCase(api, m, cases[i], AnswerAt(caller, i), caller.closes);
      if exit.Some? then (t, exit) else PlayFrom(api, t, cases, i + 1, caller)
  }

  function NotExecuted(caseId: string): ResultData { ResultData(caseId, "not_executed", 0) }

  function SkipFrom(api: MachineCalls, m: Machine, cases: seq<string>, i: nat): (Machine, Option<int>)
    decreases |cases| - i
  {
    if i >= |cases| then (m, None)
    else
      var (t, error) := api(m, Call.Result(NotExecuted(cases[i])));
      if error.Some? then (t, Some(EXIT_IO)) else SkipFrom(api, t, cases, i + 1)
  }

  function Supervise(api: MachineCalls, m: Machine, cases: seq<string>, caller: Caller): (Machine, Option<int>) {
    var (t, exit) := PlayFrom(api, m, cases, 0, caller);
    if exit.Some? then (t, exit)
    else if caller.closes then (t, None)
    else
      var (u, error) := api(t, Fail("internal_failure"));
      (u, Some(if error.Some? then EXIT_IO else EXIT_SOFTWARE))
  }

  function Conclude(api: MachineCalls, m: Machine): (Machine, int) {
    var (t, error) := api(m, Finish);
    (t, if error.Some? then EXIT_IO else EXIT_SUCCESS)
  }

  /** From an accepted invocation and its credentials on: every case is supervised, or none is. */
  function RunCases(api: MachineCalls, m: Machine, cases: seq<string>, caller: Option<Caller>): (Machine, int) {
    var (t, exit) := if caller.Some? then Supervise(api, m, cases, caller.value) else SkipFrom(api, m, cases, 0);
    if exit.Some? then (t, exit.value) else Conclude(api, t)
  }

  function AfterAcceptance(api: MachineCalls, m: Machine, phase: string, x: Surroundings): (Machine, int) {
    if !x.credentialsOk then
      var (t, error) := api(m, Fail("credential_channel_failed"));
      (t, if error.Some? then EXIT_IO else EXIT_SUCCESS)
    else if CaseIDs(phase).None? then (m, EXIT_SOFTWARE)
    else RunCases(api, m, CaseIDs(phase).value, x.caller)
  }

  /** RunWithCaller on a machine made without an expected phase. */
  function RunWithCaller(api: MachineCalls, m: Machine, x: Surroundings): (Machine, int) {
    if x.arguments != 0 then (m, EXIT_USAGE)
    else
      var (m1, started) := api(m, Call.Start);
      if started.Some? then (m1, EXIT_IO)
      else
        var (m2, consumed) := api(m1, ConsumeInvocation(x.decoded, x.matches));
        if consumed.Some? then (m2, if m2.state == TerminalObserved then EXIT_SUCCESS else EXIT_IO)
        else if m2.invocation.None? || m2.state == Failed then (m2, EXIT_SOFTWARE)
        else
          var (m3, accepted) := api(m2, AcceptInvocation);
          if accepted.Some? then (m3, EXIT_IO) else AfterAcceptance(api, m3, m2.invocation.value.phase, x)
  }

  // ----- every call is a call of the machine -----

  /** A condition every call keeps, and calls that end the transcript when they succeed. */
  ghost predicate Keeps(api: MachineCalls, good: Machine -> bool) {
    && (forall m: Machine, call: Call :: good(m) ==> good(api(m, call).0))
    && (forall m: Machine, code: string :: api(m, Fail(code)).1.None? ==> api(m, Fail(code)).0.state == TerminalObserved)
    && (forall m: Machine :: api(m, Finish).1.None? ==> api(m, Finish).0.state == TerminalObserved)
  }

  /** The condition holds, and success stands only behind a terminal record. */
  ghost predicate Sound(good: Machine -> bool, m: Machine, code: int) {
    good(m) && (code == EXIT_SUCCESS ==> m.state == TerminalObserved)
  }

  ghost predicate SoundSoFar(good: Machine -> bool, m: Machine, exit: Option<int>) {
    if exit.Some? then Sound(good, m, exit.value) else good(m)
  }

  lemma PlayCaseIsSound(api: MachineCalls, good: Machine -> bool, m: Machine, caseId: string, answer: CallerAnswer, closes: bool)
    requires Keeps(api, good) && good(m)
    ensures var (t, exit) := PlayCase(api, m, caseId, answer, closes); SoundSoFar(good, t, exit)
  {
  }

  lemma {:induction false} PlayIsSound(api: MachineCalls, good: Machine -> bool, m: Machine, cases: seq<string>, i: nat, caller: Caller)
    requires Keeps(api, good) && good(m)
    ensures var (t, exit) := PlayFrom(api, m, cases, i, caller); SoundSoFar(good, t, exit)
    decreases |cases| - i
  {
    if i < |cases| {
      PlayCaseIsSound(api, good, m, cases[i], AnswerAt(caller, i), caller.closes);
      var (t, exit) := PlayCase(api, m, cases[i], AnswerAt(caller, i), caller.closes);
      if exit.None? { PlayIsSound(api, good, t, cases, i + 1, caller); }
    }
  }

  lemma {:induction false} SkipIsSound(api: MachineCalls, good: Machine -> bool, m: Machine, cases: seq<string>, i: nat)
    requires Keeps(api, good) && good(m)
    ensures var (t, exit) := SkipFrom(api, m, cases, i); SoundSoFar(good, t, exit)
    decreases |cases| - i
  {
    if i < |cases| {
      var (t, error) := api(m, Call.Result(NotExecuted(cases[i])));
      if error.None? { SkipIsSound(api, good, t, cases, i + 1); }
    }
  }

  lemma RunCasesIsSound(api: MachineCalls, good: Machine -> bool, m: Machine, cases: seq<string>, caller: Option<Caller>)
    requires Keeps(api, good) && good(m)
    ensures var (t, exit) := RunCases(api, m, cases, caller); Sound(good, t, exit)
  {
    var (t, exit) := if caller.Some? then Supervise(api, m, cases, caller.value) else SkipFrom(api, m, cases, 0);
    if caller.Some? { SuperviseIsSound(api, good, m, cases, caller.value); } else { SkipIsSound(api, good, m, cases, 0); }
    if exit.None? { ConcludeIsSound(api, good, t); }
  }

  lemma SuperviseIsSound(api: MachineCalls, good: Machine -> bool, m: Machine, cases: seq<string>, caller: Caller)
    requires Keeps(api, good) && good(m)
    ensures var (t, exit) := Supervise(api, m, cases, caller); SoundSoFar(good, t, exit)
  {
    PlayIsSound(api, good, m, cases, 0, caller);
    var (t, exit) := PlayFrom(api, m, cases, 0, caller);
    assert exit.None? ==> good(api(t, Fail("internal_failure")).0);
  }

  lemma ConcludeIsSound(api: MachineCalls, good: Machine -> bool, m: Machine)
    requires Keeps(api, good) && good(m)
    ensures var (t, code) := Conclude(api, m); Sound(good, t, code)
  {
    assert good(api(m, Finish).0);
  }

  lemma RunIsSound(api: MachineCalls, good: Machine -> bool, m: Machine, x: Surroundings)
    requires Keeps(api, good) && good(m)
    ensures var (t, exit) := RunWithCaller(api, m, x); Sound(good, t, exit)
  {
    var m1 := api(m, Call.Start).0;
    var m2 := api(m1, ConsumeInvocation(x.decoded, x.matches)).0;
    var m3 := api(m2, AcceptInvocation).0;
    if m2.invocation.Some? && CaseIDs(m2.invocation.value.phase).Some? {
      RunCasesIsSound(api, good, m3, CaseIDs(m2.invocation.value.phase).value, x.caller);
    }
  }

  ghost function Transcript(): Machine -> bool { m => Inv(m) }

  lemma MethodsKeepTranscript(marshal: Marshal)
    ensures Keeps(Methods(marshal), Transcript())
  {
    var (api, good) := (Methods(marshal), Transcript());
    forall m: Machine, call: Call | good(m) ensures good(api(m, call).0) { ApplyKeepsInv(marshal, m, call); }
    forall m: Machine, code: string | api(m, Fail(code)).1.None? ensures api(m, Fail(code)).0.state == TerminalObserved {
      SuccessEnds(marshal, m, Fail(code));
    }
    forall m: Machine | api(m, Finish).1.None? ensures api(m, Finish).0.state == TerminalObserved {
      SuccessEnds(marshal, m, Finish);
    }
  }

  lemma SuccessEnds(marshal: Marshal, m: Machine, call: Call)
    requires call.Fail? || call.Finish?
    ensures Apply(marshal, m, call).1.None? ==> Apply(marshal, m, call).0.state == TerminalObserved
  {
  }

  // ----- exit codes -----

  lemma {:induction false} SpineHasNoTerminal(cases: seq<string>, done: seq<bool>, i: nat)
    requires |done| <= |cases| && i < |Spine(cases, done)|
    ensures !Terminal(Spine(cases, done)[i])
    decreases |done|
  {
    if done != [] {
      var n := |done| - 1;
      if i < |Spine(cases, done[..n])| { SpineHasNoTerminal(cases, done[..n], i); }
    }
  }

  /** Only the last record of a transcript can be terminal. */
  lemma OnlyLastIsTerminal(shapes: seq<Shape>, cases: seq<string>, i: nat)
    requires Grammar(shapes, cases) && i + 1 < |shapes|
    ensures !Terminal(shapes[i])
  {
    if |shapes| > 2 {
      var done, tail :| Accounts(shapes, cases, done, tail);
      var spine := Spine(cases, done);
      if i < |spine| { SpineHasNoTerminal(cases, done, i); }
      assert i >= |spine| ==> shapes[i] == tail[i - |spine|];
    }
  }

  /** Exit code 0 with no arguments means exactly one terminal record was written, and it is the last. */
  lemma ExitZeroMeansOneTerminalRecord(marshal: Marshal, stream: Option<Stream>, x: Surroundings)
    requires x.arguments == 0
    ensures var (m, code) := RunWithCaller(Methods(marshal), NewMachine(stream, true, []).value, x);
      code == EXIT_SUCCESS ==>
        m.log != [] && forall i :: 0 <= i < |m.log| ==> (Terminal(ShapeOf(m.log[i])) <==> i == |m.log| - 1)
  {
    NewMachineIsInv(stream, true, []);
    var start := NewMachine(stream, true, []).value;
    MethodsKeepTranscript(marshal);
    assert Transcript()(start);
    RunIsSound(Methods(marshal), Transcript(), start, x);
    var (m, code) := RunWithCaller(Methods(marshal), start, x);
    if code == EXIT_SUCCESS { TerminalOnlyAtEnd(m); }
  }

  lemma TerminalOnlyAtEnd(m: Machine)
    requires Inv(m) && m.state == TerminalObserved
    ensures m.log != [] && forall i :: 0 <= i < |m.log| ==> (Terminal(ShapeOf(m.log[i])) <==> i == |m.log| - 1)
  {
    var shapes := Shapes(m.log);
    forall i | 0 <= i < |m.log| ensures Terminal(ShapeOf(m.log[i])) <==> i == |m.log| - 1 {
      assert shapes[i] == ShapeOf(m.log[i]);
      if i + 1 < |m.log| { OnlyLastIsTerminal(shapes, m.cases, i); }
    }
  }

  // ----- what "completed" needs -----

  /** Marks stay, a skipped case sets one, and a marked run can only finish as "stopped". */
  ghost predicate Marks(api: MachineCalls) {
    && (forall m: Machine, call: Call :: m.anyNotExecuted ==> api(m, call).0.anyNotExecuted)
    && (forall m: Machine, id: string :: api(m, Call.Result(NotExecuted(id))).1.None? ==> api(m, Call.Result(NotExecuted(id))).0.anyNotExecuted)
    && (forall m: Machine :: m.anyNotExecuted && api(m, Finish).1.None? ==> EndsStopped(api(m, Finish).0))
  }

  predicate EndsStopped(m: Machine) { m.log != [] && ShapeOf(m.log[|m.log| - 1]) == SFinished(false) }

  lemma MethodsMark(marshal: Marshal)
    ensures Marks(Methods(marshal))
  {
    var api := Methods(marshal);
    forall m: Machine, call: Call | m.anyNotExecuted ensures api(m, call).0.anyNotExecuted { MarksStay(marshal, m, call); }
    forall m: Machine, id: string | api(m, Call.Result(NotExecuted(id))).1.None?
      ensures api(m, Call.Result(NotExecuted(id))).0.anyNotExecuted
    {
      SkippedIsMarked(marshal, m, id);
    }
    forall m: Machine | m.anyNotExecuted && api(m, Finish).1.None? ensures EndsStopped(api(m, Finish).0) {
      MarkedFinishes(marshal, m);
    }
  }

  lemma MarksStay(marshal: Marshal, m: Machine, call: Call)
    requires m.anyNotExecuted
    ensures Apply(marshal, m, call).0.anyNotExecuted
  {
  }

  lemma SkippedIsMarked(marshal: Marshal, m: Machine, id: string)
    ensures DoResult(marshal, m, NotExecuted(id)).1.None? ==> DoResult(marshal, m, NotExecuted(id)).0.anyNotExecuted
  {
  }

  lemma MarkedFinishes(marshal: Marshal, m: Machine)
    requires m.anyNotExecuted && DoFinish(marshal, m).1.None?
    ensures EndsStopped(DoFinish(marshal, m).0)
  {
  }

  lemma {:induction false} SkippingMarks(api: MachineCalls, m: Machine, cases: seq<string>, i: nat)
    requires Marks(api)
    ensures var (t, exit) := SkipFrom(api, m, cases, i);
      exit.None? && (i < |cases| || m.anyNotExecuted) ==> t.anyNotExecuted
    decreases |cases| - i
  {
    if i < |cases| {
      var (t, error) := api(m, Call.Result(NotExecuted(cases[i])));
      if error.None? { SkippingMarks(api, t, cases, i + 1); }
    }
  }

  /** Without a caller no case is claimed to have run: a run that gets to the end says "stopped". */
  lemma NoCallerMeansStopped(marshal: Marshal, m: Machine, cases: seq<string>)
    requires cases != []
    ensures var (t, code) := RunCases(Methods(marshal), m, cases, None);
      code == EXIT_SUCCESS ==> EndsStopped(t)
  {
    MethodsMark(marshal);
    SkippedRunStops(Methods(marshal), m, cases);
  }

  lemma SkippedRunStops(api: MachineCalls, m: Machine, cases: seq<string>)
    requires Marks(api) && cases != []
    ensures var (t, code) := RunCases(api, m, cases, None);
      code == EXIT_SUCCESS ==> EndsStopped(t)
  {
    SkippingMarks(api, m, cases, 0);
    SkipNeverSucceeds(api, m, cases, 0);
  }

  lemma {:induction false} SkipNeverSucceeds(api: MachineCalls, m: Machine, cases: seq<string>, i: nat)
    ensures SkipFrom(api, m, cases, i).1 != Some(EXIT_SUCCESS)
    decreases |cases| - i
  {
    if i < |cases| {
      var (t, error) := api(m, Call.Result(NotExecuted(cases[i])));
      if error.None? { SkipNeverSucceeds(api, t, cases, i + 1); }
    }
  }

  lemma GoodAnswer(api: MachineCalls, m: Machine, caseId: string, answer: CallerAnswer, closes: bool)
    requires PlayCase(api, m, caseId, answer, closes).1.None?
    ensures answer.Answer? && answer.valid && answer.data.caseId == caseId && answer.data.disposition == "completed"
  {
  }

  predicate Answered(caller: Caller, caseId: string, k: nat) {
    && k < |caller.answers| && caller.answers[k].Answer? && caller.answers[k].valid
    && caller.answers[k].data.caseId == caseId && caller.answers[k].data.disposition == "completed"
  }

  /** A run that concludes with a caller took every one of its answers, each completed and for its own case. */
  lemma {:induction false} PlayedMeansAnswered(api: MachineCalls, m: Machine, cases: seq<string>, i: nat, caller: Caller)
    requires PlayFrom(api, m, cases, i, caller).1.None?
    ensures forall k :: i <= k < |cases| ==> Answered(caller, cases[k], k)
    decreases |cases| - i
  {
    if i < |cases| {
      var (t, exit) := PlayCase(api, m, cases[i], AnswerAt(caller, i), caller.closes);
      GoodAnswer(api, m, cases[i], AnswerAt(caller, i), caller.closes);
      assert Answered(caller, cases[i], i);
      PlayedMeansAnswered(api, t, cases, i + 1, caller);
    }
  }

  predicate EndsInError(m: Machine) { m.log != [] && ShapeOf(m.log[|m.log| - 1]).SError? }

  predicate EndsFinished(m: Machine) { m.log != [] && ShapeOf(m.log[|m.log| - 1]).SFinished? }

  /** A failure that is written is the last record. */
  ghost predicate FailsVisibly(api: MachineCalls) {
    forall m: Machine, code: string :: m.invocation.Some? && api(m, Fail(code)).1.None? ==> EndsInError(api(m, Fail(code)).0)
  }

  /** Calls leave the invocation that was bound. */
  ghost predicate Binds(api: MachineCalls) {
    forall m: Machine, call: Call :: !call.ConsumeInvocation? ==> api(m, call).0.invocation == m.invocation
  }

  lemma MethodsFailVisibly(marshal: Marshal)
    ensures FailsVisibly(Methods(marshal)) && Binds(Methods(marshal))
  {
    var api := Methods(marshal);
    forall m: Machine, code: string | m.invocation.Some? && api(m, Fail(code)).1.None? ensures EndsInError(api(m, Fail(code)).0) {
      FailEndsInError(marshal, m, code);
    }
    forall m: Machine, call: Call | !call.ConsumeInvocation? ensures api(m, call).0.invocation == m.invocation {
      OnlyConsumeBinds(marshal, m, call);
    }
  }

  lemma FailEndsInError(marshal: Marshal, m: Machine, code: string)
    requires m.invocation.Some? && DoFail(marshal, m, code).1.None?
    ensures EndsInError(DoFail(marshal, m, code).0)
  {
  }

  lemma EarlyExitShows(api: MachineCalls, m: Machine, caseId: string, answer: CallerAnswer, closes: bool)
    requires FailsVisibly(api) && Binds(api) && m.invocation.Some?
    ensures var (t, exit) := PlayCase(api, m, caseId, answer, closes);
      t.invocation == m.invocation && (exit == Some(EXIT_SUCCESS) ==> EndsInError(t))
  {
    var (t, error) := api(m, StartScenario(caseId));
    assert t.invocation == m.invocation;
    match answer
    case CallerError(code) => FailCallerShows(api, t, closes, PublicCode(code));
    case Answer(data, valid) =>
      if data.caseId != caseId || data.disposition != "completed" || !valid {
        FailCallerShows(api, t, closes, "scenario_execution_failed");
      } else {
        assert api(t, Call.Result(data)).0.invocation == t.invocation;
      }
  }

  lemma FailCallerShows(api: MachineCalls, m: Machine, closes: bool, code: string)
    requires FailsVisibly(api) && Binds(api) && m.invocation.Some?
    ensures var (t, exit) := FailCaller(api, m, closes, code);
      t.invocation == m.invocation && (exit == EXIT_SUCCESS ==> EndsInError(t))
  {
  }

  lemma {:induction false} EarlyExitsShow(api: MachineCalls, m: Machine, cases: seq<string>, i: nat, caller: Caller)
    requires FailsVisibly(api) && Binds(api) && m.invocation.Some?
    ensures var (t, exit) := PlayFrom(api, m, cases, i, caller); exit == Some(EXIT_SUCCESS) ==> EndsInError(t)
    decreases |cases| - i
  {
    if i < |cases| {
      EarlyExitShows(api, m, cases[i], AnswerAt(caller, i), caller.closes);
      var (t, exit) := PlayCase(api, m, cases[i], AnswerAt(caller, i), caller.closes);
      if exit.None? { EarlyExitsShow(api, t, cases, i + 1, caller); }
    }
  }

  /**
   A supervised run whose last record is a finish, with exit code 0, had every case answered by the
   caller, completed, valid and for that very case, and closed its caller cleanly.
   */
  lemma FinishNeedsEveryAnswer(marshal: Marshal, m: Machine, cases: seq<string>, caller: Caller)
    requires m.invocation.Some?
    ensures var (t, code) := RunCases(Methods(marshal), m, cases, Some(caller));
      code == EXIT_SUCCESS && EndsFinished(t) ==>
        caller.closes && forall k :: 0 <= k < |cases| ==> Answered(caller, cases[k], k)
  {
    MethodsFailVisibly(marshal);
    FinishNeedsAnswers(Methods(marshal), m, cases, caller);
  }

  lemma FinishNeedsAnswers(api: MachineCalls, m: Machine, cases: seq<string>, caller: Caller)
    requires FailsVisibly(api) && Binds(api) && m.invocation.Some?
    ensures var (t, code) := RunCases(api, m, cases, Some(caller));
      code == EXIT_SUCCESS && EndsFinished(t) ==>
        caller.closes && forall k :: 0 <= k < |cases| ==> Answered(caller, cases[k], k)
  {
    EarlyExitsShow(api, m, cases, 0, caller);
    if PlayFrom(api, m, cases, 0, caller).1.None? { PlayedMeansAnswered(api, m, cases, 0, caller); }
  }
}
