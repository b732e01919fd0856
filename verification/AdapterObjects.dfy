/** The adapter process over a live phase machine object. */
module AdapterObjects {
  import opened Prelude
  import opened OutputStream
  import opened Phase
  import opened PhaseObject
  import opened AdapterRun
  import opened AdapterTranscript

  method FailCallerWith(machine: PhaseMachine, closes: bool, code: string) returns (exit: int)
    modifies machine, machine.encoder, machine.encoder.writer
    ensures (machine.View(), exit) == FailCaller(Methods(machine.marshal), old(machine.View()), closes, code)
  {
    var failureCode := code;
    if !closes { failureCode := "internal_failure"; }
    var error := machine.Fail(failureCode);
    if error.Some? { return EXIT_IO; }
    if !closes { return EXIT_SOFTWARE; }
    exit := EXIT_SUCCESS;
  }

  method PlayOne(machine: PhaseMachine, caseId: string, answer: CallerAnswer, closes: bool) returns (exit: Option<int>)
    modifies machine, machine.encoder, machine.encoder.writer
    ensures (machine.View(), exit) == PlayCase(Methods(machine.marshal), old(machine.View()), caseId, answer, closes)
  {
    var error := machine.StartScenario(caseId);
    if error.Some? { return Some(EXIT_IO); }
    match answer {
      case CallerError(code) =>
        var code' := FailCallerWith(machine, closes, PublicCode(code));
        return Some(code');
      case Answer(data, valid) =>
        if data.caseId != caseId || data.disposition != "completed" || !valid {
          var code' := FailCallerWith(machine, closes, "scenario_execution_failed");
          return Some(code');
        }
        error := machine.Result(data);
        return if error.Some? then Some(EXIT_IO) else None;
    }
  }

  /** The supervising loop. */
  method PlayAll(machine: PhaseMachine, cases: seq<string>, caller: Caller) returns (exit: Option<int>)
    modifies machine, machine.encoder, machine.encoder.writer
    ensures (machine.View(), exit) == PlayFrom(Methods(machine.marshal), old(machine.View()), cases, 0, caller)
  {
    ghost var (api, start) := (Methods(machine.marshal), machine.View());
    var i: nat := 0;
    while i < |cases|
      invariant i <= |cases|
      invariant PlayFrom(api, machine.View(), cases, i, caller) == PlayFrom(api, start, cases, 0, caller)
    {
      exit := PlayOne(machine, cases[i], AnswerAt(caller, i), caller.closes);
      if exit.Some? { return; }
      i := i + 1;
    }
    exit := None;
  }

  /** The loop that reports the cases nobody ran. */
  method SkipAll(machine: PhaseMachine, cases: seq<string>) returns (exit: Option<int>)
    modifies machine, machine.encoder, machine.encoder.writer
    ensures (machine.View(), exit) == SkipFrom(Methods(machine.marshal), old(machine.View()), cases, 0)
  {
    ghost var (api, start) := (Methods(machine.marshal), machine.View());
    var i: nat := 0;
    while i < |cases|
      invariant i <= |cases|
      invariant SkipFrom(api, machine.View(), cases, i) == SkipFrom(api, start, cases, 0)
    {
      var error := machine.Result(NotExecuted(cases[i]));
      if error.Some? { return Some(EXIT_IO); }
      i := i + 1;
    }
    exit := None;
  }

  method RunAllCases(machine: PhaseMachine, cases: seq<string>, caller: Option<Caller>) returns (code: int)
    modifies machine, machine.encoder, machine.encoder.writer
    ensures (machine.View(), code) == RunCases(Methods(machine.marshal), old(machine.View()), cases, caller)
  {
    var exit: Option<int>;
    if caller.Some? {
      exit := SuperviseAll(machine, cases, caller.value);
    } else {
      exit := SkipAll(machine, cases);
    }
    if exit.Some? { return exit.value; }
    code := FinishRun(machine);
  }

  /** The cases, and then the caller's own end. */
  method SuperviseAll(machine: PhaseMachine, cases: seq<string>, caller: Caller) returns (exit: Option<int>)
    modifies machine, machine.encoder, machine.encoder.writer
    ensures (machine.View(), exit) == Supervise(Methods(machine.marshal), old(machine.View()), cases, caller)
  {
    exit := PlayAll(machine, cases, caller);
    if exit.None? && !caller.closes {
      var error := machine.Fail("internal_failure");
      exit := Some(if error.Some? then EXIT_IO else EXIT_SOFTWARE);
    }
  }

  method FinishRun(machine: PhaseMachine) returns (code: int)
    modifies machine, machine.encoder, machine.encoder.writer
    ensures (machine.View(), code) == Conclude(Methods(machine.marshal), old(machine.View()))
  {
    var error := machine.Finish();
    code := if error.Some? then EXIT_IO else EXIT_SUCCESS;
  }

  method RunAccepted(machine: PhaseMachine, phase: string, x: Surroundings) returns (code: int)
    modifies machine, machine.encoder, machine.encoder.writer
    ensures (machine.View(), code) == AfterAcceptance(Methods(machine.marshal), old(machine.View()), phase, x)
  {
    if !x.credentialsOk {
      var error := machine.Fail("credential_channel_failed");
      return if error.Some? then EXIT_IO else EXIT_SUCCESS;
    }
    if CaseIDs(phase).None? { return EXIT_SOFTWARE; }
    code := RunAllCases(machine, CaseIDs(phase).value, x.caller);
  }

  method Run(machine: PhaseMachine, x: Surroundings) returns (code: int)
    modifies machine, machine.encoder, machine.encoder.writer
    ensures (machine.View(), code) == RunWithCaller(Methods(machine.marshal), old(machine.View()), x)
    ensures WritesTranscript(machine.marshal, old(machine.View()), x, machine.View(), code)
  {
    RunWritesTranscript(machine.marshal, machine.View(), x);
    if x.arguments != 0 { return EXIT_USAGE; }
    var error := machine.Start();
    if error.Some? { return EXIT_IO; }
    error := machine.ConsumeInvocation(x.decoded, x.matches);
    if error.Some? { return if machine.state == TerminalObserved then EXIT_SUCCESS else EXIT_IO; }
    if machine.invocation.None? || machine.state == Failed { return EXIT_SOFTWARE; }
    var phase := machine.invocation.value.phase;
    error := machine.AcceptInvocation();
    if error.Some? { return EXIT_IO; }
    code := RunAccepted(machine, phase, x);
  }
}
