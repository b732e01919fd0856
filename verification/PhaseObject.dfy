/** The phase machine as the object it is, over an encoder that writes to a stream. */
module PhaseObject {
  import opened Prelude
  import opened OutputStream
  import opened Phase

  class PhaseMachine {
    const marshal: Marshal
    const encoder: OutputEncoder
    var phase: string
    var cases: seq<string>
    var state: State
    var invocation: Option<Invocation>
    var nextCase: nat
    var nextSequence: int
    var anyNotExecuted: bool
    ghost var log: seq<Record>
    ghost var done: seq<bool>

    ghost function View(): Machine
      reads this, encoder, encoder.writer
    {
      Machine(encoder.View(), phase, cases, state, invocation, nextCase, nextSequence, anyNotExecuted, log, done)
    }

    /** expected is None for the constructor called without a phase. */
    constructor (marshaller: Marshal, target: OutputEncoder, expected: Option<string>)
      requires expected.Some? ==> CaseIDs(expected.value).Some?
      ensures marshal == marshaller && encoder == target
      ensures encoder.View() == NewEncoder(encoder.View().stream) ==>
        Some(View()) == NewMachine(encoder.View().stream, true, if expected.Some? then [expected.value] else [])
    {
      marshal, encoder := marshaller, target;
      phase := if expected.Some? then expected.value else "";
      cases := if expected.Some? then CaseIDs(expected.value).value else [];
      state, invocation, nextCase, nextSequence, anyNotExecuted := AwaitingStartup, None, 0, 1, false;
      log, done := [], [];
    }

    method InvalidTransition() returns (error: Option<CallError>)
      modifies this`state
      ensures View() == FailedTransition(old(View())) && error == Some(CallError.InvalidTransition)
    {
      if state != Complete && state != Failed { state := Failed; }
      error := Some(CallError.InvalidTransition);
    }

    /** encoder.Write, and the failed state when it fails. */
    method Emit(record: Record) returns (error: Option<StreamError>)
      modifies this`state, this`log, encoder, encoder.writer
      ensures (View(), error) == Phase.Emit(marshal, old(View()), record)
      ensures log == if error.None? then old(log) + [record] else old(log)
    {
      error := encoder.Write(marshal(record));
      if error.Some? { state := Failed; } else { log := log + [record]; }
    }

    method WriteRecord(record: Record) returns (error: Option<CallError>)
      modifies this`state, this`log, this`nextSequence, encoder, encoder.writer
      ensures (View(), error) == WriteNumbered(marshal, old(View()), record)
      ensures log == if error.None? then old(log) + [record] else old(log)
    {
      if nextSequence < 1 || nextSequence > MAX_SEQUENCE {
        state := Failed;
        return Some(Sequence);
      }
      var streamError := Emit(record);
      if streamError.Some? { return Some(Output(streamError.value)); }
      nextSequence := nextSequence + 1;
      error := None;
    }

    method Start() returns (error: Option<CallError>)
      modifies this, encoder, encoder.writer
      ensures (View(), error) == Apply(marshal, old(View()), Call.Start)
      ensures log == if error.None? then old(log) + [Record.Startup] else old(log)
    {
      if state != AwaitingStartup {
        error := InvalidTransition();
        return;
      }
      var streamError := Emit(Startup);
      if streamError.Some? { return Some(Output(streamError.value)); }
      state := ReadyForInvocation;
      error := None;
    }

    method WriteInvalidInvocation() returns (error: Option<CallError>)
      requires state == AwaitingAcceptance
      modifies this, encoder, encoder.writer
      ensures (View(), error) == WriteInvalid(marshal, old(View()))
      ensures log == if error == Some(BadInvocation) then old(log) + [ProtocolError(1, None, "invalid_invocation")] else old(log)
    {
      if invocation.Some? || nextSequence != 1 {
        error := InvalidTransition();
        return;
      }
      var streamError := Emit(ProtocolError(1, None, "invalid_invocation"));
      if streamError.Some? { return Some(Output(streamError.value)); }
      nextSequence := 2;
      state := TerminalObserved;
      error := Some(BadInvocation);
    }

    method ConsumeInvocation(decoded: Option<Invocation>, matches: bool) returns (error: Option<CallError>)
      modifies this, encoder, encoder.writer
      ensures (View(), error) == DoConsume(marshal, old(View()), decoded, matches)
      ensures log == if error == Some(BadInvocation) then old(log) + [ProtocolError(1, None, "invalid_invocation")] else old(log)
      ensures error.None? <==>
        && old(state) == ReadyForInvocation && decoded.Some? && matches && CaseIDs(decoded.value.phase).Some?
        && (old(phase) == "" || old(phase) == decoded.value.phase)
      ensures error.None? ==> invocation == decoded && phase == decoded.value.phase
    {
      if state != ReadyForInvocation {
        error := InvalidTransition();
        return;
      }
      state := AwaitingAcceptance;
      if decoded.None? || (phase != "" && decoded.value.phase != phase) || CaseIDs(decoded.value.phase).None? || !matches {
        error := WriteInvalidInvocation();
        return;
      }
      if phase == "" {
        phase, cases := decoded.value.phase, CaseIDs(decoded.value.phase).value;
      }
      invocation := decoded;
      error := None;
    }

    method AcceptInvocation() returns (error: Option<CallError>)
      modifies this, encoder, encoder.writer
      ensures (View(), error) == DoAccept(marshal, old(View()))
      ensures error.None? ==> old(invocation).Some? && log == old(log) + [Accepted(1, old(invocation).value)]
      ensures error.Some? ==> log == old(log)
    {
      if state != AwaitingAcceptance || invocation.None? || nextSequence != 1 {
        error := InvalidTransition();
        return;
      }
      error := WriteRecord(Accepted(nextSequence, invocation.value));
      if error.None? { state := AwaitingNextScenario; }
    }

    method StartScenario(caseId: string) returns (error: Option<CallError>)
      modifies this, encoder, encoder.writer
      ensures (View(), error) == DoStartScenario(marshal, old(View()), caseId)
      ensures error.None? ==> old(invocation).Some? && log == old(log) + [Started(old(nextSequence), old(invocation).value, caseId)]
      ensures error.Some? ==> log == old(log)
    {
      if state != AwaitingNextScenario || invocation.None? {
        error := InvalidTransition();
        return;
      }
      if nextCase >= |cases| || caseId != cases[nextCase] {
        state := Failed;
        return Some(ScenarioOrder);
      }
      error := WriteRecord(Started(nextSequence, invocation.value, caseId));
      if error.None? { state := AwaitingStartedResult; }
    }

    method Result(data: ResultData) returns (error: Option<CallError>)
      modifies this, encoder, encoder.writer
      ensures (View(), error) == DoResult(marshal, old(View()), data)
      ensures error.None? ==> old(invocation).Some? && log == old(log) + [CaseResult(old(nextSequence), old(invocation).value, data)]
      ensures error.Some? ==> log == old(log)
    {
      if (state != AwaitingNextScenario && state != AwaitingStartedResult) || invocation.None? {
        error := InvalidTransition();
        return;
      }
      if nextCase >= |cases| || data.caseId != cases[nextCase] {
        state := Failed;
        return Some(ScenarioOrder);
      }
      if (state == AwaitingStartedResult && data.disposition != "completed") ||
         (state == AwaitingNextScenario && data.disposition != "not_executed") {
        state := Failed;
        return Some(CallError.InvalidTransition);
      }
      error := WriteRecord(CaseResult(nextSequence, invocation.value, data));
      if error.None? { Settle(data); }
    }

    /** Counts a case whose result is on the stream. */
    method Settle(data: ResultData)
      modifies this
      ensures View() == NextCase(old(View()), data)
    {
      if data.disposition == "not_executed" { anyNotExecuted := true; }
      nextCase := nextCase + 1;
      done := done + [data.disposition == "completed"];
      state := if nextCase == |cases| then AwaitingTerminal else AwaitingNextScenario;
    }

    method Finish() returns (error: Option<CallError>)
      modifies this, encoder, encoder.writer
      ensures (View(), error) == DoFinish(marshal, old(View()))
      ensures error.None? ==> old(invocation).Some?
      ensures error.None? ==>
        log == old(log) + [Finished(old(nextSequence), old(invocation).value, if old(anyNotExecuted) then "stopped" else "completed")]
      ensures error.Some? ==> log == old(log)
    {
      if state != AwaitingTerminal || invocation.None? || nextCase != |cases| {
        error := InvalidTransition();
        return;
      }
      var completion := "completed";
      if anyNotExecuted { completion := "stopped"; }
      error := WriteRecord(Finished(nextSequence, invocation.value, completion));
      if error.None? { state := TerminalObserved; }
    }

    method Fail(code: string) returns (error: Option<CallError>)
      modifies this, encoder, encoder.writer
      ensures (View(), error) == DoFail(marshal, old(View()), code)
      ensures error.None? ==> FailureCode(code) && log == old(log) + [ProtocolError(old(nextSequence), old(invocation), code)]
      ensures error.Some? ==> log == old(log)
    {
      if (state != AwaitingNextScenario && state != AwaitingStartedResult && state != AwaitingTerminal) ||
         invocation.None? || !FailureCode(code) {
        error := InvalidTransition();
        return;
      }
      error := WriteRecord(ProtocolError(nextSequence, invocation, code));
      if error.None? { state := TerminalObserved; }
    }

    method ObserveEOF() returns (error: Option<CallError>)
      modifies this`state
      ensures (View(), error) == Apply(marshal, old(View()), Call.ObserveEOF)
    {
      if state != TerminalObserved {
        error := InvalidTransition();
        return;
      }
      state := TerminalEOFObserved;
      error := None;
    }

    method ObserveCleanProcessExit(clean: bool) returns (error: Option<CallError>)
      modifies this`state
      ensures (View(), error) == Apply(marshal, old(View()), ObserveExit(clean))
    {
      if state != TerminalEOFObserved || !clean {
        error := InvalidTransition();
        return;
      }
      state := Complete;
      error := None;
    }

    method ObserveByteAfterTerminal() returns (error: Option<CallError>)
      modifies this`state
      ensures (View(), error) == Apply(marshal, old(View()), Call.ObserveByteAfterTerminal)
    {
      if state == TerminalObserved || state == TerminalEOFObserved {
        state := Failed;
        return Some(CallError.InvalidTransition);
      }
      error := InvalidTransition();
    }
  }
}
