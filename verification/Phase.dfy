/** The adapter's output protocol: PhaseMachine as a state machine over its method calls. */
module Phase {
  import opened Prelude
  import opened JcsUtf8
  import opened OutputStream

  const MAX_SEQUENCE: int := 32

  const INITIAL_CASES: seq<string> := [
    "initial.locked-capability-discovery",
    "initial.protected-lifecycle-create",
    "initial.replay-semantics",
    "initial.lifecycle-completion-and-status",
    "initial.exec-result-and-usage-evidence",
    "initial.stale-fencing-rejection",
    "initial.exec-cancellation",
    "initial.terminal-session-and-opaque-handoff",
    "initial.gateway-terminal-byte-round-trip",
    "initial.gateway-wrong-caller-and-cross-tenant-rejection",
    "initial.gateway-grant-expiry",
    "initial.gateway-revocation",
    "initial.artifact-staging-and-evidence",
    "initial.provider-cross-tenant-artifact-rejection",
    "initial.provider-mtls-caller-binding-rejection"]

  const RECONSTRUCTION_CASES: seq<string> := [
    "reconstruction.locked-capability-discovery",
    "reconstruction.durable-lifecycle",
    "reconstruction.retained-exec-usage-and-artifact-evidence",
    "reconstruction.durable-opaque-handoff",
    "reconstruction.same-shell-reconnect"]

  function CaseIDs(phase: string): (r: Option<seq<string>>)
    ensures r.Some? ==> 0 < |r.value| <= 15
  {
    if phase == "initial" then Some(INITIAL_CASES)
    else if phase == "reconstruction" then Some(RECONSTRUCTION_CASES)
    else None
  }

  /** payload stands for interactions, assertions, observations and the reason code. */
  datatype ResultData = ResultData(caseId: string, disposition: string, payload: nat)

  datatype Invocation = Invocation(id: string, phase: string)

  datatype Record =
    | Startup
    | Accepted(sequence: int, invocation: Invocation)
    | Started(sequence: int, invocation: Invocation, caseId: string)
    | CaseResult(sequence: int, invocation: Invocation, data: ResultData)
    | Finished(sequence: int, invocation: Invocation, completion: string)
    | ProtocolError(sequence: int, about: Option<Invocation>, code: string)
  {
    function Number(): int {
      match this
      case Startup => 0
      case _ => sequence
    }
  }

  /** validateOutputRecord and json.Marshal; nothing is assumed of it. */
  type Marshal = Record -> Option<Bytes>

  datatype State =
    | AwaitingStartup | ReadyForInvocation | AwaitingAcceptance | AwaitingNextScenario
    | AwaitingStartedResult | AwaitingTerminal | TerminalObserved | TerminalEOFObserved | Complete | Failed

  datatype CallError = InvalidTransition | ScenarioOrder | BadInvocation | Sequence | Output(error: StreamError)

  /** log and done are history: the records written in full, and how each finished case ended. */
  datatype Machine = Machine(
    encoder: Encoder, phase: string, cases: seq<string>, state: State, invocation: Option<Invocation>,
    nextCase: nat, nextSequence: int, anyNotExecuted: bool,
    log: seq<Record>, done: seq<bool>)

  /** decoded is None when the invocation does not decode; matches compares the credential channels. */
  datatype Call =
    | Start
    | ConsumeInvocation(decoded: Option<Invocation>, matches: bool)
    | AcceptInvocation
    | StartScenario(caseId: string)
    | Result(data: ResultData)
    | Finish
    | Fail(code: string)
    | ObserveEOF
    | ObserveExit(clean: bool)
    | ObserveByteAfterTerminal

  /** NewPhaseMachine: a valid startup identity and at most one expected phase, which must be known. */
  function NewMachine(stream: Option<Stream>, validStartup: bool, expected: seq<string>): Option<Machine> {
    if !validStartup || |expected| > 1 then None
    else if expected == [] then Some(Machine(NewEncoder(stream), "", [], AwaitingStartup, None, 0, 1, false, [], []))
    else if CaseIDs(expected[0]).None? then None
    else Some(Machine(NewEncoder(stream), expected[0], CaseIDs(expected[0]).value, AwaitingStartup, None, 0, 1, false, [], []))
  }

  function FailedTransition(m: Machine): Machine {
    if m.state == Complete || m.state == Failed then m else m.(state := Failed)
  }

  /** encoder.Write of one record; the log grows exactly when the record is written in full. */
  function Emit(marshal: Marshal, m: Machine, record: Record): (Machine, Option<StreamError>) {
    var (encoder, error) := EncodeRecord(m.encoder, marshal(record));
    if error.Some? then (m.(encoder := encoder, state := Failed), error)
    else (m.(encoder := encoder, log := m.log + [record]), None)
  }

  /** The machine's own write: the sequence guard, the record, the next number. */
  function WriteNumbered(marshal: Marshal, m: Machine, record: Record): (Machine, Option<CallError>) {
    if m.nextSequence < 1 || m.nextSequence > MAX_SEQUENCE then (m.(state := Failed), Some(Sequence))
    else
      var (t, error) := Emit(marshal, m, record);
      if error.Some? then (t, Some(Output(error.value)))
      else (t.(nextSequence := m.nextSequence + 1), None)
  }

  /** A record, and if it is written the state after it. */
  function WriteThen(marshal: Marshal, m: Machine, record: Record, next: State): (Machine, Option<CallError>) {
    var (t, error) := WriteNumbered(marshal, m, record);
    if error.Some? then (t, error) else (t.(state := next), None)
  }

  predicate FailureCode(code: string) {
    code in {"credential_channel_failed", "caller_start_failed", "scenario_execution_failed", "output_failed", "internal_failure"}
  }

  function DoStart(marshal: Marshal, m: Machine): (Machine, Option<CallError>) {
    if m.state != AwaitingStartup then (FailedTransition(m), Some(InvalidTransition))
    else
      var (t, error) := Emit(marshal, m, Startup);
      if error.Some? then (t, Some(Output(error.value))) else (t.(state := ReadyForInvocation), None)
  }

  function WriteInvalid(marshal: Marshal, m: Machine): (Machine, Option<CallError>) {
    if m.invocation.Some? || m.nextSequence != 1 then (FailedTransition(m), Some(InvalidTransition))
    else
      var (t, error) := Emit(marshal, m, ProtocolError(1, None, "invalid_invocation"));
      if error.Some? then (t, Some(Output(error.value)))
      else (t.(nextSequence := 2, state := TerminalObserved), Some(BadInvocation))
  }

  function DoConsume(marshal: Marshal, m: Machine, decoded: Option<Invocation>, matches: bool): (Machine, Option<CallError>) {
    if m.state != ReadyForInvocation then (FailedTransition(m), Some(InvalidTransition))
    else
      var t := m.(state := AwaitingAcceptance);
      if decoded.None? || (m.phase != "" && decoded.value.phase != m.phase) ||
         CaseIDs(decoded.value.phase).None? || !matches then WriteInvalid(marshal, t)
      else
        var u := if m.phase == "" then
                   t.(phase := decoded.value.phase, cases := CaseIDs(decoded.value.phase).value)
                 else t;
        (u.(invocation := decoded), None)
  }

  function DoAccept(marshal: Marshal, m: Machine): (Machine, Option<CallError>) {
    if m.state != AwaitingAcceptance || m.invocation.None? || m.nextSequence != 1 then (FailedTransition(m), Some(InvalidTransition))
    else
      var (t, error) := WriteNumbered(marshal, m, Accepted(m.nextSequence, m.invocation.value));
      if error.Some? then (t, error) else (t.(state := AwaitingNextScenario), None)
  }

  function DoStartScenario(marshal: Marshal, m: Machine, caseId: string): (Machine, Option<CallError>) {
    if m.state != AwaitingNextScenario || m.invocation.None? then (FailedTransition(m), Some(InvalidTransition))
    else if m.nextCase >= |m.cases| || caseId != m.cases[m.nextCase] then (m.(state := Failed), Some(ScenarioOrder))
    else WriteThen(marshal, m, Started(m.nextSequence, m.invocation.value, caseId), AwaitingStartedResult)
  }

  function DoResult(marshal: Marshal, m: Machine, data: ResultData): (Machine, Option<CallError>) {
    if (m.state != AwaitingNextScenario && m.state != AwaitingStartedResult) || m.invocation.None? then
      (FailedTransition(m), Some(InvalidTransition))
    else if m.nextCase >= |m.cases| || data.caseId != m.cases[m.nextCase] then (m.(state := Failed), Some(ScenarioOrder))
    else if (m.state == AwaitingStartedResult && data.disposition != "completed") ||
            (m.state == AwaitingNextScenario && data.disposition != "not_executed") then
      (m.(state := Failed), Some(InvalidTransition))
    else WriteResult(marshal, m, data)
  }

  /** The record of a result in its place, and the move to the next case. */
  function WriteResult(marshal: Marshal, m: Machine, data: ResultData): (Machine, Option<CallError>)
    requires m.invocation.Some?
  {
    var (t, error) := WriteNumbered(marshal, m, CaseResult(m.nextSequence, m.invocation.value, data));
    if error.Some? then (t, error) else (NextCase(t, data), None)
  }

  function NextCase(m: Machine, data: ResultData): Machine {
    m.(anyNotExecuted := m.anyNotExecuted || data.disposition == "not_executed",
       nextCase := m.nextCase + 1,
       done := m.done + [data.disposition == "completed"],
       state := if m.nextCase + 1 == |m.cases| then AwaitingTerminal else AwaitingNextScenario)
  }

  function DoFinish(marshal: Marshal, m: Machine): (Machine, Option<CallError>) {
    if m.state != AwaitingTerminal || m.invocation.None? || m.nextCase != |m.cases| then
      (FailedTransition(m), Some(InvalidTransition))
    else
      var completion := if m.anyNotExecuted then "stopped" else "completed";
      WriteThen(marshal, m, Finished(m.nextSequence, m.invocation.value, completion), TerminalObserved)
  }

  predicate MayFail(m: Machine) {
    m.state == AwaitingNextScenario || m.state == AwaitingStartedResult || m.state == AwaitingTerminal
  }

  function DoFail(marshal: Marshal, m: Machine, code: string): (Machine, Option<CallError>) {
    if !MayFail(m) || m.invocation.None? || !FailureCode(code) then (FailedTransition(m), Some(InvalidTransition))
    else WriteThen(marshal, m, ProtocolError(m.nextSequence, m.invocation, code), TerminalObserved)
  }

  function Apply(marshal: Marshal, m: Machine, call: Call): (Machine, Option<CallError>) {
    match call
    case Start => DoStart(marshal, m)
    case ConsumeInvocation(decoded, matches) => DoConsume(marshal, m, decoded, matches)
    case AcceptInvocation => DoAccept(marshal, m)
    case StartScenario(caseId) => DoStartScenario(marshal, m, caseId)
    case Result(data) => DoResult(marshal, m, data)
    case Finish => DoFinish(marshal, m)
    case Fail(code) => DoFail(marshal, m, code)
    case ObserveEOF =>
      if m.state != TerminalObserved then (FailedTransition(m), Some(InvalidTransition))
      else (m.(state := TerminalEOFObserved), None)
    case ObserveExit(clean) =>
      if m.state != TerminalEOFObserved || !clean then (FailedTransition(m), Some(InvalidTransition))
      else (m.(state := Complete), None)
    case ObserveByteAfterTerminal =>
      if m.state == TerminalObserved || m.state == TerminalEOFObserved then (m.(state := Failed), Some(InvalidTransition))
      else (FailedTransition(m), Some(InvalidTransition))
  }

  /** Any sequence of method calls. */
  function Calls(marshal: Marshal, m: Machine, calls: seq<Call>): Machine
    decreases |calls|
  {
    if calls == [] then m else Calls(marshal, Apply(marshal, m, calls[0]).0, calls[1..])
  }
}
