/** What the phase machine can put on its output, under any order of method calls. */
module PhaseTranscript {
  import opened Prelude
  import opened JcsUtf8
  import opened OutputStream
  import opened Phase

  // ----- the transcript grammar -----

  /** A record without its number, identity and payload. */
  datatype Shape =
    | SStartup | SInvalid | SAccepted
    | SStarted(caseId: string) | SResult(caseId: string, completed: bool)
    | SFinished(completed: bool) | SError(code: string)

  function ShapeOf(r: Record): Shape {
    match r
    case Startup => SStartup
    case Accepted(_, _) => SAccepted
    case Started(_, _, caseId) => SStarted(caseId)
    case CaseResult(_, _, data) => SResult(data.caseId, data.disposition == "completed")
    case Finished(_, _, completion) => SFinished(completion == "completed")
    case ProtocolError(_, about, code) => if about.None? then SInvalid else SError(code)
  }

  function Shapes(log: seq<Record>): (r: seq<Shape>)
    ensures |r| == |log|
  {
    seq(|log|, i requires 0 <= i < |log| => ShapeOf(log[i]))
  }

  /** A case that ran is started and then completed; one that did not is only reported. */
  function Block(caseId: string, completed: bool): seq<Shape> {
    if completed then [SStarted(caseId), SResult(caseId, true)] else [SResult(caseId, false)]
  }

  /** Startup, acceptance, and the blocks of the first |done| cases in locked order. */
  function Spine(cases: seq<string>, done: seq<bool>): (r: seq<Shape>)
    requires |done| <= |cases|
    ensures 2 + |done| <= |r| <= 2 + 2 * |done|
    ensures !Terminal(r[|r| - 1])
    decreases |done|
  {
    if done == [] then [SStartup, SAccepted]
    else
      var n := |done| - 1;
      Spine(cases, done[..n]) + Block(cases[n], done[n])
  }

  predicate Terminal(s: Shape) { s.SInvalid? || s.SFinished? || s.SError? }

  predicate AllCompleted(done: seq<bool>) { forall i :: 0 <= i < |done| ==> done[i] }

  predicate Failure(s: Shape) { s.SError? && FailureCode(s.code) }

  /** How a transcript can stand after the blocks of its finished cases. */
  predicate Tail(cases: seq<string>, done: seq<bool>, tail: seq<Shape>)
    requires |done| <= |cases|
  {
    || tail == []
    || (|tail| == 1 && Failure(tail[0]))
    || (|done| < |cases| && tail == [SStarted(cases[|done|])])
    || (|done| < |cases| && |tail| == 2 && tail[0] == SStarted(cases[|done|]) && Failure(tail[1]))
    || (|done| == |cases| && tail == [SFinished(AllCompleted(done))])
  }

  ghost predicate Accounts(shapes: seq<Shape>, cases: seq<string>, done: seq<bool>, tail: seq<Shape>) {
    |done| <= |cases| && Tail(cases, done, tail) && shapes == Spine(cases, done) + tail
  }

  /** Nothing, startup alone, startup and an invalid invocation, or an accepted one, its blocks and a tail. */
  ghost predicate Grammar(shapes: seq<Shape>, cases: seq<string>) {
    || shapes == []
    || shapes == [SStartup]
    || shapes == [SStartup, SInvalid]
    || exists done: seq<bool>, tail: seq<Shape> :: Accounts(shapes, cases, done, tail)
  }

  // ----- invariant -----

  predicate Running(m: Machine) {
    m.state == AwaitingNextScenario || m.state == AwaitingStartedResult || m.state == AwaitingTerminal
  }

  predicate Over(m: Machine) {
    m.state == TerminalObserved || m.state == TerminalEOFObserved || m.state == Complete || m.state == Failed
  }

  /** The records are numbered 0, 1, 2, ... and name one invocation. */
  predicate Numbered(m: Machine) {
    forall i :: 0 <= i < |m.log| ==>
      m.log[i].Number() == i &&
      (!m.log[i].Startup? && !m.log[i].ProtocolError? ==> m.invocation == Some(m.log[i].invocation)) &&
      (m.log[i].ProtocolError? && m.log[i].about.Some? ==> m.invocation == m.log[i].about)
  }

  predicate Counts(m: Machine) {
    && |m.done| == m.nextCase <= |m.cases| <= 15
    && (m.anyNotExecuted <==> !AllCompleted(m.done))
    && (m.state in {AwaitingStartup, ReadyForInvocation, AwaitingAcceptance} ==> m.done == [] && m.nextSequence == 1)
    && (m.state in {AwaitingStartup, ReadyForInvocation} ==> m.invocation == None)
    && (m.state == AwaitingAcceptance ==> m.invocation.Some?)
    && (Running(m) ==> m.invocation.Some? && m.nextSequence == |m.log|)
    && (m.state == AwaitingNextScenario ==> m.nextCase < |m.cases|)
    && m.encoder.records == |m.log|
    && (m.invocation.Some? ==> m.cases != [])
  }

  /** The cases are those of the phase, and the phase is the invocation's once there is one. */
  predicate Phased(m: Machine) {
    && (m.phase == "" ==> m.cases == [])
    && (m.phase != "" ==> CaseIDs(m.phase) == Some(m.cases))
    && (m.invocation.Some? ==> m.invocation.value.phase == m.phase != "")
  }

  ghost predicate Written(m: Machine)
    requires |m.done| == m.nextCase <= |m.cases|
  {
    var shapes := Shapes(m.log);
    match m.state
    case AwaitingStartup => m.log == []
    case ReadyForInvocation => shapes == [SStartup]
    case AwaitingAcceptance => shapes == [SStartup]
    case AwaitingNextScenario => shapes == Spine(m.cases, m.done)
    case AwaitingStartedResult =>
      m.nextCase < |m.cases| && shapes == Spine(m.cases, m.done) + [SStarted(m.cases[m.nextCase])]
    case AwaitingTerminal => m.nextCase == |m.cases| && shapes == Spine(m.cases, m.done)
    case Failed => true
    case _ => shapes != [] && Terminal(shapes[|shapes| - 1])
  }

  ghost predicate Core(m: Machine) {
    Counts(m) && Numbered(m) && Written(m) && Grammar(Shapes(m.log), m.cases)
  }

  ghost predicate Inv(m: Machine) { Core(m) && Phased(m) }

  lemma ShapesOfOneMore(log: seq<Record>, r: Record)
    ensures Shapes(log + [r]) == Shapes(log) + [ShapeOf(r)]
  {
  }

  lemma GrammarOf(shapes: seq<Shape>, cases: seq<string>, done: seq<bool>, tail: seq<Shape>)
    requires Accounts(shapes, cases, done, tail)
    ensures Grammar(shapes, cases)
  {
  }

  /** There is always room for the next record while the machine still writes. */
  lemma RoomForOneMore(m: Machine)
    requires Core(m) && !Over(m)
    ensures |m.log| <= 32 && 1 <= m.nextSequence <= 32
    ensures m.encoder.records < MAX_RECORDS
  {
  }

  /** What one emitted record does to the machine, whatever the writer answers. */
  lemma EmitFacts(marshal: Marshal, m: Machine, r: Record)
    requires m.encoder.records == |m.log|
    ensures var (t, error) := Emit(marshal, m, r);
      && t == m.(encoder := t.encoder, log := t.log, state := t.state)
      && t.encoder.records == |t.log|
      && (error.Some? ==> t.log == m.log && t.state == Failed)
      && (error.None? ==> t.log == m.log + [r] && t.state == m.state && Shapes(t.log) == Shapes(m.log) + [ShapeOf(r)])
      && (m.encoder.records < MAX_RECORDS ==> error != Some(RecordLimit))
  {
    ShapesOfOneMore(m.log, r);
  }

  lemma FailingKeepsCore(m: Machine, t: Machine)
    requires Core(m)
    requires t.log == m.log && t.state == Failed && t.encoder.records == m.encoder.records
    requires t == m.(encoder := t.encoder, state := t.state)
    ensures Core(t)
  {
  }

  lemma NumberedGrows(m: Machine, t: Machine, r: Record)
    requires Numbered(m) && t.log == m.log + [r] && t.invocation == m.invocation
    requires r.Number() == |m.log|
    requires !r.Startup? && !r.ProtocolError? ==> m.invocation == Some(r.invocation)
    requires r.ProtocolError? && r.about.Some? ==> m.invocation == r.about
    ensures Numbered(t)
  {
  }

  lemma StartKeepsCore(marshal: Marshal, m: Machine)
    requires Core(m)
    ensures Core(DoStart(marshal, m).0)
  {
    if m.state == AwaitingStartup {
      EmitFacts(marshal, m, Startup);
    }
  }

  lemma InvalidKeepsCore(marshal: Marshal, m: Machine, t: Machine)
    requires Core(m) && m.state == ReadyForInvocation && t == m.(state := AwaitingAcceptance)
    ensures Core(WriteInvalid(marshal, t).0)
  {
    var r := ProtocolError(1, None, "invalid_invocation");
    EmitFacts(marshal, t, r);
    var (u, error) := Emit(marshal, t, r);
    if error.None? {
      NumberedGrows(t, u, r);
      assert Shapes(u.log) == [SStartup, SInvalid];
    } else {
      FailingKeepsCore(m, u);
    }
  }

  lemma ConsumeKeepsCore(marshal: Marshal, m: Machine, decoded: Option<Invocation>, matches: bool)
    requires Core(m) && Phased(m)
    ensures Core(DoConsume(marshal, m, decoded, matches).0)
  {
    if m.state == ReadyForInvocation {
      assert Shapes(m.log)[0] == SStartup && |m.log| == 1;
      InvalidKeepsCore(marshal, m, m.(state := AwaitingAcceptance));
    }
  }

  lemma AcceptKeepsCore(marshal: Marshal, m: Machine)
    requires Core(m)
    ensures Core(DoAccept(marshal, m).0)
  {
    if m.state == AwaitingAcceptance && m.invocation.Some? {
      var r := Accepted(1, m.invocation.value);
      assert |Shapes(m.log)| == 1;
      EmitFacts(marshal, m, r);
      var (u, error) := Emit(marshal, m, r);
      if error.None? {
        NumberedGrows(m, u, r);
        assert Shapes(u.log) == [SStartup, SAccepted];
        GrammarOf(Shapes(u.log), m.cases, [], []);
      } else {
        FailingKeepsCore(m, u);
      }
    }
  }

  /** A numbered record written, or the machine failed with its transcript as it was. */
  predicate Wrote(m: Machine, r: Record, next: State, v: Machine) {
    || (v.state == Failed && v == m.(encoder := v.encoder, state := Failed) && v.encoder.records == |m.log|)
    || (v == m.(encoder := v.encoder, log := m.log + [r], nextSequence := m.nextSequence + 1, state := next) &&
        v.encoder.records == |v.log|)
  }

  lemma WriteThenWrites(marshal: Marshal, m: Machine, r: Record, next: State)
    requires m.encoder.records == |m.log|
    ensures Wrote(m, r, next, WriteThen(marshal, m, r, next).0)
  {
    EmitFacts(marshal, m, r);
  }

  lemma ScenarioKeepsCore(marshal: Marshal, m: Machine, caseId: string)
    requires Core(m)
    ensures Core(DoStartScenario(marshal, m, caseId).0)
  {
    if m.state == AwaitingNextScenario && caseId == m.cases[m.nextCase] {
      var r := Started(m.nextSequence, m.invocation.value, caseId);
      WriteThenWrites(marshal, m, r, AwaitingStartedResult);
      StartedKeepsCore(m, caseId, WriteThen(marshal, m, r, AwaitingStartedResult).0);
    } else {
      OutOfPlaceKeepsCore(m, DoStartScenario(marshal, m, caseId).0);
    }
  }

  /** A call out of place leaves the machine as it is, or failed. */
  lemma OutOfPlaceKeepsCore(m: Machine, v: Machine)
    requires Core(m) && (v == m || v == m.(state := Failed))
    ensures Core(v)
  {
    if v != m { FailingKeepsCore(m, v); }
  }

  lemma StartedKeepsCore(m: Machine, caseId: string, v: Machine)
    requires Core(m) && m.state == AwaitingNextScenario && caseId == m.cases[m.nextCase]
    requires Wrote(m, Started(m.nextSequence, m.invocation.value, caseId), AwaitingStartedResult, v)
    ensures Core(v)
  {
    if v.state == Failed {
      FailingKeepsCore(m, v);
    } else {
      var r := Started(m.nextSequence, m.invocation.value, caseId);
      NumberedGrows(m, v, r);
      ShapesOfOneMore(m.log, r);
      GrammarOf(Shapes(v.log), m.cases, m.done, [SStarted(caseId)]);
    }
  }

  lemma SpineGrows(cases: seq<string>, done: seq<bool>, completed: bool)
    requires |done| < |cases|
    ensures Spine(cases, done + [completed]) == Spine(cases, done) + Block(cases[|done|], completed)
    ensures AllCompleted(done + [completed]) <==> AllCompleted(done) && completed
  {
    var more := done + [completed];
    assert more[..|done|] == done;
    assert AllCompleted(more) ==> more[|done|] && forall i :: 0 <= i < |done| ==> done[i] == more[i];
  }

  /** A result in its place closes the case's block. */
  lemma ResultExtends(m: Machine, v: Machine, data: ResultData)
    requires Counts(m) && Numbered(m) && Written(m) && ResultFits(m, data)
    requires v.log == m.log + [CaseResult(m.nextSequence, m.invocation.value, data)]
    requires v == NextCase(m.(encoder := v.encoder, log := v.log, nextSequence := m.nextSequence + 1), data)
    requires v.encoder.records == |v.log|
    ensures Core(v)
  {
    var r := CaseResult(m.nextSequence, m.invocation.value, data);
    NumberedGrows(m, v, r);
    ResultIsCounted(m, v, data);
    ShapesOfOneMore(m.log, r);
    ResultIsWritten(m, v, data);
  }

  lemma ResultIsWritten(m: Machine, v: Machine, data: ResultData)
    requires Counts(m) && Written(m) && ResultFits(m, data)
    requires v.cases == m.cases && v.nextCase == m.nextCase + 1 && v.done == m.done + [data.disposition == "completed"]
    requires v.state == if m.nextCase + 1 == |m.cases| then AwaitingTerminal else AwaitingNextScenario
    requires Shapes(v.log) == Shapes(m.log) + [SResult(data.caseId, data.disposition == "completed")]
    ensures Written(v) && Grammar(Shapes(v.log), v.cases)
  {
    BlockCloses(m, data);
    SpineAlone(v.cases, v.done, Shapes(v.log));
  }

  /** A transcript that is its blocks and nothing more. */
  lemma SpineAlone(cases: seq<string>, done: seq<bool>, shapes: seq<Shape>)
    requires |done| <= |cases| && shapes == Spine(cases, done)
    ensures Grammar(shapes, cases)
  {
    assert Spine(cases, done) + [] == Spine(cases, done);
    GrammarOf(shapes, cases, done, []);
  }

  /** What was written of a case, and its result, are its block. */
  lemma BlockCloses(m: Machine, data: ResultData)
    requires Counts(m) && Written(m) && m.nextCase < |m.cases| && data.caseId == m.cases[m.nextCase]
    requires (m.state == AwaitingStartedResult && data.disposition == "completed") ||
             (m.state == AwaitingNextScenario && data.disposition == "not_executed")
    ensures Shapes(m.log) + [SResult(data.caseId, data.disposition == "completed")] ==
            Spine(m.cases, m.done + [data.disposition == "completed"])
  {
    var completed := data.disposition == "completed";
    SpineGrows(m.cases, m.done, completed);
    var spine := Spine(m.cases, m.done);
    if completed {
      assert spine + [SStarted(data.caseId)] + [SResult(data.caseId, true)] == spine + Block(data.caseId, true);
    }
  }

  lemma ResultIsCounted(m: Machine, v: Machine, data: ResultData)
    requires Counts(m) && m.nextCase < |m.cases| && (m.state == AwaitingStartedResult || m.state == AwaitingNextScenario)
    requires data.disposition == "completed" || data.disposition == "not_executed"
    requires v == NextCase(m.(encoder := v.encoder, log := v.log, nextSequence := m.nextSequence + 1), data)
    requires |v.log| == |m.log| + 1 && v.encoder.records == |v.log|
    ensures Counts(v)
  {
    SpineGrows(m.cases, m.done, data.disposition == "completed");
  }

  lemma ResultKeepsCore(marshal: Marshal, m: Machine, data: ResultData)
    requires Core(m)
    ensures Core(DoResult(marshal, m, data).0)
  {
    if ResultFits(m, data) { ResultInPlace(marshal, m, data); } else { RefusedKeepsCore(marshal, m, data); }
  }

  lemma ResultInPlace(marshal: Marshal, m: Machine, data: ResultData)
    requires Core(m) && ResultFits(m, data)
    ensures Core(DoResult(marshal, m, data).0)
  {
    WritingKeepsCore(marshal, m, data);
    assert DoResult(marshal, m, data) == WriteResult(marshal, m, data);
  }

  lemma RefusedKeepsCore(marshal: Marshal, m: Machine, data: ResultData)
    requires Core(m) && !ResultFits(m, data)
    ensures Core(DoResult(marshal, m, data).0)
  {
    ResultOutOfPlace(marshal, m, data);
    OutOfPlaceKeepsCore(m, DoResult(marshal, m, data).0);
  }

  lemma ResultOutOfPlace(marshal: Marshal, m: Machine, data: ResultData)
    requires !ResultFits(m, data)
    ensures var v := DoResult(marshal, m, data).0; v == m || v == m.(state := Failed)
  {
  }

  predicate ResultFits(m: Machine, data: ResultData) {
    && m.invocation.Some? && m.nextCase < |m.cases| && data.caseId == m.cases[m.nextCase]
    && ((m.state == AwaitingStartedResult && data.disposition == "completed") ||
        (m.state == AwaitingNextScenario && data.disposition == "not_executed"))
  }

  lemma WritingKeepsCore(marshal: Marshal, m: Machine, data: ResultData)
    requires Core(m) && ResultFits(m, data)
    ensures Core(WriteResult(marshal, m, data).0)
  {
    var r := CaseResult(m.nextSequence, m.invocation.value, data);
    EmitFacts(marshal, m, r);
    var v := WriteResult(marshal, m, data).0;
    if v.state == Failed { FailingKeepsCore(m, v); } else { ResultExtends(m, v, data); }
  }

  /** A terminal record of this run, with the next number. */
  predicate Ends(m: Machine, r: Record) {
    && (r.Finished? || r.ProtocolError?) && r.Number() == m.nextSequence
    && (r.Finished? ==> m.invocation == Some(r.invocation)) && (r.ProtocolError? ==> r.about == m.invocation)
  }

  /** A terminal record in its place ends the transcript. */
  lemma EndingKeepsCore(m: Machine, v: Machine, r: Record, tail: seq<Shape>)
    requires Core(m) && Running(m) && Ends(m, r) && Wrote(m, r, TerminalObserved, v)
    requires Tail(m.cases, m.done, tail) && Shapes(m.log) + [ShapeOf(r)] == Spine(m.cases, m.done) + tail
    ensures Core(v)
  {
    if v.state == Failed {
      FailingKeepsCore(m, v);
    } else {
      NumberedGrows(m, v, r);
      ShapesOfOneMore(m.log, r);
      GrammarOf(Shapes(v.log), m.cases, m.done, tail);
      EndedIsWritten(m, v, r);
    }
  }

  lemma EndedIsWritten(m: Machine, v: Machine, r: Record)
    requires Counts(m) && Running(m) && Ends(m, r) && v.state == TerminalObserved && Wrote(m, r, TerminalObserved, v)
    ensures Counts(v) && Written(v)
  {
    ShapesOfOneMore(m.log, r);
  }

  /** How Finish describes the run. */
  function FinishRecord(m: Machine): Record
    requires m.invocation.Some?
  {
    Finished(m.nextSequence, m.invocation.value, if m.anyNotExecuted then "stopped" else "completed")
  }

  lemma FinishTailFits(m: Machine)
    requires Counts(m) && Written(m) && m.state == AwaitingTerminal
    ensures ShapeOf(FinishRecord(m)) == SFinished(AllCompleted(m.done))
    ensures Tail(m.cases, m.done, [SFinished(AllCompleted(m.done))])
    ensures Shapes(m.log) + [ShapeOf(FinishRecord(m))] == Spine(m.cases, m.done) + [SFinished(AllCompleted(m.done))]
  {
  }

  lemma FinishKeepsCore(marshal: Marshal, m: Machine)
    requires Core(m)
    ensures Core(DoFinish(marshal, m).0)
  {
    if m.state == AwaitingTerminal { FinishInPlace(marshal, m); } else { OutOfPlaceKeepsCore(m, DoFinish(marshal, m).0); }
  }

  lemma FinishInPlace(marshal: Marshal, m: Machine)
    requires Core(m) && m.state == AwaitingTerminal
    ensures Core(DoFinish(marshal, m).0)
  {
    var r := FinishRecord(m);
    FinishTailFits(m);
    WriteThenWrites(marshal, m, r, TerminalObserved);
    EndingKeepsCore(m, WriteThen(marshal, m, r, TerminalObserved).0, r, [SFinished(AllCompleted(m.done))]);
    assert DoFinish(marshal, m) == WriteThen(marshal, m, r, TerminalObserved);
  }

  function FailureTail(m: Machine, code: string): seq<Shape>
    requires m.state == AwaitingStartedResult ==> m.nextCase < |m.cases|
  {
    if m.state == AwaitingStartedResult then [SStarted(m.cases[m.nextCase]), SError(code)] else [SError(code)]
  }

  lemma FailureTailFits(m: Machine, code: string)
    requires Counts(m) && Written(m) && Running(m) && FailureCode(code)
    ensures Tail(m.cases, m.done, FailureTail(m, code))
    ensures Shapes(m.log) + [SError(code)] == Spine(m.cases, m.done) + FailureTail(m, code)
  {
  }

  lemma FailKeepsCore(marshal: Marshal, m: Machine, code: string)
    requires Core(m)
    ensures Core(DoFail(marshal, m, code).0)
  {
    if MayFail(m) && FailureCode(code) { FailInPlace(marshal, m, code); } else { OutOfPlaceKeepsCore(m, DoFail(marshal, m, code).0); }
  }

  lemma FailInPlace(marshal: Marshal, m: Machine, code: string)
    requires Core(m) && MayFail(m) && FailureCode(code)
    ensures Core(DoFail(marshal, m, code).0)
  {
    var r := ProtocolError(m.nextSequence, m.invocation, code);
    FailureTailFits(m, code);
    WriteThenWrites(marshal, m, r, TerminalObserved);
    EndingKeepsCore(m, WriteThen(marshal, m, r, TerminalObserved).0, r, FailureTail(m, code));
    assert DoFail(marshal, m, code) == WriteThen(marshal, m, r, TerminalObserved);
  }

  lemma ObserveKeepsCore(marshal: Marshal, m: Machine, call: Call)
    requires Core(m) && (call.ObserveEOF? || call.ObserveExit? || call.ObserveByteAfterTerminal?)
    ensures Core(Apply(marshal, m, call).0)
  {
    var t := Apply(marshal, m, call).0;
    ObserveOnlyMoves(marshal, m, call);
    if t.state == Failed { OutOfPlaceKeepsCore(m, t); } else { ObservedIsWritten(m, t); }
  }

  lemma ObserveOnlyMoves(marshal: Marshal, m: Machine, call: Call)
    requires call.ObserveEOF? || call.ObserveExit? || call.ObserveByteAfterTerminal?
    ensures var t := Apply(marshal, m, call).0;
      t == m.(state := t.state) && (t.state != m.state && t.state != Failed ==>
        m.state in {TerminalObserved, TerminalEOFObserved} && t.state in {TerminalEOFObserved, Complete})
  {
  }

  lemma ObservedIsWritten(m: Machine, t: Machine)
    requires Core(m) && t == m.(state := t.state)
    requires t.state == m.state || (m.state in {TerminalObserved, TerminalEOFObserved} && t.state in {TerminalEOFObserved, Complete})
    ensures Core(t)
  {
  }

  /** Only a consumed invocation binds the phase, its cases and its identity. */
  lemma OnlyConsumeBinds(marshal: Marshal, m: Machine, call: Call)
    requires !call.ConsumeInvocation?
    ensures SameRun(m, Apply(marshal, m, call).0)
  {
    match call
    case Result(data) => ResultBindsNothing(marshal, m, data);
    case StartScenario(caseId) =>
    case Fail(code) => FailBindsNothing(marshal, m, code);
    case _ =>
  }

  predicate SameRun(m: Machine, t: Machine) {
    t.phase == m.phase && t.cases == m.cases && t.invocation == m.invocation
  }

  lemma ResultBindsNothing(marshal: Marshal, m: Machine, data: ResultData)
    ensures SameRun(m, DoResult(marshal, m, data).0)
  {
  }

  lemma FailBindsNothing(marshal: Marshal, m: Machine, code: string)
    ensures SameRun(m, DoFail(marshal, m, code).0)
  {
  }

  lemma ConsumeBinds(marshal: Marshal, m: Machine, decoded: Option<Invocation>, matches: bool)
    requires Phased(m)
    ensures Phased(DoConsume(marshal, m, decoded, matches).0)
  {
    var t := DoConsume(marshal, m, decoded, matches).0;
    if t.invocation != m.invocation {
      assert t.invocation == decoded && decoded.Some?;
      assert t.phase == decoded.value.phase;
    }
  }

  lemma ApplyKeepsInv(marshal: Marshal, m: Machine, call: Call)
    requires Inv(m)
    ensures Inv(Apply(marshal, m, call).0)
  {
    if call.ConsumeInvocation? {
      ConsumeBinds(marshal, m, call.decoded, call.matches);
    } else {
      OnlyConsumeBinds(marshal, m, call);
      assert Phased(Apply(marshal, m, call).0);
    }
    match call
    case Start => StartKeepsCore(marshal, m);
    case ConsumeInvocation(decoded, matches) => ConsumeKeepsCore(marshal, m, decoded, matches);
    case AcceptInvocation => AcceptKeepsCore(marshal, m);
    case StartScenario(caseId) => ScenarioKeepsCore(marshal, m, caseId);
    case Result(data) => ResultKeepsCore(marshal, m, data);
    case Finish => FinishKeepsCore(marshal, m);
    case Fail(code) => FailKeepsCore(marshal, m, code);
    case _ => ObserveKeepsCore(marshal, m, call);
  }

  // ----- whole runs -----

  lemma NewMachineIsInv(stream: Option<Stream>, validStartup: bool, expected: seq<string>)
    ensures var m := NewMachine(stream, validStartup, expected); m.Some? ==> Inv(m.value)
  {
    var m := NewMachine(stream, validStartup, expected);
    if m.Some? { assert Shapes(m.value.log) == []; }
  }

  lemma {:induction false} CallsKeepInv(marshal: Marshal, m: Machine, calls: seq<Call>)
    requires Inv(m)
    ensures Inv(Calls(marshal, m, calls))
    decreases |calls|
  {
    if calls != [] {
      ApplyKeepsInv(marshal, m, calls[0]);
      CallsKeepInv(marshal, Apply(marshal, m, calls[0]).0, calls[1..]);
    }
  }

  /** The machines that some order of calls on a new machine leads to. */
  ghost predicate Reachable(marshal: Marshal, m: Machine) {
    exists stream, expected, calls ::
      NewMachine(stream, true, expected).Some? && m == Calls(marshal, NewMachine(stream, true, expected).value, calls)
  }

  lemma ReachableIsInv(marshal: Marshal, m: Machine)
    requires Reachable(marshal, m)
    ensures Inv(m)
  {
    var stream, expected, calls :|
      NewMachine(stream, true, expected).Some? && m == Calls(marshal, NewMachine(stream, true, expected).value, calls);
    NewMachineIsInv(stream, true, expected);
    CallsKeepInv(marshal, NewMachine(stream, true, expected).value, calls);
  }

  /** Every transcript is a prefix of the grammar over the cases of one phase, numbered without gaps. */
  lemma TranscriptFollowsGrammar(marshal: Marshal, m: Machine)
    requires Reachable(marshal, m)
    ensures Grammar(Shapes(m.log), m.cases)
    ensures forall i :: 0 <= i < |m.log| ==> m.log[i].Number() == i
    ensures forall i :: 0 <= i < |m.log| && m.log[i].Accepted? ==> CaseIDs(m.log[i].invocation.phase) == Some(m.cases)
    ensures |m.log| <= MAX_RECORDS
  {
    ReachableIsInv(marshal, m);
    if |m.log| > MAX_RECORDS { GrammarIsShort(Shapes(m.log), m.cases); }
    forall i | 0 <= i < |m.log| && m.log[i].Accepted?
      ensures CaseIDs(m.log[i].invocation.phase) == Some(m.cases)
    {
      assert m.invocation == Some(m.log[i].invocation);
    }
  }

  lemma GrammarIsShort(shapes: seq<Shape>, cases: seq<string>)
    requires Grammar(shapes, cases) && |cases| <= 15
    ensures |shapes| <= 33
  {
    if |shapes| > 2 {
      var done, tail :| Accounts(shapes, cases, done, tail);
      assert |Spine(cases, done)| <= 2 + 2 * |done|;
    }
  }

  predicate HitsLimit(error: Option<CallError>) { error == Some(Sequence) || error == Some(Output(RecordLimit)) }

  lemma WriteHasRoom(marshal: Marshal, m: Machine, r: Record)
    requires m.encoder.records == |m.log| < MAX_RECORDS
    ensures !HitsLimit(if Emit(marshal, m, r).1.Some? then Some(Output(Emit(marshal, m, r).1.value)) else None)
    ensures 1 <= m.nextSequence <= 32 ==> !HitsLimit(WriteNumbered(marshal, m, r).1)
  {
    EmitFacts(marshal, m, r);
  }

  lemma OverRefuses(marshal: Marshal, m: Machine, call: Call)
    requires Over(m)
    ensures !HitsLimit(Apply(marshal, m, call).1)
  {
  }

  lemma SetupHasRoom(marshal: Marshal, m: Machine, call: Call)
    requires m.encoder.records == |m.log| < MAX_RECORDS && 1 <= m.nextSequence <= 32
    requires call.Start? || call.ConsumeInvocation? || call.AcceptInvocation? || call.Finish?
    ensures !HitsLimit(Apply(marshal, m, call).1)
  {
    match call
    case Start => WriteHasRoom(marshal, m, Startup);
    case ConsumeInvocation(_, _) =>
      WriteHasRoom(marshal, m.(state := AwaitingAcceptance), ProtocolError(1, None, "invalid_invocation"));
    case AcceptInvocation => if m.invocation.Some? { WriteHasRoom(marshal, m, Accepted(m.nextSequence, m.invocation.value)); }
    case Finish =>
      if m.invocation.Some? {
        WriteHasRoom(marshal, m, Finished(m.nextSequence, m.invocation.value, if m.anyNotExecuted then "stopped" else "completed"));
      }
    case _ =>
  }

  lemma CaseHasRoom(marshal: Marshal, m: Machine, call: Call)
    requires m.encoder.records == |m.log| < MAX_RECORDS && 1 <= m.nextSequence <= 32
    requires !call.Start? && !call.ConsumeInvocation? && !call.AcceptInvocation? && !call.Finish?
    ensures !HitsLimit(Apply(marshal, m, call).1)
  {
    match call
    case StartScenario(caseId) => if m.invocation.Some? { WriteHasRoom(marshal, m, Started(m.nextSequence, m.invocation.value, caseId)); }
    case Result(data) => if m.invocation.Some? { WriteHasRoom(marshal, m, CaseResult(m.nextSequence, m.invocation.value, data)); }
    case Fail(code) => WriteHasRoom(marshal, m, ProtocolError(m.nextSequence, m.invocation, code));
    case _ =>
  }

  /** Neither the sequence limit nor the record limit is ever what stops a run. */
  lemma LimitsNeverStopARun(marshal: Marshal, m: Machine, call: Call)
    requires Reachable(marshal, m)
    ensures Apply(marshal, m, call).1 != Some(Sequence)
    ensures Apply(marshal, m, call).1 != Some(Output(RecordLimit))
  {
    ReachableIsInv(marshal, m);
    assert !HitsLimit(Apply(marshal, m, call).1) by {
      if Over(m) { OverRefuses(marshal, m, call); }
      else {
        RoomForOneMore(m);
        if call.Start? || call.ConsumeInvocation? || call.AcceptInvocation? || call.Finish? { SetupHasRoom(marshal, m, call); }
        else { CaseHasRoom(marshal, m, call); }
      }
    }
  }

  /** After a terminal record or a failure no call adds a record or a byte. */
  lemma OverWritesNothing(marshal: Marshal, m: Machine, call: Call)
    requires Over(m)
    ensures var t := Apply(marshal, m, call).0; Over(t) && t.log == m.log && t.encoder == m.encoder
  {
  }

  lemma {:induction false} OverStays(marshal: Marshal, m: Machine, calls: seq<Call>)
    requires Over(m)
    ensures var t := Calls(marshal, m, calls); Over(t) && t.log == m.log && t.encoder == m.encoder
    decreases |calls|
  {
    if calls != [] {
      OverWritesNothing(marshal, m, calls[0]);
      OverStays(marshal, Apply(marshal, m, calls[0]).0, calls[1..]);
    }
  }

  lemma NothingFollowsTheEnd(marshal: Marshal, m: Machine, calls: seq<Call>)
    requires Reachable(marshal, m)
    requires m.state == Failed || (m.log != [] && Terminal(ShapeOf(m.log[|m.log| - 1])))
    ensures Calls(marshal, m, calls).log == m.log
    ensures Calls(marshal, m, calls).encoder == m.encoder
  {
    ReachableIsInv(marshal, m);
    if m.log != [] { assert Shapes(m.log)[|m.log| - 1] == ShapeOf(m.log[|m.log| - 1]); }
    OverStays(marshal, m, calls);
  }

  /** What a machine past its terminal record makes of a call. */
  lemma OverObserves(marshal: Marshal, m: Machine, call: Call)
    requires Over(m)
    ensures Apply(marshal, m, call).0.state ==
      if m.state == Complete || m.state == Failed then m.state
      else if m.state == TerminalObserved && call == ObserveEOF then TerminalEOFObserved
      else if m.state == TerminalEOFObserved && call == ObserveExit(true) then Complete
      else Failed
  {
  }

  lemma TwoCalls(marshal: Marshal, m: Machine, first: Call, second: Call)
    ensures Calls(marshal, m, [first]) == Apply(marshal, m, first).0
    ensures Calls(marshal, m, [first, second]) == Apply(marshal, Apply(marshal, m, first).0, second).0
  {
    var m1 := Apply(marshal, m, first).0;
    assert [first, second][1..] == [second] && [second][1..] == [] && [first][1..] == [];
    assert Calls(marshal, m1, [second]) == Calls(marshal, Apply(marshal, m1, second).0, []);
  }

  /** After its terminal record a run is complete by the end of the output and then a clean exit, and by nothing else. */
  lemma EndIsObserved(marshal: Marshal, m: Machine, first: Call, second: Call)
    requires m.state == TerminalObserved
    ensures Calls(marshal, m, [first]).state == if first == ObserveEOF then TerminalEOFObserved else Failed
    ensures Calls(marshal, m, [first, second]).state == if first == ObserveEOF && second == ObserveExit(true) then Complete else Failed
  {
    TwoCalls(marshal, m, first, second);
    OverObserves(marshal, m, first);
    OverObserves(marshal, Apply(marshal, m, first).0, second);
  }

  /** The transcript in which every case was started and completed. */
  function FullTranscript(cases: seq<string>): seq<Shape> {
    Spine(cases, seq(|cases|, i => true)) + [SFinished(true)]
  }

  /** A transcript that ends in a finish record has a block for every case. */
  lemma FinishEndsSpine(shapes: seq<Shape>, cases: seq<string>)
    requires Grammar(shapes, cases) && shapes != [] && shapes[|shapes| - 1] == SFinished(true)
    ensures shapes == FullTranscript(cases)
  {
    var done, tail :| Accounts(shapes, cases, done, tail);
    var spine := Spine(cases, done);
    assert shapes[|spine| - 1] == spine[|spine| - 1];
    assert |done| == |cases| && tail == [SFinished(true)];
    assert done == seq(|cases|, i => true);
  }

  /** "completed" is written exactly at the end of the transcript in which every case completed. */
  lemma CompletedIffEveryCaseCompleted(marshal: Marshal, m: Machine)
    requires Reachable(marshal, m) && m.log != []
    ensures ShapeOf(m.log[|m.log| - 1]) == SFinished(true) <==> Shapes(m.log) == FullTranscript(m.cases)
  {
    ReachableIsInv(marshal, m);
    var shapes := Shapes(m.log);
    assert shapes[|shapes| - 1] == ShapeOf(m.log[|m.log| - 1]);
    if shapes[|shapes| - 1] == SFinished(true) { FinishEndsSpine(shapes, m.cases); }
  }

  // ----- the bytes -----

  /** The lines on the stream are the marshalled records of the log. */
  predicate Lines(marshal: Marshal, encoder: Encoder, log: seq<Record>) {
    && Exact(encoder)
    && |encoder.lines| == |log|
    && forall i :: 0 <= i < |log| ==> marshal(log[i]).Some? && encoder.lines[i] == marshal(log[i]).value + [LF]
  }

  lemma EmitKeepsLines(marshal: Marshal, m: Machine, r: Record)
    requires Lines(marshal, m.encoder, m.log)
    ensures var t := Emit(marshal, m, r).0; Lines(marshal, t.encoder, t.log)
  {
    WriteKeepsExact(m.encoder, marshal(r));
    FailureLatches(m.encoder, marshal(r));
  }

  lemma NumberedKeepsLines(marshal: Marshal, m: Machine, r: Record)
    requires Lines(marshal, m.encoder, m.log)
    ensures var t := WriteNumbered(marshal, m, r).0; Lines(marshal, t.encoder, t.log)
  {
    EmitKeepsLines(marshal, m, r);
  }

  lemma StartKeepsLines(marshal: Marshal, m: Machine)
    requires Lines(marshal, m.encoder, m.log)
    ensures var t := DoStart(marshal, m).0; Lines(marshal, t.encoder, t.log)
  {
    EmitKeepsLines(marshal, m, Startup);
  }

  lemma ConsumeKeepsLines(marshal: Marshal, m: Machine, decoded: Option<Invocation>, matches: bool)
    requires Lines(marshal, m.encoder, m.log)
    ensures var t := DoConsume(marshal, m, decoded, matches).0; Lines(marshal, t.encoder, t.log)
  {
    EmitKeepsLines(marshal, m.(state := AwaitingAcceptance), ProtocolError(1, None, "invalid_invocation"));
  }

  lemma AcceptKeepsLines(marshal: Marshal, m: Machine)
    requires Lines(marshal, m.encoder, m.log)
    ensures var t := DoAccept(marshal, m).0; Lines(marshal, t.encoder, t.log)
  {
    if m.invocation.Some? { NumberedKeepsLines(marshal, m, Accepted(m.nextSequence, m.invocation.value)); }
  }

  lemma FinishKeepsLines(marshal: Marshal, m: Machine)
    requires Lines(marshal, m.encoder, m.log)
    ensures var t := DoFinish(marshal, m).0; Lines(marshal, t.encoder, t.log)
  {
    if m.invocation.Some? {
      NumberedKeepsLines(marshal, m, Finished(m.nextSequence, m.invocation.value, if m.anyNotExecuted then "stopped" else "completed"));
    }
  }

  lemma ScenarioKeepsLines(marshal: Marshal, m: Machine, caseId: string)
    requires Lines(marshal, m.encoder, m.log)
    ensures var t := DoStartScenario(marshal, m, caseId).0; Lines(marshal, t.encoder, t.log)
  {
    if m.invocation.Some? { NumberedKeepsLines(marshal, m, Started(m.nextSequence, m.invocation.value, caseId)); }
  }

  lemma ResultKeepsLines(marshal: Marshal, m: Machine, data: ResultData)
    requires Lines(marshal, m.encoder, m.log)
    ensures var t := DoResult(marshal, m, data).0; Lines(marshal, t.encoder, t.log)
  {
    if m.invocation.Some? { WritingKeepsLines(marshal, m, data); }
  }

  lemma WritingKeepsLines(marshal: Marshal, m: Machine, data: ResultData)
    requires Lines(marshal, m.encoder, m.log) && m.invocation.Some?
    ensures var t := WriteResult(marshal, m, data).0; Lines(marshal, t.encoder, t.log)
  {
    NumberedKeepsLines(marshal, m, CaseResult(m.nextSequence, m.invocation.value, data));
  }

  lemma FailKeepsLines(marshal: Marshal, m: Machine, code: string)
    requires Lines(marshal, m.encoder, m.log)
    ensures var t := DoFail(marshal, m, code).0; Lines(marshal, t.encoder, t.log)
  {
    NumberedKeepsLines(marshal, m, ProtocolError(m.nextSequence, m.invocation, code));
  }

  lemma ApplyKeepsLines(marshal: Marshal, m: Machine, call: Call)
    requires Lines(marshal, m.encoder, m.log)
    ensures var t := Apply(marshal, m, call).0; Lines(marshal, t.encoder, t.log)
  {
    match call
    case Start => StartKeepsLines(marshal, m);
    case ConsumeInvocation(decoded, matches) => ConsumeKeepsLines(marshal, m, decoded, matches);
    case AcceptInvocation => AcceptKeepsLines(marshal, m);
    case StartScenario(caseId) => ScenarioKeepsLines(marshal, m, caseId);
    case Result(data) => ResultKeepsLines(marshal, m, data);
    case Finish => FinishKeepsLines(marshal, m);
    case Fail(code) => FailKeepsLines(marshal, m, code);
    case _ =>
  }

  lemma {:induction false} CallsKeepLines(marshal: Marshal, m: Machine, calls: seq<Call>)
    requires Lines(marshal, m.encoder, m.log)
    ensures var t := Calls(marshal, m, calls); Lines(marshal, t.encoder, t.log)
    decreases |calls|
  {
    if calls != [] {
      ApplyKeepsLines(marshal, m, calls[0]);
      CallsKeepLines(marshal, Apply(marshal, m, calls[0]).0, calls[1..]);
    }
  }

  function Marshalled(marshal: Marshal, log: seq<Record>): seq<Bytes>
    requires forall i :: 0 <= i < |log| ==> marshal(log[i]).Some?
  {
    seq(|log|, i requires 0 <= i < |log| => marshal(log[i]).value + [LF])
  }

  /** Whatever the writer does, its bytes are the whole records of a grammatical transcript and at most one torn record. */
  lemma BytesAreTheTranscript(marshal: Marshal, stream: Stream, expected: seq<string>, calls: seq<Call>)
    requires stream.accepted == [] && NewMachine(Some(stream), true, expected).Some?
    ensures var m := Calls(marshal, NewMachine(Some(stream), true, expected).value, calls);
      && (forall i :: 0 <= i < |m.log| ==> marshal(m.log[i]).Some?)
      && Grammar(Shapes(m.log), m.cases)
      && (m.encoder.stream.Some? ==>
            m.encoder.stream.value.accepted == Concat(Marshalled(marshal, m.log)) + m.encoder.partial)
      && (m.encoder.partial != [] ==> m.encoder.failed)
  {
    var start := NewMachine(Some(stream), true, expected).value;
    assert Concat(start.encoder.lines) + start.encoder.partial == [];
    CallsKeepLines(marshal, start, calls);
    var m := Calls(marshal, start, calls);
    assert m.encoder.lines == Marshalled(marshal, m.log);
    NewMachineIsInv(Some(stream), true, expected);
    CallsKeepInv(marshal, start, calls);
  }
}
