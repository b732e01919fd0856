/** The adapter's whole output in closed form: record by record what its surroundings make it write, and its exit code. */
module AdapterTranscript {
  import opened Prelude
  import opened JcsUtf8
  import opened OutputStream
  import opened Phase
  import opened AdapterRun

  // ----- the transcript -----

  /** The public code of the failure at the case that the caller does not answer. */
  function FailureAt(caller: Caller, i: nat): string {
    if !caller.closes then "internal_failure"
    else if i < |caller.answers| && caller.answers[i].Answer? then "scenario_execution_failed"
    else if i < |caller.answers| && caller.answers[i].code == Some("caller_start_failed") then "caller_start_failed"
    else if i < |caller.answers| && caller.answers[i].code == Some("internal_failure") then "internal_failure"
    else "scenario_execution_failed"
  }

  /**
   Supervised, from the i-th case and the number n on: each case is started and its answer's own data follow, up to
   the first case without a good answer, whose failure is the end.
   */
  function Supervised(inv: Invocation, cases: seq<string>, caller: Caller, i: nat, n: int): seq<Record>
    decreases |cases| - i
  {
    if i >= |cases| then
      [if caller.closes then Finished(n, inv, "completed") else ProtocolError(n, Some(inv), "internal_failure")]
    else if Answered(caller, cases[i], i) then
      [Started(n, inv, cases[i])] + ([CaseResult(n + 1, inv, caller.answers[i].data)] + Supervised(inv, cases, caller, i + 1, n + 2))
    else
      [Started(n, inv, cases[i])] + [ProtocolError(n + 1, Some(inv), FailureAt(caller, i))]
  }

  /** Without a caller every case is reported as not executed, with nothing in it, and the run as stopped. */
  function Skipped(inv: Invocation, cases: seq<string>, i: nat, n: int): seq<Record>
    decreases |cases| - i
  {
    if i >= |cases| then [Finished(n, inv, "stopped")]
    else [CaseResult(n, inv, ResultData(cases[i], "not_executed", 0))] + Skipped(inv, cases, i + 1, n + 1)
  }

  predicate GoodInvocation(x: Surroundings) {
    x.decoded.Some? && x.matches && CaseIDs(x.decoded.value.phase).Some?
  }

  function AfterStartup(x: Surroundings): seq<Record> {
    if !GoodInvocation(x) then [ProtocolError(1, None, "invalid_invocation")]
    else [Accepted(1, x.decoded.value)] + AfterAccepted(x.decoded.value, CaseIDs(x.decoded.value.phase).value, x)
  }

  function AfterAccepted(inv: Invocation, cases: seq<string>, x: Surroundings): seq<Record> {
    if !x.credentialsOk then [ProtocolError(2, Some(inv), "credential_channel_failed")]
    else if x.caller.Some? then Supervised(inv, cases, x.caller.value, 0, 2)
    else Skipped(inv, cases, 0, 2)
  }

  function Transcript(x: Surroundings): seq<Record> { [Startup] + AfterStartup(x) }

  /** Only a caller that does not close cleanly makes a run that wrote all it had to exit with another code. */
  function ExitOf(x: Surroundings): int {
    if GoodInvocation(x) && x.credentialsOk && x.caller.Some? && !x.caller.value.closes then 70 else 0
  }

  // ----- writing it -----

  /** The encoder after as many of the records as it takes, and how many those are. */
  function TakeAll(marshal: Marshal, encoder: Encoder, records: seq<Record>): (r: (Encoder, nat))
    ensures r.1 <= |records|
    decreases |records|
  {
    if records == [] then (encoder, 0)
    else
      var (e, error) := EncodeRecord(encoder, marshal(records[0]));
      if error.Some? then (e, 0)
      else
        var (last, n) := TakeAll(marshal, e, records[1..]);
        (last, n + 1)
  }

  /** From m to t as many of these records as the encoder takes; the code is exit after all of them, and else that of a failed output. */
  predicate Puts(marshal: Marshal, m: Machine, records: seq<Record>, t: Machine, code: int, exit: int) {
    var (e, n) := TakeAll(marshal, m.encoder, records);
    t.encoder == e && t.log == m.log + records[..n] && code == if n == |records| then exit else EXIT_IO
  }

  /** One record more in front, written. */
  lemma PutsCons(marshal: Marshal, m: Machine, r: Record, n: Machine, rest: seq<Record>, t: Machine, code: int, exit: int)
    requires EncodeRecord(m.encoder, marshal(r)) == (n.encoder, None) && n.log == m.log + [r]
    requires Puts(marshal, n, rest, t, code, exit)
    ensures Puts(marshal, m, [r] + rest, t, code, exit)
  {
    assert ([r] + rest)[1..] == rest;
    var k := TakeAll(marshal, n.encoder, rest).1;
    assert m.log + ([r] + rest)[..k + 1] == m.log + [r] + rest[..k];
  }

  /** One record in front, and the encoder fails on it. */
  lemma PutsNone(marshal: Marshal, m: Machine, r: Record, rest: seq<Record>, t: Machine, exit: int)
    requires EncodeRecord(m.encoder, marshal(r)).1.Some? && t.encoder == EncodeRecord(m.encoder, marshal(r)).0 && t.log == m.log
    ensures Puts(marshal, m, [r] + rest, t, EXIT_IO, exit)
  {
    assert m.log + ([r] + rest)[..0] == m.log;
  }

  lemma PutsLast(marshal: Marshal, m: Machine, r: Record, t: Machine, code: int, exit: int)
    requires t.encoder == EncodeRecord(m.encoder, marshal(r)).0
    requires if EncodeRecord(m.encoder, marshal(r)).1.Some? then t.log == m.log && code == EXIT_IO else t.log == m.log + [r] && code == exit
    ensures Puts(marshal, m, [r], t, code, exit)
  {
    assert m.log + [r][..0] == m.log && [r][..1] == [r] && [r][1..] == [];
  }

  /** A call that writes this record, and what it returns. */
  predicate Writes(marshal: Marshal, m: Machine, r: Record, t: Machine, error: Option<CallError>) {
    var (e, failure) := EncodeRecord(m.encoder, marshal(r));
    && t.encoder == e && (error.Some? <==> failure.Some?)
    && t.log == if failure.Some? then m.log else m.log + [r]
  }

  // ----- the calls -----

  /** The machine between cases: i of them done, all of them completed unless none was run. */
  predicate Between(m: Machine, inv: Invocation, cases: seq<string>, i: nat, n: int) {
    && m.invocation == Some(inv) && m.cases == cases && m.nextCase == i <= |cases| && m.nextSequence == n
    && m.state == (if i == |cases| then AwaitingTerminal else AwaitingNextScenario)
    && 2 <= n <= 2 + 2 * i && |cases| <= 15
  }

  /** Within a case: it has been started. */
  predicate Within(m: Machine, inv: Invocation, cases: seq<string>, i: nat, n: int) {
    && m.invocation == Some(inv) && m.cases == cases && m.nextCase == i < |cases| && m.nextSequence == n
    && m.state == AwaitingStartedResult && 2 <= n <= 3 + 2 * i && |cases| <= 15
  }

  /** What the calls of a run under way write, for a machine's methods taken abstractly. */
  ghost predicate CallsWrite(api: MachineCalls, marshal: Marshal) {
    && (forall m: Machine, inv: Invocation, cases: seq<string>, i: nat, n: int :: StartSpec(api, marshal, m, inv, cases, i, n))
    && (forall m: Machine, inv: Invocation, cases: seq<string>, i: nat, n: int, data: ResultData ::
          ResultSpec(api, marshal, m, inv, cases, i, n, data))
    && (forall m: Machine, inv: Invocation, cases: seq<string>, i: nat, n: int :: SkipSpec(api, marshal, m, inv, cases, i, n))
    && (forall m: Machine, inv: Invocation, cases: seq<string>, i: nat, n: int, code: string ::
          FailSpec(api, marshal, m, inv, cases, i, n, code))
    && (forall m: Machine, inv: Invocation, cases: seq<string>, n: int :: FinishSpec(api, marshal, m, inv, cases, n))
  }

  predicate StartSpec(api: MachineCalls, marshal: Marshal, m: Machine, inv: Invocation, cases: seq<string>, i: nat, n: int) {
    Between(m, inv, cases, i, n) && i < |cases| ==>
      var (t, error) := api(m, StartScenario(cases[i]));
      && Writes(marshal, m, Started(n, inv, cases[i]), t, error)
      && (error.None? ==> Within(t, inv, cases, i, n + 1) && t.anyNotExecuted == m.anyNotExecuted)
  }

  predicate ResultSpec(
    api: MachineCalls, marshal: Marshal, m: Machine, inv: Invocation, cases: seq<string>, i: nat, n: int, data: ResultData)
  {
    Within(m, inv, cases, i, n) && data.caseId == cases[i] && data.disposition == "completed" ==>
      var (t, error) := api(m, Call.Result(data));
      && Writes(marshal, m, CaseResult(n, inv, data), t, error)
      && (error.None? ==> Between(t, inv, cases, i + 1, n + 1) && t.anyNotExecuted == m.anyNotExecuted)
  }

  predicate SkipSpec(api: MachineCalls, marshal: Marshal, m: Machine, inv: Invocation, cases: seq<string>, i: nat, n: int) {
    Between(m, inv, cases, i, n) && i < |cases| ==>
      var (t, error) := api(m, Call.Result(NotExecuted(cases[i])));
      && Writes(marshal, m, CaseResult(n, inv, ResultData(cases[i], "not_executed", 0)), t, error)
      && (error.None? ==> Between(t, inv, cases, i + 1, n + 1) && t.anyNotExecuted)
  }

  predicate FailSpec(
    api: MachineCalls, marshal: Marshal, m: Machine, inv: Invocation, cases: seq<string>, i: nat, n: int, code: string)
  {
    (Between(m, inv, cases, i, n) || Within(m, inv, cases, i, n)) && FailureCode(code) ==>
      var (t, error) := api(m, Fail(code)); Writes(marshal, m, ProtocolError(n, Some(inv), code), t, error)
  }

  predicate FinishSpec(api: MachineCalls, marshal: Marshal, m: Machine, inv: Invocation, cases: seq<string>, n: int) {
    Between(m, inv, cases, |cases|, n) ==>
      var (t, error) := api(m, Finish);
      Writes(marshal, m, Finished(n, inv, if m.anyNotExecuted then "stopped" else "completed"), t, error)
  }

  lemma StartWrites(marshal: Marshal, m: Machine, inv: Invocation, cases: seq<string>, i: nat, n: int)
    ensures StartSpec(Methods(marshal), marshal, m, inv, cases, i, n)
  {
  }

  lemma ResultWrites(marshal: Marshal, m: Machine, inv: Invocation, cases: seq<string>, i: nat, n: int, data: ResultData)
    ensures ResultSpec(Methods(marshal), marshal, m, inv, cases, i, n, data)
  {
  }

  lemma SkipWrites(marshal: Marshal, m: Machine, inv: Invocation, cases: seq<string>, i: nat, n: int)
    ensures SkipSpec(Methods(marshal), marshal, m, inv, cases, i, n)
  {
  }

  lemma FailWrites(marshal: Marshal, m: Machine, inv: Invocation, cases: seq<string>, i: nat, n: int, code: string)
    ensures FailSpec(Methods(marshal), marshal, m, inv, cases, i, n, code)
  {
  }

  lemma FinishWrites(marshal: Marshal, m: Machine, inv: Invocation, cases: seq<string>, n: int)
    ensures FinishSpec(Methods(marshal), marshal, m, inv, cases, n)
  {
  }

  lemma MethodsWrite(marshal: Marshal)
    ensures CallsWrite(Methods(marshal), marshal)
  {
    var api := Methods(marshal);
    forall m: Machine, inv: Invocation, cases: seq<string>, i: nat, n: int
      ensures StartSpec(api, marshal, m, inv, cases, i, n) && SkipSpec(api, marshal, m, inv, cases, i, n)
    {
      StartWrites(marshal, m, inv, cases, i, n);
      SkipWrites(marshal, m, inv, cases, i, n);
    }
    forall m: Machine, inv: Invocation, cases: seq<string>, i: nat, n: int, data: ResultData
      ensures ResultSpec(api, marshal, m, inv, cases, i, n, data)
    {
      ResultWrites(marshal, m, inv, cases, i, n, data);
    }
    forall m: Machine, inv: Invocation, cases: seq<string>, i: nat, n: int, code: string
      ensures FailSpec(api, marshal, m, inv, cases, i, n, code)
    {
      FailWrites(marshal, m, inv, cases, i, n, code);
    }
    forall m: Machine, inv: Invocation, cases: seq<string>, n: int ensures FinishSpec(api, marshal, m, inv, cases, n) {
      FinishWrites(marshal, m, inv, cases, n);
    }
  }

  // ----- the supervised cases -----

  lemma FailurePuts(api: MachineCalls, marshal: Marshal, m: Machine, inv: Invocation, cases: seq<string>, i: nat, n: int,
                    closes: bool, code: string)
    requires CallsWrite(api, marshal) && (Between(m, inv, cases, i, n) || Within(m, inv, cases, i, n)) && FailureCode(code)
    ensures var (t, exit) := FailCaller(api, m, closes, code);
      Puts(marshal, m, [ProtocolError(n, Some(inv), if closes then code else "internal_failure")], t, exit, if closes then 0 else 70)
  {
    var sent := if closes then code else "internal_failure";
    assert FailSpec(api, marshal, m, inv, cases, i, n, sent);
    var (t, exit) := FailCaller(api, m, closes, code);
    PutsLast(marshal, m, ProtocolError(n, Some(inv), sent), t, exit, if closes then 0 else 70);
  }

  function CodeFor(answer: CallerAnswer): (r: string)
    ensures FailureCode(r)
  {
    if answer.CallerError? then PublicCode(answer.code) else "scenario_execution_failed"
  }

  lemma FailureAtIs(caller: Caller, i: nat)
    ensures FailureAt(caller, i) == if caller.closes then CodeFor(AnswerAt(caller, i)) else "internal_failure"
  {
  }

  /** A case without a good answer fails once it has started. */
  lemma BadCaseIs(api: MachineCalls, m: Machine, caseId: string, caller: Caller, i: nat)
    requires !Answered(caller, caseId, i)
    ensures var (t, error) := api(m, StartScenario(caseId));
      PlayCase(api, m, caseId, AnswerAt(caller, i), caller.closes) ==
      if error.Some? then (t, Some(EXIT_IO))
      else
        var (u, exit) := FailCaller(api, t, caller.closes, CodeFor(AnswerAt(caller, i)));
        (u, Some(exit))
  {
  }

  /** The case that ends the run. */
  lemma BadCasePuts(api: MachineCalls, marshal: Marshal, m: Machine, inv: Invocation, cases: seq<string>, i: nat, n: int, caller: Caller)
    requires CallsWrite(api, marshal) && Between(m, inv, cases, i, n) && i < |cases| && !Answered(caller, cases[i], i)
    ensures var (t, exit) := PlayCase(api, m, cases[i], AnswerAt(caller, i), caller.closes);
      exit.Some? && Puts(marshal, m, [Started(n, inv, cases[i])] + [ProtocolError(n + 1, Some(inv), FailureAt(caller, i))], t, exit.value,
                         if caller.closes then 0 else 70)
  {
    BadCaseIs(api, m, cases[i], caller, i);
    FailureAtIs(caller, i);
    assert StartSpec(api, marshal, m, inv, cases, i, n);
    var (t, error) := api(m, StartScenario(cases[i]));
    var last := ProtocolError(n + 1, Some(inv), FailureAt(caller, i));
    if error.Some? {
      PutsNone(marshal, m, Started(n, inv, cases[i]), [last], t, if caller.closes then 0 else 70);
    } else {
      FailurePuts(api, marshal, t, inv, cases, i, n + 1, caller.closes, CodeFor(AnswerAt(caller, i)));
      var (u, exit) := FailCaller(api, t, caller.closes, CodeFor(AnswerAt(caller, i)));
      PutsCons(marshal, m, Started(n, inv, cases[i]), t, [last], u, exit, if caller.closes then 0 else 70);
    }
  }

  /** A case with a good answer is its two calls. */
  lemma GoodCaseIs(api: MachineCalls, m: Machine, caseId: string, caller: Caller, i: nat)
    requires Answered(caller, caseId, i)
    ensures var (t, error) := api(m, StartScenario(caseId));
      PlayCase(api, m, caseId, AnswerAt(caller, i), caller.closes) ==
      if error.Some? then (t, Some(EXIT_IO))
      else
        var (u, written) := api(t, Call.Result(caller.answers[i].data));
        (u, if written.Some? then Some(EXIT_IO) else None)
  {
  }

  /** A case that is answered: both its records, and the rest behind them. */
  lemma GoodCasePuts(api: MachineCalls, marshal: Marshal, m: Machine, inv: Invocation, cases: seq<string>, i: nat, n: int, caller: Caller,
                     rest: seq<Record>, u: Machine, code: int, exit: int)
    requires CallsWrite(api, marshal) && Between(m, inv, cases, i, n) && i < |cases| && Answered(caller, cases[i], i)
    requires var (t, early) := PlayCase(api, m, cases[i], AnswerAt(caller, i), caller.closes);
      if early.Some? then u == t && code == early.value else Puts(marshal, t, rest, u, code, exit)
    ensures Puts(marshal, m, [Started(n, inv, cases[i])] + ([CaseResult(n + 1, inv, caller.answers[i].data)] + rest), u, code, exit)
  {
    var data := caller.answers[i].data;
    var (first, second) := (Started(n, inv, cases[i]), CaseResult(n + 1, inv, data));
    GoodCaseIs(api, m, cases[i], caller, i);
    assert StartSpec(api, marshal, m, inv, cases, i, n);
    var (t, error) := api(m, StartScenario(cases[i]));
    if error.Some? {
      PutsNone(marshal, m, first, [second] + rest, t, exit);
    } else {
      assert ResultSpec(api, marshal, t, inv, cases, i, n + 1, data);
      var (v, written) := api(t, Call.Result(data));
      if written.Some? {
        PutsNone(marshal, t, second, rest, v, exit);
      } else {
        PutsCons(marshal, t, second, v, rest, u, code, exit);
      }
      PutsCons(marshal, m, first, t, [second] + rest, u, code, exit);
    }
  }

  /** A good case that gets both its records out leaves the machine at the next. */
  lemma GoodCaseMovesOn(api: MachineCalls, marshal: Marshal, m: Machine, inv: Invocation, cases: seq<string>, i: nat, n: int, caller: Caller)
    requires CallsWrite(api, marshal) && Between(m, inv, cases, i, n) && i < |cases| && Answered(caller, cases[i], i)
    ensures var (t, early) := PlayCase(api, m, cases[i], AnswerAt(caller, i), caller.closes);
      early.None? ==> Between(t, inv, cases, i + 1, n + 2) && t.anyNotExecuted == m.anyNotExecuted
  {
    GoodCaseIs(api, m, cases[i], caller, i);
    assert StartSpec(api, marshal, m, inv, cases, i, n);
    var (t, error) := api(m, StartScenario(cases[i]));
    if error.None? {
      var data := caller.answers[i].data;
      assert ResultSpec(api, marshal, t, inv, cases, i, n + 1, data);
      assert Within(t, inv, cases, i, n + 1) && data.caseId == cases[i] && data.disposition == "completed";
      var (v, written) := api(t, Call.Result(data));
      assert written.None? ==> Between(v, inv, cases, i + 1, n + 1 + 1);
    }
  }

  /** Supervise and Conclude from the i-th case on. */
  function FromCase(api: MachineCalls, m: Machine, cases: seq<string>, i: nat, caller: Caller): (Machine, int)
    decreases |cases| - i
  {
    if i >= |cases| then Ended(api, m, caller.closes)
    else
      var (t, early) := PlayCase(api, m, cases[i], AnswerAt(caller, i), caller.closes);
      if early.Some? then (t, early.value) else FromCase(api, t, cases, i + 1, caller)
  }

  function Ended(api: MachineCalls, m: Machine, closes: bool): (Machine, int) {
    if closes then Conclude(api, m)
    else
      var (u, error) := api(m, Fail("internal_failure"));
      (u, if error.Some? then EXIT_IO else EXIT_SOFTWARE)
  }

  lemma {:induction false} FromCaseIs(api: MachineCalls, m: Machine, cases: seq<string>, i: nat, caller: Caller)
    ensures var (t, exit) := PlayFrom(api, m, cases, i, caller);
      FromCase(api, m, cases, i, caller) == if exit.Some? then (t, exit.value) else Ended(api, t, caller.closes)
    decreases |cases| - i
  {
    if i < |cases| {
      var (t, early) := PlayCase(api, m, cases[i], AnswerAt(caller, i), caller.closes);
      if early.None? { FromCaseIs(api, t, cases, i + 1, caller); }
    }
  }

  lemma EndPuts(api: MachineCalls, marshal: Marshal, m: Machine, inv: Invocation, cases: seq<string>, n: int, caller: Caller)
    requires CallsWrite(api, marshal) && Between(m, inv, cases, |cases|, n) && !m.anyNotExecuted
    ensures var (t, code) := Ended(api, m, caller.closes);
      Puts(marshal, m, Supervised(inv, cases, caller, |cases|, n), t, code, if caller.closes then 0 else 70)
  {
    var (t, code) := Ended(api, m, caller.closes);
    if caller.closes {
      assert FinishSpec(api, marshal, m, inv, cases, n);
      PutsLast(marshal, m, Finished(n, inv, "completed"), t, code, 0);
    } else {
      assert FailSpec(api, marshal, m, inv, cases, |cases|, n, "internal_failure");
      PutsLast(marshal, m, ProtocolError(n, Some(inv), "internal_failure"), t, code, 70);
    }
  }

  lemma {:induction false} SupervisedPuts(
    api: MachineCalls, marshal: Marshal, m: Machine, inv: Invocation, cases: seq<string>, i: nat, n: int, caller: Caller)
    requires CallsWrite(api, marshal) && Between(m, inv, cases, i, n) && !m.anyNotExecuted
    ensures var (t, code) := FromCase(api, m, cases, i, caller);
      Puts(marshal, m, Supervised(inv, cases, caller, i, n), t, code, if caller.closes then 0 else 70)
    decreases |cases| - i
  {
    if i == |cases| {
      EndPuts(api, marshal, m, inv, cases, n, caller);
    } else if !Answered(caller, cases[i], i) {
      BadCasePuts(api, marshal, m, inv, cases, i, n, caller);
    } else {
      GoodCaseMovesOn(api, marshal, m, inv, cases, i, n, caller);
      var (t, early) := PlayCase(api, m, cases[i], AnswerAt(caller, i), caller.closes);
      if early.None? { SupervisedPuts(api, marshal, t, inv, cases, i + 1, n + 2, caller); }
      var (u, code) := FromCase(api, m, cases, i, caller);
      GoodCasePuts(api, marshal, m, inv, cases, i, n, caller, Supervised(inv, cases, caller, i + 1, n + 2), u, code,
                   if caller.closes then 0 else 70);
    }
  }

  // ----- the cases nobody runs -----

  /** SkipFrom and Conclude from the i-th case on. */
  function SkipAndFinish(api: MachineCalls, m: Machine, cases: seq<string>, i: nat): (Machine, int)
    decreases |cases| - i
  {
    if i >= |cases| then Conclude(api, m)
    else
      var (t, error) := api(m, Call.Result(NotExecuted(cases[i])));
      if error.Some? then (t, EXIT_IO) else SkipAndFinish(api, t, cases, i + 1)
  }

  lemma {:induction false} SkipAndFinishIs(api: MachineCalls, m: Machine, cases: seq<string>, i: nat)
    ensures var (t, exit) := SkipFrom(api, m, cases, i);
      SkipAndFinish(api, m, cases, i) == if exit.Some? then (t, exit.value) else Conclude(api, t)
    decreases |cases| - i
  {
    if i < |cases| {
      var (t, error) := api(m, Call.Result(NotExecuted(cases[i])));
      if error.None? { SkipAndFinishIs(api, t, cases, i + 1); }
    }
  }

  lemma SkipEndPuts(api: MachineCalls, marshal: Marshal, m: Machine, inv: Invocation, cases: seq<string>, n: int)
    requires FinishSpec(api, marshal, m, inv, cases, n) && Between(m, inv, cases, |cases|, n) && m.anyNotExecuted
    ensures var (t, code) := Conclude(api, m); Puts(marshal, m, [Finished(n, inv, "stopped")], t, code, 0)
  {
    var (t, code) := Conclude(api, m);
    PutsLast(marshal, m, Finished(n, inv, "stopped"), t, code, 0);
  }

  lemma SkipStepPuts(api: MachineCalls, marshal: Marshal, m: Machine, inv: Invocation, cases: seq<string>, i: nat, n: int,
                     rest: seq<Record>, u: Machine, code: int)
    requires SkipSpec(api, marshal, m, inv, cases, i, n) && Between(m, inv, cases, i, n) && i < |cases|
    requires var (t, error) := api(m, Call.Result(NotExecuted(cases[i])));
      if error.Some? then (u, code) == (t, EXIT_IO) else Puts(marshal, t, rest, u, code, 0)
    ensures Puts(marshal, m, [CaseResult(n, inv, ResultData(cases[i], "not_executed", 0))] + rest, u, code, 0)
  {
    var r := CaseResult(n, inv, ResultData(cases[i], "not_executed", 0));
    var (t, error) := api(m, Call.Result(NotExecuted(cases[i])));
    if error.Some? { PutsNone(marshal, m, r, rest, t, 0); } else { PutsCons(marshal, m, r, t, rest, u, code, 0); }
  }

  lemma {:induction false} SkippedPuts(
    api: MachineCalls, marshal: Marshal, m: Machine, inv: Invocation, cases: seq<string>, i: nat, n: int)
    requires CallsWrite(api, marshal) && Between(m, inv, cases, i, n) && (m.anyNotExecuted || i < |cases|)
    ensures var (t, code) := SkipAndFinish(api, m, cases, i); Puts(marshal, m, Skipped(inv, cases, i, n), t, code, 0)
    decreases |cases| - i
  {
    if i == |cases| {
      assert FinishSpec(api, marshal, m, inv, cases, n);
      SkipEndPuts(api, marshal, m, inv, cases, n);
    } else {
      assert SkipSpec(api, marshal, m, inv, cases, i, n);
      var (t, error) := api(m, Call.Result(NotExecuted(cases[i])));
      if error.None? { SkippedPuts(api, marshal, t, inv, cases, i + 1, n + 1); }
      var (u, code) := SkipAndFinish(api, m, cases, i);
      SkipStepPuts(api, marshal, m, inv, cases, i, n, Skipped(inv, cases, i + 1, n + 1), u, code);
    }
  }

  // ----- the whole run -----

  lemma AcceptedPuts(api: MachineCalls, marshal: Marshal, m: Machine, inv: Invocation, cases: seq<string>, x: Surroundings)
    requires CallsWrite(api, marshal) && Between(m, inv, cases, 0, 2) && !m.anyNotExecuted && CaseIDs(inv.phase) == Some(cases)
    ensures var (t, code) := AfterAcceptance(api, m, inv.phase, x);
      Puts(marshal, m, AfterAccepted(inv, cases, x), t, code, if x.credentialsOk && x.caller.Some? && !x.caller.value.closes then 70 else 0)
  {
    var (t, code) := AfterAcceptance(api, m, inv.phase, x);
    if !x.credentialsOk {
      assert FailSpec(api, marshal, m, inv, cases, 0, 2, "credential_channel_failed");
      PutsLast(marshal, m, ProtocolError(2, Some(inv), "credential_channel_failed"), t, code, 0);
    } else if x.caller.Some? {
      FromCaseIs(api, m, cases, 0, x.caller.value);
      SupervisedPuts(api, marshal, m, inv, cases, 0, 2, x.caller.value);
    } else {
      SkipAndFinishIs(api, m, cases, 0);
      SkippedPuts(api, marshal, m, inv, cases, 0, 2);
    }
  }

  /** The machine after its startup record. */
  function Begun(encoder: Encoder): Machine { Machine(encoder, "", [], ReadyForInvocation, None, 0, 1, false, [Startup], []) }

  lemma BadInvocationPuts(marshal: Marshal, m: Machine, x: Surroundings)
    requires m == Begun(m.encoder) && !GoodInvocation(x)
    ensures var (t, error) := Apply(marshal, m, ConsumeInvocation(x.decoded, x.matches));
      error.Some? && Puts(marshal, m, [ProtocolError(1, None, "invalid_invocation")], t, if t.state == TerminalObserved then 0 else EXIT_IO, 0)
  {
    var (t, error) := Apply(marshal, m, ConsumeInvocation(x.decoded, x.matches));
    PutsLast(marshal, m, ProtocolError(1, None, "invalid_invocation"), t, if t.state == TerminalObserved then 0 else EXIT_IO, 0);
  }

  /** What is left of the run once the invocation is bound. */
  function FromAcceptance(api: MachineCalls, m: Machine, phase: string, x: Surroundings): (Machine, int) {
    var (t, error) := api(m, AcceptInvocation);
    if error.Some? then (t, EXIT_IO) else AfterAcceptance(api, t, phase, x)
  }

  lemma GoodInvocationBinds(marshal: Marshal, m: Machine, x: Surroundings)
    requires m == Begun(m.encoder) && GoodInvocation(x)
    ensures var (t, error) := Apply(marshal, m, ConsumeInvocation(x.decoded, x.matches));
      error.None? && t == m.(state := AwaitingAcceptance, phase := x.decoded.value.phase, cases := CaseIDs(x.decoded.value.phase).value, invocation := x.decoded)
  {
  }

  lemma GoodInvocationPuts(marshal: Marshal, m: Machine, inv: Invocation, x: Surroundings)
    requires x.decoded == Some(inv) && GoodInvocation(x) && m.encoder.records == 1
    requires m == Begun(m.encoder).(state := AwaitingAcceptance, phase := inv.phase, cases := CaseIDs(inv.phase).value, invocation := Some(inv))
    ensures var (t, code) := FromAcceptance(Methods(marshal), m, inv.phase, x);
      Puts(marshal, m, [Accepted(1, inv)] + AfterAccepted(inv, CaseIDs(inv.phase).value, x), t, code, ExitOf(x))
  {
    var cases := CaseIDs(inv.phase).value;
    var (t, error) := Apply(marshal, m, AcceptInvocation);
    if error.Some? {
      PutsNone(marshal, m, Accepted(1, inv), AfterAccepted(inv, cases, x), t, ExitOf(x));
    } else {
      MethodsWrite(marshal);
      AcceptedPuts(Methods(marshal), marshal, t, inv, cases, x);
      var (u, code) := AfterAcceptance(Methods(marshal), t, inv.phase, x);
      PutsCons(marshal, m, Accepted(1, inv), t, AfterAccepted(inv, cases, x), u, code, ExitOf(x));
    }
  }

  /** RunWithCaller once startup is written. */
  function FromInvocation(api: MachineCalls, m: Machine, x: Surroundings): (Machine, int) {
    var (t, consumed) := api(m, ConsumeInvocation(x.decoded, x.matches));
    if consumed.Some? then (t, if t.state == TerminalObserved then EXIT_SUCCESS else EXIT_IO)
    else if t.invocation.None? || t.state == Failed then (t, EXIT_SOFTWARE)
    else FromAcceptance(api, t, t.invocation.value.phase, x)
  }

  lemma InvocationPuts(marshal: Marshal, m: Machine, x: Surroundings)
    requires m == Begun(m.encoder) && m.encoder.records == 1
    ensures var (t, code) := FromInvocation(Methods(marshal), m, x); Puts(marshal, m, AfterStartup(x), t, code, ExitOf(x))
  {
    if GoodInvocation(x) {
      GoodInvocationBinds(marshal, m, x);
      var t := Apply(marshal, m, ConsumeInvocation(x.decoded, x.matches)).0;
      GoodInvocationPuts(marshal, t, x.decoded.value, x);
    } else {
      BadInvocationPuts(marshal, m, x);
    }
  }

  lemma RunUnfolds(api: MachineCalls, m: Machine, x: Surroundings)
    requires x.arguments == 0
    ensures var (t, started) := api(m, Call.Start);
      RunWithCaller(api, m, x) == if started.Some? then (t, EXIT_IO) else FromInvocation(api, t, x)
  {
  }

  lemma StartupPuts(marshal: Marshal, m: Machine, x: Surroundings, code: int, t: Machine)
    requires m == Machine(NewEncoder(m.encoder.stream), "", [], AwaitingStartup, None, 0, 1, false, [], [])
    requires var (m1, started) := Apply(marshal, m, Call.Start);
      (t, code) == if started.Some? then (m1, EXIT_IO) else FromInvocation(Methods(marshal), m1, x)
    ensures Puts(marshal, m, Transcript(x), t, code, ExitOf(x))
  {
    var (m1, started) := Apply(marshal, m, Call.Start);
    if started.Some? {
      PutsNone(marshal, m, Startup, AfterStartup(x), m1, ExitOf(x));
    } else {
      InvocationPuts(marshal, m1, x);
      PutsCons(marshal, m, Startup, m1, AfterStartup(x), t, code, ExitOf(x));
    }
  }

  /**
   For every stream and every surroundings: the adapter writes the records of the transcript that they call for, in order,
   up to the first the stream does not take; it exits with their code if all were taken, and else with that of a failed output.
   */
  lemma AdapterWritesItsTranscript(marshal: Marshal, stream: Option<Stream>, x: Surroundings)
    requires x.arguments == 0
    ensures var (m, code) := RunWithCaller(Methods(marshal), NewMachine(stream, true, []).value, x);
      var (e, n) := TakeAll(marshal, NewEncoder(stream), Transcript(x));
      m.encoder == e && m.log == Transcript(x)[..n] && code == if n == |Transcript(x)| then ExitOf(x) else EXIT_IO
  {
    var start := NewMachine(stream, true, []).value;
    RunUnfolds(Methods(marshal), start, x);
    var (m, code) := RunWithCaller(Methods(marshal), start, x);
    StartupPuts(marshal, start, x, code, m);
    var n := TakeAll(marshal, start.encoder, Transcript(x)).1;
    assert [] + Transcript(x)[..n] == Transcript(x)[..n];
  }

  /** What AdapterWritesItsTranscript says of a run that starts with this machine. */
  predicate WritesTranscript(marshal: Marshal, start: Machine, x: Surroundings, end: Machine, code: int) {
    x.arguments == 0 && NewMachine(start.encoder.stream, true, []) == Some(start) ==>
      var n := TakeAll(marshal, start.encoder, Transcript(x)).1;
      end.log == Transcript(x)[..n] && code == if n == |Transcript(x)| then ExitOf(x) else EXIT_IO
  }

  lemma RunWritesTranscript(marshal: Marshal, start: Machine, x: Surroundings)
    ensures var (end, code) := RunWithCaller(Methods(marshal), start, x); WritesTranscript(marshal, start, x, end, code)
  {
    if x.arguments == 0 && NewMachine(start.encoder.stream, true, []) == Some(start) {
      AdapterWritesItsTranscript(marshal, start.encoder.stream, x);
    }
  }
}
