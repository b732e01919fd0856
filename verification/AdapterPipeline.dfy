/**
 Adapter, supervised caller session, caller process and executor as one distributed machine:
 two processes, a command pipe and a result pipe, and a common log of what each did.
 */
module AdapterPipeline {
  /** Started and Result are adapter records; Begun and Executed are the executor's. */
  datatype Event = Started(caseId: string) | Begun(caseId: string) | Executed(caseId: string) | Result(caseId: string) | FailureRecord

  /** The adapter with its session, at case k. */
  datatype Adapter = Next(k: nat) | Announced(k: nat) | Waiting(k: nat) | Closing(k: nat) | Received(k: nat) | Finished | Failed

  /** The caller process: reading command j, inside Execute, or past its state gate with the result to write. */
  datatype Caller = Reading(j: nat) | Executing(j: nat) | Reporting(j: nat) | Exited(code: int)

  /** other is the other phase's case list, which the executor also knows; cut is history: the log's length at the failure. */
  datatype State = State(
    cases: seq<string>, other: seq<string>, adapter: Adapter, commands: seq<string>, inputClosed: bool, results: seq<string>,
    caller: Caller, executorNext: nat, log: seq<Event>, cut: nat)

  datatype Step =
    | Announce(written: bool)
    | SendCommand(sent: bool, delivered: bool)
    | TakeResult
    | SessionFinish
    | EmitResult(written: bool)
    | GiveUp(recorded: bool)
    | ReadCommand
    | FinishExecute(ok: bool)
    | WriteResult(written: bool)
    | ReadEnd
    | Die(code: int)

  function Init(cases: seq<string>, other: seq<string>): State {
    State(cases, other, Next(0), [], false, [], Reading(0), 0, [], 0)
  }

  predicate Busy(a: Adapter) { a.Waiting? || a.Closing? || a.Announced? }

  predicate Enabled(s: State, step: Step) {
    match step
    case Announce(_) => s.adapter.Next? && s.adapter.k < |s.cases|
    case SendCommand(_, _) => s.adapter.Announced? && s.adapter.k < |s.cases|
    case TakeResult => s.adapter.Waiting? && s.adapter.k < |s.cases| && s.results != []
    case SessionFinish => s.adapter.Closing? && s.caller.Exited?
    case EmitResult(_) => s.adapter.Received? && s.adapter.k < |s.cases|
    case GiveUp(_) => Busy(s.adapter)
    case ReadCommand => s.caller.Reading? && s.commands != []
    case FinishExecute(_) => s.caller.Executing? && s.caller.j < |s.cases|
    case WriteResult(_) => s.caller.Reporting? && s.caller.j < |s.cases|
    case ReadEnd => s.caller.Reading? && s.commands == [] && s.inputClosed
    case Die(code) => !s.caller.Exited? && code != 0
  }

  /** A failed session closes the caller's input. */
  function Fails(s: State): State { s.(adapter := Failed, cut := |s.log|, inputClosed := true) }

  /** The executor's own gate: it runs only the case it stands at, in either phase's list. */
  predicate ExecutorTakes(s: State, id: string) {
    (s.executorNext < |s.cases| && id == s.cases[s.executorNext]) || (s.executorNext < |s.other| && id == s.other[s.executorNext])
  }

  function Apply(s: State, step: Step): State
    requires Enabled(s, step)
  {
    match step
    case Announce(written) =>
      if !written then Fails(s)
      else s.(log := s.log + [Started(s.cases[s.adapter.k])], adapter := Announced(s.adapter.k))
    case SendCommand(sent, delivered) =>
      var t := if sent || delivered then s.(commands := s.commands + [s.cases[s.adapter.k]]) else s;
      if sent then t.(adapter := Waiting(s.adapter.k)) else Fails(t)
    case TakeResult =>
      var t := s.(results := s.results[1..]);
      if s.results[0] != s.cases[s.adapter.k] then Fails(t)
      else if s.adapter.k + 1 == |s.cases| then t.(adapter := Closing(s.adapter.k), inputClosed := true)
      else t.(adapter := Received(s.adapter.k))
    case SessionFinish =>
      if s.caller.code != 0 || s.results != [] then Fails(s) else s.(adapter := Received(s.adapter.k))
    case EmitResult(written) =>
      if !written then Fails(s)
      else
        s.(log := s.log + [Result(s.cases[s.adapter.k])],
           adapter := if s.adapter.k + 1 == |s.cases| then Finished else Next(s.adapter.k + 1))
    case GiveUp(recorded) =>
      var t := Fails(s);
      if recorded then t.(log := t.log + [FailureRecord]) else t
    case ReadCommand =>
      var t := s.(commands := s.commands[1..]);
      if s.caller.j >= |s.cases| || s.commands[0] != s.cases[s.caller.j] then t.(caller := Exited(65))
      else if !ExecutorTakes(s, s.commands[0]) then t.(caller := Exited(70))
      else t.(caller := Executing(s.caller.j), log := s.log + [Begun(s.commands[0])])
    case FinishExecute(ok) =>
      if !ok then s.(caller := Exited(70))
      else s.(caller := Reporting(s.caller.j), executorNext := s.executorNext + 1, log := s.log + [Executed(s.cases[s.caller.j])])
    case WriteResult(written) =>
      if !written then s.(caller := Exited(74))
      else s.(results := s.results + [s.cases[s.caller.j]], caller := Reading(s.caller.j + 1))
    case ReadEnd => s.(caller := Exited(if s.caller.j == |s.cases| then 0 else 65))
    case Die(code) => s.(caller := Exited(code))
  }

  /** The i-th state is left by the i-th step. */
  predicate Follows(trace: seq<State>, steps: seq<Step>, i: nat) {
    i < |steps| && i + 1 < |trace| && Enabled(trace[i], steps[i]) && trace[i + 1] == Apply(trace[i], steps[i])
  }

  ghost predicate Run(trace: seq<State>, steps: seq<Step>, cases: seq<string>) {
    && |trace| == |steps| + 1
    && trace[0] == Init(cases, trace[0].other)
    && forall i :: 0 <= i < |steps| ==> Follows(trace, steps, i)
  }

  // ----- invariant -----

  /** The p-th event of the lockstep: announce, begin, execute, report, case after case. */
  function At(cases: seq<string>, p: nat): Event
    requires p < 4 * |cases|
  {
    var id := cases[p / 4];
    if p % 4 == 0 then Started(id) else if p % 4 == 1 then Begun(id) else if p % 4 == 2 then Executed(id) else Result(id)
  }

  predicate Lockstep(log: seq<Event>, cases: seq<string>, n: nat) {
    n <= |log| && n <= 4 * |cases| && forall p :: 0 <= p < n ==> log[p] == At(cases, p)
  }

  /** Where the caller stands when command k is the one under way, and how long the log then is. */
  predicate Serves(s: State, k: nat)
    requires k < |s.cases|
  {
    && |s.commands| + |s.results| + (if s.caller.Executing? || s.caller.Reporting? then 1 else 0) <= 1
    && (s.commands != [] ==> s.commands[0] == s.cases[k] && |s.log| == 4 * k + 1 && (s.caller.Exited? || s.caller == Reading(k)))
    && (s.caller.Executing? ==> s.caller.j == k && |s.log| == 4 * k + 2)
    && (s.caller.Reporting? ==> s.caller.j == k && |s.log| == 4 * k + 3)
    && (s.results != [] ==> s.results[0] == s.cases[k] && |s.log| == 4 * k + 3 && (s.caller.Exited? || s.caller == Reading(k + 1)))
    && (s.caller.Reading? ==> s.commands != [] || s.results != [])
    && s.caller != Exited(0)
  }

  /** Nothing is under way and the caller waits for command k. */
  predicate Rests(s: State, k: nat) {
    s.commands == [] && s.results == [] && (s.caller.Exited? || s.caller == Reading(k)) && s.caller != Exited(0)
  }

  /** The adapter has not failed: the log is the lockstep, and it is as long as the two processes say. */
  predicate LiveOk(s: State) {
    && Lockstep(s.log, s.cases, |s.log|)
    && (s.inputClosed ==> s.adapter.Closing? || s.adapter.Received? || s.adapter.Finished?)
    && (!s.caller.Exited? ==> s.executorNext == Done(s.caller))
    && match s.adapter
       case Next(k) => k < |s.cases| && |s.log| == 4 * k && Rests(s, k) && !s.inputClosed
       case Announced(k) => k < |s.cases| && |s.log| == 4 * k + 1 && Rests(s, k)
       case Waiting(k) => k < |s.cases| && 4 * k + 1 <= |s.log| <= 4 * k + 3 && Serves(s, k)
       case Closing(k) => k + 1 == |s.cases| && s.inputClosed && |s.log| == 4 * k + 3 && s.commands == [] && s.results == [] && (s.caller.Exited? || s.caller == Reading(k + 1))
       case Received(k) =>
         k < |s.cases| && |s.log| == 4 * k + 3 &&
         (if k + 1 == |s.cases| then s.caller == Exited(0) && s.results == [] && s.commands == [] else Rests(s, k + 1) && !s.inputClosed)
       case Finished => |s.log| == 4 * |s.cases| && s.caller == Exited(0)
       case Failed => true
  }

  /** How many cases the executor of a live caller has run. */
  function Done(c: Caller): nat {
    match c
    case Reading(j) => j
    case Executing(j) => j
    case Reporting(j) => j + 1
    case Exited(_) => 0
  }

  /** After a failure the adapter's part of the log is closed. */
  predicate FailedOk(s: State) {
    s.cut <= |s.log| && Lockstep(s.log, s.cases, s.cut) &&
    forall p :: s.cut <= p < |s.log| ==> !s.log[p].Started? && !s.log[p].Result?
  }

  predicate Inv(s: State) {
    s.cases != [] && (if s.adapter.Failed? then FailedOk(s) else LiveOk(s))
  }

  predicate AdapterStep(step: Step) {
    step.Announce? || step.SendCommand? || step.TakeResult? || step.SessionFinish? || step.EmitResult? || step.GiveUp?
  }

  /** A case is announced, or a result emitted: the adapter's own records. */
  lemma RecordsKeepInv(s: State, step: Step)
    requires Inv(s) && Enabled(s, step) && (step.Announce? || step.EmitResult?)
    ensures Inv(Apply(s, step))
  {
  }

  lemma SendKeepsInv(s: State, step: Step)
    requires Inv(s) && Enabled(s, step) && step.SendCommand?
    ensures Inv(Apply(s, step))
  {
  }

  lemma TakeKeepsInv(s: State)
    requires Inv(s) && Enabled(s, TakeResult)
    ensures Inv(Apply(s, TakeResult))
  {
  }

  lemma EndsKeepInv(s: State, step: Step)
    requires Inv(s) && Enabled(s, step) && (step.SessionFinish? || step.GiveUp?)
    ensures Inv(Apply(s, step))
  {
  }

  lemma AdapterKeepsInv(s: State, step: Step)
    requires Inv(s) && Enabled(s, step) && AdapterStep(step)
    ensures Inv(Apply(s, step))
  {
    if step.SendCommand? {
      SendKeepsInv(s, step);
    } else if step.TakeResult? {
      TakeKeepsInv(s);
    } else if step.Announce? || step.EmitResult? {
      RecordsKeepInv(s, step);
    } else {
      EndsKeepInv(s, step);
    }
  }

  lemma CallerKeepsLive(s: State, step: Step)
    requires s.cases != [] && LiveOk(s) && !s.adapter.Failed? && Enabled(s, step) && !AdapterStep(step)
    ensures LiveOk(Apply(s, step)) && Apply(s, step).adapter == s.adapter
  {
  }

  lemma CallerKeepsFailed(s: State, step: Step)
    requires FailedOk(s) && s.adapter.Failed? && Enabled(s, step) && !AdapterStep(step)
    ensures FailedOk(Apply(s, step)) && Apply(s, step).adapter.Failed?
  {
  }

  lemma CallerKeepsInv(s: State, step: Step)
    requires Inv(s) && Enabled(s, step) && !AdapterStep(step)
    ensures Inv(Apply(s, step))
  {
    CasesStay(s, step);
    if s.adapter.Failed? { CallerKeepsFailed(s, step); } else { CallerKeepsLive(s, step); }
  }

  lemma {:induction false} RunKeepsInv(trace: seq<State>, steps: seq<Step>, cases: seq<string>, i: nat)
    requires Run(trace, steps, cases) && cases != [] && i < |trace|
    ensures Inv(trace[i]) && trace[i].cases == cases
  {
    if i > 0 {
      RunKeepsInv(trace, steps, cases, i - 1);
      assert Follows(trace, steps, i - 1);
      var (s, step) := (trace[i - 1], steps[i - 1]);
      if AdapterStep(step) { AdapterKeepsInv(s, step); } else { CallerKeepsInv(s, step); }
      CasesStay(s, step);
    }
  }

  lemma CasesStay(s: State, step: Step)
    requires Enabled(s, step)
    ensures Apply(s, step).cases == s.cases
  {
  }

  // ----- what a completed result means -----

  function Executions(log: seq<Event>): seq<string> {
    if log == [] then []
    else
      var rest := Executions(log[..|log| - 1]);
      if log[|log| - 1].Executed? then rest + [log[|log| - 1].caseId] else rest
  }

  function Announcements(log: seq<Event>): seq<string> {
    if log == [] then []
    else
      var rest := Announcements(log[..|log| - 1]);
      if log[|log| - 1].Started? then rest + [log[|log| - 1].caseId] else rest
  }

  lemma Quarters(n: nat)
    ensures n % 4 == 2 ==> (n + 1) / 4 == n / 4 && (n + 2) / 4 == n / 4 + 1
    ensures n % 4 != 2 ==> (n + 2) / 4 == (n + 1) / 4
    ensures n % 4 == 0 ==> (n + 3) / 4 == n / 4 && (n + 4) / 4 == n / 4 + 1
    ensures n % 4 != 0 ==> (n + 4) / 4 == (n + 3) / 4
  {
  }

  lemma OneMoreCase(cases: seq<string>, k: nat)
    requires k < |cases|
    ensures cases[..k + 1] == cases[..k] + [cases[k]]
  {
  }

  lemma {:induction false} ExecutionsInLockstep(log: seq<Event>, cases: seq<string>)
    requires Lockstep(log, cases, |log|)
    ensures Executions(log) == cases[..(|log| + 1) / 4]
    decreases |log|
  {
    if log != [] {
      var n := |log| - 1;
      ExecutionsInLockstep(log[..n], cases);
      assert log[n] == At(cases, n);
      Quarters(n);
      OneMoreCase(cases, n / 4);
    }
  }

  lemma {:induction false} AnnouncementsInLockstep(log: seq<Event>, cases: seq<string>)
    requires Lockstep(log, cases, |log|)
    ensures Announcements(log) == cases[..(|log| + 3) / 4]
    decreases |log|
  {
    if log != [] {
      var n := |log| - 1;
      AnnouncementsInLockstep(log[..n], cases);
      assert log[n] == At(cases, n);
      Quarters(n);
      OneMoreCase(cases, n / 4);
    }
  }

  /**
   When the adapter has emitted a completed result, it is that of the k-th locked case for some k,
   and before it the executor has run exactly the first k, once each and in order, each after its
   announcement; the log up to there is the strict alternation of the two processes.
   */
  lemma ResultsFollowExecution(trace: seq<State>, steps: seq<Step>, cases: seq<string>, i: nat, p: nat)
    requires Run(trace, steps, cases) && cases != [] && i < |trace|
    requires p < |trace[i].log| && trace[i].log[p].Result?
    ensures var k := p / 4;
      && k < |cases| && trace[i].log[p] == Result(cases[k])
      && Lockstep(trace[i].log, cases, p + 1)
      && Executions(trace[i].log[..p]) == cases[..k + 1] && Announcements(trace[i].log[..p]) == cases[..k + 1]
  {
    RunKeepsInv(trace, steps, cases, i);
    var s := trace[i];
    assert s.adapter.Failed? ==> p < s.cut;
    assert s.log[p] == At(cases, p);
    assert p % 4 == 3;
    var before := s.log[..p];
    assert Lockstep(before, cases, |before|);
    ExecutionsInLockstep(before, cases);
    AnnouncementsInLockstep(before, cases);
    assert (p + 1) / 4 == p / 4 + 1 && (p + 3) / 4 == p / 4 + 1;
  }

  /** An adapter that gets through every case has a caller that ran them all and exited cleanly. */
  lemma FinishedMeansAllExecuted(trace: seq<State>, steps: seq<Step>, cases: seq<string>, i: nat)
    requires Run(trace, steps, cases) && cases != [] && i < |trace| && trace[i].adapter == Finished
    ensures Executions(trace[i].log) == cases && trace[i].caller == Exited(0)
  {
    RunKeepsInv(trace, steps, cases, i);
    ExecutionsInLockstep(trace[i].log, cases);
    assert (4 * |cases| + 1) / 4 == |cases|;
    assert cases[..|cases|] == cases;
  }

  // ----- runs that go through -----

  /** Neither process has failed. */
  predicate Alive(s: State) {
    Inv(s) && !s.adapter.Failed? && (s.caller.Exited? ==> s.caller.code == 0)
  }

  /** The step that brings the case under way on, with nothing going wrong. */
  function NextOf(s: State): Step {
    match s.adapter
    case Next(_) => Announce(true)
    case Announced(_) => SendCommand(true, true)
    case Waiting(_) =>
      if s.results != [] then TakeResult
      else if s.caller.Executing? then FinishExecute(true)
      else if s.caller.Reporting? then WriteResult(true)
      else ReadCommand
    case Closing(_) => if s.caller.Exited? then SessionFinish else ReadEnd
    case _ => EmitResult(true)
  }

  /** How far the run is from its end. */
  function Left(s: State): nat {
    match s.adapter
    case Next(k) => From(s, k, 0)
    case Announced(k) => From(s, k, 1)
    case Waiting(k) =>
      From(s, k, if s.results != [] then 5 else if s.caller.Reporting? then 4 else if s.caller.Executing? then 3 else 2)
    case Closing(k) => From(s, k, if s.caller.Exited? then 7 else 6)
    case Received(k) => From(s, k, 8)
    case _ => 0
  }

  function From(s: State, k: nat, done: nat): nat
    requires done < 10
  {
    if k < |s.cases| then 10 * (|s.cases| - k) - done else 0
  }

  predicate GoesThrough(s: State, t: State) { Alive(t) && Left(t) < Left(s) && t.cases == s.cases }

  lemma AdapterGoesOn(s: State)
    requires Alive(s) && (s.adapter.Next? || s.adapter.Announced? || s.adapter.Received?)
    ensures Enabled(s, NextOf(s)) && GoesThrough(s, Apply(s, NextOf(s)))
  {
    AdapterKeepsInv(s, NextOf(s));
  }

  lemma ResultGoesOn(s: State)
    requires Alive(s) && s.adapter.Waiting? && s.results != []
    ensures Enabled(s, NextOf(s)) && GoesThrough(s, Apply(s, NextOf(s)))
  {
    TakeKeepsInv(s);
  }

  lemma CallerGoesOn(s: State)
    requires Alive(s) && s.adapter.Waiting? && s.results == []
    ensures Enabled(s, NextOf(s)) && GoesThrough(s, Apply(s, NextOf(s)))
  {
    CallerKeepsInv(s, NextOf(s));
  }

  lemma ClosingGoesOn(s: State)
    requires Alive(s) && s.adapter.Closing?
    ensures Enabled(s, NextOf(s)) && GoesThrough(s, Apply(s, NextOf(s)))
  {
    if s.caller.Exited? { EndsKeepInv(s, SessionFinish); } else { CallerKeepsInv(s, ReadEnd); }
  }

  lemma StepGoesThrough(s: State)
    requires Alive(s) && !s.adapter.Finished?
    ensures Enabled(s, NextOf(s)) && GoesThrough(s, Apply(s, NextOf(s)))
  {
    match s.adapter
    case Waiting(_) => if s.results != [] { ResultGoesOn(s); } else { CallerGoesOn(s); }
    case Closing(_) => ClosingGoesOn(s);
    case _ => AdapterGoesOn(s);
  }

  /** The steps, taken in a row, lead from s to t. */
  predicate Leads(s: State, steps: seq<Step>, t: State)
    decreases |steps|
  {
    if steps == [] then s == t else Enabled(s, steps[0]) && Leads(Apply(s, steps[0]), steps[1..], t)
  }

  lemma LeadsCons(s: State, step: Step, steps: seq<Step>, t: State)
    requires Enabled(s, step) && Leads(Apply(s, step), steps, t)
    ensures Leads(s, [step] + steps, t)
  {
    assert ([step] + steps)[1..] == steps;
  }

  lemma {:induction false} AliveCanFinish(s: State) returns (steps: seq<Step>, t: State)
    requires Alive(s)
    ensures Leads(s, steps, t) && Alive(t) && t.adapter.Finished? && t.cases == s.cases
    decreases Left(s)
  {
    if s.adapter.Finished? {
      steps, t := [], s;
    } else {
      StepGoesThrough(s);
      steps, t := AliveCanFinish(Apply(s, NextOf(s)));
      LeadsCons(s, NextOf(s), steps, t);
      steps := [NextOf(s)] + steps;
    }
  }

  /**
   As long as neither process has failed, a run can go through to its end: every case announced, begun, executed and
   reported in locked order, once, and the caller gone with code 0.
   */
  lemma RunsCanFinish(trace: seq<State>, steps: seq<Step>, cases: seq<string>, i: nat) returns (more: seq<Step>, t: State)
    requires Run(trace, steps, cases) && cases != [] && i < |trace|
    requires !trace[i].adapter.Failed? && (trace[i].caller.Exited? ==> trace[i].caller.code == 0)
    ensures Leads(trace[i], more, t) && t.adapter.Finished? && t.caller == Exited(0)
    ensures |t.log| == 4 * |cases| && Lockstep(t.log, cases, 4 * |cases|) && Executions(t.log) == cases
  {
    RunKeepsInv(trace, steps, cases, i);
    more, t := AliveCanFinish(trace[i]);
    ExecutionsInLockstep(t.log, cases);
    assert (4 * |cases| + 1) / 4 == |cases| && cases[..|cases|] == cases;
  }
}
