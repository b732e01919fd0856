/**
 The two counters of the case protocol, the adapter's caller session and the caller's executor,
 and the steps of AdapterPipeline that their calls are.
 */
module SessionObjects {
  import opened Prelude
  import AP = AdapterPipeline

  // ----- the caller session -----

  /** How a case goes once its command is due: the deadline, the pipes, the result and the caller's exit. */
  datatype Link = Link(inTime: bool, sent: bool, result: Option<string>, exited: bool)

  /** The case due is the only one run, on its own result, and the last needs the caller to have exited cleanly. */
  predicate Runs(cases: seq<string>, next: nat, done: bool, caseId: string, link: Link) {
    && !done && next < |cases| && caseId == cases[next]
    && link.inTime && link.sent && link.result == Some(caseId) && (next + 1 == |cases| ==> link.exited)
  }

  /** A live caller session after its first result. */
  class Session {
    const cases: seq<string>
    var next: nat
    var done: bool
    ghost var answered: seq<string>

    ghost predicate Valid()
      reads this
    {
      1 <= next <= |cases| && answered == cases[..next] && (next == |cases| ==> done)
    }

    /** Made by Start when the phase has more than one case and the first has been answered. */
    constructor (locked: seq<string>)
      requires |locked| > 1
      ensures Valid() && cases == locked && next == 1 && !done
    {
      cases, next, done, answered := locked, 1, false, locked[..1];
    }

    /**
     Run: only the next locked case is sent, and a result is returned only for that case; anything
     else ends the session.
     */
    method Run(caseId: string, link: Link) returns (ok: bool)
      requires Valid()
      modifies this
      ensures Valid()
      ensures ok <==> Runs(cases, old(next), old(done), caseId, link)
      ensures ok <==>
        && !old(done) && old(next) < |cases| && caseId == cases[old(next)]
        && link.inTime && link.sent && link.result == Some(caseId) && (old(next) + 1 < |cases| || link.exited)
      ensures ok ==> next == old(next) + 1 && answered == old(answered) + [caseId] && done == (next == |cases|)
      ensures !ok ==> next == old(next) && answered == old(answered) && done
    {
      if done { return false; }
      if caseId != cases[next] || !link.inTime || !link.sent || link.result != Some(caseId) {
        done := true;
        return false;
      }
      if next + 1 == |cases| {
        done := true;
        if !link.exited { return false; }
      }
      assert cases[..next + 1] == cases[..next] + [cases[next]];
      next, answered := next + 1, answered + [caseId];
      ok := true;
    }
  }

  /** The adapter has announced case k and its session has not ended. */
  predicate Due(s: AP.State, k: nat) {
    k < |s.cases| && s.adapter == AP.Announced(k)
  }

  /** A later state in which the session still waits for the result of case k, and finds there what link says. */
  predicate Arrives(s: AP.State, k: nat, link: Link, arrival: AP.State) {
    && arrival.cases == s.cases && arrival.adapter == AP.Waiting(k)
    && (link.result.Some? ==> arrival.results != [] && arrival.results[0] == link.result.value)
  }

  /** A later state in which the caller is gone; link tells whether it left cleanly. */
  predicate Leaves(s: AP.State, k: nat, link: Link, ending: AP.State) {
    && ending.cases == s.cases && ending.adapter == AP.Closing(k) && ending.caller.Exited?
    && (link.exited <==> ending.caller.code == 0 && ending.results == [])
  }

  /** What the machine makes of the session's call: an accepted result, or the end of the session. */
  predicate Comes(ok: bool, k: nat, t: AP.State) {
    t.adapter == if ok then AP.Received(k) else AP.Failed
  }

  /** A session that gives up before it writes, or on a result that never comes, is the step GiveUp. */
  lemma EndedIsGiveUp(s: AP.State, k: nat, link: Link, arrival: AP.State, recorded: bool)
    requires Due(s, k)
    ensures AP.Enabled(s, AP.GiveUp(recorded))
    ensures !link.inTime ==> Comes(Runs(s.cases, k, false, s.cases[k], link), k, AP.Apply(s, AP.GiveUp(recorded)))
    ensures Arrives(s, k, link, arrival) ==> AP.Enabled(arrival, AP.GiveUp(recorded))
    ensures link.result.None? && Arrives(s, k, link, arrival) ==>
              Comes(Runs(s.cases, k, false, s.cases[k], link), k, AP.Apply(arrival, AP.GiveUp(recorded)))
  {
  }

  /** Writing the command is the step SendCommand; a failed write ends the session. */
  lemma WrittenIsSendCommand(s: AP.State, k: nat, link: Link, delivered: bool)
    requires Due(s, k) && link.inTime
    ensures var step := AP.SendCommand(link.sent, delivered);
      AP.Enabled(s, step) && var t := AP.Apply(s, step);
      if link.sent then t.adapter == AP.Waiting(k) && t.commands == s.commands + [s.cases[k]]
      else Comes(Runs(s.cases, k, false, s.cases[k], link), k, t)
  {
  }

  /** A result is the step TakeResult, and the clean exit asked for after the last one the step SessionFinish. */
  lemma ResultIsTaken(s: AP.State, k: nat, link: Link, arrival: AP.State, ending: AP.State)
    requires Due(s, k) && link.inTime && link.sent && link.result.Some?
    requires Arrives(s, k, link, arrival) && Leaves(s, k, link, ending)
    ensures AP.Enabled(arrival, AP.TakeResult) && AP.Enabled(ending, AP.SessionFinish)
    ensures var t := AP.Apply(arrival, AP.TakeResult);
      var ok := Runs(s.cases, k, false, s.cases[k], link);
      if link.result.value == s.cases[k] && k + 1 == |s.cases|
      then t.adapter == AP.Closing(k) && Comes(ok, k, AP.Apply(ending, AP.SessionFinish))
      else Comes(ok, k, t)
  {
  }

  // ----- the executor -----

  /** The case due at this turn in one phase or the other. */
  predicate Takes(initialCases: seq<string>, reconstructionCases: seq<string>, caseId: string, at: nat) {
    (at < |initialCases| && caseId == initialCases[at]) || (at < |reconstructionCases| && caseId == reconstructionCases[at])
  }

  /** The executor of a caller process. */
  class Executor {
    const initialCases: seq<string>
    const reconstructionCases: seq<string>
    var next: nat
    ghost var executed: seq<string>

    constructor (initialLocked: seq<string>, reconstructionLocked: seq<string>)
      ensures initialCases == initialLocked && reconstructionCases == reconstructionLocked && next == 0 && executed == []
    {
      initialCases, reconstructionCases, next, executed := initialLocked, reconstructionLocked, 0, [];
    }

    /** Every execution so far was the case due at its turn. */
    ghost predicate Valid()
      reads this
    {
      next == |executed| && forall k :: 0 <= k < next ==> Takes(initialCases, reconstructionCases, executed[k], k)
    }

    /** Execute: a case out of turn is refused before its body runs, and a failed body does not advance. */
    method Execute(caseId: string, bodySucceeds: bool) returns (ok: bool)
      requires Valid()
      modifies this
      ensures Valid()
      ensures ok <==> Takes(initialCases, reconstructionCases, caseId, old(next)) && bodySucceeds
      ensures ok ==> bodySucceeds
      ensures bodySucceeds ==>
        (ok <==> (old(next) < |initialCases| && initialCases[old(next)] == caseId) ||
                 (old(next) < |reconstructionCases| && reconstructionCases[old(next)] == caseId))
      ensures ok ==> executed == old(executed) + [caseId] && next == old(next) + 1
      ensures !ok ==> executed == old(executed) && next == old(next)
    {
      if !Takes(initialCases, reconstructionCases, caseId, next) || !bodySucceeds { return false; }
      next, executed := next + 1, executed + [caseId];
      ok := true;
    }

    /** Commanded only with the cases of one phase, the executor runs a prefix of them, in order. */
    method ExecuteAll(commands: seq<string>, outcomes: seq<bool>) returns (n: nat)
      requires Valid() && next == 0 && |outcomes| == |commands|
      modifies this
      ensures Valid() && n <= |commands| && executed == commands[..n]
      ensures forall k :: 0 <= k < n ==> Takes(initialCases, reconstructionCases, commands[k], k) && outcomes[k]
      ensures n < |commands| ==> !Takes(initialCases, reconstructionCases, commands[n], n) || !outcomes[n]
    {
      n := 0;
      while n < |commands|
        invariant Valid() && n <= |commands| && next == n && executed == commands[..n]
        invariant forall k :: 0 <= k < n ==> Takes(initialCases, reconstructionCases, commands[k], k) && outcomes[k]
      {
        var ok := Execute(commands[n], outcomes[n]);
        if !ok { return; }
        assert commands[..n + 1] == commands[..n] + [commands[n]];
        n := n + 1;
      }
    }
  }

  /** The process's own list is one of the executor's two, and the machine's other is the other one. */
  predicate Knows(initialCases: seq<string>, reconstructionCases: seq<string>, s: AP.State) {
    (s.cases == initialCases && s.other == reconstructionCases) || (s.cases == reconstructionCases && s.other == initialCases)
  }

  /**
   A call of Execute on a command that has passed the process's own check is the steps ReadCommand
   and FinishExecute: its body begins exactly if the case is due, and only its success is logged.
   */
  lemma ExecuteIsTwoSteps(initialCases: seq<string>, reconstructionCases: seq<string>, s: AP.State, bodySucceeds: bool)
    requires Knows(initialCases, reconstructionCases, s) && s.caller.Reading? && s.caller.j < |s.cases|
    requires s.commands != [] && s.commands[0] == s.cases[s.caller.j]
    ensures var id := s.commands[0];
      var begun := AP.Apply(s, AP.ReadCommand);
      if Takes(initialCases, reconstructionCases, id, s.executorNext) then
        AP.Enabled(begun, AP.FinishExecute(bodySucceeds)) && var t := AP.Apply(begun, AP.FinishExecute(bodySucceeds));
        && t.executorNext == s.executorNext + (if bodySucceeds then 1 else 0)
        && AP.Executions(t.log) == AP.Executions(s.log) + (if bodySucceeds then [id] else [])
        && (t.caller.Reporting? <==> bodySucceeds) && (t.caller.Exited? <==> !bodySucceeds)
      else
        begun.caller == AP.Exited(70) && begun.executorNext == s.executorNext && begun.log == s.log
  {
    var id := s.commands[0];
    if Takes(initialCases, reconstructionCases, id, s.executorNext) {
      var begun := AP.Apply(s, AP.ReadCommand);
      LogGrows(s.log, AP.Begun(id));
      if bodySucceeds { LogGrows(begun.log, AP.Executed(id)); }
    }
  }

  lemma LogGrows(log: seq<AP.Event>, event: AP.Event)
    ensures AP.Executions(log + [event]) == AP.Executions(log) + (if event.Executed? then [event.caseId] else [])
  {
    assert (log + [event])[..|log|] == log;
  }
}
