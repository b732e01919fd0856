/** A Close can always run to its end, and what Revoke waits for are permits that there are. */
module GatewayProgress {
  import opened Prelude
  import opened GatewayState
  import opened GatewayInvariant
  import opened GatewayCalls

  // ----- one Close -----

  function CloserRank(pc: Pc): nat {
    match pc
    case Idle => 8
    case Enter => 7
    case Owe(rest) => 3 + |rest|
    case Unlist => 2
    case Signal => 1
    case Over => 0
  }

  /** What is left of a permit's Close, and of the attach call that holds its mutex. */
  function Work(m: Permit): nat {
    CloserRank(m.closer) + (if m.lock.Some? then 1 else 0)
  }

  /** The step that brings a permit's Close on: its own next one, or the one that frees the mutex. */
  function NextOfClose(s: State, p: nat): Step
    requires p < |s.permits| && !s.permits[p].closer.Over?
  {
    var m := s.permits[p];
    match m.closer
    case Idle => CloseCall(p)
    case Enter => if m.lock.Some? then AttachStore(m.lock.value) else EnterClosing(Closer, p)
    case Owe(rest) => if rest == [] then LeaveClosing(Closer, p) else ClosePhysically(Closer, p)
    case Unlist => UnlistPermit(p)
    case Signal => SignalDone(p)
    case Over => CloseCall(p)
  }

  /** It can be taken, and there is less left to do. */
  predicate Advances(s: State, step: Step, p: nat)
    requires p < |s.permits|
  {
    && Enabled(s, step) && var t := Apply(s, step);
    && |t.permits| == |s.permits| && Work(t.permits[p]) < Work(s.permits[p]) && t.revokers == s.revokers
  }

  lemma EnterAdvances(s: State, p: nat)
    requires p < |s.permits| && ThreadsOk(s.permits[p]) && HoldsOk(s, p) && s.permits[p].closer.Enter?
    ensures Advances(s, NextOfClose(s, p), p)
  {
    var m := s.permits[p];
    if m.lock.None? && m.frontend.Some? {
      assert |Captured(m)| == 2;
    }
  }

  lemma OweAdvances(s: State, p: nat)
    requires p < |s.permits| && s.permits[p].closer.Owe?
    ensures Advances(s, NextOfClose(s, p), p)
  {
  }

  lemma EndsAdvance(s: State, p: nat)
    requires p < |s.permits| && (s.permits[p].closer.Idle? || s.permits[p].closer.Unlist? || s.permits[p].closer.Signal?)
    ensures Advances(s, NextOfClose(s, p), p)
  {
  }

  lemma CloseAdvances(s: State, p: nat)
    requires Inv(s) && p < |s.permits| && !s.permits[p].closer.Over?
    ensures Advances(s, NextOfClose(s, p), p)
  {
    assert ThreadsOk(s.permits[p]) && HoldsOk(s, p);
    if s.permits[p].closer.Enter? {
      EnterAdvances(s, p);
    } else if s.permits[p].closer.Owe? {
      OweAdvances(s, p);
    } else {
      EndsAdvance(s, p);
    }
  }

  /** The steps that let a Close come to its end: its own, and the store of the attach call that holds the mutex. */
  predicate Helps(step: Step) {
    step.CloseCall? || step.EnterClosing? || step.ClosePhysically? || step.LeaveClosing? || step.UnlistPermit? ||
    step.SignalDone? || step.AttachStore?
  }

  predicate AllHelp(steps: seq<Step>) { forall i :: 0 <= i < |steps| ==> Helps(steps[i]) }

  /** From any state that keeps the invariant, steps lead to one that keeps it too. */
  ghost predicate Path(s: State, steps: seq<Step>, t: State) {
    AllHelp(steps) && Leads(s, steps, t) && Inv(t)
  }

  lemma PathCons(s: State, step: Step, steps: seq<Step>, t: State)
    requires Enabled(s, step) && Helps(step) && Path(Apply(s, step), steps, t)
    ensures Path(s, [step] + steps, t)
  {
    LeadsCons(s, step, steps, t);
  }

  lemma NextHelps(s: State, p: nat)
    requires p < |s.permits| && !s.permits[p].closer.Over?
    ensures Helps(NextOfClose(s, p))
  {
  }

  /** The Close of any permit can run to its end, whatever else is going on. */
  lemma {:induction false} CloseCanFinish(s: State, p: nat) returns (steps: seq<Step>, t: State)
    requires Inv(s) && p < |s.permits|
    ensures Path(s, steps, t) && |t.permits| == |s.permits| && t.permits[p].done && t.revokers == s.revokers
    decreases Work(s.permits[p])
  {
    if s.permits[p].closer.Over? {
      steps, t := [], s;
      assert ThreadsOk(s.permits[p]);
    } else {
      var step := NextOfClose(s, p);
      CloseAdvances(s, p);
      NextHelps(s, p);
      StepKeepsInv(s, step);
      var more;
      more, t := CloseCanFinish(Apply(s, step), p);
      PathCons(s, step, more, t);
      steps := [step] + more;
    }
  }

  // ----- Revoke -----

  /** Revoke waits for permits that there are. */
  predicate WaitsForPermits(s: State) {
    forall r, p :: 0 <= r < |s.revokers| && p in s.revokers[r].waiting ==> p < |s.permits|
  }

  lemma RevokersFrame(s: State, step: Step)
    requires Enabled(s, step) && !step.Revoke? && !step.RevokeWait? && !step.RevokeReturn? && !step.RevokeGiveUp?
    ensures Apply(s, step).revokers == s.revokers
  {
  }

  lemma MarkWaits(s: State, presented: Option<Key>, subject: string)
    requires Inv(s) && WaitsForPermits(s)
    ensures WaitsForPermits(ApplyRevoke(s, presented, subject))
  {
    var v := RevokeVerdict(s, presented, subject);
    if v.Ok? && v.value < |s.grants| { assert GrantOk(s, v.value); }
  }

  lemma RevokerStepWaits(s: State, step: Step)
    requires WaitsForPermits(s) && Enabled(s, step) && (step.RevokeWait? || step.RevokeReturn? || step.RevokeGiveUp?)
    ensures WaitsForPermits(Apply(s, step))
  {
  }

  lemma PermitsOnlyGrow(s: State, step: Step)
    requires Enabled(s, step)
    ensures |s.permits| <= |Apply(s, step).permits|
  {
  }

  lemma StepKeepsWaits(s: State, step: Step)
    requires Inv(s) && WaitsForPermits(s) && Enabled(s, step)
    ensures WaitsForPermits(Apply(s, step))
  {
    if step.Revoke? {
      MarkWaits(s, step.presented, step.subject);
    } else if step.RevokeWait? || step.RevokeReturn? || step.RevokeGiveUp? {
      RevokerStepWaits(s, step);
    } else {
      RevokersFrame(s, step);
      PermitsOnlyGrow(s, step);
    }
  }
}
