/** A Revoke that waits in the live service can return: the handlers already there can all be brought to their Close. */
module GatewayWaiting {
  import opened Prelude
  import opened GatewayState
  import opened GatewayInvariant
  import opened GatewayProgress
  import opened GatewayServe
  import opened GatewayDrain

  /** The service's invariant, and its revokers wait for permits that there are. */
  ghost predicate Sane(s: Service) { Good(s) && WaitsForPermits(s.gateway) }

  lemma SaneNext(s: Service, step: ServeStep)
    requires Sane(s) && CanServe(s, step)
    ensures Sane(Serve(s, step))
  {
    GoodNext(s, step);
    KeepsWaits(s, step);
  }

  lemma KeepsWaits(s: Service, step: ServeStep)
    requires Sane(s) && CanServe(s, step)
    ensures WaitsForPermits(Serve(s, step).gateway)
  {
    match step
    case Install(_) =>
    case Command(g) => StepKeepsWaits(s.gateway, g);
    case Background(g) => StepKeepsWaits(s.gateway, g);
    case _ => HandlersKeepWaits(s, step);
  }

  lemma HandlersKeepWaits(s: Service, step: ServeStep)
    requires Sane(s) && CanServe(s, step) && !step.Install? && !step.Command? && !step.Background?
    ensures WaitsForPermits(Serve(s, step).gateway)
  {
    if LeavesGateway(step) {
      GatewayLeft(s, step);
    } else if step.Connect? || step.StartAttach? {
      OpenersKeepWaits(s, step);
    } else {
      CallCloseWaits(s, step.h);
    }
  }

  lemma OpenersKeepWaits(s: Service, step: ServeStep)
    requires Sane(s) && CanServe(s, step) && (step.Connect? || step.StartAttach?)
    ensures WaitsForPermits(Serve(s, step).gateway)
  {
    StepKeepsWaits(s.gateway, if step.Connect? then Begin(step.presented, step.subject) else AttachCall(s.handlers[step.h].permit.value));
  }

  lemma CallCloseWaits(s: Service, h: nat)
    requires Sane(s) && HasPermit(s, h)
    ensures WaitsForPermits(CallClose(s, h))
  {
    var p := s.handlers[h].permit.value;
    if s.gateway.permits[p].closer.Idle? { StepKeepsWaits(s.gateway, CloseCall(p)); }
  }

  lemma {:induction false} RunIsSane(trace: seq<Service>, steps: seq<ServeStep>, clock: int, i: nat)
    requires ServeRun(trace, steps, clock) && i < |trace|
    ensures Sane(trace[i])
  {
    if i == 0 {
      InitIsGood(clock);
    } else {
      RunIsSane(trace, steps, clock, i - 1);
      assert Served(trace, steps, i - 1);
      SaneNext(trace[i - 1], steps[i - 1]);
    }
  }

  // ----- paths on which nothing new arrives -----

  /** No request, no command, and no handler let through the gate, which the command loop's mutex blocks meanwhile. */
  predicate NothingNew(step: ServeStep) {
    !step.Arrive? && !step.Gate? && !step.Connect? && !step.StartAttach? && !step.Install? && !step.Command? && !step.StopCommand?
  }

  ghost predicate Way(s: Service, steps: seq<ServeStep>, t: Service)
    decreases |steps|
  {
    if steps == [] then t == s
    else CanServe(s, steps[0]) && NothingNew(steps[0]) && Way(Serve(s, steps[0]), steps[1..], t)
  }

  lemma WayCons(s: Service, step: ServeStep, steps: seq<ServeStep>, t: Service)
    requires CanServe(s, step) && NothingNew(step) && Way(Serve(s, step), steps, t)
    ensures Way(s, [step] + steps, t)
  {
    assert ([step] + steps)[1..] == steps;
  }

  lemma {:induction false} WayOn(s: Service, steps: seq<ServeStep>, t: Service, more: seq<ServeStep>, u: Service)
    requires Way(s, steps, t) && Way(t, more, u)
    ensures Way(s, steps + more, u)
    decreases |steps|
  {
    if steps == [] {
      assert steps + more == more;
    } else {
      WayOn(Serve(s, steps[0]), steps[1..], t, more, u);
      assert steps + more == [steps[0]] + (steps[1..] + more);
      WayCons(s, steps[0], steps[1..] + more, u);
    }
  }

  // ----- a permit's handler brings it to its Close -----

  lemma NextIsNothingNew(s: Service, h: nat)
    requires ServeInv(s) && h < |s.handlers| && Placed(s, h) && Active(s.handlers[h])
    ensures NothingNew(NextOf(s, h))
  {
  }

  lemma NextKeepsRevokers(s: Service, h: nat)
    requires ServeInv(s) && h < |s.handlers| && Placed(s, h) && Active(s.handlers[h]) && CanServe(s, NextOf(s, h))
    ensures Serve(s, NextOf(s, h)).gateway.revokers == s.gateway.revokers
  {
    var step := NextOf(s, h);
    if step.Background? {
      NextOfHandlerIsCloseOrAttach(s, h);
      RevokersFrame(s.gateway, step.step);
    } else if !LeavesGateway(step) {
      CallCloseKeepsRevokers(s, h);
    }
  }

  lemma NextOfHandlerIsCloseOrAttach(s: Service, h: nat)
    requires h < |s.handlers| && Placed(s, h) && Active(s.handlers[h]) && NextOf(s, h).Background?
    ensures var step := NextOf(s, h).step; !step.Revoke? && !step.RevokeWait? && !step.RevokeReturn? && !step.RevokeGiveUp?
  {
  }

  lemma CallCloseKeepsRevokers(s: Service, h: nat)
    requires HasPermit(s, h)
    ensures CallClose(s, h).revokers == s.gateway.revokers
  {
  }

  /** The handler of an unfinished permit has not left. */
  lemma OwnerIsActive(s: Service, p: nat, h: nat)
    requires ServeInv(s) && p < |s.gateway.permits| && h < |s.handlers| && s.handlers[h].permit == Some(p)
    ensures Active(s.handlers[h]) || s.gateway.permits[p].done
  {
    assert HandlerOk(s, h) && ThreadsOk(s.gateway.permits[p]);
  }

  lemma {:induction false} HandlerCanClose(s: Service, p: nat, h: nat) returns (steps: seq<ServeStep>, t: Service)
    requires Sane(s) && p < |s.gateway.permits| && h < |s.handlers| && s.handlers[h].permit == Some(p)
    ensures Way(s, steps, t) && Sane(t) && t.gateway.revokers == s.gateway.revokers
    ensures p < |t.gateway.permits| && t.gateway.permits[p].done
    decreases Active(s.handlers[h]), Left(s, s.handlers[h])
  {
    OwnerIsActive(s, p, h);
    if s.gateway.permits[p].done {
      steps, t := [], s;
    } else {
      assert Placed(s, h);
      var step, next := HandlerMoves(s, p, h);
      var more;
      more, t := HandlerCanClose(next, p, h);
      WayCons(s, step, more, t);
      steps := [step] + more;
    }
  }

  lemma HandlerMoves(s: Service, p: nat, h: nat) returns (step: ServeStep, t: Service)
    requires Sane(s) && p < |s.gateway.permits| && h < |s.handlers| && s.handlers[h].permit == Some(p) && Active(s.handlers[h])
    ensures CanServe(s, step) && NothingNew(step) && t == Serve(s, step) && Sane(t) && t.gateway.revokers == s.gateway.revokers
    ensures p < |t.gateway.permits| && h < |t.handlers| && t.handlers[h].permit == Some(p)
    ensures !Active(t.handlers[h]) || Left(t, t.handlers[h]) < Left(s, s.handlers[h])
  {
    assert Placed(s, h);
    step := NextOf(s, h);
    NextMovesOn(s, h);
    NextIsNothingNew(s, h);
    NextKeepsRevokers(s, h);
    SaneNext(s, step);
    ServicePermitsStay(s, step, p);
    PermitKept(s, step, h);
    t := Serve(s, step);
  }

  lemma PermitCanBeDone(s: Service, p: nat) returns (steps: seq<ServeStep>, t: Service)
    requires Sane(s) && p < |s.gateway.permits|
    ensures Way(s, steps, t) && Sane(t) && t.gateway.revokers == s.gateway.revokers
    ensures p < |t.gateway.permits| && t.gateway.permits[p].done
  {
    assert Owned(s, p);
    var h :| 0 <= h < |s.handlers| && s.handlers[h].permit == Some(p);
    steps, t := HandlerCanClose(s, p, h);
  }

  // ----- Revoke -----

  predicate StillWaits(s: Service, r: nat) { r < |s.gateway.revokers| && s.gateway.revokers[r].pc == Waiting }

  predicate HasReturned(s: Service, r: nat) { r < |s.gateway.revokers| && s.gateway.revokers[r].pc == Acknowledged }

  lemma WaitedOnce(s: Service, r: nat, p: nat)
    requires Sane(s) && StillWaits(s, r) && p in s.gateway.revokers[r].waiting && p < |s.gateway.permits| && s.gateway.permits[p].done
    ensures var step := Background(RevokeWait(r, p)); CanServe(s, step) && NothingNew(step) && Sane(Serve(s, step))
    ensures var t := Serve(s, Background(RevokeWait(r, p)));
      StillWaits(t, r) && t.gateway.revokers[r].waiting == s.gateway.revokers[r].waiting - {p}
  {
    SaneNext(s, Background(RevokeWait(r, p)));
  }

  lemma ReturnsAtOnce(s: Service, r: nat)
    requires Sane(s) && StillWaits(s, r) && s.gateway.revokers[r].waiting == {}
    ensures CanServe(s, Background(RevokeReturn(r)))
    ensures var t := Serve(s, Background(RevokeReturn(r))); Way(s, [Background(RevokeReturn(r))], t) && HasReturned(t, r)
  {
    var step := Background(RevokeReturn(r));
    assert Way(Serve(s, step), [], Serve(s, step));
    WayCons(s, step, [], Serve(s, step));
    assert [step] + [] == [step];
  }

  lemma {:induction false} WaitCanEnd(s: Service, r: nat) returns (steps: seq<ServeStep>, t: Service)
    requires Sane(s) && StillWaits(s, r)
    ensures Way(s, steps, t) && HasReturned(t, r)
    decreases s.gateway.revokers[r].waiting
  {
    if s.gateway.revokers[r].waiting == {} {
      steps, t := [Background(RevokeReturn(r))], Serve(s, Background(RevokeReturn(r)));
      ReturnsAtOnce(s, r);
    } else {
      var p :| p in s.gateway.revokers[r].waiting;
      var closing, s1 := PermitCanBeDone(s, p);
      var step := Background(RevokeWait(r, p));
      WaitedOnce(s1, r, p);
      var rest;
      rest, t := WaitCanEnd(Serve(s1, step), r);
      WayCons(s1, step, rest, t);
      WayOn(s, closing, s1, [step] + rest, t);
      steps := closing + ([step] + rest);
    }
  }

  /**
   Revoke's wait cannot be stuck in the live service: from every moment of every run, what is
   already there can lead to the acknowledgement, with no request, no command and no handler
   past the closing gate in between: backends and clients that end, the handlers' own code, the
   attach calls and Close calls under way, and the wait itself.
   */
  lemma RevokeCanReturn(trace: seq<Service>, steps: seq<ServeStep>, clock: int, i: nat, r: nat)
    requires ServeRun(trace, steps, clock) && i < |trace| && StillWaits(trace[i], r)
    ensures exists more, t :: Way(trace[i], more, t) && HasReturned(t, r)
  {
    RunIsSane(trace, steps, clock, i);
    var more, t := WaitCanEnd(trace[i], r);
    assert Way(trace[i], more, t);
  }
}
