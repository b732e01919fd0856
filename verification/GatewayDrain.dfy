/** The stop command of the live service can always be answered: draining cannot be stuck. */
module GatewayDrain {
  import opened Prelude
  import opened GatewayState
  import opened GatewayInvariant
  import opened GatewayProgress
  import opened GatewayServe

  // ----- where handlers can be -----

  /** A handler has the permit, the attach call and the tunnel that its place in the code needs. */
  predicate Placed(s: Service, h: nat)
    requires h < |s.handlers|
  {
    var x := s.handlers[h];
    && (x.pc.Holding? || x.pc.Attaching? || x.pc.Tunnelling? || x.pc.Deferred? ==> HasPermit(s, h))
    && (x.pc.Attaching? ==> x.pc.call < |s.gateway.calls| && x.permit == Some(s.gateway.calls[x.pc.call].permit))
    && (x.pc.Tunnelling? ==> x.copies.Some?)
    && (x.pc == Tunnelling(ClosingPermit) && HasPermit(s, h) ==> !PermitOf(s, h).closer.Idle?)
  }

  ghost predicate AllPlaced(s: Service) { forall h :: 0 <= h < |s.handlers| ==> Placed(s, h) }

  /** What the Gateway's steps leave of what a handler relies on. */
  predicate Outlasts(s: State, t: State) {
    && |s.permits| <= |t.permits| && |s.calls| <= |t.calls|
    && (forall p :: 0 <= p < |s.permits| && !s.permits[p].closer.Idle? ==> !t.permits[p].closer.Idle?)
    && (forall a :: 0 <= a < |s.calls| ==> t.calls[a].permit == s.calls[a].permit)
  }

  lemma StepOutlasts(s: State, step: Step)
    requires Enabled(s, step)
    ensures Outlasts(s, Apply(s, step))
  {
    forall a | 0 <= a < |s.calls|
      ensures a < |Apply(s, step).calls| && Apply(s, step).calls[a].permit == s.calls[a].permit
    {
      CallFrame(s, step, a);
    }
    forall p | 0 <= p < |s.permits|
      ensures p < |Apply(s, step).permits| && (!s.permits[p].closer.Idle? ==> !Apply(s, step).permits[p].closer.Idle?)
    {
      CloserStaysBusy(s, step, p);
    }
    PermitsOnlyGrow(s, step);
    CallsOnlyGrow(s, step);
  }

  lemma CallsOnlyGrow(s: State, step: Step)
    requires Enabled(s, step)
    ensures |s.calls| <= |Apply(s, step).calls|
  {
  }

  lemma CloserStaysBusy(s: State, step: Step, p: nat)
    requires Enabled(s, step) && p < |s.permits|
    ensures p < |Apply(s, step).permits| && (!s.permits[p].closer.Idle? ==> !Apply(s, step).permits[p].closer.Idle?)
  {
    if OnThread(step) {
      BusyInThread(s, step, p);
    } else if OnPermit(step) {
      BusyOnPermit(s, step, p);
    } else {
      BusyElsewhere(s, step, p);
    }
  }

  lemma BusyInThread(s: State, step: Step, p: nat)
    requires Enabled(s, step) && p < |s.permits| && OnThread(step)
    ensures p < |Apply(s, step).permits| && (!s.permits[p].closer.Idle? ==> !Apply(s, step).permits[p].closer.Idle?)
  {
  }

  lemma BusyOnPermit(s: State, step: Step, p: nat)
    requires Enabled(s, step) && p < |s.permits| && OnPermit(step) && !OnThread(step)
    ensures p < |Apply(s, step).permits| && (!s.permits[p].closer.Idle? ==> !Apply(s, step).permits[p].closer.Idle?)
  {
  }

  lemma BusyElsewhere(s: State, step: Step, p: nat)
    requires Enabled(s, step) && p < |s.permits| && !OnPermit(step)
    ensures p < |Apply(s, step).permits| && (!s.permits[p].closer.Idle? ==> !Apply(s, step).permits[p].closer.Idle?)
  {
  }

  lemma OutlastsSame(s: State)
    ensures Outlasts(s, s)
  {
  }

  lemma CallCloseOutlasts(s: Service, h: nat)
    requires HasPermit(s, h)
    ensures Outlasts(s.gateway, CallClose(s, h)) && s.handlers[h].permit.value < |CallClose(s, h).permits|
    ensures !CallClose(s, h).permits[s.handlers[h].permit.value].closer.Idle?
  {
    var p := s.handlers[h].permit.value;
    if s.gateway.permits[p].closer.Idle? { StepOutlasts(s.gateway, CloseCall(p)); } else { OutlastsSame(s.gateway); }
  }

  lemma ServeOutlasts(s: Service, step: ServeStep)
    requires CanServe(s, step) && (step.Install? ==> s.gateway.permits == [] && s.gateway.calls == [])
    ensures Outlasts(s.gateway, Serve(s, step).gateway)
  {
    match step
    case Command(g) => StepOutlasts(s.gateway, g);
    case Background(g) => StepOutlasts(s.gateway, g);
    case Connect(h, presented, subject) => StepOutlasts(s.gateway, Begin(presented, subject));
    case StartAttach(h) => StepOutlasts(s.gateway, AttachCall(s.handlers[h].permit.value));
    case FirstEnded(h) => CallCloseOutlasts(s, h);
    case RunDeferred(h) => CallCloseOutlasts(s, h);
    case Install(_) =>
    case _ => OutlastsSame(s.gateway);
  }

  lemma PlacedStays(s: Service, t: Service, h: nat)
    requires h < |s.handlers| && h < |t.handlers| && t.handlers[h] == s.handlers[h] && Placed(s, h) && Outlasts(s.gateway, t.gateway)
    ensures Placed(t, h)
  {
  }

  lemma NothingYet(s: Service)
    requires ServeInv(s) && !s.installed
    ensures s.gateway.calls == []
  {
    CallsNeedPermits(s.gateway);
  }

  lemma CallsNeedPermits(s: State)
    requires Inv(s)
    ensures s.calls != [] ==> s.permits != []
  {
    if s.calls != [] { assert CallOk(s, 0); }
  }

  lemma MoverPlaced(s: Service, step: ServeStep, h: nat)
    requires ServeInv(s) && CanServe(s, step) && Mover(step) == h && h < |s.handlers| && Placed(s, h)
    ensures h < |Serve(s, step).handlers| && Placed(Serve(s, step), h)
  {
    if LeavesGateway(step) {
      PlainMoverPlaced(s, step, h);
    } else {
      ServeOutlasts(s, step);
      if step.FirstEnded? || step.RunDeferred? { CallCloseOutlasts(s, h); }
    }
  }

  lemma PlainMoverPlaced(s: Service, step: ServeStep, h: nat)
    requires ServeInv(s) && CanServe(s, step) && Mover(step) == h && h < |s.handlers| && Placed(s, h) && LeavesGateway(step)
    ensures h < |Serve(s, step).handlers| && Placed(Serve(s, step), h)
  {
    GatewayLeft(s, step);
    assert HandlerOk(s, h);
  }

  lemma KeepsPlaced(s: Service, step: ServeStep)
    requires ServeInv(s) && AllPlaced(s) && CanServe(s, step)
    ensures AllPlaced(Serve(s, step))
  {
    if step.Install? { NothingYet(s); }
    ServeOutlasts(s, step);
    var t := Serve(s, step);
    forall h | 0 <= h < |t.handlers| ensures Placed(t, h) {
      if h < |s.handlers| {
        assert Placed(s, h);
        if Mover(step) == h {
          MoverPlaced(s, step, h);
        } else {
          OthersStay(s, step, h);
          PlacedStays(s, t, h);
        }
      }
    }
  }

  /** The service's invariant, with every handler in its place. */
  ghost predicate Good(s: Service) { ServeInv(s) && AllPlaced(s) }

  lemma GoodNext(s: Service, step: ServeStep)
    requires Good(s) && CanServe(s, step)
    ensures Good(Serve(s, step))
  {
    ServeKeepsInv(s, step);
    KeepsPlaced(s, step);
  }

  lemma InitIsGood(clock: int)
    ensures Good(ServeInit(clock))
  {
    InitIsInv(map[], clock);
  }

  lemma {:induction false} RunIsGood(trace: seq<Service>, steps: seq<ServeStep>, clock: int, i: nat)
    requires ServeRun(trace, steps, clock) && i < |trace|
    ensures Good(trace[i])
  {
    if i == 0 {
      InitIsGood(clock);
    } else {
      RunIsGood(trace, steps, clock, i - 1);
      assert Served(trace, steps, i - 1);
      GoodNext(trace[i - 1], steps[i - 1]);
    }
  }

  // ----- the handler that draining waits for -----

  function FirstActive(handlers: seq<Handler>): (h: nat)
    requires ActiveCount(handlers) > 0
    ensures h < |handlers| && Active(handlers[h]) && forall i :: 0 <= i < h ==> !Active(handlers[i])
  {
    if Active(handlers[0]) then 0 else 1 + FirstActive(handlers[1..])
  }

  function PcRank(pc: HandlerPc): nat {
    match pc
    case Gated(_) => 7
    case Holding => 6
    case Attaching(_) => 5
    case Tunnelling(AwaitFirst) => 4
    case Tunnelling(ClosingPermit) => 3
    case Tunnelling(AwaitSecond) => 2
    case Deferred => 1
    case _ => 0
  }

  function CallRank(pc: CallPc): nat {
    match pc
    case Checking => 4
    case Checked => 1
    case Rejecting(rest) => |rest|
    case Attached => 0
  }

  function CopiesLeft(x: Handler): nat {
    if x.copies.None? then 0
    else (if x.copies.value.0 then 0 else 1) + (if x.copies.value.1 then 0 else 1)
  }

  /** What is left of the call a handler is waiting for. */
  function CallLeft(s: Service, x: Handler): nat {
    if x.pc.Attaching? && x.pc.call < |s.gateway.calls| then CallRank(s.gateway.calls[x.pc.call].pc) else 0
  }

  function PermitLeft(s: Service, x: Handler): nat {
    if x.permit.Some? && x.permit.value < |s.gateway.permits| then Work(s.gateway.permits[x.permit.value]) else 0
  }

  /** How far a handler is from leaving. */
  function Left(s: Service, x: Handler): nat {
    PcRank(x.pc) + CopiesLeft(x) + CallLeft(s, x) + PermitLeft(s, x)
  }

  /** The step of the attach call that the handler waits for, or of the call that holds its permit's mutex. */
  function NextOfAttach(s: State, a: nat): Step
    requires a < |s.calls| && s.calls[a].permit < |s.permits|
  {
    match s.calls[a].pc
    case Checking =>
      var lock := s.permits[s.calls[a].permit].lock;
      if lock.Some? then AttachStore(lock.value) else AttachCheck(a)
    case Checked => AttachStore(a)
    case _ => AttachReject(a)
  }

  /** A step that brings the handler on: nothing in it but backends and clients that end, and its own code. */
  function NextOf(s: Service, h: nat): ServeStep
    requires h < |s.handlers| && Placed(s, h) && Active(s.handlers[h])
  {
    var x := s.handlers[h];
    match x.pc
    case Gated(_) => Refuse(h)
    case Holding => BackendFails(h)
    case Attaching(a) =>
      if s.gateway.calls[a].pc in {Attached, Rejecting([])} then AttachReturns(h, false)
      else Background(NextOfAttach(s.gateway, a))
    case Tunnelling(AwaitFirst) =>
      if CopiesLeft(x) == 2 then CopyEnds(h, true) else FirstEnded(h)
    case Tunnelling(ClosingPermit) =>
      if PermitOf(s, h).closer.Over? then CloseReturned(h) else Background(NextOfClose(s.gateway, x.permit.value))
    case Tunnelling(AwaitSecond) =>
      if CopiesLeft(x) > 0 then CopyEnds(h, !x.copies.value.0) else SecondEnded(h)
    case Deferred =>
      if PermitOf(s, h).closer.Idle? then RunDeferred(h)
      else if PermitOf(s, h).closer.Over? then DeferredReturned(h)
      else Background(NextOfClose(s.gateway, x.permit.value))
    case _ => Leave(h)
  }

  /** The step can be taken, moves no other handler, and brings h nearer its end or out. */
  predicate MovesOn(s: Service, step: ServeStep, h: nat)
    requires h < |s.handlers|
  {
    && CanServe(s, step) && !step.Arrive? && var t := Serve(s, step);
    && |t.handlers| == |s.handlers| && t.handlers == s.handlers[h := t.handlers[h]] && t.pc == s.pc
    && (if step.Leave? then !Active(t.handlers[h]) && t.requests == s.requests - 1
        else Active(t.handlers[h]) && t.requests == s.requests && Left(t, t.handlers[h]) < Left(s, s.handlers[h]))
  }

  lemma PlainMovesOn(s: Service, h: nat)
    requires h < |s.handlers| && Placed(s, h) && Active(s.handlers[h])
    requires var pc := s.handlers[h].pc; pc.Gated? || pc.Holding? || pc.Leaving?
    ensures MovesOn(s, NextOf(s, h), h)
  {
  }

  lemma CopiesMoveOn(s: Service, h: nat)
    requires h < |s.handlers| && Placed(s, h)
    requires s.handlers[h].pc == Tunnelling(AwaitFirst) || s.handlers[h].pc == Tunnelling(AwaitSecond)
    ensures MovesOn(s, NextOf(s, h), h)
  {
  }

  /** A step of the permit's Close that is already under way. */
  lemma CloseMovesOn(s: Service, h: nat)
    requires ServeInv(s) && HasPermit(s, h) && !PermitOf(s, h).closer.Over? && !PermitOf(s, h).closer.Idle?
    requires Active(s.handlers[h]) && !s.handlers[h].pc.Attaching?
    ensures MovesOn(s, Background(NextOfClose(s.gateway, s.handlers[h].permit.value)), h)
  {
    CloseAdvances(s.gateway, s.handlers[h].permit.value);
  }

  lemma ClosingMovesOn(s: Service, h: nat)
    requires ServeInv(s) && h < |s.handlers| && Placed(s, h) && s.handlers[h].pc == Tunnelling(ClosingPermit)
    ensures MovesOn(s, NextOf(s, h), h)
  {
    if !PermitOf(s, h).closer.Over? { CloseMovesOn(s, h); }
  }

  lemma DeferredMovesOn(s: Service, h: nat)
    requires ServeInv(s) && h < |s.handlers| && Placed(s, h) && s.handlers[h].pc == Deferred
    ensures MovesOn(s, NextOf(s, h), h)
  {
    if PermitOf(s, h).closer.Idle? {
      DeferredStarts(s, h);
    } else if !PermitOf(s, h).closer.Over? {
      CloseMovesOn(s, h);
    }
  }

  lemma DeferredStarts(s: Service, h: nat)
    requires h < |s.handlers| && Placed(s, h) && s.handlers[h].pc == Deferred && PermitOf(s, h).closer.Idle?
    ensures MovesOn(s, RunDeferred(h), h)
  {
  }

  /** The attach call comes on: its permit's mutex is freed, or it takes its own next step. */
  lemma AttachAdvances(s: State, a: nat)
    requires Inv(s) && a < |s.calls| && s.calls[a].permit < |s.permits| && s.calls[a].pc !in {Attached, Rejecting([])}
    ensures var step := NextOfAttach(s, a);
      && IsBackground(step) && Enabled(s, step) && var t := Apply(s, step);
      && |t.calls| == |s.calls| && |t.permits| == |s.permits|
      && CallRank(t.calls[a].pc) + Work(t.permits[s.calls[a].permit]) < CallRank(s.calls[a].pc) + Work(s.permits[s.calls[a].permit])
  {
    assert CallOk(s, a) && HoldsOk(s, s.calls[a].permit);
  }

  lemma AttachMovesOn(s: Service, h: nat)
    requires ServeInv(s) && h < |s.handlers| && Placed(s, h) && s.handlers[h].pc.Attaching?
    ensures MovesOn(s, NextOf(s, h), h)
  {
    var a := s.handlers[h].pc.call;
    if s.gateway.calls[a].pc !in {Attached, Rejecting([])} { AttachAdvances(s.gateway, a); }
  }

  /** Whatever an active handler is waiting for, some step brings it on. */
  lemma NextMovesOn(s: Service, h: nat)
    requires ServeInv(s) && h < |s.handlers| && Placed(s, h) && Active(s.handlers[h])
    ensures MovesOn(s, NextOf(s, h), h)
  {
    match s.handlers[h].pc
    case Attaching(_) => AttachMovesOn(s, h);
    case Tunnelling(ClosingPermit) => ClosingMovesOn(s, h);
    case Tunnelling(_) => CopiesMoveOn(s, h);
    case Deferred => DeferredMovesOn(s, h);
    case _ => PlainMovesOn(s, h);
  }

  // ----- draining comes to its end -----

  /** These steps, none of them a new request, lead from s to the reply "stopped". */
  ghost predicate Drains(s: Service, steps: seq<ServeStep>)
    decreases |steps|
  {
    if steps == [] then s.pc == Stopped
    else CanServe(s, steps[0]) && !steps[0].Arrive? && Drains(Serve(s, steps[0]), steps[1..])
  }

  lemma DrainsCons(s: Service, step: ServeStep, steps: seq<ServeStep>)
    requires CanServe(s, step) && !step.Arrive? && Drains(Serve(s, step), steps)
    ensures Drains(s, [step] + steps)
  {
    assert ([step] + steps)[1..] == steps;
  }

  lemma DrainsAtOnce(s: Service)
    requires s.pc == Draining && s.requests == 0
    ensures Drains(s, [AllDrained])
  {
    assert Drains(Serve(s, AllDrained), []);
    DrainsCons(s, AllDrained, []);
    assert [AllDrained] + [] == [AllDrained];
  }

  /** Handlers before the first active one are out, and stay so. */
  lemma {:induction false} FirstStaysFirst(handlers: seq<Handler>, h: nat, x: Handler)
    requires ActiveCount(handlers) > 0 && h == FirstActive(handlers) && Active(x)
    ensures ActiveCount(handlers[h := x]) > 0 && FirstActive(handlers[h := x]) == h
  {
    if h == 0 {
      assert handlers[0 := x][1..] == handlers[1..];
    } else {
      FirstStaysFirst(handlers[1..], h - 1, x);
      assert handlers[h := x][1..] == handlers[1..][h - 1 := x];
    }
  }

  function FirstLeft(s: Service): nat {
    if ActiveCount(s.handlers) == 0 then 0 else Left(s, s.handlers[FirstActive(s.handlers)])
  }

  lemma {:induction false} DrainingCanStop(s: Service) returns (steps: seq<ServeStep>)
    requires Good(s) && s.pc == Draining
    ensures Drains(s, steps)
    decreases s.requests, FirstLeft(s)
  {
    if s.requests == 0 {
      steps := [AllDrained];
      DrainsAtOnce(s);
    } else {
      var h := FirstActive(s.handlers);
      assert Placed(s, h);
      var step := NextOf(s, h);
      NextMovesOn(s, h);
      GoodNext(s, step);
      var t := Serve(s, step);
      if !step.Leave? { FirstStaysFirst(s.handlers, h, t.handlers[h]); }
      var rest := DrainingCanStop(t);
      DrainsCons(s, step, rest);
      steps := [step] + rest;
    }
  }

  /** In every run, from every moment after the stop command was read, "stopped" can still be reached. */
  lemma StopCanAlwaysBeAnswered(trace: seq<Service>, steps: seq<ServeStep>, clock: int, i: nat)
    requires ServeRun(trace, steps, clock) && i < |trace| && trace[i].pc == Draining
    ensures exists more :: Drains(trace[i], more)
  {
    RunIsGood(trace, steps, clock, i);
    var more := DrainingCanStop(trace[i]);
    assert Drains(trace[i], more);
  }
}
