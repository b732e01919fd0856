/**
 The live Gateway service: request handlers racing with the stop command, around the Gateway
 state machine.  Every handler step that touches a permit is a step of GatewayState.
 */
module GatewayServe {
  import opened Prelude
  import opened GatewayState
  import opened GatewayInvariant

  /** Where proxyTunnel's main thread is. */
  datatype Tunnel = AwaitFirst | ClosingPermit | AwaitSecond

  datatype HandlerPc =
    | Arrived
    | Denied
    | Gated(handler: bool)
    | Holding
    | Attaching(call: nat)
    | Tunnelling(tunnel: Tunnel)
    | Deferred
    | Leaving
    | Returned

  /** copies says which of the tunnel's two copy threads have ended, once it has started. */
  datatype Handler = Handler(pc: HandlerPc, permit: Option<nat>, copies: Option<(bool, bool)>)

  datatype ServePc = Looping | Draining | Stopped

  datatype Service = Service(
    gateway: State, installed: bool,
    closing: bool, requests: int, handlers: seq<Handler>, pc: ServePc)

  datatype ServeStep =
    | Install(policy: map<string, string>)
    | Command(step: Step)
    | Background(step: Step)
    | Arrive
    | Gate(h: nat)
    | Refuse(h: nat)
    | Connect(h: nat, presented: Option<Key>, subject: string)
    | BackendFails(h: nat)
    | StartAttach(h: nat)
    | AttachReturns(h: nat, headWritten: bool)
    | CopyEnds(h: nat, upstream: bool)
    | FirstEnded(h: nat)
    | CloseReturned(h: nat)
    | SecondEnded(h: nat)
    | RunDeferred(h: nat)
    | DeferredReturned(h: nat)
    | Leave(h: nat)
    | StopCommand
    | AllDrained

  predicate IsCommand(step: Step) { step.Issue? || step.Revoke? }

  /** Steps of watchers, timers, closers, attach calls and the revoke wait; never a caller's entry step. */
  predicate IsBackground(step: Step) {
    !IsCommand(step) && !step.Begin? && !step.AttachCall? && !step.CloseCall?
  }

  /** Past the closing gate and not yet counted out. */
  predicate Active(h: Handler) {
    !h.pc.Arrived? && !h.pc.Denied? && !h.pc.Returned?
  }

  predicate HasPermit(s: Service, h: nat) {
    h < |s.handlers| && s.handlers[h].permit.Some? && s.handlers[h].permit.value < |s.gateway.permits|
  }

  function PermitOf(s: Service, h: nat): Permit
    requires HasPermit(s, h)
  {
    s.gateway.permits[s.handlers[h].permit.value]
  }

  predicate CanServe(s: Service, step: ServeStep) {
    match step
    case Install(policy) => s.pc == Looping && !s.installed && OneTenantEach(policy)
    case Command(g) => s.pc == Looping && s.installed && IsCommand(g) && Enabled(s.gateway, g)
    case Background(g) => IsBackground(g) && Enabled(s.gateway, g)
    case Arrive => true
    case Gate(h) => h < |s.handlers| && s.handlers[h].pc.Arrived?
    case Refuse(h) => h < |s.handlers| && s.handlers[h].pc.Gated?
    case Connect(h, _, _) => h < |s.handlers| && s.handlers[h].pc == Gated(true) && s.installed
    case BackendFails(h) => HasPermit(s, h) && s.handlers[h].pc.Holding?
    case StartAttach(h) => HasPermit(s, h) && s.handlers[h].pc.Holding?
    case AttachReturns(h, _) =>
      && HasPermit(s, h) && s.handlers[h].pc.Attaching? && s.handlers[h].pc.call < |s.gateway.calls|
      && s.gateway.calls[s.handlers[h].pc.call].pc in {Attached, Rejecting([])}
    case CopyEnds(h, _) => h < |s.handlers| && s.handlers[h].pc.Tunnelling? && s.handlers[h].copies.Some?
    case FirstEnded(h) =>
      && HasPermit(s, h) && s.handlers[h].pc == Tunnelling(AwaitFirst) && s.handlers[h].copies.Some?
      && (s.handlers[h].copies.value.0 || s.handlers[h].copies.value.1)
    case CloseReturned(h) => HasPermit(s, h) && s.handlers[h].pc == Tunnelling(ClosingPermit) && PermitOf(s, h).closer.Over?
    case SecondEnded(h) =>
      && HasPermit(s, h) && s.handlers[h].pc == Tunnelling(AwaitSecond)
      && s.handlers[h].copies == Some((true, true))
    case RunDeferred(h) => HasPermit(s, h) && s.handlers[h].pc.Deferred? && PermitOf(s, h).closer.Idle?
    case DeferredReturned(h) => HasPermit(s, h) && s.handlers[h].pc.Deferred? && PermitOf(s, h).closer.Over?
    case Leave(h) => h < |s.handlers| && s.handlers[h].pc.Leaving?
    case StopCommand => s.pc == Looping
    case AllDrained => s.pc == Draining && s.requests == 0
  }

  function SetHandler(s: Service, h: nat, handler: Handler): Service
    requires h < |s.handlers|
  {
    s.(handlers := s.handlers[h := handler])
  }

  function SetHandlerPc(s: Service, h: nat, pc: HandlerPc): Service
    requires h < |s.handlers|
  {
    SetHandler(s, h, s.handlers[h].(pc := pc))
  }

  /** Close is entered unless finishOnce has been entered before. */
  function CallClose(s: Service, h: nat): State
    requires HasPermit(s, h)
  {
    var p := s.handlers[h].permit.value;
    if s.gateway.permits[p].closer.Idle? then Apply(s.gateway, CloseCall(p)) else s.gateway
  }

  function Serve(s: Service, step: ServeStep): Service
    requires CanServe(s, step)
  {
    match step
    case Install(policy) => s.(gateway := Init(policy, s.gateway.clock), installed := true)
    case Command(g) => s.(gateway := Apply(s.gateway, g))
    case Background(g) => s.(gateway := Apply(s.gateway, g))
    case Arrive => s.(handlers := s.handlers + [Handler(Arrived, None, None)])
    case Gate(h) =>
      if s.closing then SetHandlerPc(s, h, Denied)
      else SetHandlerPc(s, h, Gated(s.installed)).(requests := s.requests + 1)
    case Refuse(h) => SetHandlerPc(s, h, Leaving)
    case Connect(h, presented, subject) =>
      if BeginVerdict(s.gateway.table, s.gateway.grants, s.gateway.clock, presented, subject).Ok? then
        SetHandler(s, h, Handler(Holding, Some(|s.gateway.permits|), None))
          .(gateway := Apply(s.gateway, Begin(presented, subject)))
      else SetHandlerPc(s, h, Leaving)
    case BackendFails(h) => SetHandlerPc(s, h, Deferred)
    case StartAttach(h) =>
      SetHandlerPc(s, h, Attaching(|s.gateway.calls|))
        .(gateway := Apply(s.gateway, AttachCall(s.handlers[h].permit.value)))
    case AttachReturns(h, headWritten) =>
      if s.gateway.calls[s.handlers[h].pc.call].pc.Attached? && headWritten then
        SetHandler(s, h, s.handlers[h].(pc := Tunnelling(AwaitFirst), copies := Some((false, false))))
      else SetHandlerPc(s, h, Deferred)
    case CopyEnds(h, upstream) =>
      var (up, down) := s.handlers[h].copies.value;
      SetHandler(s, h, s.handlers[h].(copies := Some(if upstream then (true, down) else (up, true))))
    case FirstEnded(h) => SetHandlerPc(s, h, Tunnelling(ClosingPermit)).(gateway := CallClose(s, h))
    case CloseReturned(h) => SetHandlerPc(s, h, Tunnelling(AwaitSecond))
    case SecondEnded(h) => SetHandlerPc(s, h, Deferred)
    case RunDeferred(h) => s.(gateway := CallClose(s, h))
    case DeferredReturned(h) => SetHandlerPc(s, h, Leaving)
    case Leave(h) => SetHandlerPc(s, h, Returned).(requests := s.requests - 1)
    case StopCommand => s.(closing := true, pc := Draining)
    case AllDrained => s.(pc := Stopped)
  }

  function ServeInit(clock: int): Service {
    Service(Init(map[], clock), false, false, 0, [], Looping)
  }

  /** The i-th state is left by the i-th step. */
  predicate Served(trace: seq<Service>, steps: seq<ServeStep>, i: nat) {
    i < |steps| && i + 1 < |trace| && CanServe(trace[i], steps[i]) && trace[i + 1] == Serve(trace[i], steps[i])
  }

  ghost predicate ServeRun(trace: seq<Service>, steps: seq<ServeStep>, clock: int) {
    && |trace| == |steps| + 1
    && trace[0] == ServeInit(clock)
    && forall i :: 0 <= i < |steps| ==> Served(trace, steps, i)
  }

  // ----- invariant -----

  function ActiveCount(handlers: seq<Handler>): nat {
    if handlers == [] then 0
    else (if Active(handlers[0]) then 1 else 0) + ActiveCount(handlers[1..])
  }

  lemma {:induction false} CountAfterSet(handlers: seq<Handler>, h: nat, handler: Handler)
    requires h < |handlers|
    ensures ActiveCount(handlers[h := handler]) ==
            ActiveCount(handlers) - (if Active(handlers[h]) then 1 else 0) + (if Active(handler) then 1 else 0)
  {
    if h == 0 {
      assert handlers[0 := handler][1..] == handlers[1..];
    } else {
      assert handlers[h := handler][1..] == handlers[1..][h - 1 := handler];
      CountAfterSet(handlers[1..], h - 1, handler);
    }
  }

  lemma {:induction false} CountAfterAppend(handlers: seq<Handler>, handler: Handler)
    ensures ActiveCount(handlers + [handler]) == ActiveCount(handlers) + (if Active(handler) then 1 else 0)
  {
    if handlers == [] {
      assert [] + [handler] == [handler] && [handler][1..] == [];
    } else {
      assert (handlers + [handler])[1..] == handlers[1..] + [handler];
      CountAfterAppend(handlers[1..], handler);
    }
  }

  lemma {:induction false} NoneActive(handlers: seq<Handler>, h: nat)
    requires ActiveCount(handlers) == 0 && h < |handlers|
    ensures !Active(handlers[h])
  {
    if h > 0 { NoneActive(handlers[1..], h - 1); }
  }

  /** A handler past its deferred Close has a finished permit, and a finished tunnel if it had one. */
  predicate HandlerOk(s: Service, h: nat)
    requires h < |s.handlers|
  {
    var x := s.handlers[h];
    && (x.permit.Some? ==> HasPermit(s, h) && !x.pc.Arrived? && !x.pc.Denied? && !x.pc.Gated?)
    && (x.copies.Some? ==> x.permit.Some?)
    && (x.copies.Some? && !x.pc.Tunnelling? ==> x.copies == Some((true, true)))
    && (x.permit.Some? && (x.pc.Leaving? || x.pc.Returned?) ==> PermitOf(s, h).closer.Over?)
  }

  /** Every permit the Gateway ever made belongs to the handler whose BeginConnect returned it. */
  ghost predicate Owned(s: Service, p: nat) {
    exists h :: 0 <= h < |s.handlers| && s.handlers[h].permit == Some(p)
  }

  ghost predicate ServeInv(s: Service) {
    && Inv(s.gateway)
    && s.requests == ActiveCount(s.handlers)
    && (!s.installed ==> s.gateway.permits == [] && s.gateway.table == map[])
    && (s.pc != Looping ==> s.closing)
    && (s.pc == Stopped ==> s.requests == 0)
    && (forall h :: 0 <= h < |s.handlers| ==> HandlerOk(s, h))
    && (forall p :: 0 <= p < |s.gateway.permits| ==> Owned(s, p))
  }

  lemma KeepsGateway(s: Service, step: ServeStep)
    requires ServeInv(s) && CanServe(s, step)
    ensures Inv(Serve(s, step).gateway)
  {
    match step
    case Install(policy) => InitIsInv(policy, s.gateway.clock);
    case Command(g) => StepKeepsInv(s.gateway, g);
    case Background(g) => StepKeepsInv(s.gateway, g);
    case Connect(h, presented, subject) => StepKeepsInv(s.gateway, Begin(presented, subject));
    case StartAttach(h) => StepKeepsInv(s.gateway, AttachCall(s.handlers[h].permit.value));
    case FirstEnded(h) => CallCloseKeeps(s, h);
    case RunDeferred(h) => CallCloseKeeps(s, h);
    case _ =>
  }

  lemma CallCloseKeeps(s: Service, h: nat)
    requires Inv(s.gateway) && HasPermit(s, h)
    ensures Inv(CallClose(s, h))
  {
    var p := s.handlers[h].permit.value;
    if s.gateway.permits[p].closer.Idle? { StepKeepsInv(s.gateway, CloseCall(p)); }
  }

  /** Permits are never lost, and a finished Close stays finished. */
  predicate StaysOver(s: State, t: State, p: nat) {
    p < |s.permits| && p < |t.permits| && (s.permits[p].closer.Over? ==> t.permits[p].closer.Over?)
  }

  lemma PermitsStay(s: State, step: Step, p: nat)
    requires Enabled(s, step) && p < |s.permits|
    ensures StaysOver(s, Apply(s, step), p)
  {
    if OnThread(step) {
      ThreadsStay(s, step, p);
    } else if OnPermit(step) {
      PermitStepsStay(s, step, p);
    } else {
      OtherStepsStay(s, step, p);
    }
  }

  lemma ThreadsStay(s: State, step: Step, p: nat)
    requires Enabled(s, step) && p < |s.permits| && OnThread(step)
    ensures StaysOver(s, Apply(s, step), p)
  {
  }

  lemma PermitStepsStay(s: State, step: Step, p: nat)
    requires Enabled(s, step) && p < |s.permits| && OnPermit(step) && !OnThread(step)
    ensures StaysOver(s, Apply(s, step), p)
  {
  }

  lemma OtherStepsStay(s: State, step: Step, p: nat)
    requires Enabled(s, step) && p < |s.permits| && !OnPermit(step)
    ensures StaysOver(s, Apply(s, step), p)
  {
  }

  lemma CallCloseStays(s: Service, h: nat, p: nat)
    requires HasPermit(s, h) && p < |s.gateway.permits|
    ensures StaysOver(s.gateway, CallClose(s, h), p)
  {
    var q := s.handlers[h].permit.value;
    if s.gateway.permits[q].closer.Idle? { PermitsStay(s.gateway, CloseCall(q), p); }
  }

  /** Handler steps that leave the Gateway alone. */
  predicate LeavesGateway(step: ServeStep) {
    !step.Install? && !step.Command? && !step.Background? && !step.Connect? && !step.StartAttach? && !step.FirstEnded? && !step.RunDeferred?
  }

  lemma GatewayLeft(s: Service, step: ServeStep)
    requires CanServe(s, step) && LeavesGateway(step)
    ensures Serve(s, step).gateway == s.gateway
  {
  }

  lemma ServicePermitsStay(s: Service, step: ServeStep, p: nat)
    requires CanServe(s, step) && p < |s.gateway.permits| && (step.Install? ==> s.gateway.permits == [])
    ensures StaysOver(s.gateway, Serve(s, step).gateway, p)
  {
    match step
    case Install(_) =>
    case Command(g) => PermitsStay(s.gateway, g, p);
    case Background(g) => PermitsStay(s.gateway, g, p);
    case Connect(h, presented, subject) => PermitsStay(s.gateway, Begin(presented, subject), p);
    case StartAttach(h) => PermitsStay(s.gateway, AttachCall(s.handlers[h].permit.value), p);
    case FirstEnded(h) => CallCloseStays(s, h, p);
    case RunDeferred(h) => CallCloseStays(s, h, p);
    case _ => GatewayLeft(s, step);
  }

  function Mover(step: ServeStep): int {
    match step
    case Gate(h) => h
    case Refuse(h) => h
    case Connect(h, _, _) => h
    case BackendFails(h) => h
    case StartAttach(h) => h
    case AttachReturns(h, _) => h
    case CopyEnds(h, _) => h
    case FirstEnded(h) => h
    case CloseReturned(h) => h
    case SecondEnded(h) => h
    case RunDeferred(h) => h
    case DeferredReturned(h) => h
    case Leave(h) => h
    case _ => -1
  }

  lemma OthersStay(s: Service, step: ServeStep, h: nat)
    requires CanServe(s, step) && h < |s.handlers| && Mover(step) != h
    ensures h < |Serve(s, step).handlers| && Serve(s, step).handlers[h] == s.handlers[h]
  {
  }

  /** The handler that moved. */
  lemma MoverOk(s: Service, step: ServeStep, h: nat)
    requires CanServe(s, step) && Mover(step) == h && h < |s.handlers| && HandlerOk(s, h)
    ensures h < |Serve(s, step).handlers| && HandlerOk(Serve(s, step), h)
  {
    if s.handlers[h].permit.Some? { ServicePermitsStay(s, step, s.handlers[h].permit.value); }
    if step.Connect? {
      ConnectOk(s, step.h, step.presented, step.subject);
    } else if LeavesGateway(step) {
      PlainMoverOk(s, step, h);
    } else {
      CloserMoverOk(s, step, h);
    }
  }

  lemma ConnectOk(s: Service, h: nat, presented: Option<Key>, subject: string)
    requires var step := Connect(h, presented, subject); CanServe(s, step) && HandlerOk(s, h)
    ensures HandlerOk(Serve(s, Connect(h, presented, subject)), h)
  {
    if BeginVerdict(s.gateway.table, s.gateway.grants, s.gateway.clock, presented, subject).Ok? {
      assert |Apply(s.gateway, Begin(presented, subject)).permits| == |s.gateway.permits| + 1;
    }
  }

  lemma PlainMoverOk(s: Service, step: ServeStep, h: nat)
    requires CanServe(s, step) && Mover(step) == h && h < |s.handlers| && HandlerOk(s, h) && LeavesGateway(step)
    ensures HandlerOk(Serve(s, step), h)
  {
    GatewayLeft(s, step);
  }

  lemma CloserMoverOk(s: Service, step: ServeStep, h: nat)
    requires CanServe(s, step) && Mover(step) == h && h < |s.handlers| && HandlerOk(s, h)
    requires step.StartAttach? || step.FirstEnded? || step.RunDeferred?
    requires s.handlers[h].permit.Some? ==> StaysOver(s.gateway, Serve(s, step).gateway, s.handlers[h].permit.value)
    ensures HandlerOk(Serve(s, step), h)
  {
  }

  /** Only the mover changes, and with it the count of requests. */
  lemma MoverOnly(s: Service, step: ServeStep, h: nat)
    requires CanServe(s, step) && Mover(step) == h && h < |s.handlers|
    ensures var t := Serve(s, step);
      && |t.handlers| == |s.handlers| && t.handlers == s.handlers[h := t.handlers[h]]
      && t.requests == s.requests - (if Active(s.handlers[h]) then 1 else 0) + (if Active(t.handlers[h]) then 1 else 0)
  {
  }

  lemma KeepsHandlers(s: Service, step: ServeStep)
    requires ServeInv(s) && CanServe(s, step)
    ensures var t := Serve(s, step); forall h :: 0 <= h < |t.handlers| ==> HandlerOk(t, h)
  {
    var t := Serve(s, step);
    forall h | 0 <= h < |t.handlers| ensures HandlerOk(t, h) {
      if h < |s.handlers| {
        assert HandlerOk(s, h);
        if Mover(step) == h {
          MoverOk(s, step, h);
        } else {
          OthersStay(s, step, h);
          if s.handlers[h].permit.Some? { ServicePermitsStay(s, step, s.handlers[h].permit.value); }
        }
      }
    }
  }

  lemma KeepsRequests(s: Service, step: ServeStep)
    requires ServeInv(s) && CanServe(s, step)
    ensures Serve(s, step).requests == ActiveCount(Serve(s, step).handlers)
  {
    if step.Arrive? {
      CountAfterAppend(s.handlers, Handler(Arrived, None, None));
    } else if Mover(step) >= 0 {
      var h := Mover(step);
      MoverOnly(s, step, h);
      CountAfterSet(s.handlers, h, Serve(s, step).handlers[h]);
    }
  }

  lemma PermitKept(s: Service, step: ServeStep, h: nat)
    requires ServeInv(s) && CanServe(s, step) && h < |s.handlers| && s.handlers[h].permit.Some?
    ensures h < |Serve(s, step).handlers| && Serve(s, step).handlers[h].permit == s.handlers[h].permit
  {
    assert HandlerOk(s, h);
  }

  lemma KeepsOwners(s: Service, step: ServeStep)
    requires ServeInv(s) && CanServe(s, step)
    ensures var t := Serve(s, step); forall p :: 0 <= p < |t.gateway.permits| ==> Owned(t, p)
  {
    var t := Serve(s, step);
    forall p | 0 <= p < |t.gateway.permits| ensures Owned(t, p) {
      match step {
        case Command(g) => NoNewPermits(s.gateway, g);
        case Background(g) => NoNewPermits(s.gateway, g);
        case _ =>
      }
      if p < |s.gateway.permits| {
        assert Owned(s, p);
        var h :| 0 <= h < |s.handlers| && s.handlers[h].permit == Some(p);
        PermitKept(s, step, h);
        assert t.handlers[h].permit == Some(p);
      } else {
        assert step.Connect? && t.handlers[step.h].permit == Some(p);
      }
    }
  }

  lemma StopBookkeeping(s: Service, step: ServeStep)
    requires ServeInv(s) && CanServe(s, step)
    ensures var t := Serve(s, step);
      && (!t.installed ==> t.gateway.permits == [] && t.gateway.table == map[])
      && (t.pc != Looping ==> t.closing)
      && (t.pc == Stopped ==> t.requests == 0)
  {
    if s.pc == Stopped && Mover(step) >= 0 {
      NoneActive(s.handlers, Mover(step));
    }
    if step.Background? && !s.installed { NothingInstalled(s, step.step); }
  }

  lemma NothingInstalled(s: Service, step: Step)
    requires s.gateway.permits == [] && s.gateway.table == map[] && IsBackground(step) && Enabled(s.gateway, step)
    ensures Apply(s.gateway, step).permits == [] && Apply(s.gateway, step).table == map[]
  {
  }

  lemma ServeKeepsInv(s: Service, step: ServeStep)
    requires ServeInv(s) && CanServe(s, step)
    ensures ServeInv(Serve(s, step))
  {
    KeepsGateway(s, step);
    KeepsHandlers(s, step);
    KeepsRequests(s, step);
    KeepsOwners(s, step);
    StopBookkeeping(s, step);
  }

  lemma {:induction false} ServeRunInv(trace: seq<Service>, steps: seq<ServeStep>, clock: int, i: nat)
    requires ServeRun(trace, steps, clock) && i < |trace|
    ensures ServeInv(trace[i])
  {
    if i == 0 {
      InitIsInv(map[], clock);
    } else {
      ServeRunInv(trace, steps, clock, i - 1);
      assert Served(trace, steps, i - 1);
      ServeKeepsInv(trace[i - 1], steps[i - 1]);
    }
  }

  // ----- the stop command -----

  lemma {:induction false} StoppedStays(trace: seq<Service>, steps: seq<ServeStep>, clock: int, i: nat, j: nat)
    requires ServeRun(trace, steps, clock) && i <= j < |trace| && trace[i].pc == Stopped
    ensures trace[j].pc == Stopped
  {
    if i < j {
      StoppedStays(trace, steps, clock, i, j - 1);
      assert Served(trace, steps, j - 1);
    }
  }

  /** No handler is past the closing gate, every permit is closed to the end, and every tunnel's copies have ended. */
  predicate QuietService(s: Service) {
    && (forall h :: 0 <= h < |s.handlers| ==> QuietHandler(s.handlers[h]))
    && (forall p :: 0 <= p < |s.gateway.permits| ==>
          s.gateway.permits[p].done && s.gateway.permits[p].transportsClosed && s.gateway.permits[p].cancelled)
  }

  predicate QuietHandler(h: Handler) {
    !Active(h) && (h.copies.Some? ==> h.copies == Some((true, true)))
  }

  lemma StoppedIsQuiet(s: Service)
    requires ServeInv(s) && s.pc == Stopped
    ensures QuietService(s)
  {
    forall h | 0 <= h < |s.handlers| ensures QuietHandler(s.handlers[h]) {
      NoneActive(s.handlers, h);
      assert HandlerOk(s, h);
    }
    forall p | 0 <= p < |s.gateway.permits|
      ensures s.gateway.permits[p].done && s.gateway.permits[p].transportsClosed && s.gateway.permits[p].cancelled
    {
      assert Owned(s, p);
      var h :| 0 <= h < |s.handlers| && s.handlers[h].permit == Some(p);
      assert HandlerOk(s, h) && !Active(s.handlers[h]);
      assert ThreadsOk(s.gateway.permits[p]);
    }
  }

  /**
   From the moment Serve writes "stopped": no handler is past the closing gate and none ever
   passes it, every permit BeginConnect ever returned has had its Close run to the end, and both
   copy threads of every tunnel have ended.
   */
  lemma StoppedMeansQuiet(trace: seq<Service>, steps: seq<ServeStep>, clock: int, i: nat, j: nat)
    requires ServeRun(trace, steps, clock) && i <= j < |trace| && trace[i].pc == Stopped
    ensures QuietService(trace[j])
  {
    StoppedStays(trace, steps, clock, i, j);
    ServeRunInv(trace, steps, clock, j);
    StoppedIsQuiet(trace[j]);
  }
}
