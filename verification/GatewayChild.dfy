/**
 The caller's end of the command stream and the child's live service as one machine: what a reply
 the caller has accepted says about the Gateway in the child, then and ever after.
 */
module GatewayChild {
  import opened Prelude
  import opened GatewayState
  import opened GatewayInvariant
  import opened GatewayHistory
  import opened GatewaySafety
  import opened GatewayServe
  import Link = GatewayExchange

  /** What a command's tag stands for. inLifetime: the grant would not outlive the child. */
  datatype Arguments =
    | Policy(policy: map<string, string>)
    | Request(request: GrantRequest, inLifetime: bool)
    | Token(presented: Option<Key>, subject: string)

  type Meaning = nat -> Arguments

  datatype Status = PolicyInstalled | GrantIssued(key: Key) | Revoked(revoker: nat) | Rejected | StoppedStatus

  /** How far the child is with the command it serves. */
  datatype Work = Fresh | Revoking(revoker: nat) | Stopping | Answered(status: Status)

  /** said is history: the status of the reply of each number. */
  datatype System = System(link: Link.State, service: Service, work: Work, said: map<int, Status>)

  datatype SystemStep =
    | Parent(step: Link.Step)
    | Reads
    | Works(draws: seq<Key>)
    | RevokeEnds
    | Drained
    | Replies
    | Serves(move: ServeStep)
    | Ends

  function SystemInit(clock: int): System { System(Link.Init(), ServeInit(clock), Fresh, map[]) }

  /** Steps of handlers, tunnels, watchers and timers: never of the command loop. */
  predicate OffLoop(step: ServeStep) {
    !step.Install? && !step.Command? && !step.StopCommand? && !step.AllDrained?
  }

  predicate Allowed(s: System, step: SystemStep) {
    match step
    case Parent(g) => Link.ParentStep(g) && Link.Enabled(s.link, g)
    case Reads => Link.Enabled(s.link, Link.ChildReads)
    case Works(_) => s.link.child.Serving? && s.work.Fresh? && s.service.pc == Looping
    case RevokeEnds =>
      s.link.child.Serving? && s.work.Revoking? && s.work.revoker < |s.service.gateway.revokers| &&
      s.service.gateway.revokers[s.work.revoker].pc != Waiting
    case Drained => s.link.child.Serving? && s.work.Stopping? && CanServe(s.service, AllDrained)
    case Replies => s.link.child.Serving? && s.work.Answered?
    case Serves(g) => OffLoop(g) && CanServe(s.service, g)
    case Ends => Link.Enabled(s.link, Link.ChildEnds)
  }

  /** apply, and for a stop the start of the cleanup. */
  function Begun(meaning: Meaning, v: Service, c: Link.Command, draws: seq<Key>): (Service, Work)
    requires v.pc == Looping
  {
    match c.action
    case Stop => (Serve(v, StopCommand), Stopping)
    case InstallPolicy => Installing(v, meaning(c.tag))
    case IssueGrant => Issuing(v, meaning(c.tag), draws)
    case RevokeGrant => StartsRevoking(v, meaning(c.tag))
  }

  function Installing(v: Service, a: Arguments): (Service, Work)
    requires v.pc == Looping
  {
    if a.Policy? && CanServe(v, Install(a.policy)) then (Serve(v, Install(a.policy)), Answered(PolicyInstalled))
    else (v, Answered(Rejected))
  }

  function Issuing(v: Service, a: Arguments, draws: seq<Key>): (Service, Work)
    requires v.pc == Looping
  {
    if !a.Request? || !v.installed || !a.inLifetime then (v, Answered(Rejected))
    else
      var verdict := IssueVerdict(v.gateway, a.request, draws);
      (Serve(v, Command(Issue(a.request, draws))), Answered(if verdict.Ok? then GrantIssued(verdict.value) else Rejected))
  }

  function StartsRevoking(v: Service, a: Arguments): (Service, Work)
    requires v.pc == Looping
  {
    if !a.Token? || !v.installed then (v, Answered(Rejected))
    else
      (Serve(v, Command(Revoke(a.presented, a.subject))),
       if RevokeVerdict(v.gateway, a.presented, a.subject).Ok? then Revoking(|v.gateway.revokers|) else Answered(Rejected))
  }

  function Advance(meaning: Meaning, s: System, step: SystemStep): System
    requires Allowed(s, step)
  {
    match step
    case Parent(g) => s.(link := Link.Apply(s.link, g))
    case Reads => s.(link := Link.Apply(s.link, Link.ChildReads), work := Fresh)
    case Works(draws) =>
      var (v, work) := Begun(meaning, s.service, s.link.child.command, draws);
      s.(service := v, work := work)
    case RevokeEnds =>
      s.(work := Answered(if s.service.gateway.revokers[s.work.revoker].pc == Acknowledged then Revoked(s.work.revoker) else Rejected))
    case Drained => s.(service := Serve(s.service, AllDrained), work := Answered(StoppedStatus))
    case Replies =>
      s.(link := Link.Apply(s.link, Link.ChildReplies), said := s.said[s.link.expected := s.work.status])
    case Serves(g) => s.(service := Serve(s.service, g))
    case Ends => s.(link := Link.Apply(s.link, Link.ChildEnds))
  }

  /** The i-th state is left by the i-th step. */
  ghost predicate Advances(meaning: Meaning, trace: seq<System>, steps: seq<SystemStep>, i: nat) {
    i < |steps| && i + 1 < |trace| && Allowed(trace[i], steps[i]) && trace[i + 1] == Advance(meaning, trace[i], steps[i])
  }

  /** Tokens are random: none drawn for a grant was handed out before, unless its grant is still in the table. */
  predicate FreshTokens(meaning: Meaning, s: System, step: SystemStep) {
    step.Works? && s.link.child.Serving? && meaning(s.link.child.command.tag).Request? ==>
      FreshDraws(s.service.gateway, Issue(meaning(s.link.child.command.tag).request, step.draws))
  }

  ghost predicate GoesOn(meaning: Meaning, trace: seq<System>, steps: seq<SystemStep>, i: nat) {
    Advances(meaning, trace, steps, i) && FreshTokens(meaning, trace[i], steps[i])
  }

  ghost predicate SystemRun(meaning: Meaning, trace: seq<System>, steps: seq<SystemStep>, clock: int) {
    && |trace| == |steps| + 1
    && trace[0] == SystemInit(clock)
    && forall i :: 0 <= i < |steps| ==> GoesOn(meaning, trace, steps, i)
  }

  // ----- what the Gateway keeps of its past -----

  /** Revocations and issued keys, with what their grants are for, are never forgotten. */
  predicate Remembers(g: State, h: State) {
    && |g.revokers| <= |h.revokers|
    && (forall r :: 0 <= r < |g.revokers| ==> SameRevocation(g.revokers[r], h.revokers[r]))
    && (forall k :: k in g.issued ==> SameGrant(g, h, k))
  }

  predicate SameRevocation(a: Revoker, b: Revoker) { b.gid == a.gid && (a.pc == Acknowledged ==> b.pc == Acknowledged) }

  predicate SameGrant(g: State, h: State, key: Key)
    requires key in g.issued
  {
    && key in h.issued && h.issued[key] == g.issued[key]
    && (g.issued[key] < |g.grants| ==> g.issued[key] < |h.grants| && h.grants[g.issued[key]].binding == g.grants[g.issued[key]].binding)
  }

  lemma StepKeepsRevocations(g: State, step: Step)
    requires Enabled(g, step)
    ensures var h := Apply(g, step);
      |g.revokers| <= |h.revokers| && forall r :: 0 <= r < |g.revokers| ==> SameRevocation(g.revokers[r], h.revokers[r])
  {
    if OnPermit(step) { PermitStepsKeepRevokers(g, step); } else { RestKeepsRevocations(g, step); }
  }

  lemma PermitStepsKeepRevokers(g: State, step: Step)
    requires Enabled(g, step) && OnPermit(step)
    ensures Apply(g, step).revokers == g.revokers
  {
  }

  lemma RestKeepsRevocations(g: State, step: Step)
    requires Enabled(g, step) && !OnPermit(step)
    ensures var h := Apply(g, step);
      |g.revokers| <= |h.revokers| && forall r :: 0 <= r < |g.revokers| ==> SameRevocation(g.revokers[r], h.revokers[r])
  {
  }

  lemma StepRemembers(g: State, step: Step)
    requires Inv(g) && KeysOk(g) && Enabled(g, step) && FreshDraws(g, step)
    ensures Remembers(g, Apply(g, step)) && KeysOk(Apply(g, step))
  {
    StepKeepsKeysOk(g, step);
    StepKeepsRevocations(g, step);
    forall k | k in g.issued ensures SameGrant(g, Apply(g, step), k) { StepMoves(g, step, k); }
  }

  /** Before the policy is installed there is nothing to remember. */
  predicate BlankUnlessInstalled(v: Service) {
    !v.installed ==> v.gateway.revokers == [] && v.gateway.issued == map[]
  }

  lemma ServeRemembers(v: Service, step: ServeStep)
    requires ServeInv(v) && CanServe(v, step) && KeysOk(v.gateway) && BlankUnlessInstalled(v)
    requires step.Command? ==> FreshDraws(v.gateway, step.step)
    ensures var t := Serve(v, step); Remembers(v.gateway, t.gateway) && KeysOk(t.gateway) && BlankUnlessInstalled(t)
  {
    if step.Install? {
      InstallRemembers(v, step);
    } else if step.Command? {
      StepRemembers(v.gateway, step.step);
    } else if step.Background? {
      BackgroundRemembers(v, step.step);
    } else {
      HandlersRemember(v, step);
    }
  }

  lemma InstallRemembers(v: Service, step: ServeStep)
    requires CanServe(v, step) && step.Install? && BlankUnlessInstalled(v)
    ensures var t := Serve(v, step); Remembers(v.gateway, t.gateway) && KeysOk(t.gateway) && BlankUnlessInstalled(t)
  {
  }

  lemma HandlersRemember(v: Service, step: ServeStep)
    requires ServeInv(v) && CanServe(v, step) && KeysOk(v.gateway) && BlankUnlessInstalled(v)
    requires !step.Install? && !step.Command? && !step.Background?
    ensures var t := Serve(v, step); Remembers(v.gateway, t.gateway) && KeysOk(t.gateway) && BlankUnlessInstalled(t)
  {
    if LeavesGateway(step) {
      GatewayLeft(v, step);
      InstalledStays(v, step);
    } else if step.Connect? || step.StartAttach? {
      OpenersRemember(v, step);
    } else {
      ClosersRemember(v, step);
    }
  }

  lemma InstalledStays(v: Service, step: ServeStep)
    requires CanServe(v, step) && LeavesGateway(step)
    ensures Serve(v, step).installed == v.installed
  {
  }

  lemma OpenersRemember(v: Service, step: ServeStep)
    requires ServeInv(v) && CanServe(v, step) && KeysOk(v.gateway) && BlankUnlessInstalled(v) && (step.Connect? || step.StartAttach?)
    ensures var t := Serve(v, step); Remembers(v.gateway, t.gateway) && KeysOk(t.gateway) && BlankUnlessInstalled(t)
  {
    StepRemembers(v.gateway, if step.Connect? then Begin(step.presented, step.subject) else AttachCall(v.handlers[step.h].permit.value));
  }

  lemma ClosersRemember(v: Service, step: ServeStep)
    requires ServeInv(v) && CanServe(v, step) && KeysOk(v.gateway) && (step.FirstEnded? || step.RunDeferred?)
    ensures var t := Serve(v, step); Remembers(v.gateway, t.gateway) && KeysOk(t.gateway)
    ensures var t := Serve(v, step); BlankUnlessInstalled(v) ==> BlankUnlessInstalled(t)
  {
    CallCloseRemembers(v, step.h);
  }

  lemma BackgroundRemembers(v: Service, g: Step)
    requires ServeInv(v) && CanServe(v, Background(g)) && KeysOk(v.gateway) && BlankUnlessInstalled(v)
    ensures var t := Serve(v, Background(g)); Remembers(v.gateway, t.gateway) && KeysOk(t.gateway) && BlankUnlessInstalled(t)
  {
    StepRemembers(v.gateway, g);
    if !v.installed { BlankStays(v.gateway, g); }
  }

  lemma BlankStays(g: State, step: Step)
    requires g.revokers == [] && IsBackground(step) && Enabled(g, step)
    ensures Apply(g, step).revokers == [] && Apply(g, step).issued == g.issued
  {
    NoIssueKeepsKeys(g, step);
    if OnPermit(step) { PermitStepsKeepRevokers(g, step); }
  }

  lemma CallCloseRemembers(v: Service, h: nat)
    requires ServeInv(v) && HasPermit(v, h) && KeysOk(v.gateway)
    ensures Remembers(v.gateway, CallClose(v, h)) && KeysOk(CallClose(v, h))
    ensures CallClose(v, h).revokers == v.gateway.revokers && CallClose(v, h).issued == v.gateway.issued
  {
    var p := v.handlers[h].permit.value;
    if v.gateway.permits[p].closer.Idle? {
      StepRemembers(v.gateway, CloseCall(p));
      PermitStepsKeepRevokers(v.gateway, CloseCall(p));
      NoIssueKeepsKeys(v.gateway, CloseCall(p));
    }
  }

  // ----- what the replies said -----

  /** The revoker revokes the grant of the token that the command names. */
  predicate AimsAt(meaning: Meaning, g: State, r: nat, c: Link.Command) {
    && c.action == Link.RevokeGrant && meaning(c.tag).Token? && meaning(c.tag).presented.Some?
    && r < |g.revokers| && meaning(c.tag).presented.value in g.issued
    && g.issued[meaning(c.tag).presented.value] == g.revokers[r].gid
  }

  /** This key was handed out, for a grant of this binding. */
  predicate Grants(g: State, key: Key, b: Binding) {
    key in g.issued && g.issued[key] < |g.grants| && g.grants[g.issued[key]].binding == b
  }

  /** What the child's answer to a command says of the service. */
  predicate StatusOk(meaning: Meaning, v: Service, c: Link.Command, status: Status) {
    && (c.action == Link.Stop <==> status.StoppedStatus?)
    && (status.StoppedStatus? ==> v.pc == Stopped)
    && (status.PolicyInstalled? ==>
          c.action == Link.InstallPolicy && meaning(c.tag).Policy? && v.installed && v.gateway.policy == meaning(c.tag).policy)
    && (status.GrantIssued? ==>
          c.action == Link.IssueGrant && meaning(c.tag).Request? && Grants(v.gateway, status.key, meaning(c.tag).request.binding))
    && (status.Revoked? ==>
          AimsAt(meaning, v.gateway, status.revoker, c) && v.gateway.revokers[status.revoker].pc == Acknowledged)
  }

  predicate WorkOk(meaning: Meaning, child: Link.Child, v: Service, work: Work) {
    && (child.Awaiting? ==> v.pc == Looping)
    && (child.Serving? ==>
          match work
          case Fresh => v.pc == Looping
          case Revoking(r) => v.pc == Looping && AimsAt(meaning, v.gateway, r, child.command)
          case Stopping => v.pc == Draining && child.command.action == Link.Stop
          case Answered(status) =>
            StatusOk(meaning, v, child.command, status) && (child.command.action != Link.Stop ==> v.pc == Looping))
  }

  /** In the reply pipe, or accepted by the caller. */
  ghost predicate Heard(l: Link.State, r: Link.Reply) {
    r in l.replies || exists k :: 0 <= k < |l.accepted| && l.accepted[k].1 == r
  }

  predicate SaidRight(meaning: Meaning, v: Service, expected: int, said: map<int, Status>, r: Link.Reply) {
    r.sequence in said && r.sequence < expected && StatusOk(meaning, v, r.answers, said[r.sequence])
  }

  ghost predicate SaidOk(meaning: Meaning, s: System) {
    forall r: Link.Reply :: Heard(s.link, r) ==> SaidRight(meaning, s.service, s.link.expected, s.said, r)
  }

  /** The service and what is remembered of it. */
  ghost predicate ServiceOk(v: Service) { ServeInv(v) && KeysOk(v.gateway) && BlankUnlessInstalled(v) }

  ghost predicate SystemInv(meaning: Meaning, s: System) {
    Link.Inv(s.link) && ServiceOk(s.service) && WorkOk(meaning, s.link.child, s.service, s.work) && SaidOk(meaning, s)
  }

  // ----- the service's part of a step -----

  /** Later states of the service. */
  predicate Later(v: Service, w: Service) {
    && Remembers(v.gateway, w.gateway) && (v.pc == Stopped ==> w.pc == Stopped)
    && (v.installed ==> w.installed && w.gateway.policy == v.gateway.policy)
  }

  lemma LaterSelf(v: Service)
    ensures Later(v, v)
  {
  }

  lemma ServeIsLater(v: Service, step: ServeStep)
    requires ServiceOk(v) && CanServe(v, step) && (step.Command? ==> FreshDraws(v.gateway, step.step))
    ensures ServiceOk(Serve(v, step)) && Later(v, Serve(v, step))
  {
    ServeKeepsInv(v, step);
    ServeRemembers(v, step);
    StoppedStaysPut(v, step);
    PolicyStays(v, step);
  }

  lemma PolicyStays(v: Service, step: ServeStep)
    requires CanServe(v, step)
    ensures v.installed ==> Serve(v, step).installed && Serve(v, step).gateway.policy == v.gateway.policy
  {
    match step
    case Command(g) => StepKeepsPolicy(v.gateway, g);
    case Background(g) => StepKeepsPolicy(v.gateway, g);
    case _ =>
  }

  lemma StepKeepsPolicy(g: State, step: Step)
    requires Enabled(g, step)
    ensures Apply(g, step).policy == g.policy
  {
    if OnPermit(step) { PermitStepKeepsPolicy(g, step); } else { RestKeepsPolicy(g, step); }
  }

  lemma PermitStepKeepsPolicy(g: State, step: Step)
    requires Enabled(g, step) && OnPermit(step)
    ensures Apply(g, step).policy == g.policy
  {
  }

  lemma RestKeepsPolicy(g: State, step: Step)
    requires Enabled(g, step) && !OnPermit(step)
    ensures Apply(g, step).policy == g.policy
  {
  }

  lemma StoppedStaysPut(v: Service, step: ServeStep)
    requires CanServe(v, step)
    ensures v.pc == Stopped ==> Serve(v, step).pc == Stopped
  {
  }

  lemma AimStays(meaning: Meaning, g: State, h: State, r: nat, c: Link.Command)
    requires Remembers(g, h) && AimsAt(meaning, g, r, c)
    ensures AimsAt(meaning, h, r, c) && (g.revokers[r].pc == Acknowledged ==> h.revokers[r].pc == Acknowledged)
  {
    assert SameRevocation(g.revokers[r], h.revokers[r]);
  }

  lemma StatusStays(meaning: Meaning, v: Service, w: Service, c: Link.Command, status: Status)
    requires Later(v, w) && StatusOk(meaning, v, c, status)
    ensures StatusOk(meaning, w, c, status)
  {
    if status.Revoked? {
      AimStays(meaning, v.gateway, w.gateway, status.revoker, c);
    } else if status.GrantIssued? {
      assert SameGrant(v.gateway, w.gateway, status.key);
    }
  }

  lemma SaidStays(meaning: Meaning, s: System, t: System)
    requires SaidOk(meaning, s) && Later(s.service, t.service) && t.said == s.said && t.link.expected == s.link.expected
    requires forall r: Link.Reply :: Heard(t.link, r) ==> Heard(s.link, r)
    ensures SaidOk(meaning, t)
  {
    forall r: Link.Reply | Heard(t.link, r)
      ensures SaidRight(meaning, t.service, t.link.expected, t.said, r)
    {
      assert SaidRight(meaning, s.service, s.link.expected, s.said, r);
      StatusStays(meaning, s.service, t.service, r.answers, s.said[r.sequence]);
    }
  }

  // ----- the caller's steps -----

  lemma ParentLeavesChild(l: Link.State, step: Link.Step)
    requires Link.ParentStep(step) && Link.Enabled(l, step)
    ensures Link.Apply(l, step).child == l.child && Link.Apply(l, step).expected == l.expected
  {
    match step
    case Receive =>
    case SendFails(_, _) =>
    case _ => PlainParentLeavesChild(l, step);
  }

  lemma PlainParentLeavesChild(l: Link.State, step: Link.Step)
    requires Link.ParentStep(step) && Link.Enabled(l, step) && !step.Receive? && !step.SendFails?
    ensures Link.Apply(l, step).child == l.child && Link.Apply(l, step).expected == l.expected
  {
  }

  lemma ParentHearsNothingNew(l: Link.State, step: Link.Step, r: Link.Reply)
    requires Link.ParentStep(step) && Link.Enabled(l, step) && Heard(Link.Apply(l, step), r)
    ensures Heard(l, r)
  {
    if step.Receive? { ReceivedWasInPipe(l, r); } else { OthersHearLess(l, step, r); }
  }

  lemma ReceivedWasInPipe(l: Link.State, r: Link.Reply)
    requires Link.Enabled(l, Link.Receive) && Heard(Link.Apply(l, Link.Receive), r)
    ensures Heard(l, r)
  {
    var t := Link.Apply(l, Link.Receive);
    assert t.replies == l.replies[1..];
    if r !in l.replies {
      var k :| 0 <= k < |t.accepted| && t.accepted[k].1 == r;
      assert k < |l.accepted| ==> l.accepted[k].1 == r;
    }
  }

  lemma OthersHearLess(l: Link.State, step: Link.Step, r: Link.Reply)
    requires Link.ParentStep(step) && Link.Enabled(l, step) && !step.Receive? && Heard(Link.Apply(l, step), r)
    ensures Heard(l, r)
  {
    assert Link.Apply(l, step).accepted == l.accepted;
    assert Link.Apply(l, step).replies == l.replies || Link.Apply(l, step).replies == l.replies[1..];
  }

  lemma ParentKeepsSystem(meaning: Meaning, s: System, step: SystemStep)
    requires SystemInv(meaning, s) && Allowed(s, step) && step.Parent?
    ensures SystemInv(meaning, Advance(meaning, s, step))
  {
    var t := Advance(meaning, s, step);
    Link.StepKeepsInv(s.link, step.step);
    ParentLeavesChild(s.link, step.step);
    forall r: Link.Reply | Heard(t.link, r) ensures Heard(s.link, r) { ParentHearsNothingNew(s.link, step.step, r); }
    LaterSelf(s.service);
    SaidStays(meaning, s, t);
  }

  // ----- the command loop -----

  lemma ReadsKeepsSystem(meaning: Meaning, s: System, step: SystemStep)
    requires SystemInv(meaning, s) && Allowed(s, step) && (step.Reads? || step.Ends?)
    ensures SystemInv(meaning, Advance(meaning, s, step))
  {
    var t := Advance(meaning, s, step);
    Link.StepKeepsInv(s.link, if step.Reads? then Link.ChildReads else Link.ChildEnds);
    assert t.link.replies == s.link.replies && t.link.accepted == s.link.accepted && t.link.expected == s.link.expected;
    LaterSelf(s.service);
    SaidStays(meaning, s, t);
  }

  /** The service after the child's work, and what is then owed to the command. */
  lemma BegunIsLater(meaning: Meaning, v: Service, c: Link.Command, draws: seq<Key>)
    requires ServiceOk(v) && v.pc == Looping
    requires meaning(c.tag).Request? ==> FreshDraws(v.gateway, Issue(meaning(c.tag).request, draws))
    ensures var w := Begun(meaning, v, c, draws).0; ServiceOk(w) && Later(v, w)
  {
    var a := meaning(c.tag);
    LaterSelf(v);
    match c.action {
      case Stop => ServeIsLater(v, StopCommand);
      case InstallPolicy => if a.Policy? && CanServe(v, Install(a.policy)) { ServeIsLater(v, Install(a.policy)); }
      case IssueGrant => if a.Request? && v.installed { ServeIsLater(v, Command(Issue(a.request, draws))); }
      case RevokeGrant => if a.Token? && v.installed { ServeIsLater(v, Command(Revoke(a.presented, a.subject))); }
    }
  }

  lemma RevokingAims(meaning: Meaning, v: Service, c: Link.Command)
    requires ServiceOk(v) && v.pc == Looping && v.installed && c.action == Link.RevokeGrant && meaning(c.tag).Token?
    requires RevokeVerdict(v.gateway, meaning(c.tag).presented, meaning(c.tag).subject).Ok?
    ensures var a := meaning(c.tag);
      AimsAt(meaning, Apply(v.gateway, Revoke(a.presented, a.subject)), |v.gateway.revokers|, c)
  {
    assert KeysOk(v.gateway);
  }

  lemma BegunIsRight(meaning: Meaning, v: Service, c: Link.Command, draws: seq<Key>)
    requires ServiceOk(v) && v.pc == Looping
    ensures var (w, work) := Begun(meaning, v, c, draws); WorkOk(meaning, Link.Serving(c), w, work)
  {
    var a := meaning(c.tag);
    if c.action == Link.RevokeGrant && a.Token? && v.installed && RevokeVerdict(v.gateway, a.presented, a.subject).Ok? {
      RevokingAims(meaning, v, c);
    } else if c.action == Link.IssueGrant && a.Request? && v.installed {
      IssuedIsGranted(v.gateway, a.request, draws);
    }
  }

  lemma IssuedIsGranted(g: State, request: GrantRequest, draws: seq<Key>)
    ensures var verdict := IssueVerdict(g, request, draws);
      verdict.Ok? ==> Grants(ApplyIssue(g, request, draws), verdict.value, request.binding)
  {
  }

  /**
   The child answers an issue command with a token exactly when a policy is installed, the grant
   would not outlive the child, and the Gateway issues it; a revoke command gets as far as revoking exactly
   when the token finds a grant of its subject.
   */
  lemma AnsweredIff(meaning: Meaning, v: Service, c: Link.Command, draws: seq<Key>)
    requires v.pc == Looping
    ensures var (a, g, (w, work)) := (meaning(c.tag), v.gateway, Begun(meaning, v, c, draws));
      && (c.action == Link.IssueGrant ==>
            && (forall key: Key :: work == Answered(GrantIssued(key)) <==>
                  v.installed && a.Request? && a.inLifetime && IssueVerdict(g, a.request, draws) == Ok(key))
            && (work.status.GrantIssued? || work == Answered(Rejected)))
      && (c.action == Link.RevokeGrant ==>
            && (work.Revoking? <==> v.installed && a.Token? && Finds(g, a.presented, a.subject))
            && (work.Revoking? || work == Answered(Rejected))
            && (work.Revoking? ==> w.gateway == ApplyRevoke(g, a.presented, a.subject)))
      && (c.action == Link.InstallPolicy ==>
            && (work == Answered(PolicyInstalled) <==> !v.installed && a.Policy? && OneTenantEach(a.policy))
            && (work == Answered(PolicyInstalled) || work == Answered(Rejected)))
  {
    if meaning(c.tag).Token? { RevokedIff(v.gateway, meaning(c.tag).presented, meaning(c.tag).subject); }
  }

  lemma WorksKeepsSystem(meaning: Meaning, s: System, step: SystemStep)
    requires SystemInv(meaning, s) && Allowed(s, step) && step.Works? && FreshTokens(meaning, s, step)
    ensures SystemInv(meaning, Advance(meaning, s, step))
  {
    var c := s.link.child.command;
    BegunIsLater(meaning, s.service, c, step.draws);
    BegunIsRight(meaning, s.service, c, step.draws);
    SaidStays(meaning, s, Advance(meaning, s, step));
  }

  lemma EndsOfWorkKeepSystem(meaning: Meaning, s: System, step: SystemStep)
    requires SystemInv(meaning, s) && Allowed(s, step) && (step.RevokeEnds? || step.Drained?)
    ensures SystemInv(meaning, Advance(meaning, s, step))
  {
    if step.Drained? { ServeIsLater(s.service, AllDrained); } else { LaterSelf(s.service); }
    SaidStays(meaning, s, Advance(meaning, s, step));
  }

  lemma ServesKeepsSystem(meaning: Meaning, s: System, step: SystemStep)
    requires SystemInv(meaning, s) && Allowed(s, step) && step.Serves?
    ensures SystemInv(meaning, Advance(meaning, s, step))
  {
    var t := Advance(meaning, s, step);
    ServeIsLater(s.service, step.move);
    OffLoopKeepsPc(s.service, step.move);
    WorkStays(meaning, s.link.child, s.service, t.service, s.work);
    SaidStays(meaning, s, t);
  }

  lemma OffLoopKeepsPc(v: Service, step: ServeStep)
    requires CanServe(v, step) && OffLoop(step)
    ensures Serve(v, step).pc == v.pc
  {
  }

  lemma WorkStays(meaning: Meaning, child: Link.Child, v: Service, w: Service, work: Work)
    requires WorkOk(meaning, child, v, work) && Later(v, w) && w.pc == v.pc
    ensures WorkOk(meaning, child, w, work)
  {
    if child.Serving? {
      match work
      case Revoking(r) => AimStays(meaning, v.gateway, w.gateway, r, child.command);
      case Answered(status) => StatusStays(meaning, v, w, child.command, status);
      case _ =>
    }
  }

  /** The reply the child writes: the one new thing to hear, under a number not used before. */
  lemma RepliesKeepsSystem(meaning: Meaning, s: System, step: SystemStep)
    requires SystemInv(meaning, s) && Allowed(s, step) && step.Replies?
    ensures SystemInv(meaning, Advance(meaning, s, step))
  {
    var t := Advance(meaning, s, step);
    Link.StepKeepsInv(s.link, Link.ChildReplies);
    ReplyWritten(s.link);
    forall r: Link.Reply | Heard(t.link, r) ensures SaidRight(meaning, t.service, t.link.expected, t.said, r) {
      HeardAfterReply(s.link, r);
      if Heard(s.link, r) { assert SaidRight(meaning, s.service, s.link.expected, s.said, r); }
    }
  }

  lemma ReplyWritten(l: Link.State)
    requires Link.Enabled(l, Link.ChildReplies)
    ensures var (t, c) := (Link.Apply(l, Link.ChildReplies), l.child.command);
      && t.replies == l.replies + [Link.Reply(l.expected, c.action == Link.Stop, c)] && t.accepted == l.accepted
      && t.expected == l.expected + 1 && (t.child.Ended? || (t.child.Awaiting? && c.action != Link.Stop))
  {
  }

  lemma HeardAfterReply(l: Link.State, r: Link.Reply)
    requires Link.Enabled(l, Link.ChildReplies) && Heard(Link.Apply(l, Link.ChildReplies), r)
    ensures Heard(l, r) || (r.sequence == l.expected && r.answers == l.child.command)
  {
    ReplyWritten(l);
  }

  lemma StepKeepsSystem(meaning: Meaning, s: System, step: SystemStep)
    requires SystemInv(meaning, s) && Allowed(s, step) && FreshTokens(meaning, s, step)
    ensures SystemInv(meaning, Advance(meaning, s, step))
  {
    match step
    case Parent(_) => ParentKeepsSystem(meaning, s, step);
    case Reads => ReadsKeepsSystem(meaning, s, step);
    case Ends => ReadsKeepsSystem(meaning, s, step);
    case Works(_) => WorksKeepsSystem(meaning, s, step);
    case RevokeEnds => EndsOfWorkKeepSystem(meaning, s, step);
    case Drained => EndsOfWorkKeepSystem(meaning, s, step);
    case Serves(_) => ServesKeepsSystem(meaning, s, step);
    case Replies => RepliesKeepsSystem(meaning, s, step);
  }

  lemma {:induction false} RunKeepsSystem(meaning: Meaning, trace: seq<System>, steps: seq<SystemStep>, clock: int, i: nat)
    requires SystemRun(meaning, trace, steps, clock) && i < |trace|
    ensures SystemInv(meaning, trace[i])
  {
    if i == 0 {
      InitIsInv(map[], clock);
    } else {
      RunKeepsSystem(meaning, trace, steps, clock, i - 1);
      assert GoesOn(meaning, trace, steps, i - 1);
      StepKeepsSystem(meaning, trace[i - 1], steps[i - 1]);
    }
  }

  // ----- accepted replies stay accepted -----

  predicate AcceptedSoFar(l: Link.State, m: Link.State) {
    |l.accepted| <= |m.accepted| && m.accepted[..|l.accepted|] == l.accepted
  }

  lemma LinkStepAccepts(l: Link.State, step: Link.Step)
    requires Link.Enabled(l, step)
    ensures AcceptedSoFar(l, Link.Apply(l, step))
  {
  }

  lemma StepAccepts(meaning: Meaning, s: System, step: SystemStep)
    requires Allowed(s, step)
    ensures AcceptedSoFar(s.link, Advance(meaning, s, step).link)
  {
    match step
    case Parent(g) => LinkStepAccepts(s.link, g);
    case Reads => LinkStepAccepts(s.link, Link.ChildReads);
    case Ends => LinkStepAccepts(s.link, Link.ChildEnds);
    case Replies => LinkStepAccepts(s.link, Link.ChildReplies);
    case _ =>
  }

  lemma StepKeepsSaid(meaning: Meaning, s: System, step: SystemStep, n: int)
    requires SystemInv(meaning, s) && Allowed(s, step) && n in s.said && n < s.link.expected
    ensures var t := Advance(meaning, s, step); n in t.said && t.said[n] == s.said[n]
  {
  }

  /** The k-th accepted reply, with the status it carried. */
  predicate Accepted(s: System, k: nat, c: Link.Command, status: Status) {
    && k < |s.link.accepted| && s.link.accepted[k].0 == c
    && s.link.accepted[k].1.sequence in s.said && s.said[s.link.accepted[k].1.sequence] == status
  }

  lemma {:induction false} AcceptedStays(
    meaning: Meaning, trace: seq<System>, steps: seq<SystemStep>, clock: int, i: nat, j: nat, k: nat, c: Link.Command, status: Status)
    requires SystemRun(meaning, trace, steps, clock) && i <= j < |trace| && Accepted(trace[i], k, c, status)
    ensures Accepted(trace[j], k, c, status)
  {
    if i < j {
      AcceptedStays(meaning, trace, steps, clock, i, j - 1, k, c, status);
      AcceptedGoesOn(meaning, trace, steps, clock, j - 1, k, c, status);
    }
  }

  lemma AcceptedGoesOn(
    meaning: Meaning, trace: seq<System>, steps: seq<SystemStep>, clock: int, j: nat, k: nat, c: Link.Command, status: Status)
    requires SystemRun(meaning, trace, steps, clock) && j + 1 < |trace| && Accepted(trace[j], k, c, status)
    ensures Accepted(trace[j + 1], k, c, status)
  {
    RunKeepsSystem(meaning, trace, steps, clock, j);
    assert GoesOn(meaning, trace, steps, j);
    AcceptedAtNext(meaning, trace[j], steps[j], k, c, status);
  }

  lemma AcceptedAtNext(meaning: Meaning, s: System, step: SystemStep, k: nat, c: Link.Command, status: Status)
    requires SystemInv(meaning, s) && Allowed(s, step) && Accepted(s, k, c, status)
    ensures Accepted(Advance(meaning, s, step), k, c, status)
  {
    var r := s.link.accepted[k].1;
    assert Heard(s.link, r);
    assert SaidRight(meaning, s.service, s.link.expected, s.said, r);
    StepAccepts(meaning, s, step);
    StepKeepsSaid(meaning, s, step, r.sequence);
    assert Advance(meaning, s, step).link.accepted[k] == s.link.accepted[k];
  }

  lemma AcceptedIsRight(meaning: Meaning, s: System, k: nat, c: Link.Command, status: Status)
    requires SystemInv(meaning, s) && Accepted(s, k, c, status)
    ensures StatusOk(meaning, s.service, c, status)
  {
    var r := s.link.accepted[k].1;
    assert Heard(s.link, r);
    assert SaidRight(meaning, s.service, s.link.expected, s.said, r);
    assert Link.OwnReply(r, c);
  }

  // ----- what the caller can rely on -----

  /**
   Once the caller's Revoke of a token has been answered "revoked", no BeginConnect with that
   token succeeds in the child ever after, for any subject, and every permit it ever gave has its
   context cancelled and its transports flagged closed.
   */
  lemma RevokeReachesTheChild(
    meaning: Meaning, trace: seq<System>, steps: seq<SystemStep>, clock: int, i: nat, j: nat, k: nat, c: Link.Command, revoker: nat)
    requires SystemRun(meaning, trace, steps, clock) && i <= j < |trace| && Accepted(trace[i], k, c, Revoked(revoker))
    ensures c.action == Link.RevokeGrant && meaning(c.tag).Token? && meaning(c.tag).presented.Some?
    ensures var (g, key) := (trace[j].service.gateway, meaning(c.tag).presented.value);
      && (forall subject :: BeginVerdict(g.table, g.grants, g.clock, Some(key), subject).Err?)
      && key in g.issued && forall p :: 0 <= p < |g.permits| && g.permits[p].gid == g.issued[key] ==> CutOff(g.permits[p])
  {
    AcceptedStays(meaning, trace, steps, clock, i, j, k, c, Revoked(revoker));
    RunKeepsSystem(meaning, trace, steps, clock, j);
    AcceptedIsRight(meaning, trace[j], k, c, Revoked(revoker));
    var (g, key) := (trace[j].service.gateway, meaning(c.tag).presented.value);
    RevokedIsRefused(g, revoker, g.issued[key]);
  }

  /**
   Once the caller's IssueGrant has been answered with a key, from then on: a BeginConnect with that
   key succeeds in the child exactly for the subject of the request, before its expiry, unless the
   grant has been used or revoked.
   */
  lemma IssueReachesTheChild(
    meaning: Meaning, trace: seq<System>, steps: seq<SystemStep>, clock: int, i: nat, j: nat, k: nat, c: Link.Command, key: Key)
    requires SystemRun(meaning, trace, steps, clock) && i <= j < |trace| && Accepted(trace[i], k, c, GrantIssued(key))
    ensures c.action == Link.IssueGrant && meaning(c.tag).Request?
    ensures Grants(trace[j].service.gateway, key, meaning(c.tag).request.binding)
    ensures var (g, b) := (trace[j].service.gateway, meaning(c.tag).request.binding);
      forall subject :: BeginVerdict(g.table, g.grants, g.clock, Some(key), subject).Ok? <==>
        && subject == b.subject && g.clock < b.expiresAt
        && !g.grants[g.issued[key]].used && !g.grants[g.issued[key]].revoked
  {
    AcceptedStays(meaning, trace, steps, clock, i, j, k, c, GrantIssued(key));
    RunKeepsSystem(meaning, trace, steps, clock, j);
    AcceptedIsRight(meaning, trace[j], k, c, GrantIssued(key));
  }

  predicate CutOff(m: Permit) { m.cancelled && m.transportsClosed }

  lemma RevokedIsRefused(g: State, r: nat, gid: nat)
    requires Inv(g) && KeysOk(g) && RevokedNil(g, r, gid)
    ensures forall key, subject :: key in g.issued && g.issued[key] == gid ==> BeginVerdict(g.table, g.grants, g.clock, Some(key), subject).Err?
    ensures forall p :: 0 <= p < |g.permits| && g.permits[p].gid == gid ==> CutOff(g.permits[p])
  {
    assert RevokerOk(g, r);
    forall p | 0 <= p < |g.permits| && g.permits[p].gid == gid ensures CutOff(g.permits[p]) {
      assert ThreadsOk(g.permits[p]);
    }
  }

  /**
   Once the caller's Stop has returned nil the child's Gateway is quiet for good: no handler is past
   the closing gate, every permit has been closed to the end, and every tunnel's copies have ended.
   */
  lemma StopReachesTheChild(meaning: Meaning, trace: seq<System>, steps: seq<SystemStep>, clock: int, i: nat, j: nat)
    requires SystemRun(meaning, trace, steps, clock) && i <= j < |trace| && trace[i].link.stopped
    ensures QuietService(trace[j].service)
  {
    RunKeepsSystem(meaning, trace, steps, clock, i);
    var k := |trace[i].link.accepted| - 1;
    var (c, r) := trace[i].link.accepted[k];
    assert Heard(trace[i].link, r);
    assert SaidRight(meaning, trace[i].service, trace[i].link.expected, trace[i].said, r);
    assert Link.OwnReply(r, c);
    AcceptedStays(meaning, trace, steps, clock, i, j, k, c, trace[i].said[r.sequence]);
    RunKeepsSystem(meaning, trace, steps, clock, j);
    AcceptedIsRight(meaning, trace[j], k, c, trace[i].said[r.sequence]);
    StoppedIsQuiet(trace[j].service);
  }

  // ----- calls that nothing comes between -----

  /** The steps, taken in a row, lead from s to t. */
  predicate Leads(meaning: Meaning, s: System, steps: seq<SystemStep>, t: System)
    decreases |steps|
  {
    if steps == [] then s == t else Allowed(s, steps[0]) && Leads(meaning, Advance(meaning, s, steps[0]), steps[1..], t)
  }

  lemma LeadsCons(meaning: Meaning, s: System, step: SystemStep, n: System, steps: seq<SystemStep>, t: System)
    requires Allowed(s, step) && n == Advance(meaning, s, step) && Leads(meaning, n, steps, t)
    ensures Leads(meaning, s, [step] + steps, t)
  {
    assert ([step] + steps)[1..] == steps;
  }

  /** Steps of the link alone, as steps of the system. */
  function Lifted(steps: seq<Link.Step>): seq<SystemStep> {
    if steps == [] then [] else [if steps[0].ChildReads? then Reads else Parent(steps[0])] + Lifted(steps[1..])
  }

  predicate Reading(steps: seq<Link.Step>) { steps != [] && (steps[0].ChildReads? || Reading(steps[1..])) }

  lemma {:induction false} LinkLeads(
    meaning: Meaning, s: System, steps: seq<Link.Step>, l: Link.State, more: seq<SystemStep>, t: System)
    requires Link.Leads(s.link, steps, l) && forall x :: x in steps ==> Link.ParentStep(x) || x.ChildReads?
    requires Leads(meaning, s.(link := l, work := if Reading(steps) then Fresh else s.work), more, t)
    ensures Leads(meaning, s, Lifted(steps) + more, t)
    decreases |steps|
  {
    if steps == [] {
      assert Lifted(steps) + more == more && s.(link := l, work := s.work) == s;
    } else {
      var step := if steps[0].ChildReads? then Reads else Parent(steps[0]);
      var n := Advance(meaning, s, step);
      LinkLeads(meaning, n, steps[1..], l, more, t);
      LeadsCons(meaning, s, step, n, Lifted(steps[1..]) + more, t);
      assert Lifted(steps) + more == [step] + (Lifted(steps[1..]) + more);
    }
  }

  function CallSteps(action: Link.Action, tag: nat, draws: seq<Key>): seq<SystemStep> {
    Lifted(Link.AskSteps(action, tag)) + ([Works(draws)] + ([Replies] + [Parent(Link.Receive)]))
  }

  /** The state after a call that the child answers at once. */
  function CallEnds(s: System, c: Link.Command, v: Service, status: Status): System {
    System(Link.Told(s.link, c), v, Answered(status), s.said[c.sequence := status])
  }

  /**
   From every reachable state in which the child waits for a call: a call that the child's Gateway answers at
   once, an issue command or the policy's, can run to its end, and then the caller has accepted that very answer.
   */
  lemma AnsweredCallCompletes(
    meaning: Meaning, s: System, action: Link.Action, tag: nat, draws: seq<Key>, v: Service, status: Status)
    requires SystemInv(meaning, s) && Link.Ready(s.link) && s.link.sequence < 256 && action != Link.Stop
    requires Begun(meaning, s.service, Link.Next(s.link, action, tag), draws) == (v, Answered(status))
    ensures var (c, t) := (Link.Next(s.link, action, tag), CallEnds(s, Link.Next(s.link, action, tag), v, status));
      Leads(meaning, s, CallSteps(action, tag, draws), t) && Accepted(t, |s.link.accepted|, c, status)
  {
    var c := Link.Next(s.link, action, tag);
    Link.CallReachesTheChild(s.link, action, tag);
    Link.ExchangeCompletes(s.link, action, tag);
    Link.ReadyIsQuiet(s.link);
    ReplyIsTold(meaning, s, c, v, status);
    WorkIsAnswered(meaning, s.(link := Link.Asked(s.link, c), work := Fresh), c, draws, v, status, [Replies] + [Parent(Link.Receive)],
                   CallEnds(s, c, v, status));
    AskStepsRead(action, tag);
    LinkLeads(meaning, s, Link.AskSteps(action, tag), Link.Asked(s.link, c), [Works(draws)] + ([Replies] + [Parent(Link.Receive)]),
              CallEnds(s, c, v, status));
    CallIsAccepted(s, c, v, status);
  }

  lemma CallIsAccepted(s: System, c: Link.Command, v: Service, status: Status)
    ensures Accepted(CallEnds(s, c, v, status), |s.link.accepted|, c, status)
  {
  }

  lemma AskStepsRead(action: Link.Action, tag: nat)
    ensures Reading(Link.AskSteps(action, tag))
    ensures forall x :: x in Link.AskSteps(action, tag) ==> Link.ParentStep(x) || x.ChildReads?
  {
    var steps := Link.AskSteps(action, tag);
    assert steps[1..][1..][1..] == [Link.ChildReads] && Reading(steps[1..][1..][1..]) && Reading(steps[1..][1..]);
  }

  lemma WorkIsAnswered(meaning: Meaning, s: System, c: Link.Command, draws: seq<Key>, v: Service, status: Status,
                       more: seq<SystemStep>, t: System)
    requires s.link.child == Link.Serving(c) && s.work.Fresh? && s.service.pc == Looping
    requires Begun(meaning, s.service, c, draws) == (v, Answered(status))
    requires Leads(meaning, System(s.link, v, Answered(status), s.said), more, t)
    ensures Leads(meaning, s, [Works(draws)] + more, t)
  {
    LeadsCons(meaning, s, Works(draws), System(s.link, v, Answered(status), s.said), more, t);
  }

  lemma ReplyIsTold(meaning: Meaning, s: System, c: Link.Command, v: Service, status: Status)
    requires Link.Leads(Link.Asked(s.link, c), [Link.ChildReplies] + [Link.Receive], Link.Told(s.link, c))
    requires c.sequence == s.link.expected
    ensures Leads(meaning, System(Link.Asked(s.link, c), v, Answered(status), s.said), [Replies] + [Parent(Link.Receive)],
                  CallEnds(s, c, v, status))
  {
    var a := Link.Asked(s.link, c);
    var r := Link.Apply(a, Link.ChildReplies);
    var t := CallEnds(s, c, v, status);
    assert ([Link.ChildReplies] + [Link.Receive])[1..] == [Link.Receive];
    assert Link.Leads(r, [Link.Receive], Link.Told(s.link, c));
    assert [Link.Receive][1..] == [];
    var n := System(r, v, Answered(status), s.said[c.sequence := status]);
    LeadsCons(meaning, n, Parent(Link.Receive), t, [], t);
    LeadsCons(meaning, System(a, v, Answered(status), s.said), Replies, n, [Parent(Link.Receive)], t);
  }
}
