/**
 The shared state of the terminal Gateway and the effect of every atomic step on it.

 A step is one critical section, one channel wait, or one physical Close.  Two steps do more
 than one atomic action, and lose no behaviour by it.  Revoke marks the grant and cancels its
 permits in one step: the mark shows only once the mutex is released, and a context that ends
 on its own before is the step ContextDone.  CloseCall passes finishOnce and cancels the
 context: every other caller of Close waits there anyway, and again the cancelling alone is
 ContextDone.  Grants and permits are heap objects in the
 source; here an object is named by its index in a sequence that only grows, so a grant
 dropped from the lookup table keeps its identity.  A permit's index is its connection id.
 */
module GatewayState {
  import opened Prelude

  /** SHA-256 of a well-formed bearer token; a malformed token presents None. */
  type Key = nat

  /** Nanoseconds. */
  const MAX_GRANT_TTL: int := 5 * 60 * 1_000_000_000
  const MAX_GRANTS: nat := 64
  const DRAWS: nat := 4

  datatype Binding = Binding(
    subject: string, tenant: string, session: string, handoff: string, expiresAt: int)

  /** wellFormed stands for the identifier, URI and reference shape checks. */
  datatype GrantRequest = GrantRequest(binding: Binding, wellFormed: bool)

  /** issuedAt is history, as State.issued is. */
  datatype Grant = Grant(binding: Binding, used: bool, revoked: bool, permits: set<nat>, issuedAt: int)

  /** The two transports one Attach call was handed. */
  datatype Transport = Front(call: nat) | Back(call: nat)

  /**
   Program counter of a thread that closes a permit's transports: the cancellation
   watcher or the one execution of Close that finishOnce lets through.  A thread in
   Owe has set transportsClosed and still owes a physical Close of every transport listed.
   */
  datatype Pc = Idle | Enter | Owe(rest: seq<Transport>) | Unlist | Signal | Over

  datatype Thread = Watcher | Closer

  /** winner is history: the thread that set transportsClosed. */
  datatype Permit = Permit(
    gid: nat, key: Key, binding: Binding, startedAt: int,
    cancelled: bool,
    lock: Option<nat>,
    frontend: Option<Transport>, backend: Option<Transport>, transportsClosed: bool, winner: Option<Thread>,
    watcher: Pc, closer: Pc, done: bool)
  {
    function PcOf(who: Thread): Pc {
      if who == Watcher then watcher else closer
    }

    function WithPc(who: Thread, pc: Pc): Permit {
      if who == Watcher then this.(watcher := pc) else this.(closer := pc)
    }
  }

  /** An Attach call between its check and its store holds the permit's mutex. */
  datatype CallPc = Checking | Checked | Rejecting(rest: seq<Transport>) | Attached

  datatype Call = Call(permit: nat, pc: CallPc)

  datatype RevokerPc = Waiting | Acknowledged | GaveUp

  datatype Revoker = Revoker(gid: nat, waiting: set<nat>, pc: RevokerPc)

  /** issued remembers every key ever handed out; the source keeps no such history. */
  datatype State = State(
    policy: map<string, string>,
    table: map<Key, nat>, issued: map<Key, nat>, grants: seq<Grant>,
    permits: seq<Permit>, calls: seq<Call>, closed: multiset<Transport>,
    revokers: seq<Revoker>, clock: int)

  datatype Step =
    | Tick(elapsed: nat)
    | Issue(request: GrantRequest, draws: seq<Key>)
    | Begin(presented: Option<Key>, subject: string)
    | Revoke(presented: Option<Key>, subject: string)
    | RevokeWait(revoker: nat, permit: nat)
    | RevokeReturn(revoker: nat)
    | RevokeGiveUp(revoker: nat)
    | AttachCall(permit: nat)
    | AttachCheck(call: nat)
    | AttachStore(call: nat)
    | AttachReject(call: nat)
    | ContextDone(permit: nat)
    | WatcherWake(permit: nat)
    | CloseCall(permit: nat)
    | EnterClosing(who: Thread, permit: nat)
    | ClosePhysically(who: Thread, permit: nat)
    | LeaveClosing(who: Thread, permit: nat)
    | UnlistPermit(permit: nat)
    | SignalDone(permit: nat)

  datatype Rejection =
    | GrantRequestRejected | GrantCapacity
    | Unauthorized | GrantRevoked | GrantExpired | GrantAlreadyUsed

  /** What New demands of an identity policy besides the shapes of its names: two subjects, each with its own tenant. */
  predicate OneTenantEach(policy: map<string, string>) {
    |policy| == 2 && forall x, y :: x in policy && y in policy && policy[x] == policy[y] ==> x == y
  }

  function Init(policy: map<string, string>, clock: int): State {
    State(policy, map[], map[], [], [], [], multiset{}, [], clock)
  }

  // ----- grants -----

  predicate Purgeable(grant: Grant, now: int) {
    grant.permits == {} && (grant.revoked || now >= grant.binding.expiresAt)
  }

  function PurgedTable(table: map<Key, nat>, grants: seq<Grant>, now: int): map<Key, nat>
  {
    map k | k in table && !(table[k] < |grants| && Purgeable(grants[table[k]], now)) :: table[k]
  }

  /** The first of at most four draws that does not collide with a live key; no draw is an entropy failure. */
  function PickKey(draws: seq<Key>, table: map<Key, nat>, budget: nat): (r: Result<Key, Rejection>)
    ensures r.Ok? ==> r.value in draws && r.value !in table
    decreases budget
  {
    if budget == 0 then Err(GrantCapacity)
    else if draws == [] then Err(GrantRequestRejected)
    else if draws[0] in table then PickKey(draws[1..], table, budget - 1)
    else Ok(draws[0])
  }

  predicate IssueAllowed(s: State, request: GrantRequest) {
    var b := request.binding;
    && request.wellFormed
    && b.subject in s.policy && s.policy[b.subject] == b.tenant
    && s.clock < b.expiresAt && b.expiresAt - s.clock <= MAX_GRANT_TTL
  }

  function IssueVerdict(s: State, request: GrantRequest, draws: seq<Key>): Result<Key, Rejection> {
    if !IssueAllowed(s, request) then Err(GrantRequestRejected)
    else
      var table := PurgedTable(s.table, s.grants, s.clock);
      if |table| >= MAX_GRANTS then Err(GrantCapacity)
      else PickKey(draws, table, DRAWS)
  }

  /** A rejected request past the policy check has still purged the table. */
  function ApplyIssue(s: State, request: GrantRequest, draws: seq<Key>): State {
    if !IssueAllowed(s, request) then s
    else
      var table := PurgedTable(s.table, s.grants, s.clock);
      match IssueVerdict(s, request, draws)
      case Err(_) => s.(table := table)
      case Ok(key) =>
        s.(table := table[key := |s.grants|], issued := s.issued[key := |s.grants|],
           grants := s.grants + [Grant(request.binding, false, false, {}, s.clock)])
  }

  function BeginVerdict(table: map<Key, nat>, grants: seq<Grant>, now: int,
                        presented: Option<Key>, subject: string): Result<nat, Rejection>
  {
    if presented.None? || presented.value !in table || table[presented.value] >= |grants| then Err(Unauthorized)
    else
      var gid := table[presented.value];
      var grant := grants[gid];
      if grant.binding.subject != subject then Err(Unauthorized)
      else if grant.revoked then Err(GrantRevoked)
      else if now >= grant.binding.expiresAt then Err(GrantExpired)
      else if grant.used then Err(GrantAlreadyUsed)
      else Ok(gid)
  }

  function NewPermit(gid: nat, key: Key, binding: Binding, now: int): Permit {
    Permit(gid, key, binding, now, false, None, None, None, false, None, Idle, Idle, false)
  }

  function ApplyBegin(s: State, presented: Option<Key>, subject: string): State {
    match BeginVerdict(s.table, s.grants, s.clock, presented, subject)
    case Err(_) => s
    case Ok(gid) =>
      if presented.None? || gid >= |s.grants| then s else
      var grant := s.grants[gid];
      s.(grants := s.grants[gid := grant.(used := true, permits := grant.permits + {|s.permits|})],
         permits := s.permits + [NewPermit(gid, presented.value, grant.binding, s.clock)])
  }

  function RevokeVerdict(s: State, presented: Option<Key>, subject: string): Result<nat, Rejection> {
    if presented.None? || presented.value !in s.table || s.table[presented.value] >= |s.grants| then Err(Unauthorized)
    else if s.grants[s.table[presented.value]].binding.subject != subject then Err(Unauthorized)
    else Ok(s.table[presented.value])
  }

  /** Cancels the context of every listed permit. */
  function CancelAll(permits: seq<Permit>, listed: set<nat>): (r: seq<Permit>)
    ensures |r| == |permits|
    ensures forall i :: 0 <= i < |r| ==>
      r[i] == if i in listed then permits[i].(cancelled := true) else permits[i]
  {
    seq(|permits|, i requires 0 <= i < |permits| =>
      if i in listed then permits[i].(cancelled := true) else permits[i])
  }

  /** The first critical section of Revoke; the waiting that follows is RevokeWait. */
  function ApplyRevoke(s: State, presented: Option<Key>, subject: string): State {
    match RevokeVerdict(s, presented, subject)
    case Err(_) => s
    case Ok(gid) =>
      if gid >= |s.grants| then s else
      var grant := s.grants[gid];
      s.(grants := s.grants[gid := grant.(revoked := true)],
         permits := CancelAll(s.permits, grant.permits),
         revokers := s.revokers + [Revoker(gid, grant.permits, Waiting)])
  }

  // ----- permits -----

  predicate AttachRefused(p: Permit) {
    p.transportsClosed || p.cancelled || p.frontend.Some? || p.backend.Some?
  }

  function Captured(p: Permit): seq<Transport> {
    (if p.frontend.Some? then [p.frontend.value] else []) +
    (if p.backend.Some? then [p.backend.value] else [])
  }

  /** Where a closing thread continues after closeTransports returns. */
  function AfterClosing(who: Thread): Pc {
    if who == Watcher then Over else Unlist
  }

  /** The locked part of closeTransports: only the first thread through owes the closes. */
  function EnterClosingPermit(p: Permit, who: Thread): Permit {
    if p.transportsClosed then p.WithPc(who, AfterClosing(who))
    else p.(transportsClosed := true, winner := Some(who)).WithPc(who, Owe(Captured(p)))
  }

  function SetPermit(s: State, i: nat, p: Permit): State
    requires i < |s.permits|
  {
    s.(permits := s.permits[i := p])
  }

  function SetCall(s: State, i: nat, pc: CallPc): State
    requires i < |s.calls|
  {
    s.(calls := s.calls[i := s.calls[i].(pc := pc)])
  }

  function SetRevoker(s: State, i: nat, r: Revoker): State
    requires i < |s.revokers|
  {
    s.(revokers := s.revokers[i := r])
  }

  /** When a step can run. */
  predicate Enabled(s: State, step: Step) {
    match step
    case Tick(_) => true
    case Issue(_, _) => true
    case Begin(_, _) => true
    case Revoke(_, _) => true
    case RevokeWait(r, p) =>
      r < |s.revokers| && s.revokers[r].pc == Waiting && p in s.revokers[r].waiting &&
      p < |s.permits| && s.permits[p].done
    case RevokeReturn(r) => r < |s.revokers| && s.revokers[r].pc == Waiting && s.revokers[r].waiting == {}
    case RevokeGiveUp(r) => r < |s.revokers| && s.revokers[r].pc == Waiting
    case AttachCall(p) => p < |s.permits|
    case AttachCheck(a) =>
      a < |s.calls| && s.calls[a].pc == Checking && s.calls[a].permit < |s.permits| &&
      s.permits[s.calls[a].permit].lock == None
    case AttachStore(a) => a < |s.calls| && s.calls[a].pc == Checked && s.calls[a].permit < |s.permits|
    case AttachReject(a) => a < |s.calls| && s.calls[a].pc.Rejecting? && s.calls[a].pc.rest != []
    case ContextDone(p) => p < |s.permits|
    case WatcherWake(p) => p < |s.permits| && s.permits[p].cancelled && s.permits[p].watcher == Idle
    case CloseCall(p) => p < |s.permits| && s.permits[p].closer == Idle
    case EnterClosing(who, p) => p < |s.permits| && s.permits[p].lock == None && s.permits[p].PcOf(who) == Enter
    case ClosePhysically(who, p) => p < |s.permits| && s.permits[p].PcOf(who).Owe? && s.permits[p].PcOf(who).rest != []
    case LeaveClosing(who, p) => p < |s.permits| && s.permits[p].PcOf(who) == Owe([])
    case UnlistPermit(p) => p < |s.permits| && s.permits[p].closer == Unlist
    case SignalDone(p) => p < |s.permits| && s.permits[p].closer == Signal
  }

  /** Close drops the permit from whatever grant its key finds. */
  function UnlistFrom(s: State, key: Key, permit: nat): seq<Grant> {
    if key in s.table && s.table[key] < |s.grants| then
      var gid := s.table[key];
      s.grants[gid := s.grants[gid].(permits := s.grants[gid].permits - {permit})]
    else s.grants
  }

  function Apply(s: State, step: Step): State
    requires Enabled(s, step)
  {
    match step
    case Tick(elapsed) => s.(clock := s.clock + elapsed)
    case Issue(request, draws) => ApplyIssue(s, request, draws)
    case Begin(presented, subject) => ApplyBegin(s, presented, subject)
    case Revoke(presented, subject) => ApplyRevoke(s, presented, subject)
    case RevokeWait(r, p) => SetRevoker(s, r, s.revokers[r].(waiting := s.revokers[r].waiting - {p}))
    case RevokeReturn(r) => SetRevoker(s, r, s.revokers[r].(pc := Acknowledged))
    case RevokeGiveUp(r) => SetRevoker(s, r, s.revokers[r].(pc := GaveUp))
    case AttachCall(p) => s.(calls := s.calls + [Call(p, Checking)])
    case AttachCheck(a) =>
      var p := s.calls[a].permit;
      if AttachRefused(s.permits[p]) then SetCall(s, a, Rejecting([Front(a), Back(a)]))
      else SetPermit(SetCall(s, a, Checked), p, s.permits[p].(lock := Some(a)))
    case AttachStore(a) =>
      var p := s.calls[a].permit;
      SetPermit(SetCall(s, a, Attached), p,
                s.permits[p].(lock := None, frontend := Some(Front(a)), backend := Some(Back(a))))
    case AttachReject(a) =>
      var rest := s.calls[a].pc.rest;
      SetCall(s, a, Rejecting(rest[1..])).(closed := s.closed + multiset{rest[0]})
    case ContextDone(p) => SetPermit(s, p, s.permits[p].(cancelled := true))
    case WatcherWake(p) => SetPermit(s, p, s.permits[p].(watcher := Enter))
    case CloseCall(p) => SetPermit(s, p, s.permits[p].(cancelled := true, closer := Enter))
    case EnterClosing(who, p) => SetPermit(s, p, EnterClosingPermit(s.permits[p], who))
    case ClosePhysically(who, p) =>
      var rest := s.permits[p].PcOf(who).rest;
      SetPermit(s, p, s.permits[p].WithPc(who, Owe(rest[1..]))).(closed := s.closed + multiset{rest[0]})
    case LeaveClosing(who, p) => SetPermit(s, p, s.permits[p].WithPc(who, AfterClosing(who)))
    case UnlistPermit(p) =>
      SetPermit(s.(grants := UnlistFrom(s, s.permits[p].key, p)), p, s.permits[p].(closer := Signal))
    case SignalDone(p) => SetPermit(s, p, s.permits[p].(closer := Over, done := true))
  }

  /** The i-th state is left by the i-th step. */
  predicate Follows(trace: seq<State>, steps: seq<Step>, i: nat) {
    i < |steps| && i + 1 < |trace| && Enabled(trace[i], steps[i]) && trace[i + 1] == Apply(trace[i], steps[i])
  }

  /** A finite run: any interleaving of callers, watchers, timers and revokers. */
  ghost predicate Run(trace: seq<State>, steps: seq<Step>, policy: map<string, string>, clock: int) {
    && |trace| == |steps| + 1
    && trace[0] == Init(policy, clock)
    && forall i :: 0 <= i < |steps| ==> Follows(trace, steps, i)
  }
}
