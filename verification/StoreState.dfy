/** The caller's correlation state, its validity, and the five bindings that advance it. */
module StoreState {
  import opened Prelude
  import opened JcsUtf8

  const MAX_SAFE_INTEGER: int := 9007199254740991
  const MAX_STATE_BYTES: nat := 65536
  const MAX_SNAPSHOT_BYTES: nat := 1048576

  datatype Stage = Planned | CapabilitiesBound | LifecycleBound | ExecBound | TerminalBound | InitialComplete

  datatype PlannedOperation = PlannedOperation(operationId: string, attemptId: string, idempotencyKey: string)

  datatype Plan = Plan(
    runId: string, tenantA: string, tenantB: string, workOrderA: string, workOrderB: string,
    workspaceId: string, branchId: string, resolutionId: string, sandboxId: string,
    create: PlannedOperation, exec: PlannedOperation, terminal: PlannedOperation, artifact: PlannedOperation)

  datatype ProviderBinding = ProviderBinding(revisionId: string, snapshotHash: string, policyDigest: string, decidedAt: string)

  datatype OperationBinding = OperationBinding(operationId: string, attemptId: string, idempotencyKey: string, fencingToken: int)

  datatype ExecBinding = ExecBinding(operation: OperationBinding, resultDigest: string, usageDigest: string)

  datatype TerminalBinding = TerminalBinding(
    operation: OperationBinding, sessionId: string, handoffReference: string, handoffDigest: string)

  datatype ArtifactBinding = ArtifactBinding(operation: OperationBinding, evidenceDigest: string)

  /** Format, state type, contract revision, profile and profile digest: fixed by the build. */
  datatype Header = Header(
    formatVersion: int, stateType: string, contractRevision: string, profileId: string, profileDigest: string)

  datatype State = State(
    header: Header, storeRevision: int, stage: Stage, plan: Plan,
    provider: Option<ProviderBinding>, lifecycle: Option<OperationBinding>, exec: Option<ExecBinding>,
    terminal: Option<TerminalBinding>, artifact: Option<ArtifactBinding>)

  /**
   What the store takes from other packages: the build's constants, SHA-256 in its printed
   form, RFC 3339 parsing, the UTF-8 and control-character check of opaque references, and
   the canonical codec of the state document.
   */
  datatype World = World(
    header: Header, hash: Bytes -> string, textBytes: string -> Bytes, dateTime: string -> bool, reference: string -> bool,
    encode: State -> Option<Bytes>, decode: Bytes -> Option<State>)

  /** A state with a document of a size that the store writes. */
  predicate Storable(w: World, s: State) {
    w.encode(s).Some? && 0 < |w.encode(s).value| <= MAX_STATE_BYTES
  }

  /** A document that can be written decodes to the state it was written for. */
  ghost predicate LawfulCodec(w: World) {
    forall s :: w.encode(s).Some? && ValidState(w, s) ==> w.decode(w.encode(s).value) == Some(s)
  }

  predicate Alphanumeric(c: char) { 'A' <= c <= 'Z' || 'a' <= c <= 'z' || '0' <= c <= '9' }

  predicate IdentifierChar(c: char) { Alphanumeric(c) || c == '.' || c == '_' || c == ':' || c == '-' }

  predicate ValidIdentifier(s: string) {
    1 <= |s| <= 200 && Alphanumeric(s[0]) && forall i :: 0 <= i < |s| ==> IdentifierChar(s[i])
  }

  predicate HexDigit(c: char) { '0' <= c <= '9' || 'a' <= c <= 'f' }

  predicate ValidDigest(s: string) {
    |s| == 71 && s[..7] == "sha256:" && forall i :: 7 <= i < 71 ==> HexDigit(s[i])
  }

  function PlanValues(p: Plan): seq<string> {
    [p.runId, p.tenantA, p.tenantB, p.workOrderA, p.workOrderB, p.workspaceId, p.branchId, p.resolutionId, p.sandboxId,
     p.create.operationId, p.create.attemptId, p.create.idempotencyKey,
     p.exec.operationId, p.exec.attemptId, p.exec.idempotencyKey,
     p.terminal.operationId, p.terminal.attemptId, p.terminal.idempotencyKey,
     p.artifact.operationId, p.artifact.attemptId, p.artifact.idempotencyKey]
  }

  predicate Distinct(values: seq<string>) {
    forall i, j :: 0 <= i < j < |values| ==> values[i] != values[j]
  }

  predicate AllIdentifiers(values: seq<string>) {
    forall i :: 0 <= i < |values| ==> ValidIdentifier(values[i])
  }

  /** The seen-set loop of validPlan: every value an identifier, and no two alike. */
  method CheckPlanValues(values: seq<string>) returns (ok: bool)
    ensures ok <==> AllIdentifiers(values) && Distinct(values)
  {
    var seen: set<string> := {};
    var i := 0;
    while i < |values|
      invariant 0 <= i <= |values|
      invariant AllIdentifiers(values[..i]) && Distinct(values[..i])
      invariant forall v :: v in seen <==> v in values[..i]
    {
      if !ValidIdentifier(values[i]) { return false; }
      if values[i] in seen {
        assert exists k :: 0 <= k < i && values[..i][k] == values[i];
        return false;
      }
      seen := seen + {values[i]};
      assert values[..i + 1] == values[..i] + [values[i]];
      i := i + 1;
    }
    assert values[..i] == values;
    ok := true;
  }

  predicate ValidPlan(p: Plan) {
    AllIdentifiers(PlanValues(p)) && Distinct(PlanValues(p))
  }

  predicate ValidToken(token: int) { 1 <= token <= MAX_SAFE_INTEGER }

  predicate ValidOperation(o: OperationBinding) {
    ValidIdentifier(o.operationId) && ValidIdentifier(o.attemptId) && ValidIdentifier(o.idempotencyKey) && ValidToken(o.fencingToken)
  }

  predicate MatchesPlan(o: OperationBinding, p: PlannedOperation) {
    o.operationId == p.operationId && o.attemptId == p.attemptId && o.idempotencyKey == p.idempotencyKey
  }

  function OperationFromPlan(p: PlannedOperation, token: int): OperationBinding {
    OperationBinding(p.operationId, p.attemptId, p.idempotencyKey, token)
  }

  predicate ProviderValid(w: World, s: State) {
    && s.provider.Some?
    && var p := s.provider.value;
    && ValidIdentifier(p.revisionId) && ValidDigest(p.snapshotHash) && ValidDigest(p.policyDigest) && w.dateTime(p.decidedAt)
  }

  predicate LifecycleValid(s: State) {
    s.lifecycle.Some? && ValidOperation(s.lifecycle.value) && MatchesPlan(s.lifecycle.value, s.plan.create)
  }

  predicate ExecValid(s: State) {
    && s.exec.Some? && ValidOperation(s.exec.value.operation) && MatchesPlan(s.exec.value.operation, s.plan.exec)
    && ValidDigest(s.exec.value.resultDigest) && ValidDigest(s.exec.value.usageDigest)
  }

  predicate TerminalValid(w: World, s: State) {
    && s.terminal.Some?
    && var t := s.terminal.value;
    && ValidOperation(t.operation) && MatchesPlan(t.operation, s.plan.terminal)
    && ValidIdentifier(t.sessionId) && w.reference(t.handoffReference)
    && t.handoffDigest == w.hash(w.textBytes(t.handoffReference))
  }

  predicate ArtifactValid(s: State) {
    && s.artifact.Some? && ValidOperation(s.artifact.value.operation)
    && MatchesPlan(s.artifact.value.operation, s.plan.artifact) && ValidDigest(s.artifact.value.evidenceDigest)
  }

  /** How many of the five bindings a stage has. */
  function Rank(stage: Stage): nat {
    match stage
    case Planned => 0
    case CapabilitiesBound => 1
    case LifecycleBound => 2
    case ExecBound => 3
    case TerminalBound => 4
    case InitialComplete => 5
  }

  /** validateState: each binding is there, and right, from its stage on and not before. */
  predicate ValidState(w: World, s: State) {
    && s.header == w.header && 1 <= s.storeRevision <= MAX_SAFE_INTEGER && ValidPlan(s.plan)
    && (if Rank(s.stage) >= 1 then ProviderValid(w, s) else s.provider.None?)
    && (if Rank(s.stage) >= 2 then LifecycleValid(s) else s.lifecycle.None?)
    && (if Rank(s.stage) >= 3 then ExecValid(s) else s.exec.None?)
    && (if Rank(s.stage) >= 4 then TerminalValid(w, s) else s.terminal.None?)
    && (if Rank(s.stage) >= 5 then ArtifactValid(s) else s.artifact.None?)
  }

  function InitialState(w: World, plan: Plan): State {
    State(w.header, 1, Planned, plan, None, None, None, None, None)
  }

  // ----- bindings -----

  datatype Bind =
    | BindCapabilities(revisionId: string, snapshot: Bytes, policyDigest: string, decidedAt: string)
    | BindLifecycle(token: int)
    | BindExec(token: int, resultDigest: string, usageDigest: string)
    | BindTerminal(token: int, sessionId: string, handoffReference: string)
    | BindArtifact(token: int, evidenceDigest: string)

  predicate ArgumentsOk(w: World, b: Bind) {
    match b
    case BindCapabilities(revisionId, snapshot, policyDigest, decidedAt) =>
      ValidIdentifier(revisionId) && 1 <= |snapshot| <= MAX_SNAPSHOT_BYTES && ValidDigest(policyDigest) && w.dateTime(decidedAt)
    case BindLifecycle(token) => ValidToken(token)
    case BindExec(token, resultDigest, usageDigest) => ValidToken(token) && ValidDigest(resultDigest) && ValidDigest(usageDigest)
    case BindTerminal(token, sessionId, handoffReference) =>
      ValidToken(token) && ValidIdentifier(sessionId) && w.reference(handoffReference)
    case BindArtifact(token, evidenceDigest) => ValidToken(token) && ValidDigest(evidenceDigest)
  }

  /** The stage a binding starts from. */
  function From(b: Bind): Stage {
    match b
    case BindCapabilities(_, _, _, _) => Planned
    case BindLifecycle(_) => CapabilitiesBound
    case BindExec(_, _, _) => LifecycleBound
    case BindTerminal(_, _, _) => ExecBound
    case BindArtifact(_, _) => TerminalBound
  }

  function Next(w: World, b: Bind, s: State): State {
    var t := s.(storeRevision := s.storeRevision + 1);
    match b
    case BindCapabilities(revisionId, snapshot, policyDigest, decidedAt) =>
      t.(stage := CapabilitiesBound, provider := Some(ProviderBinding(revisionId, w.hash(snapshot), policyDigest, decidedAt)))
    case BindLifecycle(token) =>
      t.(stage := LifecycleBound, lifecycle := Some(OperationFromPlan(s.plan.create, token)))
    case BindExec(token, resultDigest, usageDigest) =>
      t.(stage := ExecBound, exec := Some(ExecBinding(OperationFromPlan(s.plan.exec, token), resultDigest, usageDigest)))
    case BindTerminal(token, sessionId, handoffReference) =>
      t.(stage := TerminalBound,
         terminal := Some(TerminalBinding(OperationFromPlan(s.plan.terminal, token), sessionId, handoffReference,
                                          w.hash(w.textBytes(handoffReference)))))
    case BindArtifact(token, evidenceDigest) =>
      t.(stage := InitialComplete, artifact := Some(ArtifactBinding(OperationFromPlan(s.plan.artifact, token), evidenceDigest)))
  }

  /** The plan's operations carry its own identifiers. */
  lemma PlanOperations(p: Plan)
    requires AllIdentifiers(PlanValues(p))
    ensures forall o :: o in {p.create, p.exec, p.terminal, p.artifact} ==>
      ValidIdentifier(o.operationId) && ValidIdentifier(o.attemptId) && ValidIdentifier(o.idempotencyKey)
  {
    var v := PlanValues(p);
    assert forall i :: 9 <= i < 21 ==> ValidIdentifier(v[i]);
    assert v[9] == p.create.operationId && v[10] == p.create.attemptId && v[11] == p.create.idempotencyKey;
    assert v[12] == p.exec.operationId && v[13] == p.exec.attemptId && v[14] == p.exec.idempotencyKey;
    assert v[15] == p.terminal.operationId && v[16] == p.terminal.attemptId && v[17] == p.terminal.idempotencyKey;
    assert v[18] == p.artifact.operationId && v[19] == p.artifact.attemptId && v[20] == p.artifact.idempotencyKey;
  }

  /**
   From its own stage and with arguments that pass, a binding gives a valid state of the next
   stage exactly when the revision has room and the snapshot's digest is in the printed form.
   */
  lemma NextIsValidIff(w: World, b: Bind, s: State)
    requires ValidState(w, s) && s.stage == From(b) && ArgumentsOk(w, b)
    ensures ValidState(w, Next(w, b, s)) <==>
      s.storeRevision < MAX_SAFE_INTEGER && (b.BindCapabilities? ==> ValidDigest(w.hash(b.snapshot)))
    ensures Rank(Next(w, b, s).stage) == Rank(s.stage) + 1 && Next(w, b, s).plan == s.plan
  {
    PlanOperations(s.plan);
  }
}
