/** Under which member name of the state document each field of the state stands. */
module StoreMembers {
  import opened Prelude
  import opened JcsTree
  import opened StoreState
  import opened StoreTree
  import opened StoreKeys
  import opened StoreDocument

  /** The member of this name. */
  function At(v: Json, key: string): Option<Json> {
    if v.Obj? && Ascii(key) in v.members then Some(v.members[Ascii(key)]) else None
  }

  predicate IsText(w: World, v: Json, key: string, x: string) { At(v, key) == Some(WriteText(w, x)) }

  predicate IsInt(v: Json, key: string, n: int) { At(v, key) == Some(WriteInt(n)) }

  lemma MemberStands(keys: seq<string>, values: seq<Json>)
    requires GoodKeys(keys) && |keys| == |values|
    ensures forall i :: 0 <= i < |keys| ==> At(Record(Names(keys), values), keys[i]) == Some(values[i])
  {
    NamesDiffer(keys);
    TableHolds(Names(keys), values);
    forall i | 0 <= i < |keys| ensures At(Record(Names(keys), values), keys[i]) == Some(values[i]) {
      assert Names(keys)[i] == Ascii(keys[i]);
    }
  }

  lemma TextStands(w: World, keys: seq<string>, before: seq<Json>, xs: seq<string>, after: seq<Json>)
    requires GoodKeys(keys) && |before| + |xs| + |after| == |keys|
    ensures var v := WriteMixed(w, keys, before, xs, after);
      && (forall i :: 0 <= i < |before| ==> At(v, keys[i]) == Some(before[i]))
      && (forall i :: |before| <= i < |before| + |xs| ==> IsText(w, v, keys[i], xs[i - |before|]))
      && (forall i :: |before| + |xs| <= i < |keys| ==> At(v, keys[i]) == Some(after[i - |before| - |xs|]))
  {
    var values := before + WriteTexts(w, xs) + after;
    MemberStands(keys, values);
  }

  lemma PlannedMembers(w: World, o: PlannedOperation)
    ensures var v := WritePlanned(w, o);
      && IsText(w, v, "operation_id", o.operationId) && IsText(w, v, "attempt_id", o.attemptId)
      && IsText(w, v, "idempotency_key", o.idempotencyKey)
  {
    PlannedKeysAreGood();
    TextStands(w, PLANNED_KEYS, [], PlannedTexts(o), []);
    assert PLANNED_KEYS[0] == "operation_id" && PLANNED_KEYS[1] == "attempt_id" && PLANNED_KEYS[2] == "idempotency_key";
  }

  lemma OperationMembers(w: World, o: OperationBinding)
    ensures var v := WriteOperation(w, o);
      && IsText(w, v, "operation_id", o.operationId) && IsText(w, v, "attempt_id", o.attemptId)
      && IsText(w, v, "idempotency_key", o.idempotencyKey) && IsInt(v, "fencing_token", o.fencingToken)
  {
    OperationKeysAreGood();
    TextStands(w, OPERATION_KEYS, [], OperationTexts(o), [WriteInt(o.fencingToken)]);
    assert OPERATION_KEYS[0] == "operation_id" && OPERATION_KEYS[1] == "attempt_id";
    assert OPERATION_KEYS[2] == "idempotency_key" && OPERATION_KEYS[3] == "fencing_token";
  }

  lemma ProviderMembers(w: World, p: ProviderBinding)
    ensures var v := WriteProvider(w, p);
      && IsText(w, v, "provider_revision_id", p.revisionId) && IsText(w, v, "capability_snapshot_sha256", p.snapshotHash)
      && IsText(w, v, "policy_digest", p.policyDigest) && IsText(w, v, "policy_decided_at", p.decidedAt)
  {
    ProviderKeysAreGood();
    TextStands(w, PROVIDER_KEYS, [], ProviderTexts(p), []);
    assert PROVIDER_KEYS[0] == "provider_revision_id" && PROVIDER_KEYS[1] == "capability_snapshot_sha256";
    assert PROVIDER_KEYS[2] == "policy_digest" && PROVIDER_KEYS[3] == "policy_decided_at";
  }

  lemma ExecMembers(w: World, b: ExecBinding)
    ensures var v := WriteExec(w, b);
      && At(v, "operation") == Some(WriteOperation(w, b.operation))
      && IsText(w, v, "result_digest", b.resultDigest) && IsText(w, v, "usage_evidence_digest", b.usageDigest)
  {
    ExecKeysAreGood();
    TextStands(w, EXEC_KEYS, [WriteOperation(w, b.operation)], ExecTexts(b), []);
    assert EXEC_KEYS[0] == "operation" && EXEC_KEYS[1] == "result_digest" && EXEC_KEYS[2] == "usage_evidence_digest";
  }

  lemma TerminalMembers(w: World, b: TerminalBinding)
    ensures var v := WriteTerminal(w, b);
      && At(v, "operation") == Some(WriteOperation(w, b.operation)) && IsText(w, v, "runtime_session_id", b.sessionId)
      && IsText(w, v, "handoff_reference", b.handoffReference) && IsText(w, v, "handoff_reference_digest", b.handoffDigest)
  {
    TerminalKeysAreGood();
    TextStands(w, TERMINAL_KEYS, [WriteOperation(w, b.operation)], TerminalTexts(b), []);
    assert TERMINAL_KEYS[0] == "operation" && TERMINAL_KEYS[1] == "runtime_session_id";
    assert TERMINAL_KEYS[2] == "handoff_reference" && TERMINAL_KEYS[3] == "handoff_reference_digest";
  }

  lemma ArtifactMembers(w: World, b: ArtifactBinding)
    ensures var v := WriteArtifact(w, b);
      At(v, "operation") == Some(WriteOperation(w, b.operation)) && IsText(w, v, "evidence_digest", b.evidenceDigest)
  {
    ExecKeysAreGood();
    TextStands(w, ARTIFACT_KEYS, [WriteOperation(w, b.operation)], ArtifactTexts(b), []);
    assert ARTIFACT_KEYS[0] == "operation" && ARTIFACT_KEYS[1] == "evidence_digest";
  }

  /** The names of the plan's members; its operations stand behind them. */
  predicate PlanStands(w: World, p: Plan, v: Json) {
    && IsText(w, v, "run_id", p.runId) && IsText(w, v, "tenant_a_id", p.tenantA) && IsText(w, v, "tenant_b_id", p.tenantB)
    && IsText(w, v, "work_order_a_id", p.workOrderA) && IsText(w, v, "work_order_b_id", p.workOrderB)
    && IsText(w, v, "workspace_id", p.workspaceId) && IsText(w, v, "branch_id", p.branchId)
    && IsText(w, v, "provider_resolution_id", p.resolutionId) && IsText(w, v, "sandbox_id", p.sandboxId)
    && At(v, "create") == Some(WritePlanned(w, p.create)) && At(v, "exec") == Some(WritePlanned(w, p.exec))
    && At(v, "terminal") == Some(WritePlanned(w, p.terminal)) && At(v, "artifact") == Some(WritePlanned(w, p.artifact))
  }

  lemma PlannedInOrder(w: World, p: Plan)
    ensures WriteAllPlanned(w, OperationsOf(p)) == [WritePlanned(w, p.create), WritePlanned(w, p.exec), WritePlanned(w, p.terminal), WritePlanned(w, p.artifact)]
  {
    var os := OperationsOf(p);
    assert os[1..] == [p.exec, p.terminal, p.artifact] && os[1..][1..] == [p.terminal, p.artifact];
    assert os[1..][1..][1..] == [p.artifact] && os[1..][1..][1..][1..] == [];
    assert WriteAllPlanned(w, [p.artifact]) == [WritePlanned(w, p.artifact)];
    assert WriteAllPlanned(w, [p.terminal, p.artifact]) == [WritePlanned(w, p.terminal), WritePlanned(w, p.artifact)];
  }

  lemma PlanMembers(w: World, p: Plan)
    ensures PlanStands(w, p, WritePlan(w, p))
  {
    PlanKeysAreGood();
    PlannedInOrder(w, p);
    TextStands(w, PLAN_KEYS, [], PlanTexts(p), WriteAllPlanned(w, OperationsOf(p)));
    PlanKeyNames();
  }

  lemma PlanKeyNames()
    ensures |PLAN_KEYS| == 13 && PLAN_KEYS[0] == "run_id" && PLAN_KEYS[1] == "tenant_a_id" && PLAN_KEYS[2] == "tenant_b_id"
    ensures PLAN_KEYS[3] == "work_order_a_id" && PLAN_KEYS[4] == "work_order_b_id" && PLAN_KEYS[5] == "workspace_id"
    ensures PLAN_KEYS[6] == "branch_id" && PLAN_KEYS[7] == "provider_resolution_id" && PLAN_KEYS[8] == "sandbox_id"
    ensures PLAN_KEYS[9] == "create" && PLAN_KEYS[10] == "exec" && PLAN_KEYS[11] == "terminal" && PLAN_KEYS[12] == "artifact"
  {
  }

  lemma StateKeyNames()
    ensures |STATE_KEYS| == 13 && STATE_KEYS[0] == "format_version" && STATE_KEYS[1] == "state_type"
    ensures STATE_KEYS[2] == "contract_revision" && STATE_KEYS[3] == "profile_id" && STATE_KEYS[4] == "profile_digest"
    ensures STATE_KEYS[5] == "store_revision" && STATE_KEYS[6] == "stage" && STATE_KEYS[7] == "plan"
    ensures STATE_KEYS[8] == "provider" && STATE_KEYS[9] == "lifecycle" && STATE_KEYS[10] == "exec"
    ensures STATE_KEYS[11] == "terminal" && STATE_KEYS[12] == "artifact"
  {
  }

  predicate HeadStands(w: World, s: State, v: Json) {
    && IsInt(v, "format_version", s.header.formatVersion) && IsText(w, v, "state_type", s.header.stateType)
    && IsText(w, v, "contract_revision", s.header.contractRevision) && IsText(w, v, "profile_id", s.header.profileId)
    && IsText(w, v, "profile_digest", s.header.profileDigest)
    && IsInt(v, "store_revision", s.storeRevision) && IsText(w, v, "stage", NameOf(s.stage)) && At(v, "plan") == Some(WritePlan(w, s.plan))
  }

  /** The six names of the contract. */
  function NameOf(stage: Stage): string {
    ["planned", "capabilities_bound", "lifecycle_bound", "exec_bound", "terminal_bound", "initial_complete"][Rank(stage)]
  }

  lemma HeadInOrder(w: World, s: State)
    ensures var vs := HeadValues(w, s);
      && |vs| == 8 && vs[0] == WriteInt(s.header.formatVersion) && vs[1] == WriteText(w, s.header.stateType)
      && vs[2] == WriteText(w, s.header.contractRevision) && vs[3] == WriteText(w, s.header.profileId)
      && vs[4] == WriteText(w, s.header.profileDigest) && vs[5] == WriteInt(s.storeRevision)
      && vs[6] == WriteText(w, StageName(s.stage)) && vs[7] == WritePlan(w, s.plan)
  {
    HeadPlaces(WriteInt(s.header.formatVersion), WriteTexts(w, HeaderTexts(s.header)), RestOfHead(w, s));
    var names := WriteTexts(w, HeaderTexts(s.header));
    assert HeadValues(w, s)[1..5] == names;
    assert forall i :: 0 <= i < 4 ==> HeadValues(w, s)[1..5][i] == HeadValues(w, s)[i + 1];
  }

  /** A binding that is not there is null. */
  function OrNull<T>(x: Option<T>, write: T -> Json): Json { if x.None? then Null else write(x.value) }

  predicate BindingsStand(w: World, s: State, v: Json) {
    && At(v, "provider") == Some(OrNull(s.provider, p => WriteProvider(w, p)))
    && At(v, "lifecycle") == Some(OrNull(s.lifecycle, o => WriteOperation(w, o)))
    && At(v, "exec") == Some(OrNull(s.exec, b => WriteExec(w, b)))
    && At(v, "terminal") == Some(OrNull(s.terminal, b => WriteTerminal(w, b)))
    && At(v, "artifact") == Some(OrNull(s.artifact, b => WriteArtifact(w, b)))
  }

  /** Every field of a state under the member name of the contract, with the plan's and the bindings' own members as above. */
  lemma StateMembers(w: World, s: State)
    ensures HeadStands(w, s, WriteState(w, s)) && BindingsStand(w, s, WriteState(w, s))
  {
    StateKeysAreGood();
    var (head, bindings) := (HeadValues(w, s), BindingValues(w, s));
    MemberStands(STATE_KEYS, head + bindings);
    HeadMembers(w, s);
    BindingMembers(w, s);
  }

  lemma HeadMembers(w: World, s: State)
    requires forall i :: 0 <= i < 13 ==> At(WriteState(w, s), STATE_KEYS[i]) == Some((HeadValues(w, s) + BindingValues(w, s))[i])
    ensures HeadStands(w, s, WriteState(w, s))
  {
    HeadInOrder(w, s);
    StateKeyNames();
    assert forall i :: 0 <= i < 8 ==> (HeadValues(w, s) + BindingValues(w, s))[i] == HeadValues(w, s)[i];
    assert StageName(s.stage) == NameOf(s.stage);
  }

  lemma BindingMembers(w: World, s: State)
    requires forall i :: 0 <= i < 13 ==> At(WriteState(w, s), STATE_KEYS[i]) == Some((HeadValues(w, s) + BindingValues(w, s))[i])
    ensures BindingsStand(w, s, WriteState(w, s))
  {
    HeadInOrder(w, s);
    LastFive(WriteState(w, s), HeadValues(w, s), BindingValues(w, s));
  }

  lemma LastFive(v: Json, head: seq<Json>, last: seq<Json>)
    requires |head| == 8 && |last| == 5 && forall i :: 0 <= i < 13 ==> At(v, STATE_KEYS[i]) == Some((head + last)[i])
    ensures At(v, "provider") == Some(last[0]) && At(v, "lifecycle") == Some(last[1]) && At(v, "exec") == Some(last[2])
    ensures At(v, "terminal") == Some(last[3]) && At(v, "artifact") == Some(last[4])
  {
    StateKeyNames();
    assert forall i :: 8 <= i < 13 ==> (head + last)[i] == last[i - 8];
  }
}
