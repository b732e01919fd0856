/** The member names of the state document: ASCII, and no two alike within one record. */
module StoreKeys {
  import opened StoreTree

  const PLANNED_KEYS: seq<string> := ["operation_id", "attempt_id", "idempotency_key"]
  const OPERATION_KEYS: seq<string> := ["operation_id", "attempt_id", "idempotency_key", "fencing_token"]
  const PROVIDER_KEYS: seq<string> := [
    "provider_revision_id", "capability_snapshot_sha256", "policy_digest", "policy_decided_at"]
  const EXEC_KEYS: seq<string> := ["operation", "result_digest", "usage_evidence_digest"]
  const TERMINAL_KEYS: seq<string> := [
    "operation", "runtime_session_id", "handoff_reference", "handoff_reference_digest"]
  const ARTIFACT_KEYS: seq<string> := ["operation", "evidence_digest"]
  const PLAN_KEYS: seq<string> := [
    "run_id", "tenant_a_id", "tenant_b_id", "work_order_a_id", "work_order_b_id", "workspace_id", "branch_id",
    "provider_resolution_id", "sandbox_id", "create", "exec", "terminal", "artifact"]
  const STATE_KEYS: seq<string> := [
    "format_version", "state_type", "contract_revision", "profile_id", "profile_digest", "store_revision", "stage", "plan",
    "provider", "lifecycle", "exec", "terminal", "artifact"]

  /** Enough of a key to tell it from the others of its record. */
  function Mark(key: string): (int, char, char)
    requires |key| >= 4
  {
    (|key|, key[0], key[if |key| > 11 then 11 else if |key| > 7 then 7 else 0])
  }

  predicate Marked(keys: seq<string>) {
    && (forall i :: 0 <= i < |keys| ==> |keys[i]| >= 4)
    && forall i, j :: 0 <= i < j < |keys| ==> Mark(keys[i]) != Mark(keys[j])
  }

  lemma MarkedAreGood(keys: seq<string>)
    requires Marked(keys) && forall i :: 0 <= i < |keys| ==> IsAscii(keys[i])
    ensures GoodKeys(keys)
  {
    forall i, j | 0 <= i < j < |keys| ensures keys[i] != keys[j] {
      assert Mark(keys[i]) != Mark(keys[j]);
    }
  }

  lemma OperationKeysAreAscii()
    ensures IsAscii("operation_id") && IsAscii("attempt_id") && IsAscii("idempotency_key") && IsAscii("fencing_token")
  {
  }

  lemma ProviderKeysAreAscii()
    ensures IsAscii("provider_revision_id") && IsAscii("capability_snapshot_sha256")
    ensures IsAscii("policy_digest") && IsAscii("policy_decided_at")
  {
  }

  lemma ExecKeysAreAscii()
    ensures IsAscii("operation") && IsAscii("result_digest") && IsAscii("usage_evidence_digest") && IsAscii("evidence_digest")
  {
  }

  lemma TerminalKeysAreAscii()
    ensures IsAscii("runtime_session_id") && IsAscii("handoff_reference") && IsAscii("handoff_reference_digest")
  {
  }

  lemma PlanKeysAreAscii()
    ensures IsAscii("run_id") && IsAscii("tenant_a_id") && IsAscii("tenant_b_id") && IsAscii("work_order_a_id")
    ensures IsAscii("work_order_b_id") && IsAscii("workspace_id") && IsAscii("branch_id")
    ensures IsAscii("provider_resolution_id") && IsAscii("sandbox_id")
  {
  }

  lemma StageKeysAreAscii()
    ensures IsAscii("create") && IsAscii("exec") && IsAscii("terminal") && IsAscii("artifact")
    ensures IsAscii("plan") && IsAscii("provider") && IsAscii("lifecycle") && IsAscii("stage")
  {
  }

  lemma HeaderKeysAreAscii()
    ensures IsAscii("format_version") && IsAscii("state_type") && IsAscii("contract_revision")
    ensures IsAscii("profile_id") && IsAscii("profile_digest") && IsAscii("store_revision")
  {
  }

  lemma PlannedKeysAreGood()
    ensures GoodKeys(PLANNED_KEYS)
  {
    OperationKeysAreAscii();
    MarkedAreGood(PLANNED_KEYS);
  }

  lemma OperationKeysAreGood()
    ensures GoodKeys(OPERATION_KEYS)
  {
    OperationKeysAreAscii();
    MarkedAreGood(OPERATION_KEYS);
  }

  lemma ProviderKeysAreGood()
    ensures GoodKeys(PROVIDER_KEYS)
  {
    ProviderKeysAreAscii();
    MarkedAreGood(PROVIDER_KEYS);
  }

  lemma ExecKeysAreGood()
    ensures GoodKeys(EXEC_KEYS) && GoodKeys(ARTIFACT_KEYS)
  {
    ExecKeysAreAscii();
    MarkedAreGood(EXEC_KEYS);
    MarkedAreGood(ARTIFACT_KEYS);
  }

  lemma TerminalKeysAreGood()
    ensures GoodKeys(TERMINAL_KEYS)
  {
    ExecKeysAreAscii();
    TerminalKeysAreAscii();
    MarkedAreGood(TERMINAL_KEYS);
  }

  lemma PlanKeysAreMarked()
    ensures Marked(PLAN_KEYS)
  {
    var marks := [
      (6, 'r', 'r'), (11, 't', 'a'), (11, 't', 'b'), (15, 'w', 'a'), (15, 'w', 'b'), (12, 'w', 'd'), (9, 'b', 'i'),
      (22, 'p', 's'), (10, 's', '_'), (6, 'c', 'c'), (4, 'e', 'e'), (8, 't', 'l'), (8, 'a', 't')];
    assert forall i :: 0 <= i < |PLAN_KEYS| ==> |PLAN_KEYS[i]| >= 4 && Mark(PLAN_KEYS[i]) == marks[i];
    forall i, j | 0 <= i < j < |PLAN_KEYS| ensures Mark(PLAN_KEYS[i]) != Mark(PLAN_KEYS[j]) {
      assert marks[i] != marks[j];
    }
  }

  lemma PlanKeysAreGood()
    ensures GoodKeys(PLAN_KEYS)
  {
    PlanKeysAreMarked();
    forall i | 0 <= i < |PLAN_KEYS| ensures IsAscii(PLAN_KEYS[i]) {
      PlanKeysAreAscii();
      StageKeysAreAscii();
    }
    MarkedAreGood(PLAN_KEYS);
  }

  lemma StateKeysAreMarked()
    ensures Marked(STATE_KEYS)
  {
    var marks := [
      (14, 'f', 'i'), (10, 's', 'y'), (17, 'c', 'v'), (10, 'p', '_'), (14, 'p', 'e'), (14, 's', 'i'), (5, 's', 's'),
      (4, 'p', 'p'), (8, 'p', 'r'), (9, 'l', 'l'), (4, 'e', 'e'), (8, 't', 'l'), (8, 'a', 't')];
    assert forall i :: 0 <= i < |STATE_KEYS| ==> |STATE_KEYS[i]| >= 4 && Mark(STATE_KEYS[i]) == marks[i];
    forall i, j | 0 <= i < j < |STATE_KEYS| ensures Mark(STATE_KEYS[i]) != Mark(STATE_KEYS[j]) {
      assert marks[i] != marks[j];
    }
  }

  lemma StateKeysAreGood()
    ensures GoodKeys(STATE_KEYS)
  {
    StateKeysAreMarked();
    forall i | 0 <= i < |STATE_KEYS| ensures IsAscii(STATE_KEYS[i]) {
      HeaderKeysAreAscii();
      StageKeysAreAscii();
    }
    MarkedAreGood(STATE_KEYS);
  }
}
