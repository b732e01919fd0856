/** newPlan: twenty-one prefixed random identifiers are always a valid plan. */
module StorePlan {
  import opened Prelude
  import opened JcsUtf8
  import opened StoreState
  import opened StoreDisk
  import opened Store

  const PREFIXES: seq<string> := [
    "run", "tenant-a", "tenant-b", "work-a", "work-b", "workspace", "branch", "resolution", "sandbox",
    "create-operation", "create-attempt", "create-idempotency",
    "exec-operation", "exec-attempt", "exec-idempotency",
    "terminal-operation", "terminal-attempt", "terminal-idempotency",
    "artifact-operation", "artifact-attempt", "artifact-idempotency"]

  /** Sixteen random bytes in hexadecimal. */
  predicate RandomPart(s: string) { |s| == 32 && forall i :: 0 <= i < 32 ==> HexDigit(s[i]) }

  function Identifier(prefix: string, random: string): string { prefix + ("-" + random) }

  predicate GoodPrefix(prefix: string) {
    1 <= |prefix| <= 167 && Alphanumeric(prefix[0]) && forall i :: 0 <= i < |prefix| ==> IdentifierChar(prefix[i])
  }

  lemma IdentifierIsValid(prefix: string, random: string)
    requires GoodPrefix(prefix) && RandomPart(random)
    ensures ValidIdentifier(Identifier(prefix, random))
  {
    var s := Identifier(prefix, random);
    forall i | 0 <= i < |s| ensures IdentifierChar(s[i]) {
      if i < |prefix| { assert s[i] == prefix[i]; }
      else if i > |prefix| { assert s[i] == random[i - |prefix| - 1]; }
    }
  }

  /** The random parts being of one length, only the prefixes need to differ. */
  lemma IdentifiersDiffer(p: string, q: string, x: string, y: string)
    requires p != q && RandomPart(x) && RandomPart(y)
    ensures Identifier(p, x) != Identifier(q, y)
  {
    var (s, t) := (Identifier(p, x), Identifier(q, y));
    assert s[..|p|] == p && t[..|q|] == q;
    assert |s| == |p| + 33 && |t| == |q| + 33;
  }

  function Drawn(prefixes: seq<string>, randoms: seq<string>): (values: seq<string>)
    requires |randoms| == |prefixes|
    ensures |values| == |prefixes|
  {
    seq(|prefixes|, i requires 0 <= i < |prefixes| => Identifier(prefixes[i], randoms[i]))
  }

  lemma DrawnAreValid(prefixes: seq<string>, randoms: seq<string>)
    requires |randoms| == |prefixes| && Distinct(prefixes)
    requires forall i :: 0 <= i < |prefixes| ==> GoodPrefix(prefixes[i]) && RandomPart(randoms[i])
    ensures AllIdentifiers(Drawn(prefixes, randoms)) && Distinct(Drawn(prefixes, randoms))
  {
    var values := Drawn(prefixes, randoms);
    forall i | 0 <= i < |values| ensures ValidIdentifier(values[i]) { IdentifierIsValid(prefixes[i], randoms[i]); }
    forall i, j | 0 <= i < j < |values| ensures values[i] != values[j] {
      IdentifiersDiffer(prefixes[i], prefixes[j], randoms[i], randoms[j]);
    }
  }

  /** The loop of newPlan: None when randomness fails. */
  method DrawPlan(prefixes: seq<string>, draws: seq<Option<string>>) returns (values: Option<seq<string>>)
    requires |draws| == |prefixes|
    ensures values.Some? <==> forall i :: 0 <= i < |draws| ==> draws[i].Some?
    ensures values.Some? ==> |values.value| == |prefixes|
    ensures values.Some? ==> forall i :: 0 <= i < |prefixes| ==> values.value[i] == Identifier(prefixes[i], draws[i].value)
  {
    var grown: seq<string> := [];
    var i := 0;
    while i < |prefixes|
      invariant 0 <= i == |grown| <= |prefixes|
      invariant forall k :: 0 <= k < i ==> draws[k].Some? && grown[k] == Identifier(prefixes[k], draws[k].value)
    {
      if draws[i].None? { return None; }
      grown := grown + [Identifier(prefixes[i], draws[i].value)];
      i := i + 1;
    }
    values := Some(grown);
  }

  function PlanOf(v: seq<string>): Plan
    requires |v| == 21
  {
    Plan(v[0], v[1], v[2], v[3], v[4], v[5], v[6], v[7], v[8],
         PlannedOperation(v[9], v[10], v[11]), PlannedOperation(v[12], v[13], v[14]),
         PlannedOperation(v[15], v[16], v[17]), PlannedOperation(v[18], v[19], v[20]))
  }

  lemma ShortPrefixesAreGood()
    ensures GoodPrefix("run") && GoodPrefix("tenant-a") && GoodPrefix("tenant-b") && GoodPrefix("work-a") && GoodPrefix("work-b")
    ensures GoodPrefix("workspace") && GoodPrefix("branch") && GoodPrefix("resolution") && GoodPrefix("sandbox")
  {
  }

  lemma EarlyOperationsAreGood()
    ensures GoodPrefix("create-operation") && GoodPrefix("create-attempt") && GoodPrefix("create-idempotency")
    ensures GoodPrefix("exec-operation") && GoodPrefix("exec-attempt") && GoodPrefix("exec-idempotency")
  {
  }

  lemma LateOperationsAreGood()
    ensures GoodPrefix("terminal-operation") && GoodPrefix("terminal-attempt") && GoodPrefix("terminal-idempotency")
    ensures GoodPrefix("artifact-operation") && GoodPrefix("artifact-attempt") && GoodPrefix("artifact-idempotency")
  {
  }

  /** Every prefix can start an identifier. */
  lemma PrefixesAreGood()
    ensures |PREFIXES| == 21 && forall i :: 0 <= i < 21 ==> GoodPrefix(PREFIXES[i])
  {
    ShortPrefixesAreGood();
    EarlyOperationsAreGood();
    LateOperationsAreGood();
  }

  /** A number that tells the prefixes apart: length, first letter, and one letter where those agree. */
  function Mark(s: string): (int, char, char)
    requires |s| >= 3
  {
    (|s|, s[0], s[|s| - 1])
  }

  lemma PrefixesAreDistinct()
    ensures Distinct(PREFIXES)
  {
    var p := PREFIXES;
    forall i, j | 0 <= i < j < |p| ensures p[i] != p[j] {
      assert Mark(p[i]) != Mark(p[j]);
    }
  }

  /** Whatever the randomness, what newPlan fills in passes validPlan. */
  lemma NewPlanIsValid(randoms: seq<string>)
    requires |randoms| == 21 && forall i :: 0 <= i < 21 ==> RandomPart(randoms[i])
    ensures |Drawn(PREFIXES, randoms)| == 21 && ValidPlan(PlanOf(Drawn(PREFIXES, randoms)))
  {
    PrefixesAreGood();
    PrefixesAreDistinct();
    DrawnAreValid(PREFIXES, randoms);
    PlanHolds(Drawn(PREFIXES, randoms));
  }

  lemma PlanHolds(v: seq<string>)
    requires |v| == 21
    ensures PlanValues(PlanOf(v)) == v
  {
  }

  predicate AllDrawn(draws: seq<Option<string>>) { forall i :: 0 <= i < |draws| ==> draws[i].Some? }

  function Taken(draws: seq<Option<string>>): (randoms: seq<string>)
    requires AllDrawn(draws)
    ensures |randoms| == |draws| && forall i :: 0 <= i < |draws| ==> randoms[i] == draws[i].value
  {
    seq(|draws|, i requires 0 <= i < |draws| => draws[i].value)
  }

  /** newPlan: None when any draw fails. */
  function NewPlan(draws: seq<Option<string>>): Option<Plan>
    requires |draws| == |PREFIXES| == 21
  {
    if AllDrawn(draws) then Some(PlanOf(Drawn(PREFIXES, Taken(draws)))) else None
  }

  /** Every identifier of a new plan is what it is for, and its own random part. */
  lemma NewPlanFields(draws: seq<Option<string>>)
    requires |draws| == |PREFIXES| == 21 && AllDrawn(draws)
    ensures NewPlan(draws).Some?
    ensures var (p, r) := (NewPlan(draws).value, Taken(draws));
      && p.runId == "run-" + r[0] && p.tenantA == "tenant-a-" + r[1] && p.tenantB == "tenant-b-" + r[2]
      && p.workOrderA == "work-a-" + r[3] && p.workOrderB == "work-b-" + r[4] && p.workspaceId == "workspace-" + r[5]
      && p.branchId == "branch-" + r[6] && p.resolutionId == "resolution-" + r[7] && p.sandboxId == "sandbox-" + r[8]
    ensures var (p, r) := (NewPlan(draws).value, Taken(draws));
      && p.create == PlannedOperation("create-operation-" + r[9], "create-attempt-" + r[10], "create-idempotency-" + r[11])
      && p.exec == PlannedOperation("exec-operation-" + r[12], "exec-attempt-" + r[13], "exec-idempotency-" + r[14])
    ensures var (p, r) := (NewPlan(draws).value, Taken(draws));
      && p.terminal == PlannedOperation("terminal-operation-" + r[15], "terminal-attempt-" + r[16], "terminal-idempotency-" + r[17])
      && p.artifact == PlannedOperation("artifact-operation-" + r[18], "artifact-attempt-" + r[19], "artifact-idempotency-" + r[20])
  {
    var r := Taken(draws);
    forall i | 0 <= i < 21 ensures Drawn(PREFIXES, r)[i] == PREFIXES[i] + "-" + r[i] { Dashed(PREFIXES[i], r[i]); }
  }

  lemma Dashed(prefix: string, random: string)
    ensures Identifier(prefix, random) == prefix + "-" + random
  {
  }

  /** Sixteen random bytes, when they can be drawn. */
  predicate Randoms(draws: seq<Option<string>>) {
    |draws| == |PREFIXES| == 21 && forall i :: 0 <= i < |draws| && draws[i].Some? ==> RandomPart(draws[i].value)
  }

  lemma NewPlanPasses(w: World, draws: seq<Option<string>>)
    requires Randoms(draws)
    ensures PlanPasses(w, NewPlan(draws))
  {
    if AllDrawn(draws) {
      NewPlanIsValid(Taken(draws));
      ValidPlanPasses(w, NewPlan(draws).value);
    }
  }

  lemma ValidPlanPasses(w: World, plan: Plan)
    requires ValidPlan(plan)
    ensures ValidState(w, InitialState(w, plan))
  {
  }

  predicate PlanPasses(w: World, plan: Option<Plan>) {
    plan.Some? ==> ValidState(w, InitialState(w, plan.value))
  }

  lemma SavingFailsOtherwise(d: Disk, document: Bytes)
    ensures Save(d, document).1 != Some(InvalidState)
  {
  }

  lemma WritingFailsOtherwise(w: World, d: Disk, s: State)
    requires ValidState(w, s)
    ensures AtomicWrite(w, d, s).1 != Some(InvalidState)
  {
    if w.encode(s).Some? { SavingFailsOtherwise(d, w.encode(s).value); }
  }

  lemma FirstSaveFailsOtherwise(w: World, d: Disk, s: State)
    requires ValidState(w, s)
    ensures FirstSave(w, d, s).1 != Err(InvalidState)
  {
    WritingFailsOtherwise(w, d, s);
  }

  lemma CreationFailsOtherwise(w: World, d: Disk, plan: Option<Plan>)
    requires PlanPasses(w, plan)
    ensures CreateInitial(w, d, plan).1 != Err(InvalidState)
  {
    if plan.Some? {
      FirstSaveFailsOtherwise(w, Entries(Checks(d, 5).0, true).0, InitialState(w, plan.value));
    }
  }

  /** Whatever the randomness and the disk do, a store is never refused for the plan drawn for it. */
  lemma CreationNeverBlamesThePlan(w: World, d: Disk, draws: seq<Option<string>>)
    requires Randoms(draws)
    ensures CreateInitial(w, d, NewPlan(draws)).1 != Err(InvalidState)
  {
    NewPlanPasses(w, draws);
    CreationFailsOtherwise(w, d, NewPlan(draws));
  }
}
