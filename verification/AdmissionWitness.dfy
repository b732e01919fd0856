/** An exec over a valid state, and the clocks at which its granted deadline gives an admission the client refuses. */
module AdmissionWitness {
  import opened Prelude
  import opened AdmissionRoutes
  import opened Admission
  import Correlation = StoreState
  import StorePlan

  // ----- a small world -----

  /** A number as that many strokes. */
  function Strokes(t: int): string {
    if t >= 0 then seq(t, _ => '+') else seq(-t, _ => '-')
  }

  function CountStrokes(s: string): Option<int> {
    if s == "" then Some(0) else if s[0] == '-' then Some(-|s|) else Some(|s|)
  }

  function Digest(): string { "sha256:" + seq(64, _ => '0') }

  /** Encodings and digests reduced to constants, times printed as strokes, and the source's own length checks. */
  function SmallWorld(): World {
    World(_ => Some(Digest()), _ => Some("c"), _ => Some("k"), _ => Some("h"), _ => 1,
          Strokes, CountStrokes,
          (a: Authority) => 1 <= |a.issuer| <= 200 && a.subject != "" && a.audience != "" && 1 <= |a.revisionId| <= 200,
          (path: string) => |path| <= 600, (jti: string) => 16 <= |jti| <= 200, (keyId: string) => 1 <= |keyId| <= 128,
          "contract", "profile", "type")
  }

  lemma SmallWorldIsLawful()
    ensures LawfulTimes(SmallWorld()) && LawfulDigest(SmallWorld())
  {
  }

  function Signer(): Access {
    Access("issuer", "subject", "audience", Header("EdDSA", "key", "type"), _ => Some(seq(64, _ => 0)))
  }

  function Jti(): string { seq(32, _ => '0') }

  // ----- a valid state that is due for its exec -----

  /** The store's side of the same libraries. */
  function StoreWorld(): Correlation.World {
    Correlation.World(Correlation.Header(1, "type", "revision", "profile", Digest()), _ => Digest(), _ => [],
                      s => CountStrokes(s).Some?, s => s != "", _ => None, _ => None)
  }

  function Randoms(): seq<string> { seq(21, _ => seq(32, _ => '0')) }

  function Plan(): Correlation.Plan { StorePlan.PlanOf(StorePlan.Drawn(StorePlan.PREFIXES, Randoms())) }

  function Bound(plan: Correlation.Plan): Correlation.State {
    Correlation.State(
      StoreWorld().header, 3, Correlation.LifecycleBound, plan,
      Some(Correlation.ProviderBinding("provider-revision", Digest(), Digest(), Strokes(0))),
      Some(Correlation.OperationFromPlan(plan.create, 1)), None, None, None)
  }

  lemma DigestIsValid()
    ensures Correlation.ValidDigest(Digest())
  {
    assert Digest()[..7] == "sha256:";
  }

  lemma RevisionIsIdentifier()
    ensures Correlation.ValidIdentifier("provider-revision")
  {
  }

  lemma PlanIsValid()
    ensures Correlation.ValidPlan(Plan())
  {
    StorePlan.NewPlanIsValid(Randoms());
  }

  lemma BoundIsValid(plan: Correlation.Plan)
    requires Correlation.ValidPlan(plan)
    ensures Correlation.ValidState(StoreWorld(), Bound(plan))
  {
    DigestIsValid();
    RevisionIsIdentifier();
    Correlation.PlanOperations(plan);
  }

  // ----- the exec -----

  /** plannedDescriptor of the exec, with its fencing token. */
  function Descriptor(plan: Correlation.Plan): ReadDescriptor {
    ReadDescriptor(ReadOperation, plan.sandboxId, plan.exec.operationId, plan.exec.attemptId, 2)
  }

  /** The admission runExecTerminal asks for at the time now, under the deadline of its request. */
  function Attempt(plan: Correlation.Plan, deadline: int, now: int): Option<Admission> {
    MutationAdmission(SmallWorld(), Signer(), Bound(plan), Descriptor(plan), Exec, Digest(), Strokes(deadline),
                      Request("exec"), Path(SandboxItem, plan.sandboxId, "", "/exec"), Some(Jti()), now)
  }

  function Asked(plan: Correlation.Plan, deadline: int): Terms {
    Terms("", "", "", "", Exec, plan.sandboxId, plan.exec.operationId, plan.exec.attemptId, 2, Strokes(deadline),
          Request("exec"), MutationProfile, Digest())
  }

  function Endpoint(plan: Correlation.Plan): Target { Target(Post, Path(SandboxItem, plan.sandboxId, "", "/exec"), Some([])) }

  lemma PlanIdentifiers(plan: Correlation.Plan)
    requires Correlation.ValidPlan(plan)
    ensures Correlation.ValidIdentifier(plan.tenantA) && Correlation.ValidIdentifier(plan.workOrderA)
    ensures Correlation.ValidIdentifier(plan.sandboxId)
    ensures Correlation.ValidIdentifier(plan.exec.operationId) && Correlation.ValidIdentifier(plan.exec.attemptId)
  {
    var v := Correlation.PlanValues(plan);
    assert v[1] == plan.tenantA && v[3] == plan.workOrderA && v[8] == plan.sandboxId;
    Correlation.PlanOperations(plan);
  }

  lemma TermsAreOk(plan: Correlation.Plan, deadline: int)
    requires Correlation.ValidPlan(plan) && deadline >= 0
    ensures TermsOk(SmallWorld(), FilledTerms(Bound(plan), Asked(plan, deadline), plan.tenantA, plan.workOrderA, Digest()), Endpoint(plan))
  {
    PlanIdentifiers(plan);
    DigestIsValid();
  }

  /** The builder succeeds on every deadline ahead of the clock. */
  lemma AttemptBuilds(plan: Correlation.Plan, deadline: int, now: int)
    requires Correlation.ValidPlan(plan) && 0 <= now < deadline
    ensures Attempt(plan, deadline, now).Some?
  {
    assert CountStrokes(Strokes(deadline)) == Some(deadline);
    TermsAreOk(plan, deadline);
    TruncatedIsWhole(now);
    assert TimesOk(Truncated(now), Truncated(now), LifetimeEnd(now, deadline));
  }

  /** Grant, building and check of the exec's admission, on this state and plan. */
  lemma AttemptServesIff(granted: int, now: int, t: int, contextDeadline: int, lease: int, limitSeconds: int)
    requires 0 <= granted <= now <= t && BoundedDeadline(contextDeadline, granted, lease, limitSeconds).Some?
    requires now < BoundedDeadline(contextDeadline, granted, lease, limitSeconds).value
    ensures var deadline := BoundedDeadline(contextDeadline, granted, lease, limitSeconds).value;
      && Correlation.ValidState(StoreWorld(), Bound(Plan())) && Attempt(Plan(), deadline, now).Some?
      && (Accepted(SmallWorld(), Attempt(Plan(), deadline, now).value, t) <==> Seconds(deadline) > Seconds(t))
  {
    var deadline := BoundedDeadline(contextDeadline, granted, lease, limitSeconds).value;
    var plan := Plan();
    PlanIsValid();
    BoundIsValid(plan);
    AttemptBuilds(plan, deadline, now);
    SmallWorldIsLawful();
    BoundedDeadlineServesIff(SmallWorld(), Signer(), Bound(plan), Asked(plan, deadline), Endpoint(plan), plan.tenantA, plan.workOrderA,
                             None, Some(Jti()), granted, now, t, contextDeadline, lease, limitSeconds);
  }

  // ----- the two ways to fail -----

  /** Half a second into a second, with a context deadline two hundred milliseconds ahead: refused at once and for good. */
  lemma SubSecondDeadlineCanBeRefused(t: int)
    requires t >= 500_000_000
    ensures BoundedDeadline(700_000_000, 500_000_000, 1800 * SECOND, 60) == Some(700_000_000)
    ensures Correlation.ValidState(StoreWorld(), Bound(Plan()))
    ensures var m := Attempt(Plan(), 700_000_000, 500_000_000); m.Some? && !Accepted(SmallWorld(), m.value, t)
  {
    AttemptServesIff(500_000_000, 500_000_000, t, 700_000_000, 1800 * SECOND, 60);
  }

  /**
   A later second than the grant's is not enough: granted at 0.90 s until 1.20 s, built at 1.05 s,
   the admission is refused, and it would have been accepted if built at the time of the grant.
   */
  lemma LaterSecondThanTheGrantCanBeRefused(t: int)
    requires t >= 1_050_000_000
    ensures BoundedDeadline(1_200_000_000, 900_000_000, 1800 * SECOND, 60) == Some(1_200_000_000)
    ensures Seconds(1_200_000_000) > Seconds(900_000_000) && Correlation.ValidState(StoreWorld(), Bound(Plan()))
    ensures var m := Attempt(Plan(), 1_200_000_000, 1_050_000_000); m.Some? && !Accepted(SmallWorld(), m.value, t)
    ensures var m := Attempt(Plan(), 1_200_000_000, 900_000_000); m.Some? && Accepted(SmallWorld(), m.value, 900_000_000)
  {
    AttemptServesIff(900_000_000, 1_050_000_000, t, 1_200_000_000, 1800 * SECOND, 60);
    AttemptServesIff(900_000_000, 900_000_000, 900_000_000, 1_200_000_000, 1800 * SECOND, 60);
  }
}
