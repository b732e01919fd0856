/** The purging Gateway in lockstep with one that never forgets a grant: nobody who connects can tell them apart. */
module GatewayLockstep {
  import opened Prelude
  import opened GatewayState
  import opened GatewayInvariant
  import opened GatewaySafety

  // ----- a Gateway that never purges -----

  /** Its table keeps every grant; only those still of use count against the limit. */
  function KeptVerdict(u: State, request: GrantRequest, draws: seq<Key>): Result<Key, Rejection> {
    if !IssueAllowed(u, request) then Err(GrantRequestRejected)
    else if |PurgedTable(u.table, u.grants, u.clock)| >= MAX_GRANTS then Err(GrantCapacity)
    else PickKey(draws, u.table, DRAWS)
  }

  function KeptIssue(u: State, request: GrantRequest, draws: seq<Key>): State {
    match KeptVerdict(u, request, draws)
    case Err(_) => u
    case Ok(key) =>
      u.(table := u.table[key := |u.grants|], issued := u.issued[key := |u.grants|],
         grants := u.grants + [Grant(request.binding, false, false, {}, u.clock)])
  }

  function KeptApply(u: State, step: Step): State
    requires Enabled(u, step)
  {
    if step.Issue? then KeptIssue(u, step.request, step.draws) else Apply(u, step)
  }

  predicate KeptFollows(trace: seq<State>, steps: seq<Step>, i: nat) {
    i < |steps| && i + 1 < |trace| && Enabled(trace[i], steps[i]) && trace[i + 1] == KeptApply(trace[i], steps[i])
  }

  ghost predicate KeptRun(trace: seq<State>, steps: seq<Step>, policy: map<string, string>, clock: int) {
    && |trace| == |steps| + 1
    && trace[0] == Init(policy, clock)
    && forall i :: 0 <= i < |steps| ==> KeptFollows(trace, steps, i)
  }

  // ----- how the two stand to each other -----

  /** All but the grants, their tables and the revokers. */
  predicate SameRest(s: State, u: State) {
    && u.policy == s.policy && u.clock == s.clock
    && u.permits == s.permits && u.calls == s.calls && u.closed == s.closed
  }

  /** A purgeable grant may have been revoked where it is kept and not where it was purged. */
  predicate SameGrant(g: Grant, h: Grant, now: int) {
    h == g || (Purgeable(g, now) && h == g.(revoked := true))
  }

  predicate SameGrants(s: State, u: State) {
    |u.grants| == |s.grants| && forall g :: 0 <= g < |s.grants| ==> SameGrant(s.grants[g], u.grants[g], s.clock)
  }

  /** The kept table is every key issued; what the other lacks of it was purgeable and still is. */
  predicate SameKeysButPurged(s: State, u: State) {
    && u.table == s.issued && u.issued == s.issued
    && (forall k :: k in s.table ==> k in s.issued && s.issued[k] == s.table[k])
    && (forall k :: k in s.issued ==> s.issued[k] < |s.grants|)
    && (forall k :: k in s.issued && k !in s.table ==> Purgeable(s.grants[s.issued[k]], s.clock))
  }

  /** Revokers by another number: the keeping Gateway also has those of grants the other had purged. */
  predicate Renumbers(f: seq<nat>, s: seq<Revoker>, u: seq<Revoker>) {
    && |f| == |s|
    && (forall r :: 0 <= r < |f| ==> f[r] < |u| && u[f[r]] == s[r])
    && (forall q, r :: 0 <= q < r < |f| ==> f[q] != f[r])
  }

  predicate Twins(s: State, u: State, f: seq<nat>) {
    SameRest(s, u) && SameGrants(s, u) && SameKeysButPurged(s, u) && Renumbers(f, s.revokers, u.revokers)
  }

  /** The same step, with the revoker under its other number. */
  function Renumbered(step: Step, f: seq<nat>): Step {
    match step
    case RevokeWait(r, p) => if r < |f| then RevokeWait(f[r], p) else step
    case RevokeReturn(r) => if r < |f| then RevokeReturn(f[r]) else step
    case RevokeGiveUp(r) => if r < |f| then RevokeGiveUp(f[r]) else step
    case _ => step
  }

  /** What one step has to give. */
  predicate StaysTwin(s: State, u: State, f: seq<nat>, step: Step, g: seq<nat>) {
    && Enabled(s, step) && Enabled(u, Renumbered(step, f))
    && Twins(Apply(s, step), KeptApply(u, Renumbered(step, f)), g)
  }

  // ----- steps on permits and calls -----

  /** Steps that move permits, calls and closes, and nothing else. */
  predicate Inner(step: Step) {
    step.AttachCall? || step.AttachReject? || (OnPermit(step) && !step.UnlistPermit?)
  }

  /** The state with the moved part of another. */
  function WithInner(u: State, t: State): State {
    u.(permits := t.permits, calls := t.calls, closed := t.closed)
  }

  lemma ThreadStepsAgree(s: State, u: State, step: Step)
    requires SameRest(s, u) && Enabled(s, step) && OnThread(step)
    ensures Enabled(u, step) && Apply(s, step) == WithInner(s, Apply(s, step)) && Apply(u, step) == WithInner(u, Apply(s, step))
  {
  }

  lemma AttachStepsAgree(s: State, u: State, step: Step)
    requires SameRest(s, u) && Enabled(s, step) && (OnAttach(step) || step.AttachCall? || step.AttachReject?)
    ensures Enabled(u, step) && Apply(s, step) == WithInner(s, Apply(s, step)) && Apply(u, step) == WithInner(u, Apply(s, step))
  {
  }

  lemma OtherStepsAgree(s: State, u: State, step: Step)
    requires SameRest(s, u) && Enabled(s, step) && OnPermit(step) && !OnThread(step) && !OnAttach(step) && !step.UnlistPermit?
    ensures Enabled(u, step) && Apply(s, step) == WithInner(s, Apply(s, step)) && Apply(u, step) == WithInner(u, Apply(s, step))
  {
  }

  lemma InnerStepsAgree(s: State, u: State, step: Step)
    requires SameRest(s, u) && Enabled(s, step) && Inner(step)
    ensures Enabled(u, step) && Apply(s, step) == WithInner(s, Apply(s, step)) && Apply(u, step) == WithInner(u, Apply(s, step))
  {
    if OnThread(step) {
      ThreadStepsAgree(s, u, step);
    } else if OnAttach(step) || step.AttachCall? || step.AttachReject? {
      AttachStepsAgree(s, u, step);
    } else {
      OtherStepsAgree(s, u, step);
    }
  }

  lemma InnerKeepsTwins(s: State, u: State, f: seq<nat>, t: State)
    requires Twins(s, u, f)
    ensures Twins(WithInner(s, t), WithInner(u, t), f)
  {
  }

  lemma InnerStaysTwin(s: State, u: State, f: seq<nat>, step: Step)
    requires Twins(s, u, f) && Enabled(s, step) && Inner(step)
    ensures StaysTwin(s, u, f, step, f)
  {
    InnerStepsAgree(s, u, step);
    InnerKeepsTwins(s, u, f, Apply(s, step));
    assert KeptApply(u, step) == Apply(u, step);
  }

  // ----- time -----

  lemma PurgeableLater(grant: Grant, now: int, later: int)
    requires Purgeable(grant, now) && now <= later
    ensures Purgeable(grant, later)
  {
  }

  lemma TickStaysTwin(s: State, u: State, f: seq<nat>, step: Step)
    requires Twins(s, u, f) && step.Tick?
    ensures StaysTwin(s, u, f, step, f)
  {
    var now := s.clock + step.elapsed;
    forall g | 0 <= g < |s.grants| ensures SameGrant(s.grants[g], u.grants[g], now) {
      assert SameGrant(s.grants[g], u.grants[g], s.clock);
    }
    assert SameGrants(Apply(s, step), Apply(u, step));
    forall k | k in s.issued && k !in s.table ensures Purgeable(s.grants[s.issued[k]], now) {
      PurgeableLater(s.grants[s.issued[k]], s.clock, now);
    }
  }

  // ----- revokers -----

  lemma RevokerStaysTwin(s: State, u: State, f: seq<nat>, step: Step)
    requires Twins(s, u, f) && Enabled(s, step) && (step.RevokeWait? || step.RevokeReturn? || step.RevokeGiveUp?)
    ensures StaysTwin(s, u, f, step, f)
  {
    var r := step.revoker;
    var v := Apply(s, step).revokers[r];
    assert Apply(s, step) == s.(revokers := s.revokers[r := v]);
    assert u.revokers[f[r]] == s.revokers[r];
    assert Apply(u, Renumbered(step, f)) == u.(revokers := u.revokers[f[r] := v]);
    RenumbersUpdate(f, s.revokers, u.revokers, r, v);
  }

  lemma RenumbersUpdate(f: seq<nat>, s: seq<Revoker>, u: seq<Revoker>, r: nat, v: Revoker)
    requires Renumbers(f, s, u) && r < |s|
    ensures Renumbers(f, s[r := v], u[f[r] := v])
  {
  }

  // ----- connecting -----

  /** Both Gateways take the same connects, on the same grants. */
  lemma TwinsConnectAlike(s: State, u: State, f: seq<nat>, presented: Option<Key>, subject: string)
    requires Twins(s, u, f)
    ensures var (v, w) := (BeginVerdict(s.table, s.grants, s.clock, presented, subject), BeginVerdict(u.table, u.grants, u.clock, presented, subject));
      && (v.Ok? <==> w.Ok?) && (v.Ok? ==> w == v && v.value < |s.grants| && u.grants[v.value] == s.grants[v.value])
  {
    if presented.Some? && presented.value in s.issued {
      var g := s.issued[presented.value];
      assert SameGrant(s.grants[g], u.grants[g], s.clock);
    }
  }

  lemma BeginStaysTwin(s: State, u: State, f: seq<nat>, step: Step)
    requires Twins(s, u, f) && step.Begin?
    ensures StaysTwin(s, u, f, step, f)
  {
    TwinsConnectAlike(s, u, f, step.presented, step.subject);
    var v := BeginVerdict(s.table, s.grants, s.clock, step.presented, step.subject);
    if v.Ok? { GrantStaysTwin(s, u, v.value, s.grants[v.value].(used := true, permits := s.grants[v.value].permits + {|s.permits|})); }
  }

  /** One grant changed alike on both sides, and not one that was purged. */
  lemma GrantStaysTwin(s: State, u: State, g: nat, grant: Grant)
    requires SameGrants(s, u) && SameKeysButPurged(s, u) && g < |s.grants| && !Purgeable(s.grants[g], s.clock)
    ensures var (t, w) := (s.(grants := s.grants[g := grant]), u.(grants := u.grants[g := grant]));
      SameGrants(t, w) && SameKeysButPurged(t, w)
  {
    var (t, w) := (s.grants[g := grant], u.grants[g := grant]);
    forall i | 0 <= i < |s.grants| ensures SameGrant(t[i], w[i], s.clock) {
      assert SameGrant(s.grants[i], u.grants[i], s.clock);
    }
  }

  // ----- dropping a permit from its grant -----

  /** The grant of a permit that is about to be dropped from it is in both tables, and alike. */
  lemma ListedAlike(s: State, u: State, p: nat)
    requires Inv(s) && SameGrants(s, u) && SameKeysButPurged(s, u) && p < |s.permits| && s.permits[p].closer == Unlist
    ensures var (k, g) := (s.permits[p].key, s.permits[p].gid);
      && k in s.table && s.table[k] == g && k in u.table && u.table[k] == g && g < |s.grants|
      && !Purgeable(s.grants[g], s.clock) && u.grants[g] == s.grants[g]
  {
    assert ListedOk(s, p);
    assert SameGrant(s.grants[s.permits[p].gid], u.grants[s.permits[p].gid], s.clock);
  }

  lemma UnlistStaysTwin(s: State, u: State, f: seq<nat>, step: Step)
    requires Inv(s) && Twins(s, u, f) && Enabled(s, step) && step.UnlistPermit?
    ensures StaysTwin(s, u, f, step, f)
  {
    var p := step.permit;
    ListedAlike(s, u, p);
    var g := s.permits[p].gid;
    GrantStaysTwin(s, u, g, s.grants[g].(permits := s.grants[g].permits - {p}));
  }

  // ----- revoking -----

  lemma RevokeStaysTwin(s: State, u: State, f: seq<nat>, step: Step) returns (g: seq<nat>)
    requires Twins(s, u, f) && step.Revoke?
    ensures StaysTwin(s, u, f, step, g)
  {
    var v := RevokeVerdict(s, step.presented, step.subject);
    if v.Ok? {
      g := f + [|u.revokers|];
      RevokedInBoth(s, u, f, step.presented, step.subject, g);
    } else {
      g := f;
      RevokedInNone(s, u, f, step.presented, step.subject);
    }
  }

  lemma RevokedInBoth(s: State, u: State, f: seq<nat>, presented: Option<Key>, subject: string, g: seq<nat>)
    requires Twins(s, u, f) && RevokeVerdict(s, presented, subject).Ok? && g == f + [|u.revokers|]
    ensures Twins(ApplyRevoke(s, presented, subject), ApplyRevoke(u, presented, subject), g)
  {
    var gid := s.table[presented.value];
    assert SameGrant(s.grants[gid], u.grants[gid], s.clock);
    var v := Revoker(gid, s.grants[gid].permits, Waiting);
    MarkStaysTwin(s, u, gid);
    RenumbersGrow(f, s.revokers, u.revokers, v);
  }

  lemma MarkStaysTwin(s: State, u: State, g: nat)
    requires SameGrants(s, u) && SameKeysButPurged(s, u) && g < |s.grants|
    ensures var (t, w) := (s.(grants := s.grants[g := s.grants[g].(revoked := true)]), u.(grants := u.grants[g := u.grants[g].(revoked := true)]));
      SameGrants(t, w) && SameKeysButPurged(t, w)
  {
    var t := s.(grants := s.grants[g := s.grants[g].(revoked := true)]);
    forall i | 0 <= i < |s.grants|
      ensures SameGrant(t.grants[i], u.grants[g := u.grants[g].(revoked := true)][i], s.clock)
    {
      assert SameGrant(s.grants[i], u.grants[i], s.clock);
    }
  }

  lemma RenumbersGrow(f: seq<nat>, s: seq<Revoker>, u: seq<Revoker>, v: Revoker)
    requires Renumbers(f, s, u)
    ensures Renumbers(f + [|u|], s + [v], u + [v])
  {
  }

  lemma RenumbersMore(f: seq<nat>, s: seq<Revoker>, u: seq<Revoker>, v: Revoker)
    requires Renumbers(f, s, u)
    ensures Renumbers(f, s, u + [v])
  {
  }

  /** Refused by the one; the other may still find the purged grant, which has no permit left to cancel. */
  lemma RevokedInNone(s: State, u: State, f: seq<nat>, presented: Option<Key>, subject: string)
    requires Twins(s, u, f) && RevokeVerdict(s, presented, subject).Err?
    ensures Twins(ApplyRevoke(s, presented, subject), ApplyRevoke(u, presented, subject), f)
  {
    if RevokeVerdict(u, presented, subject).Ok? {
      var gid := u.table[presented.value];
      assert SameGrant(s.grants[gid], u.grants[gid], s.clock);
      assert Purgeable(s.grants[gid], s.clock) && u.grants[gid].permits == {};
      assert CancelAll(u.permits, {}) == u.permits;
      DeadMarkStaysTwin(s, u, gid);
      RenumbersMore(f, s.revokers, u.revokers, Revoker(gid, {}, Waiting));
    }
  }

  lemma DeadMarkStaysTwin(s: State, u: State, g: nat)
    requires SameGrants(s, u) && SameKeysButPurged(s, u) && g < |s.grants| && Purgeable(s.grants[g], s.clock)
    ensures var w := u.(grants := u.grants[g := u.grants[g].(revoked := true)]); SameGrants(s, w) && SameKeysButPurged(s, w)
  {
    forall i | 0 <= i < |s.grants|
      ensures SameGrant(s.grants[i], u.grants[g := u.grants[g].(revoked := true)][i], s.clock)
    {
      assert SameGrant(s.grants[i], u.grants[i], s.clock);
    }
  }

  // ----- issuing -----

  lemma SamePurged(s: State, u: State)
    requires SameGrants(s, u) && SameKeysButPurged(s, u) && u.clock == s.clock
    ensures PurgedTable(u.table, u.grants, u.clock) == PurgedTable(s.table, s.grants, s.clock)
  {
    forall k | k in s.issued
      ensures (k in s.table && !Purgeable(s.grants[s.issued[k]], s.clock)) <==> !Purgeable(u.grants[s.issued[k]], s.clock)
    {
      assert SameGrant(s.grants[s.issued[k]], u.grants[s.issued[k]], s.clock);
    }
  }

  lemma {:induction false} PicksAlike(draws: seq<Key>, a: map<Key, nat>, b: map<Key, nat>, budget: nat)
    requires forall k :: k in draws ==> (k in a <==> k in b)
    ensures PickKey(draws, a, budget) == PickKey(draws, b, budget)
    decreases budget
  {
    if budget > 0 && draws != [] && draws[0] in a { PicksAlike(draws[1..], a, b, budget - 1); }
  }

  /** Both Gateways issue the same keys, and refuse for the same reasons. */
  lemma TwinsIssueAlike(s: State, u: State, f: seq<nat>, step: Step)
    requires Twins(s, u, f) && step.Issue? && FreshDraws(s, step)
    ensures KeptVerdict(u, step.request, step.draws) == IssueVerdict(s, step.request, step.draws)
    ensures IssueVerdict(s, step.request, step.draws).Ok? ==> IssueVerdict(s, step.request, step.draws).value !in s.issued
  {
    SamePurged(s, u);
    PicksAlike(step.draws, PurgedTable(s.table, s.grants, s.clock), u.table, DRAWS);
  }

  lemma PurgeStaysTwin(s: State, u: State)
    requires SameGrants(s, u) && SameKeysButPurged(s, u)
    ensures SameKeysButPurged(s.(table := PurgedTable(s.table, s.grants, s.clock)), u)
  {
  }

  lemma NewGrantStaysTwin(s: State, u: State, key: Key, grant: Grant)
    requires SameGrants(s, u) && SameKeysButPurged(s, u) && key !in s.issued
    ensures var (t, w) := (WithGrant(s, key, grant), WithGrant(u, key, grant)); SameGrants(t, w) && SameKeysButPurged(t, w)
  {
    var (t, w) := (WithGrant(s, key, grant), WithGrant(u, key, grant));
    forall i | 0 <= i < |t.grants| ensures SameGrant(t.grants[i], w.grants[i], s.clock) {
      if i < |s.grants| { assert SameGrant(s.grants[i], u.grants[i], s.clock); }
    }
  }

  function WithGrant(s: State, key: Key, grant: Grant): State {
    s.(table := s.table[key := |s.grants|], issued := s.issued[key := |s.grants|], grants := s.grants + [grant])
  }

  lemma IssueStaysTwin(s: State, u: State, f: seq<nat>, step: Step)
    requires Twins(s, u, f) && step.Issue? && FreshDraws(s, step)
    ensures StaysTwin(s, u, f, step, f)
  {
    TwinsIssueAlike(s, u, f, step);
    PurgeStaysTwin(s, u);
    var purged := s.(table := PurgedTable(s.table, s.grants, s.clock));
    assert SameGrants(purged, u);
    var v := IssueVerdict(s, step.request, step.draws);
    if v.Ok? {
      var grant := Grant(step.request.binding, false, false, {}, s.clock);
      NewGrantStaysTwin(purged, u, v.value, grant);
      assert Apply(s, step) == WithGrant(purged, v.value, grant);
      assert KeptApply(u, step) == WithGrant(u, v.value, grant);
    }
  }

  // ----- whole runs -----

  lemma StepStaysTwin(s: State, u: State, f: seq<nat>, step: Step) returns (g: seq<nat>)
    requires Inv(s) && Twins(s, u, f) && Enabled(s, step) && FreshDraws(s, step)
    ensures StaysTwin(s, u, f, step, g)
  {
    g := f;
    match step
    case Tick(_) => TickStaysTwin(s, u, f, step);
    case Issue(_, _) => IssueStaysTwin(s, u, f, step);
    case Begin(_, _) => BeginStaysTwin(s, u, f, step);
    case Revoke(_, _) => g := RevokeStaysTwin(s, u, f, step);
    case RevokeWait(_, _) => RevokerStaysTwin(s, u, f, step);
    case RevokeReturn(_) => RevokerStaysTwin(s, u, f, step);
    case RevokeGiveUp(_) => RevokerStaysTwin(s, u, f, step);
    case UnlistPermit(_) => UnlistStaysTwin(s, u, f, step);
    case _ => InnerStaysTwin(s, u, f, step);
  }

  /** The runs agree so far. */
  ghost predicate InLockstep(trace: seq<State>, steps: seq<Step>, kept: seq<State>, keptSteps: seq<Step>, maps: seq<seq<nat>>, i: nat) {
    && i < |trace| && i <= |steps| && |kept| == |maps| == i + 1 && |keptSteps| == i && kept[0] == trace[0]
    && (forall j :: 0 <= j <= i ==> Twins(trace[j], kept[j], maps[j]))
    && (forall j :: 0 <= j < i ==> keptSteps[j] == Renumbered(steps[j], maps[j]) && KeptFollows(kept, keptSteps, j))
  }

  lemma LockstepGrows(
    trace: seq<State>, steps: seq<Step>, kept: seq<State>, keptSteps: seq<Step>, maps: seq<seq<nat>>, i: nat, g: seq<nat>)
    requires InLockstep(trace, steps, kept, keptSteps, maps, i) && i < |steps| && Follows(trace, steps, i)
    requires StaysTwin(trace[i], kept[i], maps[i], steps[i], g)
    ensures var step := Renumbered(steps[i], maps[i]);
      InLockstep(trace, steps, kept + [KeptApply(kept[i], step)], keptSteps + [step], maps + [g], i + 1)
  {
    var step := Renumbered(steps[i], maps[i]);
    var (more, moreSteps) := (kept + [KeptApply(kept[i], step)], keptSteps + [step]);
    forall j | 0 <= j < i + 1
      ensures moreSteps[j] == Renumbered(steps[j], (maps + [g])[j]) && KeptFollows(more, moreSteps, j)
    {
      if j < i { assert KeptFollows(kept, keptSteps, j); }
    }
  }

  lemma StartsTwin(policy: map<string, string>, clock: int)
    ensures Twins(Init(policy, clock), Init(policy, clock), [])
  {
  }

  lemma LockstepStep(
    trace: seq<State>, steps: seq<Step>, kept: seq<State>, keptSteps: seq<Step>, maps: seq<seq<nat>>, i: nat)
    returns (more: seq<State>, moreSteps: seq<Step>, moreMaps: seq<seq<nat>>)
    requires InLockstep(trace, steps, kept, keptSteps, maps, i) && i < |steps| && Follows(trace, steps, i)
    requires Inv(trace[i]) && FreshDraws(trace[i], steps[i])
    ensures InLockstep(trace, steps, more, moreSteps, moreMaps, i + 1)
  {
    var g := StepStaysTwin(trace[i], kept[i], maps[i], steps[i]);
    var step := Renumbered(steps[i], maps[i]);
    LockstepGrows(trace, steps, kept, keptSteps, maps, i, g);
    more, moreSteps, moreMaps := kept + [KeptApply(kept[i], step)], keptSteps + [step], maps + [g];
  }

  lemma {:induction false} RunsTogether(
    trace: seq<State>, steps: seq<Step>, policy: map<string, string>, clock: int, i: nat)
    returns (kept: seq<State>, keptSteps: seq<Step>, maps: seq<seq<nat>>)
    requires Run(trace, steps, policy, clock) && i < |trace|
    requires forall j :: 0 <= j < |steps| ==> FreshDraws(trace[j], steps[j])
    ensures InLockstep(trace, steps, kept, keptSteps, maps, i)
  {
    if i == 0 {
      kept, keptSteps, maps := StartsInLockstep(trace, steps, policy, clock);
    } else {
      kept, keptSteps, maps := RunsTogether(trace, steps, policy, clock, i - 1);
      RunKeepsInv(trace, steps, policy, clock, i - 1);
      kept, keptSteps, maps := LockstepStep(trace, steps, kept, keptSteps, maps, i - 1);
    }
  }

  lemma StartsInLockstep(trace: seq<State>, steps: seq<Step>, policy: map<string, string>, clock: int)
    returns (kept: seq<State>, keptSteps: seq<Step>, maps: seq<seq<nat>>)
    requires Run(trace, steps, policy, clock)
    ensures InLockstep(trace, steps, kept, keptSteps, maps, 0)
  {
    StartsTwin(policy, clock);
    kept, keptSteps, maps := [trace[0]], [], [[]];
  }

  /** A state of each run as a client sees it: connects, permits, attach calls, closes, and what can still connect. */
  ghost predicate LookAlike(s: State, u: State) {
    && SameRest(s, u)
    && forall presented: Option<Key>, subject: string, gid: nat ::
         BeginVerdict(s.table, s.grants, s.clock, presented, subject) == Ok(gid) <==>
         BeginVerdict(u.table, u.grants, u.clock, presented, subject) == Ok(gid)
  }

  lemma TwinsLookAlike(s: State, u: State, f: seq<nat>)
    requires Twins(s, u, f)
    ensures LookAlike(s, u)
  {
    forall presented: Option<Key>, subject: string, gid: nat
      ensures BeginVerdict(s.table, s.grants, s.clock, presented, subject) == Ok(gid) <==>
              BeginVerdict(u.table, u.grants, u.clock, presented, subject) == Ok(gid)
    {
      TwinsConnectAlike(s, u, f, presented, subject);
    }
  }

  predicate IssueAlike(s: State, u: State, step: Step) {
    step.Issue? ==> KeptVerdict(u, step.request, step.draws) == IssueVerdict(s, step.request, step.draws)
  }

  /**
   With fresh tokens, for every run of the Gateway there is a run of one that never purges, of the
   same steps but for the numbering of revokers, in which every grant request is answered the same,
   and at every moment the permits, the attach calls and the closes are the same and the same
   connects would be taken, on the same grants.  Only Revoke can tell: it does not find a purged
   grant, and would find it where it is kept.
   */
  lemma PurgingCannotBeSeen(trace: seq<State>, steps: seq<Step>, policy: map<string, string>, clock: int)
    requires Run(trace, steps, policy, clock)
    requires forall j :: 0 <= j < |steps| ==> FreshDraws(trace[j], steps[j])
    ensures exists kept, keptSteps, maps: seq<seq<nat>> ::
      && KeptRun(kept, keptSteps, policy, clock) && |kept| == |trace| == |maps|
      && (forall j :: 0 <= j < |steps| ==> keptSteps[j] == Renumbered(steps[j], maps[j]))
      && (forall j :: 0 <= j < |steps| ==> IssueAlike(trace[j], kept[j], steps[j]))
      && (forall j :: 0 <= j < |trace| ==> LookAlike(trace[j], kept[j]))
  {
    var kept, keptSteps, maps := RunsTogether(trace, steps, policy, clock, |steps|);
    forall j | 0 <= j < |trace| ensures LookAlike(trace[j], kept[j]) {
      TwinsLookAlike(trace[j], kept[j], maps[j]);
    }
    forall j | 0 <= j < |steps| ensures IssueAlike(trace[j], kept[j], steps[j]) {
      if steps[j].Issue? { TwinsIssueAlike(trace[j], kept[j], maps[j], steps[j]); }
    }
    assert KeptRun(kept, keptSteps, policy, clock);
  }
}
