/** What holds of the Gateway over whole runs. */
module GatewaySafety {
  import opened Prelude
  import opened GatewayState
  import opened GatewayInvariant

  lemma {:induction false} RunKeepsInv(trace: seq<State>, steps: seq<Step>, policy: map<string, string>, clock: int, i: nat)
    requires Run(trace, steps, policy, clock) && i < |trace|
    ensures Inv(trace[i])
  {
    if i == 0 {
      InitIsInv(policy, clock);
    } else {
      RunKeepsInv(trace, steps, policy, clock, i - 1);
      assert Follows(trace, steps, i - 1);
      StepKeepsInv(trace[i - 1], steps[i - 1]);
    }
  }

  // ----- revocation -----

  /** Revoke has returned nil. */
  predicate RevokedNil(s: State, r: nat, gid: nat) {
    r < |s.revokers| && s.revokers[r].pc == Acknowledged && s.revokers[r].gid == gid
  }

  predicate CallOfGrant(s: State, a: nat, gid: nat) {
    a < |s.calls| && s.calls[a].permit < |s.permits| && s.permits[s.calls[a].permit].gid == gid
  }

  lemma {:induction false} AcknowledgementStays(
    trace: seq<State>, steps: seq<Step>, policy: map<string, string>, clock: int, i: nat, j: nat, r: nat, gid: nat)
    requires Run(trace, steps, policy, clock) && i <= j < |trace| && RevokedNil(trace[i], r, gid)
    ensures RevokedNil(trace[j], r, gid)
  {
    if i < j {
      AcknowledgementStays(trace, steps, policy, clock, i, j - 1, r, gid);
      var (s, step) := (trace[j - 1], steps[j - 1]);
      assert Follows(trace, steps, j - 1);
    }
  }

  /**
   Once Revoke has returned nil, then and forever: every permit ever made from the grant has
   its context cancelled and its flag set and its Close past the grant's list, no Attach on it
   can come to succeed, and no BeginConnect reaches the grant.
   */
  lemma RevocationIsFinal(
    trace: seq<State>, steps: seq<Step>, policy: map<string, string>, clock: int, i: nat, j: nat, r: nat, gid: nat)
    requires Run(trace, steps, policy, clock) && i <= j < |trace| && RevokedNil(trace[i], r, gid)
    ensures forall p :: 0 <= p < |trace[j].permits| && trace[j].permits[p].gid == gid ==>
      && trace[j].permits[p].cancelled && trace[j].permits[p].transportsClosed && Finished(trace[j].permits[p])
    ensures forall a :: 0 <= a < |trace[j].calls| ==> CallOfGrant(trace[j], a, gid) ==> !trace[j].calls[a].pc.Checked?
    ensures forall p :: 0 <= p < |trace[j].permits| && trace[j].permits[p].gid == gid ==> AttachRefused(trace[j].permits[p])
    ensures forall presented, subject ::
      BeginVerdict(trace[j].table, trace[j].grants, trace[j].clock, presented, subject) != Ok(gid)
  {
    AcknowledgementStays(trace, steps, policy, clock, i, j, r, gid);
    RunKeepsInv(trace, steps, policy, clock, j);
    var s := trace[j];
    assert RevokerOk(s, r);
    forall p | 0 <= p < |s.permits| && s.permits[p].gid == gid
      ensures s.permits[p].cancelled && s.permits[p].transportsClosed && Finished(s.permits[p])
    {
      assert ThreadsOk(s.permits[p]);
    }
    forall a | 0 <= a < |s.calls| && CallOfGrant(s, a, gid)
      ensures !s.calls[a].pc.Checked?
    {
      assert CallOk(s, a) && HoldsOk(s, s.calls[a].permit);
      assert ThreadsOk(s.permits[s.calls[a].permit]);
    }
  }

  /** An Attach comes to succeed only through the store of a call that holds the permit's mutex. */
  lemma OnlyStoreAttaches(s: State, step: Step, a: nat)
    requires Inv(s) && Enabled(s, step)
    requires a < |Apply(s, step).calls| && Apply(s, step).calls[a].pc.Attached?
    ensures a < |s.calls| && s.calls[a].permit == Apply(s, step).calls[a].permit < |s.permits|
    ensures s.calls[a].pc.Attached? || s.calls[a].pc.Checked?
  {
    if a < |s.calls| {
      CallFrame(s, step, a);
      assert CallOk(s, a);
    }
  }

  lemma NoCallIsChecked(
    trace: seq<State>, steps: seq<Step>, policy: map<string, string>, clock: int, i: nat, j: nat, r: nat, gid: nat, a: nat)
    requires Run(trace, steps, policy, clock) && i <= j < |trace| && RevokedNil(trace[i], r, gid)
    requires CallOfGrant(trace[j], a, gid)
    ensures !trace[j].calls[a].pc.Checked?
  {
    RevocationIsFinal(trace, steps, policy, clock, i, j, r, gid);
  }

  lemma StoreComesFrom(s: State, step: Step, a: nat, gid: nat)
    requires Inv(s) && Enabled(s, step)
    requires CallOfGrant(Apply(s, step), a, gid) && Apply(s, step).calls[a].pc.Attached?
    ensures CallOfGrant(s, a, gid) && (s.calls[a].pc.Attached? || s.calls[a].pc.Checked?)
  {
    OnlyStoreAttaches(s, step, a);
    StepFrame(s, step, s.calls[a].permit);
  }

  lemma AttachedBefore(
    trace: seq<State>, steps: seq<Step>, policy: map<string, string>, clock: int,
    i: nat, j: nat, r: nat, gid: nat, a: nat)
    requires Run(trace, steps, policy, clock) && i < j < |trace| && RevokedNil(trace[i], r, gid)
    requires CallOfGrant(trace[j], a, gid) && trace[j].calls[a].pc.Attached?
    ensures CallOfGrant(trace[j - 1], a, gid) && trace[j - 1].calls[a].pc.Attached?
  {
    RunKeepsInv(trace, steps, policy, clock, j - 1);
    assert Follows(trace, steps, j - 1);
    StoreComesFrom(trace[j - 1], steps[j - 1], a, gid);
    NoCallIsChecked(trace, steps, policy, clock, i, j - 1, r, gid, a);
  }

  /** The calls that have succeeded on the grant's permits are those that had when Revoke returned. */
  lemma {:induction false} NoAttachAfterRevocation(
    trace: seq<State>, steps: seq<Step>, policy: map<string, string>, clock: int,
    i: nat, j: nat, r: nat, gid: nat, a: nat)
    requires Run(trace, steps, policy, clock) && i <= j < |trace| && RevokedNil(trace[i], r, gid)
    requires CallOfGrant(trace[j], a, gid) && trace[j].calls[a].pc.Attached?
    ensures a < |trace[i].calls| && trace[i].calls[a].pc.Attached?
  {
    if i < j {
      AttachedBefore(trace, steps, policy, clock, i, j, r, gid, a);
      NoAttachAfterRevocation(trace, steps, policy, clock, i, j - 1, r, gid, a);
    }
  }

  /** After an acknowledged revocation the only physical closes still due are the watcher's. */
  predicate WatcherOwes(m: Permit) { Rest(m.watcher) != [] }

  /**
   closeTransports sets its flag before it closes, so which thread set it decides what an
   acknowledged revocation knows of the physical closes: when Close set it, both attached
   transports are closed; when the cancellation watcher did, they are exactly once that thread
   has returned from both of its Close calls.
   */
  lemma RevokedTransportsClosedIff(
    trace: seq<State>, steps: seq<Step>, policy: map<string, string>, clock: int,
    i: nat, j: nat, r: nat, gid: nat, a: nat)
    requires Run(trace, steps, policy, clock) && i <= j < |trace| && RevokedNil(trace[i], r, gid)
    requires CallOfGrant(trace[j], a, gid) && trace[j].calls[a].pc.Attached?
    ensures var m := trace[j].permits[trace[j].calls[a].permit];
      && m.winner.Some?
      && ((trace[j].closed[Front(a)] == 1 && trace[j].closed[Back(a)] == 1) <==>
          (m.winner == Some(Closer) || !WatcherOwes(m)))
  {
    FinishedForGood(trace, steps, policy, clock, i, j, r, gid, trace[j].calls[a].permit);
    RunKeepsInv(trace, steps, policy, clock, j);
    var s := trace[j];
    assert CallOk(s, a) && Accounted(s, a) && ThreadsOk(s.permits[s.calls[a].permit]) && HoldsOk(s, s.calls[a].permit);
    ClosedWhenNothingOwed(s, a);
  }

  lemma FinishedForGood(
    trace: seq<State>, steps: seq<Step>, policy: map<string, string>, clock: int,
    i: nat, j: nat, r: nat, gid: nat, p: nat)
    requires Run(trace, steps, policy, clock) && i <= j < |trace| && RevokedNil(trace[i], r, gid)
    requires p < |trace[j].permits| && trace[j].permits[p].gid == gid
    ensures trace[j].permits[p].transportsClosed && Finished(trace[j].permits[p])
  {
    RevocationIsFinal(trace, steps, policy, clock, i, j, r, gid);
  }

  lemma ClosedWhenNothingOwed(s: State, a: nat)
    requires a < |s.calls| && s.calls[a].permit < |s.permits| && s.calls[a].pc.Attached?
    requires CallOk(s, a) && Accounted(s, a) && HoldsOk(s, s.calls[a].permit) && ThreadsOk(s.permits[s.calls[a].permit])
    requires var m := s.permits[s.calls[a].permit]; m.transportsClosed && Finished(m)
    ensures (s.closed[Front(a)] == 1 && s.closed[Back(a)] == 1) <==> !WatcherOwes(s.permits[s.calls[a].permit])
  {
    var m := s.permits[s.calls[a].permit];
    if WatcherOwes(m) {
      CountPair(Front(a), Back(a), Back(a));
      assert [Back(a)][1..] == [];
      assert Count([Back(a)], Back(a)) == 1;
    }
  }

  // ----- transports -----

  /** No thread is still to act on this call's transports. */
  predicate Settled(s: State, a: nat)
    requires a < |s.calls| && s.calls[a].permit < |s.permits|
  {
    var m := s.permits[s.calls[a].permit];
    match s.calls[a].pc
    case Checking => false
    case Checked => false
    case Rejecting(rest) => rest == []
    case Attached => m.transportsClosed && Rest(m.watcher) == [] && Rest(m.closer) == []
  }

  /**
   Whoever wins, the pair handed to an Attach call is closed by the permit code at most once at
   any moment, and exactly once when no pending close is left; a pair attached to a permit whose
   flag is set is closed already or owed by a thread that will close it.
   */
  lemma TransportsClosedExactlyOnce(
    trace: seq<State>, steps: seq<Step>, policy: map<string, string>, clock: int, i: nat, a: nat)
    requires Run(trace, steps, policy, clock) && i < |trace| && a < |trace[i].calls|
    ensures trace[i].calls[a].permit < |trace[i].permits|
    ensures trace[i].closed[Front(a)] <= 1 && trace[i].closed[Back(a)] <= 1
    ensures Settled(trace[i], a) ==> trace[i].closed[Front(a)] == 1 && trace[i].closed[Back(a)] == 1
    ensures var m := trace[i].permits[trace[i].calls[a].permit];
      trace[i].calls[a].pc.Attached? && m.transportsClosed ==>
        forall t :: t in {Front(a), Back(a)} ==>
          trace[i].closed[t] + Count(Rest(m.watcher), t) + Count(Rest(m.closer), t) == 1
  {
    RunKeepsInv(trace, steps, policy, clock, i);
    assert CallOk(trace[i], a) && Accounted(trace[i], a);
  }

  // ----- grants -----

  lemma {:induction false} PermitStays(
    trace: seq<State>, steps: seq<Step>, policy: map<string, string>, clock: int, i: nat, j: nat, p: nat)
    requires Run(trace, steps, policy, clock) && i <= j < |trace| && p < |trace[i].permits|
    ensures p < |trace[j].permits| && trace[j].permits[p].gid == trace[i].permits[p].gid
    ensures trace[j].permits[p].binding == trace[i].permits[p].binding
    ensures trace[j].permits[p].startedAt == trace[i].permits[p].startedAt
  {
    if i < j {
      PermitStays(trace, steps, policy, clock, i, j - 1, p);
      assert Follows(trace, steps, j - 1);
      StepFrame(trace[j - 1], steps[j - 1], p);
    }
  }

  lemma {:induction false} PolicyIsFixed(
    trace: seq<State>, steps: seq<Step>, policy: map<string, string>, clock: int, i: nat)
    requires Run(trace, steps, policy, clock) && i < |trace|
    ensures trace[i].policy == policy
  {
    if i > 0 {
      PolicyIsFixed(trace, steps, policy, clock, i - 1);
      assert Follows(trace, steps, i - 1);
    }
  }

  predicate Consumes(s: State, step: Step, gid: nat) {
    step.Begin? && BeginVerdict(s.table, s.grants, s.clock, step.presented, step.subject) == Ok(gid)
  }

  /** Over any run a grant is consumed by at most one successful BeginConnect. */
  lemma GrantIsOneUse(
    trace: seq<State>, steps: seq<Step>, policy: map<string, string>, clock: int, i: nat, j: nat, gid: nat)
    requires Run(trace, steps, policy, clock) && i < |steps| && j < |steps|
    requires Consumes(trace[i], steps[i], gid) && Consumes(trace[j], steps[j], gid)
    ensures i == j
  {
    if i < j {
      OneUseInOrder(trace, steps, policy, clock, i, j, gid);
    } else if j < i {
      OneUseInOrder(trace, steps, policy, clock, j, i, gid);
    }
  }

  lemma OneUseInOrder(
    trace: seq<State>, steps: seq<Step>, policy: map<string, string>, clock: int, i: nat, j: nat, gid: nat)
    requires Run(trace, steps, policy, clock) && i < j < |steps|
    requires Consumes(trace[i], steps[i], gid)
    ensures !Consumes(trace[j], steps[j], gid)
  {
    var p := |trace[i].permits|;
    assert Follows(trace, steps, i);
    assert p < |trace[i + 1].permits| && trace[i + 1].permits[p].gid == gid;
    PermitStays(trace, steps, policy, clock, i + 1, j, p);
    RunKeepsInv(trace, steps, policy, clock, j);
    assert ListedOk(trace[j], p);
  }

  /**
   Every permit carries the subject BeginConnect was called with, that subject's tenant in the
   policy, and an expiry after the connect time and at most five minutes after issue.
   */
  lemma PermitCarriesItsAuthority(
    trace: seq<State>, steps: seq<Step>, policy: map<string, string>, clock: int, i: nat, gid: nat)
    requires Run(trace, steps, policy, clock) && i < |steps| && Consumes(trace[i], steps[i], gid)
    ensures gid < |trace[i].grants| && |trace[i + 1].permits| == |trace[i].permits| + 1
    ensures var (g, m) := (trace[i].grants[gid], trace[i + 1].permits[|trace[i].permits|]);
      && m.gid == gid && m.binding == g.binding && m.startedAt == trace[i].clock
      && m.binding.subject == steps[i].subject
      && steps[i].subject in policy && m.binding.tenant == policy[steps[i].subject]
      && g.issuedAt <= m.startedAt < m.binding.expiresAt <= g.issuedAt + MAX_GRANT_TTL
  {
    RunKeepsInv(trace, steps, policy, clock, i);
    PolicyIsFixed(trace, steps, policy, clock, i);
    assert GrantOk(trace[i], gid);
    assert Follows(trace, steps, i);
  }

  /** Under a policy New accepts, any two permits ever made have one tenant exactly when they have one subject. */
  lemma PermitsShareTenantIff(
    trace: seq<State>, steps: seq<Step>, policy: map<string, string>, clock: int, i: nat, p: nat, q: nat)
    requires Run(trace, steps, policy, clock) && i < |trace| && OneTenantEach(policy)
    requires p < |trace[i].permits| && q < |trace[i].permits|
    ensures trace[i].permits[p].binding.tenant == trace[i].permits[q].binding.tenant <==>
            trace[i].permits[p].binding.subject == trace[i].permits[q].binding.subject
  {
    RunKeepsInv(trace, steps, policy, clock, i);
    PolicyIsFixed(trace, steps, policy, clock, i);
    BoundByPolicy(trace[i], p);
    BoundByPolicy(trace[i], q);
  }

  lemma BoundByPolicy(s: State, p: nat)
    requires Inv(s) && p < |s.permits|
    ensures var b := s.permits[p].binding; b.subject in s.policy && s.policy[b.subject] == b.tenant
  {
    assert ListedOk(s, p);
    assert GrantOk(s, s.permits[p].gid);
  }

  // ----- purge -----

  /** Random tokens: a drawn key was never issued before, unless its grant is still in the table. */
  predicate FreshDraws(s: State, step: Step) {
    step.Issue? ==>
      forall k :: k in step.draws && k in s.issued ==> k in PurgedTable(s.table, s.grants, s.clock)
  }

  /** The part of the state that only Issue and time change. */
  predicate SameKeys(s: State, t: State) {
    t.table == s.table && t.issued == s.issued && s.clock <= t.clock
  }

  lemma NoIssueKeepsKeys(s: State, step: Step)
    requires Enabled(s, step) && !step.Issue?
    ensures SameKeys(s, Apply(s, step))
  {
    if OnPermit(step) { PermitsKeepKeys(s, step); } else { RestKeepKeys(s, step); }
  }

  lemma PermitsKeepKeys(s: State, step: Step)
    requires Enabled(s, step) && OnPermit(step)
    ensures SameKeys(s, Apply(s, step))
  {
    if OnThread(step) { ThreadsKeepKeys(s, step); } else { OtherPermitStepsKeepKeys(s, step); }
  }

  lemma ThreadsKeepKeys(s: State, step: Step)
    requires Enabled(s, step) && OnThread(step)
    ensures SameKeys(s, Apply(s, step))
  {
  }

  lemma OtherPermitStepsKeepKeys(s: State, step: Step)
    requires Enabled(s, step) && OnPermit(step) && !OnThread(step)
    ensures SameKeys(s, Apply(s, step))
  {
  }

  lemma RestKeepKeys(s: State, step: Step)
    requires Enabled(s, step) && !OnPermit(step) && !step.Issue?
    ensures SameKeys(s, Apply(s, step))
  {
  }

  /** No more than 64 grants, and a permit whose Close has not unlisted it keeps its grant in the table. */
  lemma PurgeKeepsLivePermits(
    trace: seq<State>, steps: seq<Step>, policy: map<string, string>, clock: int, i: nat, p: nat)
    requires Run(trace, steps, policy, clock) && i < |trace| && p < |trace[i].permits|
    ensures |trace[i].table| <= 64
    ensures var m := trace[i].permits[p]; !Finished(m) ==> m.key in trace[i].table && trace[i].table[m.key] == m.gid
  {
    RunKeepsInv(trace, steps, policy, clock, i);
    assert ListedOk(trace[i], p);
  }
}
