/** What every step of the Gateway keeps, object by object. */
module GatewayInvariant {
  import opened Prelude
  import opened GatewayState

  predicate TableOk(s: State) {
    && |s.table| <= MAX_GRANTS
    && forall k :: k in s.table ==> s.table[k] < |s.grants|
  }

  /** Listed permits belong to the grant; the binding is one the policy allows. */
  predicate GrantOk(s: State, g: nat)
    requires g < |s.grants|
  {
    var grant := s.grants[g];
    var b := grant.binding;
    && b.subject in s.policy && s.policy[b.subject] == b.tenant
    && grant.issuedAt <= s.clock
    && grant.issuedAt < b.expiresAt && b.expiresAt - grant.issuedAt <= MAX_GRANT_TTL
    && forall p :: p in grant.permits ==> p < |s.permits| && s.permits[p].gid == g
  }

  /** Nothing has been closed yet: the thread has not taken the locked part. */
  predicate Before(pc: Pc) { pc.Idle? || pc.Enter? }

  function Rest(pc: Pc): seq<Transport> {
    if pc.Owe? then pc.rest else []
  }

  /** A closing thread owes a tail of what the permit holds. */
  predicate OweOk(m: Permit, pc: Pc) {
    Rest(pc) == [] ||
    (m.frontend.Some? && m.backend.Some? &&
     (Rest(pc) == [m.frontend.value, m.backend.value] || Rest(pc) == [m.backend.value]))
  }

  predicate ThreadsOk(m: Permit) {
    && !m.watcher.Unlist? && !m.watcher.Signal?
    && (m.watcher.Idle? || m.cancelled)
    && (m.closer.Idle? || m.cancelled)
    && (!m.transportsClosed ==> Before(m.watcher) && Before(m.closer))
    && !(m.watcher.Owe? && m.closer.Owe?)
    && (m.transportsClosed <==> m.winner.Some?)
    && (m.winner == Some(Closer) ==> !m.watcher.Owe?) && (m.winner == Some(Watcher) ==> !m.closer.Owe?)
    && m.done == m.closer.Over?
    && OweOk(m, m.watcher) && OweOk(m, m.closer)
  }

  predicate HoldsOk(s: State, p: nat)
    requires p < |s.permits|
  {
    var m := s.permits[p];
    && (m.frontend.None? ==> m.backend.None?)
    && (m.frontend.Some? ==>
        && m.frontend.value.Front?
        && var a := m.frontend.value.call;
        && m.backend == Some(Back(a)) && a < |s.calls| && s.calls[a] == Call(p, Attached))
    && (m.lock.Some? ==>
        && m.lock.value < |s.calls| && s.calls[m.lock.value] == Call(p, Checked)
        && m.frontend.None? && !m.transportsClosed)
  }

  predicate ListedOk(s: State, p: nat)
    requires p < |s.permits|
  {
    var m := s.permits[p];
    && m.gid < |s.grants|
    && s.grants[m.gid].used
    && m.binding == s.grants[m.gid].binding
    && m.startedAt < m.binding.expiresAt
    && (p in s.grants[m.gid].permits <==> !(m.closer.Signal? || m.closer.Over?))
    && (p in s.grants[m.gid].permits ==> m.key in s.table && s.table[m.key] == m.gid)
  }

  predicate CallOk(s: State, a: nat)
    requires a < |s.calls|
  {
    var c := s.calls[a];
    && c.permit < |s.permits|
    && (c.pc.Checked? ==> s.permits[c.permit].lock == Some(a))
    && (c.pc.Attached? ==> s.permits[c.permit].frontend == Some(Front(a)))
    && (c.pc.Rejecting? ==> c.pc.rest in {[Front(a), Back(a)], [Back(a)], []})
  }

  function Count(rest: seq<Transport>, t: Transport): nat {
    if rest == [] then 0 else (if rest[0] == t then 1 else 0) + Count(rest[1..], t)
  }

  /** Closes of t that some thread still owes, or that Attach or the permit still stands for. */
  function Outstanding(s: State, a: nat, t: Transport): nat
    requires a < |s.calls| && s.calls[a].permit < |s.permits|
  {
    var m := s.permits[s.calls[a].permit];
    match s.calls[a].pc
    case Checking => 1
    case Checked => 1
    case Rejecting(rest) => Count(rest, t)
    case Attached =>
      if !m.transportsClosed then 1 else Count(Rest(m.watcher), t) + Count(Rest(m.closer), t)
  }

  predicate Accounted(s: State, a: nat)
    requires a < |s.calls| && s.calls[a].permit < |s.permits|
  {
    && s.closed[Front(a)] + Outstanding(s, a, Front(a)) == 1
    && s.closed[Back(a)] + Outstanding(s, a, Back(a)) == 1
  }

  /** Close has got past dropping the permit from its grant. */
  predicate Finished(m: Permit) { m.closer.Signal? || m.closer.Over? }

  predicate RevokerOk(s: State, r: nat)
    requires r < |s.revokers|
  {
    var v := s.revokers[r];
    && v.gid < |s.grants| && s.grants[v.gid].revoked
    && (v.pc == Acknowledged ==> v.waiting == {})
    && forall p :: 0 <= p < |s.permits| && s.permits[p].gid == v.gid ==>
         s.permits[p].cancelled && (p !in v.waiting ==> Finished(s.permits[p]))
  }

  predicate OnePermitPerGrant(s: State) {
    forall p, q :: 0 <= p < |s.permits| && 0 <= q < |s.permits| && s.permits[p].gid == s.permits[q].gid ==> p == q
  }

  predicate NothingElseClosed(s: State) {
    forall t :: t in s.closed ==> t.call < |s.calls|
  }

  ghost predicate Inv(s: State) {
    && TableOk(s)
    && (forall g :: 0 <= g < |s.grants| ==> GrantOk(s, g))
    && (forall p :: 0 <= p < |s.permits| ==> ThreadsOk(s.permits[p]))
    && (forall p :: 0 <= p < |s.permits| ==> HoldsOk(s, p))
    && (forall p :: 0 <= p < |s.permits| ==> ListedOk(s, p))
    && OnePermitPerGrant(s)
    && (forall r :: 0 <= r < |s.revokers| ==> RevokerOk(s, r))
    && NothingElseClosed(s)
    && (forall a :: 0 <= a < |s.calls| ==> CallOk(s, a) && Accounted(s, a))
  }

  lemma IssueKeepsTable(s: State, request: GrantRequest, draws: seq<Key>)
    requires TableOk(s)
    ensures TableOk(ApplyIssue(s, request, draws))
  {
    PurgeShrinks(s.table, s.grants, s.clock);
  }

  lemma OthersKeepTable(s: State, step: Step)
    requires Enabled(s, step) && !step.Issue?
    ensures Apply(s, step).table == s.table && |Apply(s, step).grants| == |s.grants|
  {
    if OnPermit(step) { PermitsKeepTable(s, step); } else { RestKeepTable(s, step); }
  }

  lemma PermitsKeepTable(s: State, step: Step)
    requires Enabled(s, step) && OnPermit(step)
    ensures Apply(s, step).table == s.table && |Apply(s, step).grants| == |s.grants|
  {
  }

  lemma RestKeepTable(s: State, step: Step)
    requires Enabled(s, step) && !OnPermit(step) && !step.Issue?
    ensures Apply(s, step).table == s.table && |Apply(s, step).grants| == |s.grants|
  {
  }

  lemma KeepsTable(s: State, step: Step)
    requires TableOk(s) && Enabled(s, step)
    ensures TableOk(Apply(s, step))
  {
    if step.Issue? { IssueKeepsTable(s, step.request, step.draws); } else { OthersKeepTable(s, step); }
  }

  lemma PurgeShrinks(table: map<Key, nat>, grants: seq<Grant>, now: int)
    ensures |PurgedTable(table, grants, now)| <= |table|
  {
    SubsetCardinality(PurgedTable(table, grants, now).Keys, table.Keys);
  }

  lemma {:induction false} SubsetCardinality<T>(small: set<T>, large: set<T>)
    requires small <= large
    ensures |small| <= |large|
  {
    if small != {} {
      var x :| x in small;
      SubsetCardinality(small - {x}, large - {x});
    }
  }

  /** The facts about one permit and the call acting on it that its next state depends on. */
  predicate Local(s: State, step: Step, p: nat) {
    && p < |s.permits|
    && ThreadsOk(s.permits[p]) && HoldsOk(s, p)
    && (step.AttachStore? && step.call < |s.calls| ==> CallOk(s, step.call))
  }

  lemma InvIsLocal(s: State, step: Step, p: nat)
    requires Inv(s) && p < |s.permits|
    ensures Local(s, step, p)
  {
    assert ThreadsOk(s.permits[p]) && HoldsOk(s, p);
    if step.AttachStore? && step.call < |s.calls| { assert CallOk(s, step.call); }
  }

  /** A closing thread's step, looked at from the permit it closes. */
  lemma ClosingKeepsThreads(m: Permit, who: Thread)
    requires ThreadsOk(m) && (m.frontend.Some? <==> m.backend.Some?)
    ensures m.PcOf(who).Enter? ==> ThreadsOk(EnterClosingPermit(m, who))
    ensures m.PcOf(who).Owe? && m.PcOf(who).rest != [] ==> ThreadsOk(m.WithPc(who, Owe(m.PcOf(who).rest[1..])))
    ensures m.PcOf(who) == Owe([]) ==> ThreadsOk(m.WithPc(who, AfterClosing(who)))
  {
    if m.frontend.Some? {
      assert Captured(m) == [m.frontend.value, m.backend.value];
      assert [m.frontend.value, m.backend.value][1..] == [m.backend.value];
    }
  }

  lemma KeepsThreadsAt(s: State, step: Step, p: nat)
    requires Enabled(s, step) && Local(s, step, p)
    ensures ThreadsOk(Apply(s, step).permits[p])
  {
    if OnThread(step) {
      ThreadStepsKeepThreads(s, step, p);
    } else if OnAttach(step) {
      AttachKeepsThreads(s, step, p);
    }
  }

  lemma ThreadStepsKeepThreads(s: State, step: Step, p: nat)
    requires Enabled(s, step) && Local(s, step, p) && OnThread(step)
    ensures ThreadsOk(Apply(s, step).permits[p])
  {
    ClosingKeepsThreads(s.permits[p], step.who);
  }

  lemma AttachKeepsThreads(s: State, step: Step, p: nat)
    requires Enabled(s, step) && Local(s, step, p) && OnAttach(step)
    ensures ThreadsOk(Apply(s, step).permits[p])
  {
    var m := s.permits[p];
    if step.AttachStore? && s.calls[step.call].permit == p {
      assert m.lock == Some(step.call) && Before(m.watcher) && Before(m.closer);
    }
  }

  /** Which steps touch what a permit holds, and which calls they move. */
  predicate TouchesHolds(step: Step) {
    step.AttachCheck? || step.AttachStore? || step.EnterClosing?
  }

  /** Steps that move one permit's lock, transports or threads. */
  predicate OnPermit(step: Step) {
    step.AttachCheck? || step.AttachStore? || step.ContextDone? || step.WatcherWake? || step.CloseCall? ||
    step.EnterClosing? || step.ClosePhysically? || step.LeaveClosing? || step.UnlistPermit? || step.SignalDone?
  }

  /** Those among them that a closing thread takes inside closeTransports. */
  predicate OnThread(step: Step) { step.EnterClosing? || step.ClosePhysically? || step.LeaveClosing? }

  /** The others that an attach call takes. */
  predicate OnAttach(step: Step) { step.AttachCheck? || step.AttachStore? }

  predicate SamePermit(s: State, t: State, p: nat) {
    && p < |s.permits| && p < |t.permits| && |s.calls| <= |t.calls|
    && t.permits[p].gid == s.permits[p].gid && t.permits[p].key == s.permits[p].key
    && t.permits[p].binding == s.permits[p].binding && t.permits[p].startedAt == s.permits[p].startedAt
  }

  lemma PermitStepFrame(s: State, step: Step, p: nat)
    requires Enabled(s, step) && p < |s.permits| && OnPermit(step)
    ensures SamePermit(s, Apply(s, step), p) && |Apply(s, step).permits| == |s.permits|
  {
    if OnThread(step) { PermitStepFrameInThread(s, step, p); } else { PermitStepFrameOutside(s, step, p); }
  }

  lemma PermitStepFrameInThread(s: State, step: Step, p: nat)
    requires Enabled(s, step) && p < |s.permits| && OnThread(step)
    ensures SamePermit(s, Apply(s, step), p) && |Apply(s, step).permits| == |s.permits|
  {
  }

  lemma PermitStepFrameOutside(s: State, step: Step, p: nat)
    requires Enabled(s, step) && p < |s.permits| && OnPermit(step) && !OnThread(step)
    ensures SamePermit(s, Apply(s, step), p) && |Apply(s, step).permits| == |s.permits|
  {
  }

  lemma OtherStepFrame(s: State, step: Step, p: nat)
    requires Enabled(s, step) && p < |s.permits| && !OnPermit(step)
    ensures SamePermit(s, Apply(s, step), p) && (!step.Begin? ==> |Apply(s, step).permits| == |s.permits|)
  {
  }

  lemma StepFrame(s: State, step: Step, p: nat)
    requires Enabled(s, step) && p < |s.permits|
    ensures SamePermit(s, Apply(s, step), p)
    ensures !step.Begin? ==> |Apply(s, step).permits| == |s.permits|
  {
    if OnPermit(step) { PermitStepFrame(s, step, p); } else { OtherStepFrame(s, step, p); }
  }

  /** The same transports, mutex and flag. */
  predicate SameHolds(m: Permit, n: Permit) {
    n.frontend == m.frontend && n.backend == m.backend && n.lock == m.lock && n.transportsClosed == m.transportsClosed
  }

  lemma HoldsFrame(s: State, step: Step, p: nat)
    requires Enabled(s, step) && p < |s.permits| && !TouchesHolds(step)
    ensures p < |Apply(s, step).permits| && SameHolds(s.permits[p], Apply(s, step).permits[p])
  {
    if OnPermit(step) { HoldsFrameOnPermit(s, step, p); } else { HoldsFrameElsewhere(s, step, p); }
  }

  lemma HoldsFrameOnPermit(s: State, step: Step, p: nat)
    requires Enabled(s, step) && p < |s.permits| && !TouchesHolds(step) && OnPermit(step)
    ensures p < |Apply(s, step).permits| && SameHolds(s.permits[p], Apply(s, step).permits[p])
  {
    if OnThread(step) { HoldsFrameInThread(s, step, p); } else { HoldsFrameAlone(s, step, p); }
  }

  lemma HoldsFrameInThread(s: State, step: Step, p: nat)
    requires Enabled(s, step) && p < |s.permits| && !TouchesHolds(step) && OnThread(step)
    ensures p < |Apply(s, step).permits| && SameHolds(s.permits[p], Apply(s, step).permits[p])
  {
  }

  lemma HoldsFrameAlone(s: State, step: Step, p: nat)
    requires Enabled(s, step) && p < |s.permits| && !TouchesHolds(step) && OnPermit(step) && !OnThread(step)
    ensures p < |Apply(s, step).permits| && SameHolds(s.permits[p], Apply(s, step).permits[p])
  {
  }

  lemma HoldsFrameElsewhere(s: State, step: Step, p: nat)
    requires Enabled(s, step) && p < |s.permits| && !OnPermit(step)
    ensures p < |Apply(s, step).permits| && SameHolds(s.permits[p], Apply(s, step).permits[p])
  {
  }

  lemma CloserFrame(s: State, step: Step, p: nat)
    requires Enabled(s, step) && p < |s.permits| && !step.UnlistPermit? && !step.SignalDone?
    ensures p < |Apply(s, step).permits| && (Finished(Apply(s, step).permits[p]) <==> Finished(s.permits[p]))
  {
    if OnPermit(step) { CloserFrameOnPermit(s, step, p); } else { CloserFrameElsewhere(s, step, p); }
  }

  lemma CloserFrameOnPermit(s: State, step: Step, p: nat)
    requires Enabled(s, step) && p < |s.permits| && !step.UnlistPermit? && !step.SignalDone? && OnPermit(step)
    ensures p < |Apply(s, step).permits| && (Finished(Apply(s, step).permits[p]) <==> Finished(s.permits[p]))
  {
    if OnAttach(step) { CloserFrameOnPermitOnAttach(s, step, p); } else { CloserFrameOnPermitAlone(s, step, p); }
  }

  lemma CloserFrameOnPermitOnAttach(s: State, step: Step, p: nat)
    requires Enabled(s, step) && p < |s.permits| && !step.UnlistPermit? && !step.SignalDone? && OnPermit(step) && OnAttach(step)
    ensures p < |Apply(s, step).permits| && (Finished(Apply(s, step).permits[p]) <==> Finished(s.permits[p]))
  {
  }

  lemma CloserFrameOnPermitAlone(s: State, step: Step, p: nat)
    requires Enabled(s, step) && p < |s.permits| && !step.UnlistPermit? && !step.SignalDone? && OnPermit(step) && !OnAttach(step)
    ensures p < |Apply(s, step).permits| && (Finished(Apply(s, step).permits[p]) <==> Finished(s.permits[p]))
  {
  }

  lemma CloserFrameElsewhere(s: State, step: Step, p: nat)
    requires Enabled(s, step) && p < |s.permits| && !OnPermit(step)
    ensures p < |Apply(s, step).permits| && (Finished(Apply(s, step).permits[p]) <==> Finished(s.permits[p]))
  {
  }

  lemma CallFrame(s: State, step: Step, a: nat)
    requires Enabled(s, step) && a < |s.calls|
    ensures var t := Apply(s, step);
      && a < |t.calls|
      && t.calls[a].permit == s.calls[a].permit
      && (!(step.AttachCheck? || step.AttachStore? || step.AttachReject?) ==> t.calls[a] == s.calls[a])
      && (step.AttachReject? ==> (t.calls[a] == s.calls[a] || s.calls[a].pc.Rejecting?))
  {
  }

  lemma KeepsHoldsAt(s: State, step: Step, p: nat)
    requires Enabled(s, step) && Local(s, step, p)
    ensures HoldsOk(Apply(s, step), p)
  {
    StepFrame(s, step, p);
    if !TouchesHolds(step) { HoldsFrame(s, step, p); }
    var m := s.permits[p];
    if m.frontend.Some? { CallFrame(s, step, m.frontend.value.call); }
    if m.lock.Some? { CallFrame(s, step, m.lock.value); }
    if TouchesHolds(step) {
      HoldsAfterTouch(s, step, p);
    }
  }

  lemma HoldsAfterTouch(s: State, step: Step, p: nat)
    requires TouchesHolds(step) && Enabled(s, step) && Local(s, step, p)
    ensures HoldsOk(Apply(s, step), p)
  {
    match step
    case AttachCheck(a) => HoldsAfterCheck(s, a, p);
    case AttachStore(a) => HoldsAfterStore(s, a, p);
    case EnterClosing(who, q) => HoldsAfterEnter(s, who, q, p);
  }

  lemma HoldsAfterCheck(s: State, a: nat, p: nat)
    requires Enabled(s, AttachCheck(a)) && p < |s.permits| && HoldsOk(s, p)
    ensures HoldsOk(Apply(s, AttachCheck(a)), p)
  {
  }

  lemma HoldsAfterStore(s: State, a: nat, p: nat)
    requires Enabled(s, AttachStore(a)) && p < |s.permits| && HoldsOk(s, p) && CallOk(s, a)
    ensures HoldsOk(Apply(s, AttachStore(a)), p)
  {
  }

  lemma HoldsAfterEnter(s: State, who: Thread, q: nat, p: nat)
    requires Enabled(s, EnterClosing(who, q)) && p < |s.permits| && HoldsOk(s, p)
    ensures HoldsOk(Apply(s, EnterClosing(who, q)), p)
  {
  }

  lemma KeepsThreadsAndHolds(s: State, step: Step)
    requires Inv(s) && Enabled(s, step)
    ensures var t := Apply(s, step);
      forall p :: 0 <= p < |t.permits| ==> ThreadsOk(t.permits[p]) && HoldsOk(t, p)
  {
    var t := Apply(s, step);
    forall p | 0 <= p < |t.permits| ensures ThreadsOk(t.permits[p]) && HoldsOk(t, p) {
      if p < |s.permits| {
        InvIsLocal(s, step, p);
        KeepsThreadsAt(s, step, p);
        KeepsHoldsAt(s, step, p);
      }
    }
  }

  /** A grant's mark and list change only as the steps that own them say. */
  lemma GrantFrame(s: State, step: Step, g: nat)
    requires Enabled(s, step) && g < |s.grants|
    ensures var t := Apply(s, step);
      && g < |t.grants|
      && t.grants[g].binding == s.grants[g].binding
      && t.grants[g].issuedAt == s.grants[g].issuedAt
      && (s.grants[g].used ==> t.grants[g].used)
      && (s.grants[g].revoked ==> t.grants[g].revoked)
      && (!step.Begin? && !step.UnlistPermit? ==> t.grants[g].permits == s.grants[g].permits)
      && (step.UnlistPermit? ==> t.grants[g].permits <= s.grants[g].permits)
      && (step.Begin? ==> t.grants[g].permits == s.grants[g].permits ||
                          t.grants[g].permits == s.grants[g].permits + {|s.permits|})
  {
  }

  lemma KeepsGrantAt(s: State, step: Step, g: nat)
    requires Enabled(s, step) && g < |s.grants| && GrantOk(s, g) && !step.Begin?
    ensures g < |Apply(s, step).grants| && GrantOk(Apply(s, step), g)
  {
    var t := Apply(s, step);
    GrantFrame(s, step, g);
    forall p | p in t.grants[g].permits ensures p < |t.permits| && t.permits[p].gid == g {
      StepFrame(s, step, p);
    }
  }

  lemma BeginKeepsGrantAt(s: State, step: Step, g: nat)
    requires step.Begin? && g < |s.grants| && GrantOk(s, g)
    ensures g < |Apply(s, step).grants| && GrantOk(Apply(s, step), g)
  {
  }

  lemma NewGrantOk(s: State, step: Step)
    requires Enabled(s, step)
    ensures |Apply(s, step).grants| <= |s.grants| + 1
    ensures |Apply(s, step).grants| == |s.grants| + 1 ==> GrantOk(Apply(s, step), |s.grants|)
  {
  }

  lemma KeepsGrants(s: State, step: Step)
    requires Inv(s) && Enabled(s, step)
    ensures var t := Apply(s, step); forall g :: 0 <= g < |t.grants| ==> GrantOk(t, g)
  {
    var t := Apply(s, step);
    NewGrantOk(s, step);
    forall g | 0 <= g < |t.grants| ensures GrantOk(t, g) {
      if g < |s.grants| {
        assert GrantOk(s, g);
        if step.Begin? { BeginKeepsGrantAt(s, step, g); } else { KeepsGrantAt(s, step, g); }
      }
    }
  }

  lemma TableFrame(s: State, step: Step, k: Key)
    requires Enabled(s, step) && k in s.table && s.table[k] < |s.grants| && s.grants[s.table[k]].permits != {}
    ensures k in Apply(s, step).table && Apply(s, step).table[k] == s.table[k]
  {
    if step.Issue? {
      var table := PurgedTable(s.table, s.grants, s.clock);
      assert k in table;
    }
  }

  lemma KeepsListedAt(s: State, step: Step, p: nat)
    requires Enabled(s, step)
    requires p < |s.permits| && ListedOk(s, p) && ThreadsOk(s.permits[p])
    requires step.UnlistPermit? ==> ListedOk(s, step.permit)
    ensures ListedOk(Apply(s, step), p)
  {
    var m := s.permits[p];
    StepFrame(s, step, p);
    GrantFrame(s, step, m.gid);
    if p in s.grants[m.gid].permits { TableFrame(s, step, m.key); }
    if step.UnlistPermit? || step.SignalDone? {
      ListedAfterClose(s, step, p);
    } else {
      CloserFrame(s, step, p);
    }
  }

  lemma ListedAfterClose(s: State, step: Step, p: nat)
    requires (step.UnlistPermit? || step.SignalDone?) && Enabled(s, step)
    requires p < |s.permits| && ListedOk(s, p) && ThreadsOk(s.permits[p])
    requires step.UnlistPermit? ==> ListedOk(s, step.permit)
    ensures ListedOk(Apply(s, step), p)
  {
  }

  lemma KeepsListed(s: State, step: Step)
    requires Inv(s) && Enabled(s, step)
    ensures var t := Apply(s, step); forall p :: 0 <= p < |t.permits| ==> ListedOk(t, p)
  {
    var t := Apply(s, step);
    forall p | 0 <= p < |t.permits| ensures ListedOk(t, p) {
      if p < |s.permits| {
        assert ListedOk(s, p) && ThreadsOk(s.permits[p]);
        if step.UnlistPermit? { assert ListedOk(s, step.permit); }
        KeepsListedAt(s, step, p);
      } else {
        assert step.Begin?;
      }
    }
  }

  lemma BeginKeepsOnePermit(s: State, step: Step)
    requires step.Begin? && OnePermitPerGrant(s)
    requires forall p :: 0 <= p < |s.permits| ==> s.permits[p].gid < |s.grants| && s.grants[s.permits[p].gid].used
    ensures OnePermitPerGrant(Apply(s, step))
  {
  }

  lemma KeepsOnePermit(s: State, step: Step)
    requires Inv(s) && Enabled(s, step)
    ensures OnePermitPerGrant(Apply(s, step))
  {
    var t := Apply(s, step);
    if step.Begin? {
      forall p | 0 <= p < |s.permits| ensures s.permits[p].gid < |s.grants| && s.grants[s.permits[p].gid].used {
        assert ListedOk(s, p);
      }
      BeginKeepsOnePermit(s, step);
    } else {
      forall p | 0 <= p < |t.permits| ensures p < |s.permits| && t.permits[p].gid == s.permits[p].gid {
        if s.permits != [] { StepFrame(s, step, if p < |s.permits| then p else 0); } else { NoNewPermits(s, step); }
      }
    }
  }

  lemma NoNewPermits(s: State, step: Step)
    requires Enabled(s, step) && !step.Begin?
    ensures |Apply(s, step).permits| == |s.permits|
  {
  }

  lemma RejectKeepsCall(s: State, b: nat, a: nat)
    requires Enabled(s, AttachReject(b)) && a < |s.calls| && CallOk(s, a)
    ensures CallOk(Apply(s, AttachReject(b)), a)
  {
    assert [Front(a), Back(a)][1..] == [Back(a)];
    assert [Back(a)][1..] == [];
  }

  lemma CheckKeepsCall(s: State, b: nat, a: nat)
    requires Enabled(s, AttachCheck(b)) && a < |s.calls| && CallOk(s, a)
    ensures CallOk(Apply(s, AttachCheck(b)), a)
  {
  }

  lemma StoreKeepsCall(s: State, b: nat, a: nat)
    requires Enabled(s, AttachStore(b)) && a < |s.calls| && CallOk(s, a) && Local(s, AttachStore(b), s.calls[a].permit)
    ensures CallOk(Apply(s, AttachStore(b)), a)
  {
  }

  lemma EnterKeepsCall(s: State, who: Thread, p: nat, a: nat)
    requires Enabled(s, EnterClosing(who, p)) && a < |s.calls| && CallOk(s, a)
    ensures CallOk(Apply(s, EnterClosing(who, p)), a)
  {
  }

  lemma TouchKeepsCall(s: State, step: Step, a: nat)
    requires TouchesHolds(step) && Enabled(s, step) && a < |s.calls| && CallOk(s, a)
    requires Local(s, step, s.calls[a].permit)
    ensures CallOk(Apply(s, step), a)
  {
    match step
    case AttachCheck(b) => CheckKeepsCall(s, b, a);
    case AttachStore(b) => StoreKeepsCall(s, b, a);
    case EnterClosing(who, p) => EnterKeepsCall(s, who, p, a);
  }

  lemma KeepsCallAt(s: State, step: Step, a: nat)
    requires Enabled(s, step) && a < |s.calls| && CallOk(s, a)
    requires Local(s, step, s.calls[a].permit)
    ensures CallOk(Apply(s, step), a)
  {
    if step.AttachReject? {
      RejectKeepsCall(s, step.call, a);
    } else if TouchesHolds(step) {
      TouchKeepsCall(s, step, a);
    } else {
      CallFrame(s, step, a);
      HoldsFrame(s, step, s.calls[a].permit);
    }
  }

  lemma KeepsCalls(s: State, step: Step)
    requires Inv(s) && Enabled(s, step)
    ensures var t := Apply(s, step); forall a :: 0 <= a < |t.calls| ==> CallOk(t, a)
  {
    var t := Apply(s, step);
    forall a | 0 <= a < |t.calls| ensures CallOk(t, a) {
      if a < |s.calls| {
        assert CallOk(s, a);
        InvIsLocal(s, step, s.calls[a].permit);
        KeepsCallAt(s, step, a);
      }
    }
  }

  // ----- revocation -----

  /** A cancelled context stays cancelled and a closed permit stays closed. */
  lemma ClosingIsForever(s: State, step: Step, p: nat)
    requires Enabled(s, step) && p < |s.permits|
    ensures p < |Apply(s, step).permits| && Onward(s.permits[p], Apply(s, step).permits[p])
  {
    if OnPermit(step) { PermitStepIsForever(s, step, p); } else { OtherStepIsForever(s, step, p); }
  }

  predicate Onward(m: Permit, n: Permit) {
    && (m.cancelled ==> n.cancelled)
    && (m.transportsClosed ==> n.transportsClosed)
    && (Finished(m) ==> Finished(n))
  }

  lemma PermitStepIsForever(s: State, step: Step, p: nat)
    requires Enabled(s, step) && p < |s.permits| && OnPermit(step)
    ensures p < |Apply(s, step).permits| && Onward(s.permits[p], Apply(s, step).permits[p])
  {
    if OnThread(step) { PermitStepIsForeverInThread(s, step, p); } else { PermitStepIsForeverOutside(s, step, p); }
  }

  lemma PermitStepIsForeverInThread(s: State, step: Step, p: nat)
    requires Enabled(s, step) && p < |s.permits| && OnThread(step)
    ensures p < |Apply(s, step).permits| && Onward(s.permits[p], Apply(s, step).permits[p])
  {
  }

  lemma PermitStepIsForeverOutside(s: State, step: Step, p: nat)
    requires Enabled(s, step) && p < |s.permits| && OnPermit(step) && !OnThread(step)
    ensures p < |Apply(s, step).permits| && Onward(s.permits[p], Apply(s, step).permits[p])
  {
    if OnAttach(step) { PermitStepIsForeverOutsideOnAttach(s, step, p); } else { PermitStepIsForeverOutsideAlone(s, step, p); }
  }

  lemma PermitStepIsForeverOutsideOnAttach(s: State, step: Step, p: nat)
    requires Enabled(s, step) && p < |s.permits| && OnPermit(step) && !OnThread(step) && OnAttach(step)
    ensures p < |Apply(s, step).permits| && Onward(s.permits[p], Apply(s, step).permits[p])
  {
  }

  lemma PermitStepIsForeverOutsideAlone(s: State, step: Step, p: nat)
    requires Enabled(s, step) && p < |s.permits| && OnPermit(step) && !OnThread(step) && !OnAttach(step)
    ensures p < |Apply(s, step).permits| && Onward(s.permits[p], Apply(s, step).permits[p])
  {
  }

  lemma OtherStepIsForever(s: State, step: Step, p: nat)
    requires Enabled(s, step) && p < |s.permits| && !OnPermit(step)
    ensures p < |Apply(s, step).permits| && Onward(s.permits[p], Apply(s, step).permits[p])
  {
  }

  /** A revoker keeps its grant, and stops waiting only for a permit that is done. */
  lemma RevokerFrame(s: State, step: Step, r: nat)
    requires Enabled(s, step) && r < |s.revokers|
    ensures var t := Apply(s, step);
      && r < |t.revokers| && t.revokers[r].gid == s.revokers[r].gid
      && (t.revokers[r].pc == Acknowledged ==> s.revokers[r].pc == Acknowledged || s.revokers[r].waiting == {})
      && (s.revokers[r].waiting == {} ==> t.revokers[r].waiting == {})
      && forall p :: p in s.revokers[r].waiting && p !in t.revokers[r].waiting ==> p < |s.permits| && s.permits[p].done
  {
  }

  lemma NewPermitElsewhere(s: State, step: Step, g: nat)
    requires Enabled(s, step) && g < |s.grants| && s.grants[g].revoked
    ensures var t := Apply(s, step);
      forall p :: |s.permits| <= p < |t.permits| ==> t.permits[p].gid != g
  {
    if !step.Begin? { NoNewPermits(s, step); }
  }

  lemma KeepsRevokerAt(s: State, step: Step, r: nat)
    requires Inv(s) && Enabled(s, step) && r < |s.revokers|
    ensures RevokerOk(Apply(s, step), r)
  {
    var t := Apply(s, step);
    var g := s.revokers[r].gid;
    assert RevokerOk(s, r);
    RevokerFrame(s, step, r);
    GrantFrame(s, step, g);
    NewPermitElsewhere(s, step, g);
    forall p | 0 <= p < |t.permits| && t.permits[p].gid == g
      ensures t.permits[p].cancelled && (p !in t.revokers[r].waiting ==> Finished(t.permits[p]))
    {
      StepFrame(s, step, p);
      ClosingIsForever(s, step, p);
      assert ThreadsOk(s.permits[p]);
    }
  }

  lemma NewRevokerOk(s: State, step: Step)
    requires Inv(s) && step.Revoke? && RevokeVerdict(s, step.presented, step.subject).Ok?
    ensures var t := Apply(s, step); |t.revokers| == |s.revokers| + 1 && RevokerOk(t, |s.revokers|)
  {
    var t := Apply(s, step);
    var gid := s.table[step.presented.value];
    forall p | 0 <= p < |s.permits| && s.permits[p].gid == gid
      ensures t.permits[p].cancelled && (p !in s.grants[gid].permits ==> Finished(t.permits[p]))
    {
      assert ListedOk(s, p) && ThreadsOk(s.permits[p]);
    }
  }

  lemma KeepsRevokers(s: State, step: Step)
    requires Inv(s) && Enabled(s, step)
    ensures var t := Apply(s, step); forall r :: 0 <= r < |t.revokers| ==> RevokerOk(t, r)
  {
    var t := Apply(s, step);
    forall r | 0 <= r < |t.revokers| ensures RevokerOk(t, r) {
      if r < |s.revokers| { KeepsRevokerAt(s, step, r); } else { NewRevokerOk(s, step); }
    }
  }

  // ----- every transport is accounted for -----

  /** A step of another permit's threads owes nothing for the transports of this call. */
  predicate ClosesFor(s: State, step: Step, a: nat)
    requires a < |s.calls|
  {
    || (step.AttachReject? && step.call == a)
    || (step.ClosePhysically? && step.permit == s.calls[a].permit)
  }

  lemma ClosedElsewhere(s: State, step: Step, a: nat)
    requires Inv(s) && Enabled(s, step) && a < |s.calls| && !ClosesFor(s, step, a)
    ensures Apply(s, step).closed[Front(a)] == s.closed[Front(a)]
    ensures Apply(s, step).closed[Back(a)] == s.closed[Back(a)]
  {
    match step
    case AttachReject(b) => RejectElsewhere(s, b, a);
    case ClosePhysically(who, p) => CloseElsewhere(s, who, p, a);
    case _ => NoneClosed(s, step);
  }

  lemma RejectElsewhere(s: State, b: nat, a: nat)
    requires Inv(s) && Enabled(s, AttachReject(b)) && a != b
    ensures var t := Apply(s, AttachReject(b)); t.closed[Front(a)] == s.closed[Front(a)] && t.closed[Back(a)] == s.closed[Back(a)]
  {
    assert CallOk(s, b);
  }

  lemma CloseElsewhere(s: State, who: Thread, p: nat, a: nat)
    requires Inv(s) && Enabled(s, ClosePhysically(who, p)) && a < |s.calls| && s.calls[a].permit != p
    ensures var t := Apply(s, ClosePhysically(who, p));
      t.closed[Front(a)] == s.closed[Front(a)] && t.closed[Back(a)] == s.closed[Back(a)]
  {
    assert ThreadsOk(s.permits[p]) && HoldsOk(s, p);
  }

  lemma NoneClosed(s: State, step: Step)
    requires Enabled(s, step) && !step.AttachReject? && !step.ClosePhysically?
    ensures Apply(s, step).closed == s.closed
  {
  }

  /** The fields a call's account depends on: its own pc and its permit's flag and two threads. */
  lemma SameAccount(s: State, t: State, a: nat)
    requires a < |s.calls| && s.calls[a].permit < |s.permits| && Accounted(s, a)
    requires a < |t.calls| && t.calls[a] == s.calls[a] && s.calls[a].permit < |t.permits|
    requires SameRest(s.permits[s.calls[a].permit], t.permits[s.calls[a].permit])
    requires t.closed[Front(a)] == s.closed[Front(a)] && t.closed[Back(a)] == s.closed[Back(a)]
    ensures Accounted(t, a)
  {
  }

  predicate MovesCall(step: Step) {
    step.AttachCheck? || step.AttachStore? || step.AttachReject?
  }

  predicate MovesThread(step: Step) {
    step.EnterClosing? || step.ClosePhysically?
  }

  /** Two permits owe the same. */
  predicate SameRest(m: Permit, n: Permit) {
    n.transportsClosed == m.transportsClosed && Rest(n.watcher) == Rest(m.watcher) && Rest(n.closer) == Rest(m.closer)
  }

  lemma RestFrame(s: State, step: Step, p: nat)
    requires Enabled(s, step) && p < |s.permits| && !(MovesThread(step) && step.permit == p)
    ensures p < |Apply(s, step).permits| && SameRest(s.permits[p], Apply(s, step).permits[p])
  {
    if OnThread(step) {
      RestFrameInThread(s, step, p);
    } else if OnPermit(step) {
      RestFrameOutside(s, step, p);
    } else {
      RestFrameElsewhere(s, step, p);
    }
  }

  lemma RestFrameInThread(s: State, step: Step, p: nat)
    requires Enabled(s, step) && p < |s.permits| && !(MovesThread(step) && step.permit == p) && OnThread(step)
    ensures p < |Apply(s, step).permits| && SameRest(s.permits[p], Apply(s, step).permits[p])
  {
  }

  lemma RestFrameOutside(s: State, step: Step, p: nat)
    requires Enabled(s, step) && p < |s.permits| && OnPermit(step) && !OnThread(step)
    ensures p < |Apply(s, step).permits| && SameRest(s.permits[p], Apply(s, step).permits[p])
  {
    if OnAttach(step) { RestFrameOutsideOnAttach(s, step, p); } else { RestFrameOutsideAlone(s, step, p); }
  }

  lemma RestFrameOutsideOnAttach(s: State, step: Step, p: nat)
    requires Enabled(s, step) && p < |s.permits| && OnPermit(step) && !OnThread(step) && OnAttach(step)
    ensures p < |Apply(s, step).permits| && SameRest(s.permits[p], Apply(s, step).permits[p])
  {
  }

  lemma RestFrameOutsideAlone(s: State, step: Step, p: nat)
    requires Enabled(s, step) && p < |s.permits| && OnPermit(step) && !OnThread(step) && !OnAttach(step)
    ensures p < |Apply(s, step).permits| && SameRest(s.permits[p], Apply(s, step).permits[p])
  {
  }

  lemma RestFrameElsewhere(s: State, step: Step, p: nat)
    requires Enabled(s, step) && p < |s.permits| && !OnPermit(step)
    ensures p < |Apply(s, step).permits| && SameRest(s.permits[p], Apply(s, step).permits[p])
  {
  }

  /** The winner of closeTransports takes over exactly what the permit held. */
  lemma EnterTakesOver(s: State, t: State, who: Thread, p: nat, a: nat)
    requires p < |s.permits| && a < |s.calls| && s.calls[a].permit == p
    requires ThreadsOk(s.permits[p]) && HoldsOk(s, p) && CallOk(s, a) && Accounted(s, a)
    requires s.permits[p].PcOf(who) == Enter
    requires t == SetPermit(s, p, EnterClosingPermit(s.permits[p], who))
    ensures Accounted(t, a)
  {
    var m := s.permits[p];
    if s.calls[a].pc.Attached? && !m.transportsClosed {
      assert Captured(m) == [Front(a), Back(a)];
      CountPair(Front(a), Back(a), Front(a));
      CountPair(Front(a), Back(a), Back(a));
    }
  }

  lemma AccountedAfterEnter(s: State, step: Step, a: nat)
    requires Inv(s) && Enabled(s, step) && step.EnterClosing? && a < |s.calls| && step.permit == s.calls[a].permit
    ensures CallOk(s, a) && a < |Apply(s, step).calls| && s.calls[a].permit < |Apply(s, step).permits|
    ensures Accounted(Apply(s, step), a)
  {
    var p := step.permit;
    assert ThreadsOk(s.permits[p]) && HoldsOk(s, p) && CallOk(s, a) && Accounted(s, a);
    EnterTakesOver(s, Apply(s, step), step.who, p, a);
  }

  /** A physical close moves one unit from owed to done. */
  lemma AccountedAfterClose(s: State, step: Step, a: nat)
    requires Inv(s) && Enabled(s, step) && step.ClosePhysically? && a < |s.calls| && step.permit == s.calls[a].permit
    ensures CallOk(s, a) && a < |Apply(s, step).calls| && s.calls[a].permit < |Apply(s, step).permits|
    ensures Accounted(Apply(s, step), a)
  {
    var p := step.permit;
    var m := s.permits[p];
    assert ThreadsOk(m) && HoldsOk(s, p) && CallOk(s, a) && Accounted(s, a);
    var rest := m.PcOf(step.who).rest;
    var t := Apply(s, step);
    assert Rest(t.permits[p].PcOf(step.who)) == rest[1..];
    CountSplits(rest, Front(a));
    CountSplits(rest, Back(a));
  }

  lemma CountSplits(rest: seq<Transport>, t: Transport)
    requires rest != []
    ensures Count(rest, t) == multiset{rest[0]}[t] + Count(rest[1..], t)
  {
  }

  lemma CountPair(x: Transport, y: Transport, t: Transport)
    ensures Count([x, y], t) == (if x == t then 1 else 0) + (if y == t then 1 else 0)
  {
    assert [x, y][1..] == [y] && [y][1..] == [];
    assert Count([y], t) == (if y == t then 1 else 0) + Count([], t);
  }

  lemma AccountedAfterCallMove(s: State, step: Step, a: nat)
    requires Inv(s) && Enabled(s, step) && MovesCall(step) && step.call == a && a < |s.calls|
    ensures CallOk(s, a) && a < |Apply(s, step).calls| && Apply(s, step).calls[a].permit < |Apply(s, step).permits|
    ensures Accounted(Apply(s, step), a)
  {
    assert CallOk(s, a) && Accounted(s, a);
    var m := s.permits[s.calls[a].permit];
    assert HoldsOk(s, s.calls[a].permit) && ThreadsOk(m);
    CountPair(Front(a), Back(a), Front(a));
    CountPair(Front(a), Back(a), Back(a));
    if step.AttachReject? {
      CountSplits(s.calls[a].pc.rest, Front(a));
      CountSplits(s.calls[a].pc.rest, Back(a));
    }
  }

  lemma KeepsAccountAt(s: State, step: Step, a: nat)
    requires Inv(s) && Enabled(s, step) && a < |s.calls|
    ensures var t := Apply(s, step);
      a < |t.calls| && t.calls[a].permit < |t.permits| && Accounted(t, a)
  {
    assert CallOk(s, a);
    var p := s.calls[a].permit;
    CallFrame(s, step, a);
    StepFrame(s, step, p);
    if MovesCall(step) && step.call == a {
      AccountedAfterCallMove(s, step, a);
    } else if step.EnterClosing? && step.permit == p {
      AccountedAfterEnter(s, step, a);
    } else if step.ClosePhysically? && step.permit == p {
      AccountedAfterClose(s, step, a);
    } else {
      OtherCallsStay(s, step, a);
      RestFrame(s, step, p);
      ClosedElsewhere(s, step, a);
      SameAccount(s, Apply(s, step), a);
    }
  }

  lemma OtherCallsStay(s: State, step: Step, a: nat)
    requires Enabled(s, step) && a < |s.calls| && !(MovesCall(step) && step.call == a)
    ensures a < |Apply(s, step).calls| && Apply(s, step).calls[a] == s.calls[a]
  {
  }

  lemma KeepsAccounts(s: State, step: Step)
    requires Inv(s) && Enabled(s, step)
    ensures var t := Apply(s, step);
      forall a :: 0 <= a < |t.calls| ==> t.calls[a].permit < |t.permits| && Accounted(t, a)
  {
    var t := Apply(s, step);
    forall a | 0 <= a < |t.calls| ensures t.calls[a].permit < |t.permits| && Accounted(t, a) {
      if a < |s.calls| {
        KeepsAccountAt(s, step, a);
      } else {
        assert step.AttachCall?;
        assert Front(a) !in s.closed && Back(a) !in s.closed;
      }
    }
  }

  lemma CloseAddsOwed(s: State, who: Thread, p: nat)
    requires Enabled(s, ClosePhysically(who, p)) && NothingElseClosed(s) && ThreadsOk(s.permits[p]) && HoldsOk(s, p)
    ensures NothingElseClosed(Apply(s, ClosePhysically(who, p)))
  {
  }

  lemma RejectAddsOwn(s: State, b: nat)
    requires Enabled(s, AttachReject(b)) && NothingElseClosed(s) && CallOk(s, b)
    ensures NothingElseClosed(Apply(s, AttachReject(b)))
  {
  }

  lemma NothingClosed(s: State, step: Step)
    requires Enabled(s, step) && NothingElseClosed(s) && !step.AttachReject? && !step.ClosePhysically?
    ensures NothingElseClosed(Apply(s, step))
  {
    NoneClosed(s, step);
  }

  lemma KeepsNothingElse(s: State, step: Step)
    requires Inv(s) && Enabled(s, step)
    ensures NothingElseClosed(Apply(s, step))
  {
    match step
    case AttachReject(b) =>
      assert CallOk(s, b);
      RejectAddsOwn(s, b);
    case ClosePhysically(who, p) =>
      assert ThreadsOk(s.permits[p]) && HoldsOk(s, p);
      CloseAddsOwed(s, who, p);
    case _ => NothingClosed(s, step);
  }

  lemma InitIsInv(policy: map<string, string>, clock: int)
    ensures Inv(Init(policy, clock))
  {
  }

  lemma StepKeepsInv(s: State, step: Step)
    requires Inv(s) && Enabled(s, step)
    ensures Inv(Apply(s, step))
  {
    KeepsTable(s, step);
    KeepsGrants(s, step);
    KeepsThreadsAndHolds(s, step);
    KeepsListed(s, step);
    KeepsOnePermit(s, step);
    KeepsCalls(s, step);
    KeepsRevokers(s, step);
    KeepsNothingElse(s, step);
    KeepsAccounts(s, step);
  }
}
