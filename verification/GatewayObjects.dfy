/**
 The Gateway object and, named by their index in it, its permits, with the loops and early
 returns of the source.  Each method leaves the object in the state that GatewayState, by one
 step or by the row of steps named in GatewayCalls, leads to when no other thread comes between.
 */
module GatewayObjects {
  import opened Prelude
  import opened GatewayCalls
  import opened GatewayState

  predicate Usable(grant: Grant, now: int) {
    !grant.revoked && now < grant.binding.expiresAt && !grant.used
  }

  class Gateway {
    const policy: map<string, string>
    var table: map<Key, nat>
    var grants: seq<Grant>
    var permits: seq<Permit>
    var calls: seq<Call>
    var closed: multiset<Transport>

    constructor (identityPolicy: map<string, string>)
      ensures policy == identityPolicy && table == map[] && grants == [] && permits == [] && calls == [] && closed == multiset{}
    {
      policy, table, grants, permits, calls, closed := identityPolicy, map[], [], [], [], multiset{};
    }

    /** The object's fields are the shared part of s, read at the time now. */
    ghost predicate Represents(s: State, now: int)
      reads this
    {
      && policy == s.policy && table == s.table && grants == s.grants && permits == s.permits
      && calls == s.calls && closed == s.closed && now == s.clock
    }

    /** The presented key is in the table, and of these grants its own has this subject. */
    predicate Finds(presented: Option<Key>, subject: string, among: seq<Grant>)
      reads this
    {
      && presented.Some? && presented.value in table && table[presented.value] < |among|
      && among[table[presented.value]].binding.subject == subject
    }

    /** Deletes while it ranges over the keys, as the source does. */
    method Purge(now: int)
      modifies this`table
      ensures table == PurgedTable(old(table), grants, now)
    {
      var todo := table.Keys;
      while todo != {}
        invariant todo <= old(table).Keys
        invariant forall k :: k in table <==> k in old(table) && (k in todo || k in PurgedTable(old(table), grants, now))
        invariant forall k :: k in table ==> table[k] == old(table)[k]
        decreases todo
      {
        var key :| key in todo;
        todo := todo - {key};
        if table[key] < |grants| && Purgeable(grants[table[key]], now) {
          table := table - {key};
        }
      }
    }

    method DrawKey(draws: seq<Key>) returns (r: Result<Key, Rejection>)
      ensures r == PickKey(draws, table, DRAWS)
    {
      var attempt := 0;
      while attempt < DRAWS
        invariant attempt <= DRAWS && attempt <= |draws|
        invariant PickKey(draws, table, DRAWS) == PickKey(draws[attempt..], table, DRAWS - attempt)
      {
        if attempt == |draws| { return Err(GrantRequestRejected); }
        if draws[attempt] !in table { return Ok(draws[attempt]); }
        attempt := attempt + 1;
      }
      return Err(GrantCapacity);
    }

    method IssueGrant(request: GrantRequest, draws: seq<Key>, now: int, ghost s: State)
      returns (r: Result<Key, Rejection>)
      requires Represents(s, now)
      modifies this`table, this`grants
      ensures r == IssueVerdict(s, request, draws)
      ensures Represents(Apply(s, Issue(request, draws)), now)
    {
      var b := request.binding;
      if !request.wellFormed { return Err(GrantRequestRejected); }
      if b.subject !in policy || policy[b.subject] != b.tenant || b.expiresAt <= now || b.expiresAt - now > MAX_GRANT_TTL {
        return Err(GrantRequestRejected);
      }
      Purge(now);
      if |table| >= MAX_GRANTS { return Err(GrantCapacity); }
      r := DrawKey(draws);
      if r.Ok? {
        table := table[r.value := |grants|];
        grants := grants + [Grant(b, false, false, {}, now)];
      }
    }

    method BeginConnect(presented: Option<Key>, subject: string, now: int, ghost s: State)
      returns (r: Result<nat, Rejection>)
      requires Represents(s, now) && forall k :: k in table ==> table[k] < |grants|
      modifies this`grants, this`permits
      ensures Represents(Apply(s, Begin(presented, subject)), now)
      ensures r.Ok? <==> Finds(presented, subject, old(grants)) && Usable(old(grants)[table[presented.value]], now)
      ensures r.Err? ==> BeginVerdict(s.table, s.grants, now, presented, subject) == Err(r.error)
      ensures r.Ok? ==> r.value == |old(permits)| && |permits| == r.value + 1 && permits[..r.value] == old(permits)
      ensures r.Ok? ==> permits[r.value].binding == old(grants)[table[presented.value]].binding && grants[table[presented.value]].used
    {
      if presented.None? || presented.value !in table { return Err(Unauthorized); }
      var key := presented.value;
      var grant := grants[table[key]];
      if grant.binding.subject != subject { return Err(Unauthorized); }
      if grant.revoked { return Err(GrantRevoked); }
      if now >= grant.binding.expiresAt { return Err(GrantExpired); }
      if grant.used { return Err(GrantAlreadyUsed); }
      var connection := |permits|;
      grants := grants[table[key] := grant.(used := true, permits := grant.permits + {connection})];
      permits := permits + [NewPermit(table[key], key, grant.binding, now)];
      r := Ok(connection);
    }

    method CancelListed(listed: set<nat>)
      requires forall p :: p in listed ==> p < |permits|
      modifies this`permits
      ensures permits == CancelAll(old(permits), listed)
    {
      var todo := listed;
      while todo != {}
        invariant todo <= listed && |permits| == |old(permits)|
        invariant forall i :: 0 <= i < |permits| ==>
          permits[i] == if i in listed && i !in todo then old(permits)[i].(cancelled := true) else old(permits)[i]
        decreases todo
      {
        var p :| p in todo;
        todo := todo - {p};
        permits := permits[p := permits[p].(cancelled := true)];
      }
    }

    /** The locked half of Revoke: marks the grant, cancels its permits, returns what to wait for. */
    method MarkRevoked(presented: Option<Key>, subject: string, now: int, ghost s: State)
      returns (r: Result<set<nat>, Rejection>)
      requires Represents(s, now) && (forall k :: k in table ==> table[k] < |grants|)
      requires forall g, p :: 0 <= g < |grants| && p in grants[g].permits ==> p < |permits|
      modifies this`grants, this`permits
      ensures Represents(Apply(s, Revoke(presented, subject)), now)
      ensures r.Ok? <==> Finds(presented, subject, old(grants))
      ensures r.Err? ==> r.error == Unauthorized && grants == old(grants) && permits == old(permits)
      ensures r.Ok? ==>
        && r.value == old(grants)[table[presented.value]].permits
        && grants == old(grants)[table[presented.value] := old(grants)[table[presented.value]].(revoked := true)]
        && permits == CancelAll(old(permits), r.value)
    {
      if presented.None? || presented.value !in table { return Err(Unauthorized); }
      var gid := table[presented.value];
      var grant := grants[gid];
      if grant.binding.subject != subject { return Err(Unauthorized); }
      grants := grants[gid := grant.(revoked := true)];
      CancelListed(grant.permits);
      r := Ok(grant.permits);
    }

    /** The locked part of Close. */
    method Unlist(permit: nat, now: int, ghost s: State)
      requires Represents(s, now) && permit < |permits| && permits[permit].closer == GatewayState.Unlist
      requires forall k :: k in table ==> table[k] < |grants|
      modifies this`grants, this`permits
      ensures Represents(Apply(s, UnlistPermit(permit)), now)
    {
      var key := permits[permit].key;
      if key in table {
        var grant := grants[table[key]];
        grants := grants[table[key] := grant.(permits := grant.permits - {permit})];
      }
      permits := permits[permit := permits[permit].(closer := Signal)];
    }

    // ----- permits -----

    /** closeTransports: the first thread to set the flag closes what is held. */
    method CloseTransports(who: Thread, p: nat, now: int, ghost s: State)
      requires Represents(s, now) && p < |permits| && permits[p].lock == None && permits[p].PcOf(who) == Enter
      modifies this`permits, this`closed
      ensures Represents(ClosedState(s, who, p), now) && Leads(s, ClosingSteps(s.permits[p], who, p), ClosedState(s, who, p))
    {
      var m := permits[p];
      ClosingLeads(s, who, p);
      if m.transportsClosed {
        permits := permits[p := m.WithPc(who, AfterClosing(who))];
        return;
      }
      permits := permits[p := m.(transportsClosed := true, winner := Some(who)).WithPc(who, AfterClosing(who))];
      if m.frontend.Some? { closed := closed + multiset{m.frontend.value}; }
      if m.backend.Some? { closed := closed + multiset{m.backend.value}; }
      HeldIsCaptured(s.closed, m);
    }

    /** Attach of two transports, or of a missing one; transports of call a are Front(a) and Back(a). */
    method Attach(p: nat, present: bool, now: int, ghost s: State) returns (ok: bool)
      requires Represents(s, now) && p < |permits| && permits[p].lock == None
      modifies this`permits, this`calls, this`closed
      ensures ok <==> present && old(!permits[p].transportsClosed && !permits[p].cancelled
                                     && permits[p].frontend.None? && permits[p].backend.None?)
      ensures |permits| == |old(permits)|
      ensures ok ==> permits[p].frontend == Some(Front(|old(calls)|)) && permits[p].backend == Some(Back(|old(calls)|))
      ensures present && !ok ==> permits == old(permits) && closed == old(closed) + multiset{Front(|old(calls)|), Back(|old(calls)|)}
      ensures present ==> Represents(AttachedState(s, p), now) && Leads(s, AttachSteps(s, p), AttachedState(s, p))
      ensures !present ==> Represents(s, now)
    {
      if !present { return false; }
      AttachLeads(s, p);
      var a := |calls|;
      if AttachRefused(permits[p]) {
        calls := calls + [Call(p, Rejecting([]))];
        closed := closed + multiset{Front(a)};
        closed := closed + multiset{Back(a)};
        return false;
      }
      permits := permits[p := permits[p].(frontend := Some(Front(a)), backend := Some(Back(a)))];
      calls := calls + [Call(p, Attached)];
      return true;
    }

    /** Close: nothing at all the second time; else cancel, close, drop from the grant, signal. */
    method ClosePermit(p: nat, now: int, ghost s: State)
      requires Represents(s, now) && p < |permits| && permits[p].lock == None
      requires permits[p].closer.Idle? || permits[p].closer.Over?
      requires forall k :: k in table ==> table[k] < |grants|
      modifies this`permits, this`closed, this`grants
      ensures s.permits[p].closer.Over? ==> Represents(s, now)
      ensures s.permits[p].closer.Idle? ==>
        Represents(FinishedState(s, p), now) && Leads(s, FinishSteps(s.permits[p], p), FinishedState(s, p))
    {
      if permits[p].closer.Over? { return; }
      FinishLeads(s, p);
      CancelAndClose(p, now, s);
      ghost var s2 := ClosingState(s, p);
      Unlist(p, now, s2);
      ghost var s3 := Apply(s2, UnlistPermit(p));
      FinishEnds(s, p, s3);
      SignalFinished(p, now, s3);
    }

    /** What Close does before it takes the Gateway's mutex. */
    method CancelAndClose(p: nat, now: int, ghost s: State)
      requires Represents(s, now) && p < |permits| && permits[p].lock == None && permits[p].closer.Idle?
      modifies this`permits, this`closed
      ensures Represents(ClosingState(s, p), now)
    {
      permits := permits[p := permits[p].(cancelled := true, closer := Enter)];
      ghost var s1 := Apply(s, CloseCall(p));
      CloseTransports(Closer, p, now, s1);
      ClosingIs(s, p, s1);
    }

    /** Closes the channel that Revoke waits on. */
    method SignalFinished(p: nat, now: int, ghost s: State)
      requires Represents(s, now) && Enabled(s, SignalDone(p))
      modifies this`permits
      ensures Represents(Apply(s, SignalDone(p)), now)
    {
      permits := permits[p := permits[p].(closer := Over, done := true)];
    }

    /** closeOnCancellation once its context has ended. */
    method WatcherRuns(p: nat, now: int, ghost s: State)
      requires Represents(s, now) && p < |permits| && permits[p].lock == None && permits[p].cancelled && permits[p].watcher.Idle?
      modifies this`permits, this`closed
      ensures Represents(WatchedState(s, p), now)
      ensures Leads(s, [WatcherWake(p)] + ClosingSteps(s.permits[p], Watcher, p), WatchedState(s, p))
    {
      WatcherLeads(s, p);
      permits := permits[p := permits[p].(watcher := Enter)];
      ghost var s1 := Apply(s, WatcherWake(p));
      CloseTransports(Watcher, p, now, s1);
      WakesOnly(s, p, s1);
    }
  }

  lemma HeldIsCaptured(closed: multiset<Transport>, m: Permit)
    ensures closed + multiset(Captured(m)) ==
      closed + (if m.frontend.Some? then multiset{m.frontend.value} else multiset{})
      + (if m.backend.Some? then multiset{m.backend.value} else multiset{})
  {
    if m.frontend.Some? && m.backend.Some? {
      assert Captured(m) == [m.frontend.value, m.backend.value];
    }
  }

  // ----- the identity policy -----

  predicate NamesOk(policy: map<string, string>, subjectOk: string -> bool, tenantOk: string -> bool) {
    forall x :: x in policy ==> subjectOk(x) && tenantOk(policy[x])
  }

  /** No two subjects of those read so far have one tenant, and seen holds their tenants. */
  predicate Distinct(policy: map<string, string>, seen: set<string>) {
    && (forall x, y :: x in policy && y in policy && policy[x] == policy[y] ==> x == y)
    && (forall x :: x in policy ==> policy[x] in seen)
    && (forall tenant :: tenant in seen ==> tenant in policy.Values)
  }

  /** The part of a policy read so far, all of it good. */
  predicate ReadSoFar(policy: map<string, string>, todo: set<string>, part: map<string, string>, seen: set<string>,
                      subjectOk: string -> bool, tenantOk: string -> bool)
  {
    && part.Keys == policy.Keys - todo && (forall x :: x in part ==> x in policy && policy[x] == part[x])
    && NamesOk(part, subjectOk, tenantOk) && Distinct(part, seen)
  }

  lemma ReadsOneMore(policy: map<string, string>, todo: set<string>, part: map<string, string>, seen: set<string>,
                     subjectOk: string -> bool, tenantOk: string -> bool, subject: string)
    requires ReadSoFar(policy, todo, part, seen, subjectOk, tenantOk) && subject in policy && subject in todo
    requires subjectOk(subject) && tenantOk(policy[subject]) && policy[subject] !in seen
    ensures ReadSoFar(policy, todo - {subject}, part[subject := policy[subject]], seen + {policy[subject]}, subjectOk, tenantOk)
  {
    DistinctGrows(part, seen, subject, policy[subject]);
  }

  lemma DistinctGrows(policy: map<string, string>, seen: set<string>, subject: string, tenant: string)
    requires Distinct(policy, seen) && subject !in policy && tenant !in seen
    ensures Distinct(policy[subject := tenant], seen + {tenant})
  {
    var more := policy[subject := tenant];
    assert more[subject] == tenant;
    forall t | t in seen
      ensures t in more.Values
    {
      var x :| x in policy && policy[x] == t;
      assert more[x] == t;
    }
  }

  /** A tenant seen before belongs to another subject. */
  lemma RepeatedTenant(policy: map<string, string>, part: map<string, string>, seen: set<string>, subject: string)
    requires Distinct(part, seen) && subject in policy && subject !in part && policy[subject] in seen
    requires forall x :: x in part ==> x in policy && policy[x] == part[x]
    ensures !OneTenantEach(policy)
  {
    var x :| x in part && part[x] == policy[subject];
    assert policy[x] == policy[subject] && x != subject;
  }

  /** New: two subjects with valid names and a tenant each, no tenant twice; subjectOk and tenantOk are the shape checks. */
  method New(identityPolicy: map<string, string>, subjectOk: string -> bool, tenantOk: string -> bool) returns (gateway: Gateway?)
    ensures gateway != null <==>
      && |identityPolicy| == 2
      && (forall x, y :: x in identityPolicy && y in identityPolicy && identityPolicy[x] == identityPolicy[y] ==> x == y)
      && (forall x :: x in identityPolicy ==> subjectOk(x) && tenantOk(identityPolicy[x]))
    ensures gateway != null ==> OneTenantEach(identityPolicy)
    ensures gateway != null ==> fresh(gateway) && forall now :: gateway.Represents(Init(identityPolicy, now), now)
  {
    if |identityPolicy| != 2 { return null; }
    var policy: map<string, string> := map[];
    var seenTenants: set<string> := {};
    var todo := identityPolicy.Keys;
    while todo != {}
      invariant todo <= identityPolicy.Keys
      invariant ReadSoFar(identityPolicy, todo, policy, seenTenants, subjectOk, tenantOk)
      decreases todo
    {
      var subject :| subject in todo;
      var tenant := identityPolicy[subject];
      if !subjectOk(subject) || !tenantOk(tenant) { return null; }
      if tenant in seenTenants {
        RepeatedTenant(identityPolicy, policy, seenTenants, subject);
        return null;
      }
      ReadsOneMore(identityPolicy, todo, policy, seenTenants, subjectOk, tenantOk, subject);
      todo := todo - {subject};
      seenTenants := seenTenants + {tenant};
      policy := policy[subject := tenant];
    }
    assert policy == identityPolicy;
    gateway := new Gateway(policy);
  }
}
