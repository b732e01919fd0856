/** A request that nothing is against gets its tunnel. */
module GatewayTunnel {
  import opened Prelude
  import opened GatewayState
  import opened GatewayHistory
  import opened GatewayServe

  /** The steps, taken in a row, lead from s to t. */
  predicate Leads(s: Service, steps: seq<ServeStep>, t: Service)
    decreases |steps|
  {
    if steps == [] then s == t else CanServe(s, steps[0]) && Leads(Serve(s, steps[0]), steps[1..], t)
  }

  lemma LeadsCons(s: Service, step: ServeStep, n: Service, steps: seq<ServeStep>, t: Service)
    requires CanServe(s, step) && n == Serve(s, step) && Leads(n, steps, t)
    ensures Leads(s, [step] + steps, t)
  {
    assert ([step] + steps)[1..] == steps;
  }

  /** Past the gate: no stop is being served. */
  function Admitted(s: Service, h: nat): Service
    requires h < |s.handlers|
  {
    s.(handlers := s.handlers[h := s.handlers[h].(pc := Gated(true))], requests := s.requests + 1)
  }

  lemma GateOpens(s: Service, h: nat, steps: seq<ServeStep>, t: Service)
    requires h < |s.handlers| && s.handlers[h].pc.Arrived? && !s.closing && s.installed && Leads(Admitted(s, h), steps, t)
    ensures Leads(s, [Gate(h)] + steps, t)
  {
    LeadsCons(s, Gate(h), Admitted(s, h), steps, t);
  }

  /** The Gateway with the grant used up and a permit more. */
  function Used(g: State, key: Key): State
    requires key in g.table && g.table[key] < |g.grants|
  {
    var (gid, p) := (g.table[key], |g.permits|);
    var grant := g.grants[gid];
    g.(grants := g.grants[gid := grant.(used := true, permits := grant.permits + {p})],
       permits := g.permits + [NewPermit(gid, key, grant.binding, g.clock)])
  }

  function Connected(s: Service, h: nat, key: Key): Service
    requires h < |s.handlers| && key in s.gateway.table && s.gateway.table[key] < |s.gateway.grants|
  {
    s.(handlers := s.handlers[h := Handler(Holding, Some(|s.gateway.permits|), None)], gateway := Used(s.gateway, key))
  }

  lemma GrantConnects(s: Service, h: nat, key: Key, subject: string, steps: seq<ServeStep>, t: Service)
    requires h < |s.handlers| && s.handlers[h].pc == Gated(true) && s.installed && Usable(s.gateway, key, subject)
    requires Leads(Connected(s, h, key), steps, t)
    ensures Leads(s, [Connect(h, Some(key), subject)] + steps, t)
  {
    ConnectedIff(s.gateway, Some(key), subject);
    LeadsCons(s, Connect(h, Some(key), subject), Connected(s, h, key), steps, t);
  }

  predicate Usable(g: State, key: Key, subject: string) {
    Finds(g, Some(key), subject) && var grant := g.grants[g.table[key]]; !grant.revoked && g.clock < grant.binding.expiresAt && !grant.used
  }

  /** The Gateway with both transports on the last permit. */
  function Carried(g: State, m: Permit): State
    requires g.permits != []
  {
    var a := |g.calls|;
    g.(permits := g.permits[|g.permits| - 1 := m.(frontend := Some(Front(a)), backend := Some(Back(a)))],
       calls := g.calls + [Call(|g.permits| - 1, Attached)])
  }

  function AttachRow(h: nat, a: nat): seq<ServeStep> {
    [StartAttach(h)] + ([Background(AttachCheck(a))] + [Background(AttachStore(a))])
  }

  /** Holding an open permit that carries nothing, its last. */
  predicate HoldsOpen(s: Service, h: nat, m: Permit) {
    && h < |s.handlers| && s.handlers[h].pc.Holding? && s.gateway.permits != []
    && s.handlers[h].permit == Some(|s.gateway.permits| - 1) && m == s.gateway.permits[|s.gateway.permits| - 1]
    && m.lock.None? && !m.transportsClosed && !m.cancelled && m.frontend.None? && m.backend.None?
  }

  function Attaches(s: Service, h: nat, m: Permit): Service
    requires HoldsOpen(s, h, m)
  {
    s.(handlers := s.handlers[h := s.handlers[h].(pc := Attaching(|s.gateway.calls|))], gateway := Carried(s.gateway, m))
  }

  /** The Gateway's two steps of the attach call. */
  lemma CallAttaches(g: State, m: Permit)
    requires g.permits != [] && m == g.permits[|g.permits| - 1]
    requires m.lock.None? && !m.transportsClosed && !m.cancelled && m.frontend.None? && m.backend.None?
    ensures var (p, a) := (|g.permits| - 1, |g.calls|);
      && Enabled(g, AttachCall(p)) && var g1 := Apply(g, AttachCall(p));
      && Enabled(g1, AttachCheck(a)) && var g2 := Apply(g1, AttachCheck(a));
      && Enabled(g2, AttachStore(a)) && Apply(g2, AttachStore(a)) == Carried(g, m)
  {
    var (p, a) := (|g.permits| - 1, |g.calls|);
    var g1 := Apply(g, AttachCall(p));
    assert g1.calls == g.calls + [Call(p, Checking)];
    AttachedIff(g1, a);
    var g2 := Apply(g1, AttachCheck(a));
    assert g2.calls == g.calls + [Call(p, Checked)] && g2.permits == g.permits[p := m.(lock := Some(a))];
    assert g2.calls[a := Call(p, Attached)] == g.calls + [Call(p, Attached)];
    assert g2.permits[p := Carried(g, m).permits[p]] == Carried(g, m).permits;
  }

  lemma HandlerAttaches(s: Service, h: nat, m: Permit)
    requires HoldsOpen(s, h, m)
    ensures Leads(s, AttachRow(h, |s.gateway.calls|), Attaches(s, h, m))
  {
    var (p, a, t) := (|s.gateway.permits| - 1, |s.gateway.calls|, Attaches(s, h, m));
    CallAttaches(s.gateway, m);
    var s1 := s.(handlers := t.handlers, gateway := Apply(s.gateway, AttachCall(p)));
    var s2 := s1.(gateway := Apply(s1.gateway, AttachCheck(a)));
    LeadsCons(s2, Background(AttachStore(a)), t, [], t);
    LeadsCons(s1, Background(AttachCheck(a)), s2, [Background(AttachStore(a))], t);
    LeadsCons(s, StartAttach(h), s1, [Background(AttachCheck(a))] + [Background(AttachStore(a))], t);
  }

  lemma {:induction false} LeadsOn(s: Service, steps: seq<ServeStep>, t: Service, more: seq<ServeStep>, u: Service)
    requires Leads(s, steps, t) && Leads(t, more, u)
    ensures Leads(s, steps + more, u)
    decreases |steps|
  {
    if steps == [] {
      assert steps + more == more;
    } else {
      LeadsOn(Serve(s, steps[0]), steps[1..], t, more, u);
      LeadsCons(s, steps[0], Serve(s, steps[0]), steps[1..] + more, u);
      assert steps + more == [steps[0]] + (steps[1..] + more);
    }
  }

  /** The tunnel stands, both of its copies running. */
  function Tunnels(s: Service, h: nat, m: Permit): Service
    requires HoldsOpen(s, h, m)
  {
    s.(handlers := s.handlers[h := s.handlers[h].(pc := Tunnelling(AwaitFirst), copies := Some((false, false)))],
       gateway := Carried(s.gateway, m))
  }

  lemma HeadIsWritten(s: Service, h: nat, m: Permit)
    requires HoldsOpen(s, h, m)
    ensures Leads(Attaches(s, h, m), [AttachReturns(h, true)], Tunnels(s, h, m))
  {
    LeadsCons(Attaches(s, h, m), AttachReturns(h, true), Tunnels(s, h, m), [], Tunnels(s, h, m));
  }

  function WithTunnel(s: Service, h: nat, key: Key): (t: Service)
    requires h < |s.handlers| && key in s.gateway.table && s.gateway.table[key] < |s.gateway.grants|
  {
    var (g, p, a) := (s.gateway, |s.gateway.permits|, |s.gateway.calls|);
    var (gid, grant) := (g.table[key], g.grants[g.table[key]]);
    s.(requests := s.requests + 1,
       handlers := s.handlers[h := Handler(Tunnelling(AwaitFirst), Some(p), Some((false, false)))],
       gateway := g.(
         grants := g.grants[gid := grant.(used := true, permits := grant.permits + {p})],
         permits := g.permits + [Permit(gid, key, grant.binding, g.clock, false, None, Some(Front(a)), Some(Back(a)), false, None, Idle, Idle, false)],
         calls := g.calls + [Call(p, Attached)]))
  }

  function RequestSteps(h: nat, key: Key, subject: string, a: nat): seq<ServeStep> {
    [Gate(h)] + ([Connect(h, Some(key), subject)] + (AttachRow(h, a) + [AttachReturns(h, true)]))
  }

  /**
   While no stop is served and a policy is installed, a request that presents the token of a grant of its own
   subject, not revoked, expired or used, can get its tunnel: the grant is then used up, its one new permit
   carries both transports, both copies run, and nothing else has changed but the count of requests.
   */
  lemma GoodRequestIsServed(s: Service, h: nat, key: Key, subject: string)
    requires h < |s.handlers| && s.handlers[h].pc.Arrived? && !s.closing && s.installed && Usable(s.gateway, key, subject)
    ensures Leads(s, RequestSteps(h, key, subject, |s.gateway.calls|), WithTunnel(s, h, key))
  {
    var s1 := Admitted(s, h);
    var s2 := Connected(s1, h, key);
    var m := NewPermit(s.gateway.table[key], key, s.gateway.grants[s.gateway.table[key]].binding, s.gateway.clock);
    assert HoldsOpen(s2, h, m);
    HandlerAttaches(s2, h, m);
    HeadIsWritten(s2, h, m);
    LeadsOn(s2, AttachRow(h, |s.gateway.calls|), Attaches(s2, h, m), [AttachReturns(h, true)], Tunnels(s2, h, m));
    SameEnd(s, h, key, m);
    GrantConnects(s1, h, key, subject, AttachRow(h, |s.gateway.calls|) + [AttachReturns(h, true)], WithTunnel(s, h, key));
    GateOpens(s, h, [Connect(h, Some(key), subject)] + (AttachRow(h, |s.gateway.calls|) + [AttachReturns(h, true)]), WithTunnel(s, h, key));
  }

  lemma SameEnd(s: Service, h: nat, key: Key, m: Permit)
    requires h < |s.handlers| && key in s.gateway.table && s.gateway.table[key] < |s.gateway.grants|
    requires m == NewPermit(s.gateway.table[key], key, s.gateway.grants[s.gateway.table[key]].binding, s.gateway.clock)
    requires HoldsOpen(Connected(Admitted(s, h), h, key), h, m)
    ensures Tunnels(Connected(Admitted(s, h), h, key), h, m) == WithTunnel(s, h, key)
  {
    var (t, u) := (Tunnels(Connected(Admitted(s, h), h, key), h, m), WithTunnel(s, h, key));
    assert t.gateway.permits == u.gateway.permits;
    assert t.handlers == u.handlers;
  }
}
