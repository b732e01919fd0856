/**
 A run in which Revoke is acknowledged while the watcher that won closeTransports has closed
 nothing yet, so "both transports are closed when Revoke returns" is false of the code.
 GatewaySafety.RevokedTransportsClosedIff says exactly when it holds.
 */
module GatewayLateWatcher {
  import opened Prelude
  import opened GatewayState
  import opened GatewaySafety

  const POLICY: map<string, string> := map["subject" := "tenant", "other" := "elsewhere"]
  const BINDING: Binding := Binding("subject", "tenant", "session", "handoff", 1)
  const OWING: Pc := Owe([Front(0), Back(0)])

  function TheGrant(used: bool, revoked: bool, listed: set<nat>): Grant {
    Grant(BINDING, used, revoked, listed, 0)
  }

  function ThePermit(cancelled: bool, attached: bool, watcher: Pc, closer: Pc): Permit {
    Permit(0, 7, BINDING, 0, cancelled, None,
           if attached then Some(Front(0)) else None, if attached then Some(Back(0)) else None,
           watcher.Owe?, if watcher.Owe? then Some(Watcher) else None, watcher, closer, closer.Over?)
  }

  function At(g: Grant, m: Permit, calls: seq<Call>, revokers: seq<Revoker>): State {
    State(POLICY, map[7 := 0], map[7 := 0], [g], [m], calls, multiset{}, revokers, 0)
  }

  /** Some run from the start ends in s. */
  ghost predicate Reached(s: State) {
    exists trace: seq<State>, steps: seq<Step> :: Run(trace, steps, POLICY, 0) && trace[|trace| - 1] == s
  }

  lemma Start()
    ensures Reached(Init(POLICY, 0))
  {
    var (trace, steps) := ([Init(POLICY, 0)], []);
    assert Run(trace, steps, POLICY, 0);
  }

  lemma Then(s: State, step: Step, t: State)
    requires Reached(s) && Enabled(s, step) && t == Apply(s, step)
    ensures Reached(t)
  {
    var trace: seq<State>, steps: seq<Step> :| Run(trace, steps, POLICY, 0) && trace[|trace| - 1] == s;
    var (longer, more) := (trace + [t], steps + [step]);
    forall i | 0 <= i < |more| ensures Follows(longer, more, i) {
      if i < |steps| { assert Follows(trace, steps, i); }
    }
    assert Run(longer, more, POLICY, 0);
  }

  lemma Issued()
    ensures Reached(State(POLICY, map[7 := 0], map[7 := 0], [TheGrant(false, false, {})], [], [], multiset{}, [], 0))
  {
    Start();
    var s := Init(POLICY, 0);
    assert PurgedTable(s.table, s.grants, 0) == map[];
    assert PickKey([7], map[], DRAWS) == Ok(7);
    Then(s, Issue(GrantRequest(BINDING, true), [7]), Apply(s, Issue(GrantRequest(BINDING, true), [7])));
  }

  lemma Connected()
    ensures Reached(At(TheGrant(true, false, {0}), ThePermit(false, false, Idle, Idle), [], []))
  {
    Issued();
    var s := State(POLICY, map[7 := 0], map[7 := 0], [TheGrant(false, false, {})], [], [], multiset{}, [], 0);
    var t := At(TheGrant(true, false, {0}), ThePermit(false, false, Idle, Idle), [], []);
    assert {} + {0} == {0};
    Then(s, Begin(Some(7), "subject"), t);
  }

  lemma AttachedPair()
    ensures Reached(At(TheGrant(true, false, {0}), ThePermit(false, true, Idle, Idle), [Call(0, Attached)], []))
  {
    Connected();
    var g := TheGrant(true, false, {0});
    var m := ThePermit(false, false, Idle, Idle);
    var s1 := At(g, m, [Call(0, Checking)], []);
    Then(At(g, m, [], []), AttachCall(0), s1);
    var s2 := At(g, m.(lock := Some(0)), [Call(0, Checked)], []);
    Then(s1, AttachCheck(0), s2);
    Then(s2, AttachStore(0), At(g, ThePermit(false, true, Idle, Idle), [Call(0, Attached)], []));
  }

  lemma RevokeLocked()
    ensures Reached(At(TheGrant(true, true, {0}), ThePermit(true, true, Idle, Idle), [Call(0, Attached)],
                       [Revoker(0, {0}, Waiting)]))
  {
    AttachedPair();
    var s := At(TheGrant(true, false, {0}), ThePermit(false, true, Idle, Idle), [Call(0, Attached)], []);
    var t := At(TheGrant(true, true, {0}), ThePermit(true, true, Idle, Idle), [Call(0, Attached)], [Revoker(0, {0}, Waiting)]);
    assert CancelAll(s.permits, {0}) == t.permits;
    Then(s, Revoke(Some(7), "subject"), t);
  }

  lemma WatcherWins()
    ensures Reached(At(TheGrant(true, true, {0}), ThePermit(true, true, OWING, Idle), [Call(0, Attached)],
                       [Revoker(0, {0}, Waiting)]))
  {
    RevokeLocked();
    var (g, c, r) := (TheGrant(true, true, {0}), [Call(0, Attached)], [Revoker(0, {0}, Waiting)]);
    var m := ThePermit(true, true, Enter, Idle);
    Then(At(g, ThePermit(true, true, Idle, Idle), c, r), WatcherWake(0), At(g, m, c, r));
    assert Captured(m) == [Front(0), Back(0)];
    Then(At(g, m, c, r), EnterClosing(Watcher, 0), At(g, ThePermit(true, true, OWING, Idle), c, r));
  }

  lemma CloseReturns()
    ensures Reached(At(TheGrant(true, true, {}), ThePermit(true, true, OWING, Over), [Call(0, Attached)],
                       [Revoker(0, {0}, Waiting)]))
  {
    WatcherWins();
    var (g, c, r) := (TheGrant(true, true, {0}), [Call(0, Attached)], [Revoker(0, {0}, Waiting)]);
    var s1 := At(g, ThePermit(true, true, OWING, Enter), c, r);
    Then(At(g, ThePermit(true, true, OWING, Idle), c, r), CloseCall(0), s1);
    var s2 := At(g, ThePermit(true, true, OWING, Unlist), c, r);
    Then(s1, EnterClosing(Closer, 0), s2);
    Unlists(c, r);
  }

  lemma Unlists(c: seq<Call>, r: seq<Revoker>)
    requires Reached(At(TheGrant(true, true, {0}), ThePermit(true, true, OWING, Unlist), c, r))
    ensures Reached(At(TheGrant(true, true, {}), ThePermit(true, true, OWING, Over), c, r))
  {
    var s := At(TheGrant(true, true, {0}), ThePermit(true, true, OWING, Unlist), c, r);
    var t := At(TheGrant(true, true, {}), ThePermit(true, true, OWING, Signal), c, r);
    assert {0} - {0} == {};
    Then(s, UnlistPermit(0), t);
    Then(t, SignalDone(0), At(TheGrant(true, true, {}), ThePermit(true, true, OWING, Over), c, r));
  }

  /** New accepts the policy of this run. */
  lemma PolicyIsAcceptable()
    ensures OneTenantEach(POLICY)
  {
    assert POLICY == map["subject" := "tenant"]["other" := "elsewhere"];
  }

  /** Revoke is acknowledged, yet neither attached transport has been closed. */
  lemma AcknowledgedBeforePhysicalClose() returns (s: State)
    ensures Reached(s) && OneTenantEach(POLICY)
    ensures RevokedNil(s, 0, 0) && CallOfGrant(s, 0, 0) && s.calls[0].pc.Attached?
    ensures s.closed == multiset{} && WatcherOwes(s.permits[0])
  {
    PolicyIsAcceptable();
    CloseReturns();
    var (g, m, c) := (TheGrant(true, true, {}), ThePermit(true, true, OWING, Over), [Call(0, Attached)]);
    var s1 := At(g, m, c, [Revoker(0, {}, Waiting)]);
    assert {0} - {0} == {};
    Then(At(g, m, c, [Revoker(0, {0}, Waiting)]), RevokeWait(0, 0), s1);
    s := At(g, m, c, [Revoker(0, {}, Acknowledged)]);
    Then(s1, RevokeReturn(0), s);
  }
}
