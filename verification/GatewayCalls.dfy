/**
 Whole calls on a permit when no other thread comes between: the state each one leaves, the
 atomic steps of GatewayState that it is made of, and why a run may go on with them.
 */
module GatewayCalls {
  import opened Prelude
  import opened GatewayState

  /** The steps, taken in a row, lead from s to t. */
  predicate Leads(s: State, steps: seq<Step>, t: State)
    decreases |steps|
  {
    if steps == [] then s == t else Enabled(s, steps[0]) && Leads(Apply(s, steps[0]), steps[1..], t)
  }

  lemma LeadsCons(s: State, step: Step, steps: seq<Step>, t: State)
    requires Enabled(s, step) && Leads(Apply(s, step), steps, t)
    ensures Leads(s, [step] + steps, t)
  {
    assert ([step] + steps)[1..] == steps;
  }

  lemma {:induction false} LeadsOn(s: State, steps: seq<Step>, t: State, more: seq<Step>, u: State)
    requires Leads(s, steps, t) && Leads(t, more, u)
    ensures Leads(s, steps + more, u)
    decreases |steps|
  {
    if steps == [] {
      assert steps + more == more;
    } else {
      LeadsOn(Apply(s, steps[0]), steps[1..], t, more, u);
      assert steps + more == [steps[0]] + (steps[1..] + more);
      LeadsCons(s, steps[0], steps[1..] + more, u);
    }
  }

  lemma LeadsOne(s: State, x: Step)
    requires Enabled(s, x)
    ensures Leads(s, [x], Apply(s, x))
  {
    LeadsCons(s, x, [], Apply(s, x));
  }

  /** One step more at the end, taken from a state already known. */
  lemma LeadsSnoc(s: State, steps: seq<Step>, t: State, x: Step, u: State)
    requires Leads(s, steps, t) && Enabled(t, x) && u == Apply(t, x)
    ensures Leads(s, steps + [x], u)
  {
    LeadsOne(t, x);
    LeadsOn(s, steps, t, [x], u);
  }

  /** What is proved of every run is proved of a run that such a call continues. */
  lemma {:induction false} RunGoesOn(trace: seq<State>, steps: seq<Step>, policy: map<string, string>, clock: int,
                                     more: seq<Step>, t: State) returns (longer: seq<State>)
    requires Run(trace, steps, policy, clock) && Leads(trace[|trace| - 1], more, t)
    ensures Run(longer, steps + more, policy, clock) && longer[|longer| - 1] == t
    ensures trace <= longer
    decreases |more|
  {
    if more == [] {
      assert steps + more == steps;
      longer := trace;
    } else {
      var s := trace[|trace| - 1];
      RunExtends(trace, steps, policy, clock, more[0]);
      longer := RunGoesOn(trace + [Apply(s, more[0])], steps + [more[0]], policy, clock, more[1..], t);
      assert steps + [more[0]] + more[1..] == steps + more;
    }
  }

  lemma RunExtends(trace: seq<State>, steps: seq<Step>, policy: map<string, string>, clock: int, x: Step)
    requires Run(trace, steps, policy, clock) && Enabled(trace[|trace| - 1], x)
    ensures Run(trace + [Apply(trace[|trace| - 1], x)], steps + [x], policy, clock)
  {
    var longer := trace + [Apply(trace[|trace| - 1], x)];
    forall i | 0 <= i < |steps| + 1
      ensures Follows(longer, steps + [x], i)
    {
      if i < |steps| {
        assert Follows(trace, steps, i);
      }
    }
  }

  lemma Overwrites(permits: seq<Permit>, p: nat, x: Permit, y: Permit)
    requires p < |permits|
    ensures permits[p := x][p := y] == permits[p := y]
  {
  }

  // ----- closeTransports -----

  /** What a thread inside closeTransports leaves: the flag set, and everything held closed if it was the first. */
  function Closed(m: Permit, who: Thread): Permit {
    (if m.transportsClosed then m else m.(transportsClosed := true, winner := Some(who))).WithPc(who, AfterClosing(who))
  }

  function ClosedState(s: State, who: Thread, p: nat): State
    requires p < |s.permits|
  {
    var m := s.permits[p];
    s.(permits := s.permits[p := Closed(m, who)],
       closed := s.closed + (if m.transportsClosed then multiset{} else multiset(Captured(m))))
  }

  function ClosingSteps(m: Permit, who: Thread, p: nat): seq<Step> {
    if m.transportsClosed then [EnterClosing(who, p)]
    else [EnterClosing(who, p)] + ClosesOf(|Captured(m)|, who, p) + [LeaveClosing(who, p)]
  }

  function ClosesOf(n: nat, who: Thread, p: nat): seq<Step> {
    if n == 0 then [] else [ClosePhysically(who, p)] + ClosesOf(n - 1, who, p)
  }

  /** The state of a thread that owes the closes of rest. */
  predicate Owes(s: State, who: Thread, p: nat, rest: seq<Transport>) {
    p < |s.permits| && s.permits[p].PcOf(who) == Owe(rest)
  }

  function PaidState(s: State, who: Thread, p: nat, rest: seq<Transport>): State
    requires p < |s.permits|
  {
    s.(permits := s.permits[p := s.permits[p].WithPc(who, Owe([]))], closed := s.closed + multiset(rest))
  }

  lemma {:induction false} PayingLeads(s: State, who: Thread, p: nat, rest: seq<Transport>)
    requires Owes(s, who, p, rest)
    ensures Leads(s, ClosesOf(|rest|, who, p), PaidState(s, who, p, rest))
    decreases |rest|
  {
    if rest == [] {
      NothingToPay(s, who, p);
    } else {
      var s1 := Apply(s, ClosePhysically(who, p));
      PayingLeads(s1, who, p, rest[1..]);
      PaidOnce(s, who, p, rest);
      LeadsCons(s, ClosePhysically(who, p), ClosesOf(|rest| - 1, who, p), PaidState(s, who, p, rest));
    }
  }

  lemma NothingToPay(s: State, who: Thread, p: nat)
    requires Owes(s, who, p, [])
    ensures PaidState(s, who, p, []) == s
  {
    assert s.permits[p].WithPc(who, Owe([])) == s.permits[p];
  }

  lemma PaidOnce(s: State, who: Thread, p: nat, rest: seq<Transport>)
    requires Owes(s, who, p, rest) && rest != []
    ensures PaidState(Apply(s, ClosePhysically(who, p)), who, p, rest[1..]) == PaidState(s, who, p, rest)
  {
    var m := s.permits[p];
    ClosesAdd(s.closed, rest);
    Overwrites(s.permits, p, m.WithPc(who, Owe(rest[1..])), m.WithPc(who, Owe([])));
  }

  lemma ClosesAdd(closed: multiset<Transport>, rest: seq<Transport>)
    requires rest != []
    ensures closed + multiset{rest[0]} + multiset(rest[1..]) == closed + multiset(rest)
  {
    assert rest == [rest[0]] + rest[1..];
  }

  /** closeTransports is its locked half, the closes it owes, and the return. */
  lemma ClosingLeads(s: State, who: Thread, p: nat)
    requires Enabled(s, EnterClosing(who, p))
    ensures Leads(s, ClosingSteps(s.permits[p], who, p), ClosedState(s, who, p))
  {
    var m := s.permits[p];
    var s1 := Apply(s, EnterClosing(who, p));
    LeadsOne(s, EnterClosing(who, p));
    if m.transportsClosed {
      assert s1 == ClosedState(s, who, p);
    } else {
      var rest := Captured(m);
      assert Owes(s1, who, p, rest);
      PayingLeads(s1, who, p, rest);
      var s2 := PaidState(s1, who, p, rest);
      LeadsOn(s, [EnterClosing(who, p)], s1, ClosesOf(|rest|, who, p), s2);
      ClosingEnds(s, who, p, s1, s2);
      LeadsSnoc(s, [EnterClosing(who, p)] + ClosesOf(|rest|, who, p), s2, LeaveClosing(who, p), ClosedState(s, who, p));
    }
  }

  lemma ClosingEnds(s: State, who: Thread, p: nat, s1: State, s2: State)
    requires Enabled(s, EnterClosing(who, p)) && !s.permits[p].transportsClosed
    requires s1 == Apply(s, EnterClosing(who, p)) && s2 == PaidState(s1, who, p, Captured(s.permits[p]))
    ensures Enabled(s2, LeaveClosing(who, p)) && Apply(s2, LeaveClosing(who, p)) == ClosedState(s, who, p)
  {
    assert s2.permits[p].PcOf(who) == Owe([]);
  }

  // ----- Attach -----

  predicate AttachTaken(s: State, p: nat)
    requires p < |s.permits|
  {
    !AttachRefused(s.permits[p])
  }

  /** The call either holds both its transports or has closed both. */
  function AttachedState(s: State, p: nat): State
    requires p < |s.permits|
  {
    var a := |s.calls|;
    if AttachTaken(s, p) then
      s.(calls := s.calls + [Call(p, Attached)],
         permits := s.permits[p := s.permits[p].(lock := None, frontend := Some(Front(a)), backend := Some(Back(a)))])
    else
      s.(calls := s.calls + [Call(p, Rejecting([]))], closed := s.closed + multiset{Front(a)} + multiset{Back(a)})
  }

  function AttachSteps(s: State, p: nat): seq<Step>
    requires p < |s.permits|
  {
    var a := |s.calls|;
    [AttachCall(p), AttachCheck(a)] + (if AttachTaken(s, p) then [AttachStore(a)] else [AttachReject(a), AttachReject(a)])
  }

  lemma AttachLeads(s: State, p: nat)
    requires p < |s.permits| && s.permits[p].lock == None
    ensures Leads(s, AttachSteps(s, p), AttachedState(s, p))
  {
    var a := |s.calls|;
    var s1 := Apply(s, AttachCall(p));
    var s2 := Apply(s1, AttachCheck(a));
    LeadsOne(s, AttachCall(p));
    LeadsSnoc(s, [AttachCall(p)], s1, AttachCheck(a), s2);
    assert [AttachCall(p)] + [AttachCheck(a)] == [AttachCall(p), AttachCheck(a)];
    if AttachTaken(s, p) {
      TakenEnds(s, p, s2);
      LeadsSnoc(s, [AttachCall(p), AttachCheck(a)], s2, AttachStore(a), AttachedState(s, p));
    } else {
      RefusedEnds(s, p, s2);
      LeadsOn(s, [AttachCall(p), AttachCheck(a)], s2, [AttachReject(a), AttachReject(a)], AttachedState(s, p));
    }
  }

  lemma TakenEnds(s: State, p: nat, s2: State)
    requires p < |s.permits| && s.permits[p].lock == None && AttachTaken(s, p)
    requires s2 == Apply(Apply(s, AttachCall(p)), AttachCheck(|s.calls|))
    ensures Enabled(s2, AttachStore(|s.calls|)) && Apply(s2, AttachStore(|s.calls|)) == AttachedState(s, p)
  {
  }

  lemma RefusedEnds(s: State, p: nat, s2: State)
    requires p < |s.permits| && s.permits[p].lock == None && !AttachTaken(s, p)
    requires s2 == Apply(Apply(s, AttachCall(p)), AttachCheck(|s.calls|))
    ensures Leads(s2, [AttachReject(|s.calls|), AttachReject(|s.calls|)], AttachedState(s, p))
  {
    var a := |s.calls|;
    assert s2.calls == s.calls + [Call(p, Rejecting([Front(a), Back(a)]))];
    assert [Front(a), Back(a)][1..] == [Back(a)] && [Back(a)][1..] == [];
    var s3 := Apply(s2, AttachReject(a));
    assert s3.calls == s.calls + [Call(p, Rejecting([Back(a)]))];
    LeadsOne(s2, AttachReject(a));
    assert Apply(s3, AttachReject(a)) == AttachedState(s, p);
    LeadsSnoc(s2, [AttachReject(a)], s3, AttachReject(a), AttachedState(s, p));
  }

  // ----- Close -----

  /** The first Close of a permit: cancelled, closed, out of its grant, done. */
  function FinishedState(s: State, p: nat): State
    requires p < |s.permits|
  {
    var m := s.permits[p];
    s.(permits := s.permits[p := Closed(m, Closer).(cancelled := true, closer := Over, done := true)],
       closed := s.closed + (if m.transportsClosed then multiset{} else multiset(Captured(m))),
       grants := UnlistFrom(s, m.key, p))
  }

  function FinishSteps(m: Permit, p: nat): seq<Step> {
    [CloseCall(p)] + ClosingSteps(m, Closer, p) + [UnlistPermit(p)] + [SignalDone(p)]
  }

  /** Close once its transports are closed, and still to be dropped from the grant. */
  function ClosingState(s: State, p: nat): State
    requires p < |s.permits|
  {
    var m := s.permits[p];
    s.(permits := s.permits[p := Closed(m, Closer).(cancelled := true)],
       closed := s.closed + (if m.transportsClosed then multiset{} else multiset(Captured(m))))
  }

  lemma ClosingIs(s: State, p: nat, s1: State)
    requires p < |s.permits| && s.permits[p].closer == Idle && s1 == Apply(s, CloseCall(p))
    ensures ClosedState(s1, Closer, p) == ClosingState(s, p)
  {
    var m := s.permits[p];
    var m1 := m.(cancelled := true, closer := Enter);
    assert Closed(m1, Closer) == Closed(m, Closer).(cancelled := true);
    Overwrites(s.permits, p, m1, Closed(m1, Closer));
  }

  lemma FinishLeads(s: State, p: nat)
    requires p < |s.permits| && s.permits[p].closer == Idle && s.permits[p].lock == None
    ensures Leads(s, FinishSteps(s.permits[p], p), FinishedState(s, p))
  {
    var m := s.permits[p];
    var s1 := Apply(s, CloseCall(p));
    var s2 := ClosingState(s, p);
    LeadsOne(s, CloseCall(p));
    ClosingLeads(s1, Closer, p);
    ClosingIs(s, p, s1);
    assert ClosingSteps(s1.permits[p], Closer, p) == ClosingSteps(m, Closer, p);
    LeadsOn(s, [CloseCall(p)], s1, ClosingSteps(m, Closer, p), s2);
    var s3 := Apply(s2, UnlistPermit(p));
    LeadsSnoc(s, [CloseCall(p)] + ClosingSteps(m, Closer, p), s2, UnlistPermit(p), s3);
    FinishEnds(s, p, s3);
    LeadsSnoc(s, [CloseCall(p)] + ClosingSteps(m, Closer, p) + [UnlistPermit(p)], s3, SignalDone(p), FinishedState(s, p));
  }

  lemma FinishEnds(s: State, p: nat, s3: State)
    requires p < |s.permits| && Enabled(ClosingState(s, p), UnlistPermit(p))
    requires s3 == Apply(ClosingState(s, p), UnlistPermit(p))
    ensures Enabled(s3, SignalDone(p)) && Apply(s3, SignalDone(p)) == FinishedState(s, p)
  {
    var m2 := Closed(s.permits[p], Closer).(cancelled := true);
    var m3 := m2.(closer := Signal);
    Overwrites(s.permits, p, m2, m3);
    Overwrites(s.permits, p, m3, m3.(closer := Over, done := true));
  }

  // ----- the cancellation watcher -----

  function WatchedState(s: State, p: nat): State
    requires p < |s.permits|
  {
    ClosedState(s, Watcher, p)
  }

  lemma WatcherLeads(s: State, p: nat)
    requires Enabled(s, WatcherWake(p)) && s.permits[p].lock == None
    ensures Leads(s, [WatcherWake(p)] + ClosingSteps(s.permits[p], Watcher, p), WatchedState(s, p))
  {
    var s1 := Apply(s, WatcherWake(p));
    ClosingLeads(s1, Watcher, p);
    WakesOnly(s, p, s1);
    assert ClosingSteps(s1.permits[p], Watcher, p) == ClosingSteps(s.permits[p], Watcher, p);
    LeadsCons(s, WatcherWake(p), ClosingSteps(s.permits[p], Watcher, p), WatchedState(s, p));
  }

  lemma WakesOnly(s: State, p: nat, s1: State)
    requires Enabled(s, WatcherWake(p)) && s1 == Apply(s, WatcherWake(p))
    ensures ClosedState(s1, Watcher, p) == WatchedState(s, p)
  {
    var m := s.permits[p];
    var m1 := m.(watcher := Enter);
    assert Closed(m1, Watcher) == Closed(m, Watcher);
    Overwrites(s.permits, p, m1, Closed(m, Watcher));
  }
}
