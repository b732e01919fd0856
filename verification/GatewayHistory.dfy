/** Which requests the Gateway takes, said of what has been asked of it before. */
module GatewayHistory {
  import opened Prelude
  import opened GatewayState
  import opened GatewayInvariant
  import opened GatewaySafety

  // ----- one request -----

  /** Keys in the table whose grants a purge would leave there. */
  function LiveKeys(s: State): set<Key> {
    set k | k in s.table && !(s.table[k] < |s.grants| && s.grants[s.table[k]].permits == {} &&
                              (s.grants[s.table[k]].revoked || s.clock >= s.grants[s.table[k]].binding.expiresAt))
  }

  /** The i-th draw is the key, is no live one, and comes after live ones only. */
  predicate FirstFree(draws: seq<Key>, live: set<Key>, key: Key, i: nat) {
    i < |draws| && draws[i] == key && key !in live && forall j :: 0 <= j < i ==> draws[j] in live
  }

  lemma LivePurged(s: State)
    ensures PurgedTable(s.table, s.grants, s.clock).Keys == LiveKeys(s)
  {
  }

  lemma {:induction false} PicksFirstFree(draws: seq<Key>, table: map<Key, nat>, budget: nat, key: Key)
    ensures PickKey(draws, table, budget) == Ok(key) <==> exists i: nat :: i < budget && FirstFree(draws, table.Keys, key, i)
    decreases budget
  {
    if budget > 0 && draws != [] {
      if draws[0] in table {
        PicksFirstFree(draws[1..], table, budget - 1, key);
        LaterIsEarlier(draws, table.Keys, key);
        if i: nat :| i < budget && FirstFree(draws, table.Keys, key, i) {
          assert FirstFree(draws[1..], table.Keys, key, i - 1);
        }
        if i: nat :| i < budget - 1 && FirstFree(draws[1..], table.Keys, key, i) {
          assert FirstFree(draws, table.Keys, key, i + 1);
        }
      } else if draws[0] == key {
        assert FirstFree(draws, table.Keys, key, 0);
      }
    }
  }

  /** After a live draw, the first free one is that of the rest. */
  lemma LaterIsEarlier(draws: seq<Key>, live: set<Key>, key: Key)
    requires draws != [] && draws[0] in live
    ensures forall i: nat :: FirstFree(draws, live, key, i + 1) <==> FirstFree(draws[1..], live, key, i)
    ensures !FirstFree(draws, live, key, 0)
  {
    forall i: nat
      ensures FirstFree(draws, live, key, i + 1) <==> FirstFree(draws[1..], live, key, i)
    {
      if FirstFree(draws, live, key, i + 1) {
        assert forall j :: 0 <= j < i ==> draws[1..][j] == draws[j + 1];
      }
      if FirstFree(draws[1..], live, key, i) {
        assert forall j :: 1 <= j < i + 1 ==> draws[j] == draws[1..][j - 1];
      }
    }
  }

  /**
   A grant is issued exactly to a well-formed request for a subject of the policy and its tenant, with
   at most five minutes to run, while fewer than 64 grants are of use, under the first draw that
   is not the key of one; it is then in the table, as asked for, unused, unrevoked and without permits.
   */
  lemma IssuedIff(s: State, request: GrantRequest, draws: seq<Key>, key: Key)
    ensures IssueVerdict(s, request, draws) == Ok(key) <==>
      && request.wellFormed
      && request.binding.subject in s.policy && s.policy[request.binding.subject] == request.binding.tenant
      && s.clock < request.binding.expiresAt <= s.clock + 300_000_000_000
      && |LiveKeys(s)| < 64 && exists i: nat :: i < 4 && FirstFree(draws, LiveKeys(s), key, i)
    ensures IssueVerdict(s, request, draws) == Ok(key) ==>
      var t := ApplyIssue(s, request, draws);
      && t.table.Keys == LiveKeys(s) + {key} && t.table[key] == |s.grants| && |t.grants| == |s.grants| + 1 && t.grants[..|s.grants|] == s.grants
      && t.grants[|s.grants|].binding == request.binding && t.grants[|s.grants|].permits == {}
      && !t.grants[|s.grants|].used && !t.grants[|s.grants|].revoked
  {
    var table := PurgedTable(s.table, s.grants, s.clock);
    LivePurged(s);
    assert |table| == |table.Keys|;
    PicksFirstFree(draws, table, DRAWS, key);
  }

  /** The grant that a presented key finds, for its own subject. */
  predicate Finds(s: State, presented: Option<Key>, subject: string) {
    presented.Some? && presented.value in s.table && s.table[presented.value] < |s.grants|
    && s.grants[s.table[presented.value]].binding.subject == subject
  }

  /** A connect is taken exactly on a grant of that subject that is neither revoked, expired nor used; it is then used, with one permit more. */
  lemma ConnectedIff(s: State, presented: Option<Key>, subject: string)
    ensures BeginVerdict(s.table, s.grants, s.clock, presented, subject).Ok? <==>
      && Finds(s, presented, subject)
      && var g := s.grants[s.table[presented.value]]; !g.revoked && s.clock < g.binding.expiresAt && !g.used
    ensures BeginVerdict(s.table, s.grants, s.clock, presented, subject).Ok? ==>
      var (t, gid) := (ApplyBegin(s, presented, subject), s.table[presented.value]);
      && |t.permits| == |s.permits| + 1 && t.permits[..|s.permits|] == s.permits && t.permits[|s.permits|].gid == gid
      && !t.permits[|s.permits|].cancelled && t.permits[|s.permits|].frontend.None? && t.permits[|s.permits|].backend.None?
      && t.grants == s.grants[gid := s.grants[gid].(used := true, permits := s.grants[gid].permits + {|s.permits|})]
  {
  }

  /** What a refused connect is told. */
  lemma ConnectRefusals(s: State, presented: Option<Key>, subject: string)
    ensures var v := BeginVerdict(s.table, s.grants, s.clock, presented, subject);
      && (v == Err(Unauthorized) <==> !Finds(s, presented, subject))
      && (Finds(s, presented, subject) ==>
            var g := s.grants[s.table[presented.value]];
            && (v == Err(GrantRevoked) <==> g.revoked)
            && (v == Err(GrantExpired) <==> !g.revoked && s.clock >= g.binding.expiresAt)
            && (v == Err(GrantAlreadyUsed) <==> !g.revoked && s.clock < g.binding.expiresAt && g.used))
  {
  }

  /**
   Revoke finds its grant exactly when the key is in the table and the grant is the subject's, used or
   not; then the grant is revoked, its listed permits are cancelled and no other changes, Revoke
   waits for them, and nobody connects with that key.
   */
  lemma RevokedIff(s: State, presented: Option<Key>, subject: string)
    ensures RevokeVerdict(s, presented, subject).Ok? <==> Finds(s, presented, subject)
    ensures !Finds(s, presented, subject) ==> ApplyRevoke(s, presented, subject) == s
    ensures Finds(s, presented, subject) ==>
      var (t, gid) := (ApplyRevoke(s, presented, subject), s.table[presented.value]);
      && t.grants == s.grants[gid := s.grants[gid].(revoked := true)] && t.table == s.table && |t.permits| == |s.permits|
      && (forall p :: 0 <= p < |s.permits| ==>
            t.permits[p] == if p in s.grants[gid].permits then s.permits[p].(cancelled := true) else s.permits[p])
      && t.revokers == s.revokers + [Revoker(gid, s.grants[gid].permits, Waiting)]
      && forall anyone :: BeginVerdict(t.table, t.grants, t.clock, presented, anyone).Err?
  {
  }

  /** An Attach gets its transports exactly on a permit that is open, whose context lives and that holds none. */
  lemma AttachedIff(s: State, a: nat)
    requires Enabled(s, AttachCheck(a))
    ensures var (m, t) := (s.permits[s.calls[a].permit], Apply(s, AttachCheck(a)));
      (t.calls[a].pc.Checked? <==> !m.transportsClosed && !m.cancelled && m.frontend.None? && m.backend.None?)
      && (!t.calls[a].pc.Checked? ==> t.calls[a].pc == Rejecting([Front(a), Back(a)]) && t.permits == s.permits)
  {
  }

  // ----- what happened, told by its effects -----

  predicate IssuesAt(trace: seq<State>, steps: seq<Step>, i: nat, key: Key, b: Binding) {
    && i < |steps| && i + 1 < |trace| && steps[i].Issue? && steps[i].request.binding == b
    && key !in trace[i].issued && key in trace[i + 1].issued
  }

  predicate ConnectsAt(trace: seq<State>, steps: seq<Step>, i: nat, key: Key) {
    && i < |steps| && i + 1 < |trace| && steps[i].Begin? && steps[i].presented == Some(key)
    && |trace[i + 1].permits| > |trace[i].permits|
  }

  predicate RevokesAt(trace: seq<State>, steps: seq<Step>, i: nat, key: Key) {
    && i < |steps| && i + 1 < |trace| && steps[i].Revoke? && steps[i].presented == Some(key)
    && |trace[i + 1].revokers| > |trace[i].revokers|
  }

  ghost predicate IssuedBefore(trace: seq<State>, steps: seq<Step>, i: nat, key: Key, b: Binding) {
    exists j :: 0 <= j < i && IssuesAt(trace, steps, j, key, b)
  }

  ghost predicate ConnectedBefore(trace: seq<State>, steps: seq<Step>, i: nat, key: Key) {
    exists j :: 0 <= j < i && ConnectsAt(trace, steps, j, key)
  }

  ghost predicate RevokedBefore(trace: seq<State>, steps: seq<Step>, i: nat, key: Key) {
    exists j :: 0 <= j < i && RevokesAt(trace, steps, j, key)
  }

  // ----- the grants remember it -----

  /** The keys handed out, each with its own grant; whoever is not in the table any more could be purged. */
  predicate KeysOk(s: State) {
    && (forall k :: k in s.table ==> k in s.issued && s.issued[k] == s.table[k])
    && (forall k :: k in s.issued ==> s.issued[k] < |s.grants|)
    && (forall k, l :: k in s.issued && l in s.issued && s.issued[k] == s.issued[l] ==> k == l)
    && (forall k :: k in s.issued && k !in s.table ==> Purgeable(s.grants[s.issued[k]], s.clock))
  }

  /** What a step does to the grant of a key already handed out. */
  predicate GrantMoves(s: State, step: Step, t: State, key: Key)
    requires key in s.issued && s.issued[key] < |s.grants|
  {
    && key in t.issued && t.issued[key] == s.issued[key] && s.issued[key] < |t.grants|
    && var (g, h) := (s.grants[s.issued[key]], t.grants[s.issued[key]]);
    && h.binding == g.binding
    && (h.used <==> g.used || (step.Begin? && step.presented == Some(key) && |t.permits| > |s.permits|))
    && (h.revoked <==> g.revoked || (step.Revoke? && step.presented == Some(key) && |t.revokers| > |s.revokers|))
  }

  lemma IssueMoves(s: State, step: Step, key: Key)
    requires KeysOk(s) && step.Issue? && FreshDraws(s, step) && key in s.issued
    ensures GrantMoves(s, step, Apply(s, step), key)
  {
  }

  lemma BeginMoves(s: State, step: Step, key: Key)
    requires KeysOk(s) && step.Begin? && key in s.issued
    ensures GrantMoves(s, step, Apply(s, step), key)
  {
    ConnectedIff(s, step.presented, step.subject);
  }

  lemma RevokeMoves(s: State, step: Step, key: Key)
    requires KeysOk(s) && step.Revoke? && key in s.issued
    ensures GrantMoves(s, step, Apply(s, step), key)
  {
  }

  lemma UnlistMoves(s: State, step: Step, key: Key)
    requires KeysOk(s) && step.UnlistPermit? && Enabled(s, step) && key in s.issued
    ensures GrantMoves(s, step, Apply(s, step), key)
  {
  }

  lemma OthersLeaveGrants(s: State, step: Step)
    requires Enabled(s, step) && !step.Issue? && !step.Begin? && !step.Revoke? && !step.UnlistPermit?
    ensures Apply(s, step).grants == s.grants && Apply(s, step).issued == s.issued && Apply(s, step).table == s.table
  {
    NoIssueKeepsKeys(s, step);
    if OnThread(step) { ThreadsLeaveGrants(s, step); } else { RestLeavesGrants(s, step); }
  }

  lemma ThreadsLeaveGrants(s: State, step: Step)
    requires Enabled(s, step) && OnThread(step)
    ensures Apply(s, step).grants == s.grants
  {
  }

  lemma RestLeavesGrants(s: State, step: Step)
    requires Enabled(s, step) && !OnThread(step) && !step.Issue? && !step.Begin? && !step.Revoke? && !step.UnlistPermit?
    ensures Apply(s, step).grants == s.grants
  {
  }

  lemma StepMoves(s: State, step: Step, key: Key)
    requires KeysOk(s) && Enabled(s, step) && FreshDraws(s, step) && key in s.issued
    ensures GrantMoves(s, step, Apply(s, step), key)
  {
    match step
    case Issue(_, _) => IssueMoves(s, step, key);
    case Begin(_, _) => BeginMoves(s, step, key);
    case Revoke(_, _) => RevokeMoves(s, step, key);
    case UnlistPermit(_) => UnlistMoves(s, step, key);
    case _ => OthersLeaveGrants(s, step);
  }

  /** A key handed out by a step: its grant is the request's. */
  lemma IssueHandsOut(s: State, step: Step, key: Key)
    requires KeysOk(s) && step.Issue? && FreshDraws(s, step) && key !in s.issued && key in Apply(s, step).issued
    ensures var t := Apply(s, step);
      t.issued[key] == |s.grants| && |t.grants| == |s.grants| + 1 && t.grants[|s.grants|].binding == step.request.binding
      && !t.grants[|s.grants|].used && !t.grants[|s.grants|].revoked
  {
  }

  lemma OnlyIssueHandsOut(s: State, step: Step, key: Key)
    requires Enabled(s, step) && key !in s.issued && key in Apply(s, step).issued
    ensures step.Issue?
  {
    if !step.Issue? { NoIssueKeepsKeys(s, step); }
  }

  lemma IssueKeepsKeysOk(s: State, step: Step)
    requires KeysOk(s) && step.Issue? && FreshDraws(s, step)
    ensures KeysOk(Apply(s, step))
  {
    var t := Apply(s, step);
    forall k | k in t.issued ensures t.issued[k] < |t.grants| && (k !in t.table ==> Purgeable(t.grants[t.issued[k]], t.clock)) {
      if k in s.issued { assert k !in s.table ==> Purgeable(s.grants[s.issued[k]], s.clock); }
    }
  }

  lemma StepKeepsKeysOk(s: State, step: Step)
    requires Inv(s) && KeysOk(s) && Enabled(s, step) && FreshDraws(s, step)
    ensures KeysOk(Apply(s, step))
  {
    if step.Issue? {
      IssueKeepsKeysOk(s, step);
    } else {
      NoIssueKeepsKeys(s, step);
      OthersKeepTable(s, step);
      var t := Apply(s, step);
      forall k | k in t.issued && k !in t.table ensures Purgeable(t.grants[t.issued[k]], t.clock) {
        StaysPurgeable(s, step, k);
      }
    }
  }

  /** What nobody finds stays as dead as it was. */
  lemma StaysPurgeable(s: State, step: Step, key: Key)
    requires Inv(s) && KeysOk(s) && Enabled(s, step) && !step.Issue? && key in s.issued && key !in s.table
    ensures s.issued[key] < |Apply(s, step).grants| && Purgeable(Apply(s, step).grants[s.issued[key]], Apply(s, step).clock)
  {
    var gid := s.issued[key];
    forall k | k in s.table ensures s.table[k] != gid { }
    ClockStays(s, step);
    if step.Begin? {
      BeginLeavesOthers(s, step, gid);
    } else if step.Revoke? {
      RevokeLeavesOthers(s, step, gid);
    } else if step.UnlistPermit? {
      UnlistLeavesOthers(s, step, gid);
    } else {
      OthersLeaveGrants(s, step);
    }
  }

  lemma BeginLeavesOthers(s: State, step: Step, gid: nat)
    requires step.Begin? && gid < |s.grants| && forall k :: k in s.table ==> s.table[k] != gid
    ensures gid < |Apply(s, step).grants| && Apply(s, step).grants[gid] == s.grants[gid]
  {
  }

  lemma RevokeLeavesOthers(s: State, step: Step, gid: nat)
    requires step.Revoke? && gid < |s.grants| && forall k :: k in s.table ==> s.table[k] != gid
    ensures gid < |Apply(s, step).grants| && Apply(s, step).grants[gid] == s.grants[gid]
  {
  }

  lemma UnlistLeavesOthers(s: State, step: Step, gid: nat)
    requires step.UnlistPermit? && Enabled(s, step) && gid < |s.grants| && forall k :: k in s.table ==> s.table[k] != gid
    ensures gid < |Apply(s, step).grants| && Apply(s, step).grants[gid] == s.grants[gid]
  {
  }

  lemma ClockStays(s: State, step: Step)
    requires Enabled(s, step)
    ensures s.clock <= Apply(s, step).clock
  {
    if !step.Issue? { NoIssueKeepsKeys(s, step); }
  }

  // ----- whole runs -----

  ghost predicate FreshRun(trace: seq<State>, steps: seq<Step>, policy: map<string, string>, clock: int) {
    Run(trace, steps, policy, clock) && forall j :: 0 <= j < |steps| ==> FreshDraws(trace[j], steps[j])
  }

  /** The grant of a key tells what happened to it. */
  ghost predicate Tells(trace: seq<State>, steps: seq<Step>, i: nat, key: Key)
    requires i < |trace|
  {
    var s := trace[i];
    if key in s.issued then
      && s.issued[key] < |s.grants|
      && var g := s.grants[s.issued[key]];
      && (forall b :: IssuedBefore(trace, steps, i, key, b) <==> b == g.binding)
      && (g.used <==> ConnectedBefore(trace, steps, i, key)) && (g.revoked <==> RevokedBefore(trace, steps, i, key))
    else
      !ConnectedBefore(trace, steps, i, key) && !RevokedBefore(trace, steps, i, key) && forall b :: !IssuedBefore(trace, steps, i, key, b)
  }

  /** One step more of each history. */
  lemma OneMore(trace: seq<State>, steps: seq<Step>, i: nat, n: nat, key: Key)
    requires n == i + 1
    ensures ConnectedBefore(trace, steps, n, key) <==> ConnectedBefore(trace, steps, i, key) || ConnectsAt(trace, steps, i, key)
    ensures RevokedBefore(trace, steps, n, key) <==> RevokedBefore(trace, steps, i, key) || RevokesAt(trace, steps, i, key)
    ensures forall b :: IssuedBefore(trace, steps, n, key, b) <==> IssuedBefore(trace, steps, i, key, b) || IssuesAt(trace, steps, i, key, b)
  {
    forall b ensures IssuedBefore(trace, steps, n, key, b) <==> IssuedBefore(trace, steps, i, key, b) || IssuesAt(trace, steps, i, key, b) {
      if IssuedBefore(trace, steps, n, key, b) {
        var j :| 0 <= j < n && IssuesAt(trace, steps, j, key, b);
      }
    }
    if ConnectedBefore(trace, steps, n, key) { var j :| 0 <= j < n && ConnectsAt(trace, steps, j, key); }
    if RevokedBefore(trace, steps, n, key) { var j :| 0 <= j < n && RevokesAt(trace, steps, j, key); }
  }

  lemma TellsNext(trace: seq<State>, steps: seq<Step>, i: nat, n: nat, key: Key)
    requires n == i + 1 && Follows(trace, steps, i) && FreshDraws(trace[i], steps[i]) && KeysOk(trace[i]) && Tells(trace, steps, i, key)
    ensures Tells(trace, steps, n, key)
  {
    OneMore(trace, steps, i, n, key);
    if key in trace[i].issued {
      StepMoves(trace[i], steps[i], key);
      OldKeyTells(trace, steps, i, n, key);
    } else {
      NobodyFinds(trace[i], steps[i], key);
      if key in trace[n].issued {
        OnlyIssueHandsOut(trace[i], steps[i], key);
        IssueHandsOut(trace[i], steps[i], key);
        NewKeyTells(trace, steps, i, n, key, trace[n].grants[trace[n].issued[key]]);
      }
    }
  }

  lemma OldKeyTells(trace: seq<State>, steps: seq<Step>, i: nat, n: nat, key: Key)
    requires n == i + 1 && i < |steps| && n < |trace| && Tells(trace, steps, i, key)
    requires key in trace[i].issued && GrantMoves(trace[i], steps[i], trace[n], key)
    ensures Tells(trace, steps, n, key)
  {
    OneMore(trace, steps, i, n, key);
    assert forall b :: !IssuesAt(trace, steps, i, key, b);
  }

  lemma NewKeyTells(trace: seq<State>, steps: seq<Step>, i: nat, n: nat, key: Key, g: Grant)
    requires n == i + 1 && i < |steps| && n < |trace| && Tells(trace, steps, i, key) && steps[i].Issue?
    requires key !in trace[i].issued && key in trace[n].issued && trace[n].issued[key] < |trace[n].grants|
    requires g == trace[n].grants[trace[n].issued[key]] && g.binding == steps[i].request.binding && !g.used && !g.revoked
    ensures Tells(trace, steps, n, key)
  {
    OneMore(trace, steps, i, n, key);
    assert forall b :: IssuesAt(trace, steps, i, key, b) <==> b == g.binding;
  }

  /** Nobody connects with or revokes a key that was not handed out. */
  lemma NobodyFinds(s: State, step: Step, key: Key)
    requires KeysOk(s) && Enabled(s, step) && key !in s.issued
    ensures step.Begin? && step.presented == Some(key) ==> |Apply(s, step).permits| == |s.permits|
    ensures step.Revoke? && step.presented == Some(key) ==> |Apply(s, step).revokers| == |s.revokers|
  {
  }

  lemma {:induction false} RunTells(trace: seq<State>, steps: seq<Step>, policy: map<string, string>, clock: int, i: nat, key: Key)
    requires FreshRun(trace, steps, policy, clock) && i < |trace|
    ensures KeysOk(trace[i]) && Tells(trace, steps, i, key)
  {
    if i > 0 {
      RunTells(trace, steps, policy, clock, i - 1, key);
      RunKeepsInv(trace, steps, policy, clock, i - 1);
      assert Follows(trace, steps, i - 1) && FreshDraws(trace[i - 1], steps[i - 1]);
      StepKeepsKeysOk(trace[i - 1], steps[i - 1]);
      TellsNext(trace, steps, i - 1, i, key);
    }
  }

  /** A grant for the subject was issued under this key, and its time is not over. */
  ghost predicate IssuedTo(trace: seq<State>, steps: seq<Step>, i: nat, key: Key, subject: string)
    requires i < |trace|
  {
    exists b :: IssuedBefore(trace, steps, i, key, b) && b.subject == subject && trace[i].clock < b.expiresAt
  }

  /**
   With random tokens, at any moment of any run: a subject connects with a key exactly when a grant
   was issued to it under that key, its time is not over, nobody has connected with the key, and
   nobody has revoked it.
   */
  lemma ConnectsIff(
    trace: seq<State>, steps: seq<Step>, policy: map<string, string>, clock: int, i: nat, key: Key, subject: string)
    requires FreshRun(trace, steps, policy, clock) && i < |trace|
    ensures BeginVerdict(trace[i].table, trace[i].grants, trace[i].clock, Some(key), subject).Ok? <==>
      IssuedTo(trace, steps, i, key, subject) && !ConnectedBefore(trace, steps, i, key) && !RevokedBefore(trace, steps, i, key)
  {
    RunTells(trace, steps, policy, clock, i, key);
    ConnectedIff(trace[i], Some(key), subject);
    var s := trace[i];
    if key in s.issued {
      var b := s.grants[s.issued[key]].binding;
      assert IssuedBefore(trace, steps, i, key, b);
    }
  }

  /** And it revokes the grant, used or not, whenever its time is not over and nobody has revoked it before. */
  lemma RevokesWhileItLasts(
    trace: seq<State>, steps: seq<Step>, policy: map<string, string>, clock: int, i: nat, key: Key, subject: string)
    requires FreshRun(trace, steps, policy, clock) && i < |trace|
    requires IssuedTo(trace, steps, i, key, subject) && !RevokedBefore(trace, steps, i, key)
    ensures RevokeVerdict(trace[i], Some(key), subject).Ok?
  {
    RunTells(trace, steps, policy, clock, i, key);
    RevokedIff(trace[i], Some(key), subject);
  }
}
