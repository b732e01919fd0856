/** Where the arguments of the five bindings go: field by field, in memory and in the document on the disk. */
module StoreBindings {
  import opened Prelude
  import opened JcsUtf8
  import opened StoreState
  import opened StoreDisk
  import opened Store
  import opened StoreSafety

  /** From one stage to the other: one revision on, header and plan as before. */
  predicate Moves(s: State, t: State, from: Stage, to: Stage) {
    s.stage == from && t.stage == to && t.storeRevision == s.storeRevision + 1 && t.header == s.header && t.plan == s.plan
  }

  /** The operation of the plan, with this token. */
  predicate Operates(o: OperationBinding, p: PlannedOperation, token: int) {
    o.operationId == p.operationId && o.attemptId == p.attemptId && o.idempotencyKey == p.idempotencyKey && o.fencingToken == token
  }

  predicate TokenOk(token: int) { 1 <= token <= 9007199254740991 }

  /** The store holds these capabilities now, and everything else as before. */
  predicate HoldsCapabilities(w: World, s: State, t: State, revisionId: string, snapshot: Bytes, policyDigest: string, decidedAt: string) {
    && Moves(s, t, Planned, CapabilitiesBound)
    && t.provider.Some? && t.provider.value.revisionId == revisionId && t.provider.value.snapshotHash == w.hash(snapshot)
    && t.provider.value.policyDigest == policyDigest && t.provider.value.decidedAt == decidedAt
    && t.lifecycle == s.lifecycle && t.exec == s.exec && t.terminal == s.terminal && t.artifact == s.artifact
    && ValidIdentifier(revisionId) && 1 <= |snapshot| <= 1048576 && ValidDigest(policyDigest) && w.dateTime(decidedAt)
  }

  predicate HoldsLifecycle(s: State, t: State, token: int) {
    && Moves(s, t, CapabilitiesBound, LifecycleBound)
    && t.lifecycle.Some? && Operates(t.lifecycle.value, s.plan.create, token)
    && t.provider == s.provider && t.exec == s.exec && t.terminal == s.terminal && t.artifact == s.artifact
    && TokenOk(token)
  }

  predicate HoldsExec(s: State, t: State, token: int, resultDigest: string, usageDigest: string) {
    && Moves(s, t, LifecycleBound, ExecBound)
    && t.exec.Some? && Operates(t.exec.value.operation, s.plan.exec, token)
    && t.exec.value.resultDigest == resultDigest && t.exec.value.usageDigest == usageDigest
    && t.provider == s.provider && t.lifecycle == s.lifecycle && t.terminal == s.terminal && t.artifact == s.artifact
    && TokenOk(token) && ValidDigest(resultDigest) && ValidDigest(usageDigest)
  }

  predicate HoldsTerminal(w: World, s: State, t: State, token: int, sessionId: string, handoffReference: string) {
    && Moves(s, t, ExecBound, TerminalBound)
    && t.terminal.Some? && Operates(t.terminal.value.operation, s.plan.terminal, token)
    && t.terminal.value.sessionId == sessionId && t.terminal.value.handoffReference == handoffReference
    && t.terminal.value.handoffDigest == w.hash(w.textBytes(handoffReference))
    && t.provider == s.provider && t.lifecycle == s.lifecycle && t.exec == s.exec && t.artifact == s.artifact
    && TokenOk(token) && ValidIdentifier(sessionId) && w.reference(handoffReference)
  }

  predicate HoldsArtifact(s: State, t: State, token: int, evidenceDigest: string) {
    && Moves(s, t, TerminalBound, InitialComplete)
    && t.artifact.Some? && Operates(t.artifact.value.operation, s.plan.artifact, token)
    && t.artifact.value.evidenceDigest == evidenceDigest
    && t.provider == s.provider && t.lifecycle == s.lifecycle && t.exec == s.exec && t.terminal == s.terminal
    && TokenOk(token) && ValidDigest(evidenceDigest)
  }

  predicate KeepsArguments(w: World, s: State, t: State, b: Bind) {
    match b
    case BindCapabilities(revisionId, snapshot, policyDigest, decidedAt) =>
      HoldsCapabilities(w, s, t, revisionId, snapshot, policyDigest, decidedAt)
    case BindLifecycle(token) => HoldsLifecycle(s, t, token)
    case BindExec(token, resultDigest, usageDigest) => HoldsExec(s, t, token, resultDigest, usageDigest)
    case BindTerminal(token, sessionId, handoffReference) => HoldsTerminal(w, s, t, token, sessionId, handoffReference)
    case BindArtifact(token, evidenceDigest) => HoldsArtifact(s, t, token, evidenceDigest)
  }

  lemma NextHolds(w: World, b: Bind, s: State)
    requires s.stage == From(b) && ArgumentsOk(w, b)
    ensures KeepsArguments(w, s, Next(w, b, s), b)
  {
  }

  /** A binding that returns no error leaves each argument in its own field and every other field as it was; an error leaves all. */
  lemma BindHolds(w: World, h: Handle, d: Disk, b: Bind)
    ensures var (h', _, error) := DoBind(w, h, d, b);
      if error.None? then h.open && h'.open && KeepsArguments(w, h.state, h'.state, b) else h' == h
  {
    BindMoves(w, h, d, b);
    if DoBind(w, h, d, b).2.None? { NextHolds(w, b, h.state); }
  }

  /** The same of the disk: what it holds then, now and after any crash, decodes to a state that holds the arguments. */
  lemma BindHoldsOnDisk(w: World, h: Handle, d: Disk, b: Bind, crashed: Disk)
    requires LawfulCodec(w) && StoreInv(w, h.state, d)
    ensures var (h', e, error) := DoBind(w, h, d, b);
      error.None? && (crashed == e || AfterCrash(e, crashed)) ==>
        Current(crashed).Some? && var t := w.decode(Current(crashed).value); t.Some? && KeepsArguments(w, h.state, t.value, b)
  {
    BindHolds(w, h, d, b);
    BindOutcomes(w, h, d, b);
    var (h', e, error) := DoBind(w, h, d, b);
    if error.None? && AfterCrash(e, crashed) { SettledSurvivesCrash(w, h'.state, e, crashed); }
  }
}
