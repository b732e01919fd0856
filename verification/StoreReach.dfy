/** The states that validateState takes are those that the five bindings make. */
module StoreReach {
  import opened Prelude
  import opened JcsUtf8
  import opened StoreState
  import opened StoreSafety

  /** The state that these bindings make of s, each from its own stage with arguments that pass. */
  predicate Leads(w: World, s: State, binds: seq<Bind>, t: State)
    decreases |binds|
  {
    if binds == [] then s == t
    else Starts(w, s, binds[0]) && Leads(w, Next(w, binds[0], s), binds[1..], t)
  }

  predicate Starts(w: World, s: State, b: Bind) {
    s.stage == From(b) && ArgumentsOk(w, b) && (b.BindCapabilities? ==> ValidDigest(w.hash(b.snapshot)))
  }

  ghost predicate Reachable(w: World, s: State) {
    ValidPlan(s.plan) && exists binds :: Leads(w, InitialState(w, s.plan), binds, s)
  }

  /** Some snapshot of a size that is taken has the digest on record. */
  ghost predicate SnapshotKnown(w: World, s: State) {
    s.provider.Some? ==> exists snapshot :: SnapshotOf(w, s, snapshot)
  }

  predicate SnapshotOf(w: World, s: State, snapshot: Bytes) {
    s.provider.Some? && 1 <= |snapshot| <= MAX_SNAPSHOT_BYTES && w.hash(snapshot) == s.provider.value.snapshotHash
  }

  lemma FirstIsValid(w: World, plan: Plan)
    requires ValidPlan(plan)
    ensures ValidState(w, InitialState(w, plan)) && InStep(InitialState(w, plan)) && SnapshotKnown(w, InitialState(w, plan))
  {
  }

  lemma NextStaysKnown(w: World, s: State, b: Bind)
    requires SnapshotKnown(w, s) && Starts(w, s, b)
    ensures SnapshotKnown(w, Next(w, b, s))
  {
    var t := Next(w, b, s);
    if b.BindCapabilities? {
      assert SnapshotOf(w, t, b.snapshot);
    } else if t.provider.Some? {
      var snapshot :| SnapshotOf(w, s, snapshot);
      assert SnapshotOf(w, t, snapshot);
    }
  }

  lemma {:induction false} LedIsValid(w: World, s: State, binds: seq<Bind>, t: State)
    requires ValidState(w, s) && InStep(s) && SnapshotKnown(w, s) && Leads(w, s, binds, t)
    ensures ValidState(w, t) && InStep(t) && SnapshotKnown(w, t)
    decreases |binds|
  {
    if binds != [] {
      NextIsValidIff(w, binds[0], s);
      NextStaysInStep(w, binds[0], s);
      NextStaysKnown(w, s, binds[0]);
      LedIsValid(w, Next(w, binds[0], s), binds[1..], t);
    }
  }

  lemma {:induction false} LeadsOn(w: World, s: State, binds: seq<Bind>, t: State, b: Bind)
    requires Leads(w, s, binds, t) && Starts(w, t, b)
    ensures Leads(w, s, binds + [b], Next(w, b, t))
    decreases |binds|
  {
    if binds == [] {
      assert binds + [b] == [b];
    } else {
      LeadsOn(w, Next(w, binds[0], s), binds[1..], t, b);
      assert (binds + [b])[1..] == binds[1..] + [b];
    }
  }

  /** The state before the last binding, and that binding. */
  function Undone(s: State): State {
    var t := s.(storeRevision := s.storeRevision - 1);
    match s.stage
    case Planned => s
    case CapabilitiesBound => t.(stage := Planned, provider := None)
    case LifecycleBound => t.(stage := CapabilitiesBound, lifecycle := None)
    case ExecBound => t.(stage := LifecycleBound, exec := None)
    case TerminalBound => t.(stage := ExecBound, terminal := None)
    case InitialComplete => t.(stage := TerminalBound, artifact := None)
  }

  function LastBind(w: World, s: State, snapshot: Bytes): Bind
    requires ValidState(w, s) && s.stage != Planned
  {
    match s.stage
    case CapabilitiesBound =>
      BindCapabilities(s.provider.value.revisionId, snapshot, s.provider.value.policyDigest, s.provider.value.decidedAt)
    case LifecycleBound => BindLifecycle(s.lifecycle.value.fencingToken)
    case ExecBound => BindExec(s.exec.value.operation.fencingToken, s.exec.value.resultDigest, s.exec.value.usageDigest)
    case TerminalBound =>
      BindTerminal(s.terminal.value.operation.fencingToken, s.terminal.value.sessionId, s.terminal.value.handoffReference)
    case InitialComplete => BindArtifact(s.artifact.value.operation.fencingToken, s.artifact.value.evidenceDigest)
  }

  lemma LastBindMakes(w: World, s: State, snapshot: Bytes)
    requires ValidState(w, s) && InStep(s) && s.stage != Planned && SnapshotOf(w, s, snapshot)
    ensures var (t, b) := (Undone(s), LastBind(w, s, snapshot)); Starts(w, t, b) && Next(w, b, t) == s
  {
  }

  lemma UndoneIsValid(w: World, s: State, snapshot: Bytes)
    requires ValidState(w, s) && InStep(s) && s.stage != Planned && SnapshotOf(w, s, snapshot)
    ensures var t := Undone(s);
      ValidState(w, t) && InStep(t) && t.plan == s.plan && Rank(t.stage) < Rank(s.stage) && (t.provider.Some? ==> SnapshotOf(w, t, snapshot))
  {
  }

  lemma {:induction false} ValidIsLed(w: World, s: State, snapshot: Bytes) returns (binds: seq<Bind>)
    requires ValidState(w, s) && InStep(s) && (s.provider.Some? ==> SnapshotOf(w, s, snapshot))
    ensures Leads(w, InitialState(w, s.plan), binds, s)
    decreases Rank(s.stage)
  {
    if s.stage == Planned {
      binds := [];
      assert s == InitialState(w, s.plan);
    } else {
      UndoneIsValid(w, s, snapshot);
      LastBindMakes(w, s, snapshot);
      binds := ValidIsLed(w, Undone(s), snapshot);
      LeadsOn(w, InitialState(w, s.plan), binds, Undone(s), LastBind(w, s, snapshot));
      binds := binds + [LastBind(w, s, snapshot)];
    }
  }

  /**
   With the revision that its stage calls for, a state passes validateState exactly when bindings whose arguments
   pass make it from the first state of a valid plan, its snapshot digest being that of some snapshot.
   */
  lemma ValidIffReachable(w: World, s: State)
    ensures Reachable(w, s) <==> ValidState(w, s) && InStep(s) && SnapshotKnown(w, s)
  {
    if Reachable(w, s) {
      var binds :| Leads(w, InitialState(w, s.plan), binds, s);
      FirstIsValid(w, s.plan);
      LedIsValid(w, InitialState(w, s.plan), binds, s);
    }
    if ValidState(w, s) && InStep(s) && SnapshotKnown(w, s) {
      if s.provider.Some? {
        var snapshot :| SnapshotOf(w, s, snapshot);
        var binds := ValidIsLed(w, s, snapshot);
      } else {
        var binds := ValidIsLed(w, s, []);
      }
    }
  }
}
