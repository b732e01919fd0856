/** The state document, record by record: what is written reads back, and is its own normal form. */
module StoreDocument {
  import opened Prelude
  import opened JcsUtf8
  import opened JcsTree
  import opened JcsCanonical
  import opened JcsIntegers
  import opened StoreState
  import opened StoreTree
  import opened StoreKeys

  // ----- records -----

  /** Values, strings after them, and more values. */
  function WriteMixed(w: World, keys: seq<string>, before: seq<Json>, xs: seq<string>, after: seq<Json>): Json
    requires |before| + |xs| + |after| == |keys|
  {
    Record(Names(keys), before + WriteTexts(w, xs) + after)
  }

  lemma RecordReadsBack(keys: seq<string>, values: seq<Json>)
    requires GoodKeys(keys) && |values| == |keys|
    ensures Fields(Record(Names(keys), values), Names(keys)) == Some(values)
  {
    NamesDiffer(keys);
    FieldsOfRecord(Names(keys), values);
  }

  lemma MixedReadsBack(w: World, back: Bytes -> string, keys: seq<string>, before: seq<Json>, xs: seq<string>, after: seq<Json>)
    requires LawfulText(w, back) && AllTextual(w, xs) && GoodKeys(keys) && |before| + |xs| + |after| == |keys|
    ensures var r := Fields(WriteMixed(w, keys, before, xs, after), Names(keys));
      && r.Some? && r.value[..|before|] == before && r.value[|before| + |xs|..] == after
      && ReadTexts(back, r.value[|before|..|before| + |xs|]) == Some(xs)
  {
    var values := before + WriteTexts(w, xs) + after;
    RecordReadsBack(keys, values);
    TextsReadBack(w, back, xs);
    assert values[|before|..|before| + |xs|] == WriteTexts(w, xs);
  }

  lemma TextsAreClean(w: World, fmt: NumberFormat, xs: seq<string>, depth: nat)
    requires depth <= MAX_DEPTH
    ensures AllClean(fmt, WriteTexts(w, xs), depth)
  {
    forall i | 0 <= i < |xs| ensures Clean(fmt, WriteTexts(w, xs)[i], depth) {
      PlainIsClean(fmt, WriteText(w, xs[i]), depth);
    }
  }

  lemma MixedIsClean(w: World, fmt: NumberFormat, keys: seq<string>, before: seq<Json>, xs: seq<string>, after: seq<Json>, depth: nat)
    requires GoodKeys(keys) && |before| + |xs| + |after| == |keys| && depth < MAX_DEPTH
    requires AllClean(fmt, before, depth + 1) && AllClean(fmt, after, depth + 1)
    ensures Clean(fmt, WriteMixed(w, keys, before, xs, after), depth)
  {
    NamesDiffer(keys);
    TextsAreClean(w, fmt, xs, depth + 1);
    CleanJoins(fmt, before, WriteTexts(w, xs), depth + 1);
    CleanJoins(fmt, before + WriteTexts(w, xs), after, depth + 1);
    RecordIsClean(fmt, Names(keys), before + WriteTexts(w, xs) + after, depth);
  }

  /** A record of strings alone. */
  function WriteStrings(w: World, keys: seq<string>, xs: seq<string>): Json
    requires |keys| == |xs|
  {
    WriteMixed(w, keys, [], xs, [])
  }

  function ReadStrings(back: Bytes -> string, keys: seq<string>, v: Json): (r: Option<seq<string>>)
    ensures r.Some? ==> |r.value| == |keys|
  {
    match Fields(v, Names(keys))
    case None => None
    case Some(vs) => ReadTexts(back, vs[0..|keys|])
  }

  lemma StringsReadBack(w: World, back: Bytes -> string, keys: seq<string>, xs: seq<string>)
    requires LawfulText(w, back) && AllTextual(w, xs) && GoodKeys(keys) && |xs| == |keys|
    ensures ReadStrings(back, keys, WriteStrings(w, keys, xs)) == Some(xs)
  {
    MixedReadsBack(w, back, keys, [], xs, []);
  }

  // ----- operations -----

  function PlannedTexts(o: PlannedOperation): seq<string> { [o.operationId, o.attemptId, o.idempotencyKey] }

  function WritePlanned(w: World, o: PlannedOperation): Json { WriteStrings(w, PLANNED_KEYS, PlannedTexts(o)) }

  function ReadPlanned(back: Bytes -> string, v: Json): Option<PlannedOperation> {
    match ReadStrings(back, PLANNED_KEYS, v)
    case None => None
    case Some(xs) => Some(PlannedOperation(xs[0], xs[1], xs[2]))
  }

  lemma PlannedReadsBack(w: World, back: Bytes -> string, o: PlannedOperation)
    requires LawfulText(w, back) && AllTextual(w, PlannedTexts(o))
    ensures ReadPlanned(back, WritePlanned(w, o)) == Some(o)
  {
    PlannedKeysAreGood();
    StringsReadBack(w, back, PLANNED_KEYS, PlannedTexts(o));
  }

  lemma PlannedIsClean(w: World, fmt: NumberFormat, o: PlannedOperation, depth: nat)
    requires depth < MAX_DEPTH
    ensures Clean(fmt, WritePlanned(w, o), depth)
  {
    PlannedKeysAreGood();
    MixedIsClean(w, fmt, PLANNED_KEYS, [], PlannedTexts(o), [], depth);
  }

  function OperationTexts(o: OperationBinding): seq<string> { [o.operationId, o.attemptId, o.idempotencyKey] }

  function WriteOperation(w: World, o: OperationBinding): Json {
    WriteMixed(w, OPERATION_KEYS, [], OperationTexts(o), [WriteInt(o.fencingToken)])
  }

  function ReadOperation(back: Bytes -> string, v: Json): Option<OperationBinding> {
    match Fields(v, Names(OPERATION_KEYS))
    case None => None
    case Some(vs) =>
      var (xs, token) := (ReadTexts(back, vs[0..3]), ReadInt(vs[3..][0]));
      if xs.None? || token.None? then None else Some(OperationBinding(xs.value[0], xs.value[1], xs.value[2], token.value))
  }

  predicate OperationWrites(w: World, o: OperationBinding) {
    AllTextual(w, OperationTexts(o)) && 0 <= o.fencingToken <= MAX_EXACT
  }

  lemma OperationReadsBack(w: World, back: Bytes -> string, o: OperationBinding)
    requires LawfulText(w, back) && OperationWrites(w, o)
    ensures ReadOperation(back, WriteOperation(w, o)) == Some(o)
  {
    OperationKeysAreGood();
    DecimalIsNumber(o.fencingToken);
    MixedReadsBack(w, back, OPERATION_KEYS, [], OperationTexts(o), [WriteInt(o.fencingToken)]);
  }

  lemma OperationIsClean(w: World, fmt: NumberFormat, o: OperationBinding, depth: nat)
    requires ExactIntegers(fmt) && 0 <= o.fencingToken <= MAX_EXACT && depth < MAX_DEPTH
    ensures Clean(fmt, WriteOperation(w, o), depth)
  {
    OperationKeysAreGood();
    IntReadsBack(fmt, o.fencingToken, depth + 1);
    MixedIsClean(w, fmt, OPERATION_KEYS, [], OperationTexts(o), [WriteInt(o.fencingToken)], depth);
  }

  // ----- bindings -----

  function ProviderTexts(p: ProviderBinding): seq<string> { [p.revisionId, p.snapshotHash, p.policyDigest, p.decidedAt] }

  function WriteProvider(w: World, p: ProviderBinding): Json { WriteStrings(w, PROVIDER_KEYS, ProviderTexts(p)) }

  function ReadProvider(back: Bytes -> string, v: Json): Option<ProviderBinding> {
    match ReadStrings(back, PROVIDER_KEYS, v)
    case None => None
    case Some(xs) => Some(ProviderBinding(xs[0], xs[1], xs[2], xs[3]))
  }

  lemma ProviderReadsBack(w: World, back: Bytes -> string, p: ProviderBinding)
    requires LawfulText(w, back) && AllTextual(w, ProviderTexts(p))
    ensures ReadProvider(back, WriteProvider(w, p)) == Some(p)
  {
    ProviderKeysAreGood();
    StringsReadBack(w, back, PROVIDER_KEYS, ProviderTexts(p));
  }

  lemma ProviderIsClean(w: World, fmt: NumberFormat, p: ProviderBinding, depth: nat)
    requires depth < MAX_DEPTH
    ensures Clean(fmt, WriteProvider(w, p), depth)
  {
    ProviderKeysAreGood();
    MixedIsClean(w, fmt, PROVIDER_KEYS, [], ProviderTexts(p), [], depth);
  }

  /** The bindings that hold an operation, and strings after it. */
  function WriteBinding(w: World, keys: seq<string>, o: OperationBinding, xs: seq<string>): Json
    requires |keys| == 1 + |xs|
  {
    WriteMixed(w, keys, [WriteOperation(w, o)], xs, [])
  }

  function ReadBinding(back: Bytes -> string, keys: seq<string>, v: Json): (r: Option<(OperationBinding, seq<string>)>)
    requires keys != []
    ensures r.Some? ==> |r.value.1| + 1 == |keys|
  {
    match Fields(v, Names(keys))
    case None => None
    case Some(vs) =>
      var (o, xs) := (ReadOperation(back, vs[..1][0]), ReadTexts(back, vs[1..|keys|]));
      if o.None? || xs.None? then None else Some((o.value, xs.value))
  }

  lemma BindingReadsBack(w: World, back: Bytes -> string, keys: seq<string>, o: OperationBinding, xs: seq<string>)
    requires LawfulText(w, back) && OperationWrites(w, o) && AllTextual(w, xs) && GoodKeys(keys) && |keys| == 1 + |xs|
    ensures ReadBinding(back, keys, WriteBinding(w, keys, o, xs)) == Some((o, xs))
  {
    OperationReadsBack(w, back, o);
    MixedReadsBack(w, back, keys, [WriteOperation(w, o)], xs, []);
  }

  lemma BindingIsClean(w: World, fmt: NumberFormat, keys: seq<string>, o: OperationBinding, xs: seq<string>, depth: nat)
    requires ExactIntegers(fmt) && 0 <= o.fencingToken <= MAX_EXACT && GoodKeys(keys) && |keys| == 1 + |xs| && depth + 1 < MAX_DEPTH
    ensures Clean(fmt, WriteBinding(w, keys, o, xs), depth)
  {
    OperationIsClean(w, fmt, o, depth + 1);
    OneIsClean(fmt, WriteOperation(w, o), depth + 1);
    MixedIsClean(w, fmt, keys, [WriteOperation(w, o)], xs, [], depth);
  }

  lemma OneIsClean(fmt: NumberFormat, v: Json, depth: nat)
    requires Clean(fmt, v, depth)
    ensures AllClean(fmt, [v], depth)
  {
  }

  function ExecTexts(b: ExecBinding): seq<string> { [b.resultDigest, b.usageDigest] }

  function WriteExec(w: World, b: ExecBinding): Json { WriteBinding(w, EXEC_KEYS, b.operation, ExecTexts(b)) }

  function ReadExec(back: Bytes -> string, v: Json): Option<ExecBinding> {
    match ReadBinding(back, EXEC_KEYS, v)
    case None => None
    case Some((o, xs)) => Some(ExecBinding(o, xs[0], xs[1]))
  }

  lemma ExecReadsBack(w: World, back: Bytes -> string, b: ExecBinding)
    requires LawfulText(w, back) && OperationWrites(w, b.operation) && AllTextual(w, ExecTexts(b))
    ensures ReadExec(back, WriteExec(w, b)) == Some(b)
  {
    ExecKeysAreGood();
    BindingReadsBack(w, back, EXEC_KEYS, b.operation, ExecTexts(b));
  }

  function TerminalTexts(b: TerminalBinding): seq<string> { [b.sessionId, b.handoffReference, b.handoffDigest] }

  function WriteTerminal(w: World, b: TerminalBinding): Json { WriteBinding(w, TERMINAL_KEYS, b.operation, TerminalTexts(b)) }

  function ReadTerminal(back: Bytes -> string, v: Json): Option<TerminalBinding> {
    match ReadBinding(back, TERMINAL_KEYS, v)
    case None => None
    case Some((o, xs)) => Some(TerminalBinding(o, xs[0], xs[1], xs[2]))
  }

  lemma TerminalReadsBack(w: World, back: Bytes -> string, b: TerminalBinding)
    requires LawfulText(w, back) && OperationWrites(w, b.operation) && AllTextual(w, TerminalTexts(b))
    ensures ReadTerminal(back, WriteTerminal(w, b)) == Some(b)
  {
    TerminalKeysAreGood();
    BindingReadsBack(w, back, TERMINAL_KEYS, b.operation, TerminalTexts(b));
  }

  function ArtifactTexts(b: ArtifactBinding): seq<string> { [b.evidenceDigest] }

  function WriteArtifact(w: World, b: ArtifactBinding): Json { WriteBinding(w, ARTIFACT_KEYS, b.operation, ArtifactTexts(b)) }

  function ReadArtifact(back: Bytes -> string, v: Json): Option<ArtifactBinding> {
    match ReadBinding(back, ARTIFACT_KEYS, v)
    case None => None
    case Some((o, xs)) => Some(ArtifactBinding(o, xs[0]))
  }

  lemma ArtifactReadsBack(w: World, back: Bytes -> string, b: ArtifactBinding)
    requires LawfulText(w, back) && OperationWrites(w, b.operation) && AllTextual(w, ArtifactTexts(b))
    ensures ReadArtifact(back, WriteArtifact(w, b)) == Some(b)
  {
    ExecKeysAreGood();
    BindingReadsBack(w, back, ARTIFACT_KEYS, b.operation, ArtifactTexts(b));
  }

  // ----- the plan -----

  function PlanTexts(p: Plan): seq<string> {
    [p.runId, p.tenantA, p.tenantB, p.workOrderA, p.workOrderB, p.workspaceId, p.branchId, p.resolutionId, p.sandboxId]
  }

  function OperationsOf(p: Plan): seq<PlannedOperation> { [p.create, p.exec, p.terminal, p.artifact] }

  function WriteAllPlanned(w: World, os: seq<PlannedOperation>): (vs: seq<Json>)
    ensures |vs| == |os|
  {
    if os == [] then [] else [WritePlanned(w, os[0])] + WriteAllPlanned(w, os[1..])
  }

  function ReadAllPlanned(back: Bytes -> string, vs: seq<Json>): (r: Option<seq<PlannedOperation>>)
    ensures r.Some? ==> |r.value| == |vs|
  {
    if vs == [] then Some([])
    else
      var (first, rest) := (ReadPlanned(back, vs[0]), ReadAllPlanned(back, vs[1..]));
      if first.None? || rest.None? then None else Some([first.value] + rest.value)
  }

  predicate OperationsWrite(w: World, os: seq<PlannedOperation>) {
    forall i :: 0 <= i < |os| ==> AllTextual(w, PlannedTexts(os[i]))
  }

  lemma {:induction false} AllPlannedReadBack(w: World, back: Bytes -> string, os: seq<PlannedOperation>)
    requires LawfulText(w, back) && OperationsWrite(w, os)
    ensures ReadAllPlanned(back, WriteAllPlanned(w, os)) == Some(os)
  {
    if os != [] {
      AllPlannedReadBack(w, back, os[1..]);
      WritesOneMore(w, back, os[0], WriteAllPlanned(w, os[1..]), os[1..]);
      assert [os[0]] + os[1..] == os;
    }
  }

  lemma OneMorePlanned(back: Bytes -> string, v: Json, vs: seq<Json>, o: PlannedOperation, os: seq<PlannedOperation>)
    requires ReadPlanned(back, v) == Some(o) && ReadAllPlanned(back, vs) == Some(os)
    ensures ReadAllPlanned(back, [v] + vs) == Some([o] + os)
  {
    assert ([v] + vs)[1..] == vs;
  }

  lemma WritesOneMore(w: World, back: Bytes -> string, o: PlannedOperation, vs: seq<Json>, os: seq<PlannedOperation>)
    requires LawfulText(w, back) && AllTextual(w, PlannedTexts(o)) && ReadAllPlanned(back, vs) == Some(os)
    ensures ReadAllPlanned(back, [WritePlanned(w, o)] + vs) == Some([o] + os)
  {
    PlannedReadsBack(w, back, o);
    OneMorePlanned(back, WritePlanned(w, o), vs, o, os);
  }

  lemma {:induction false} AllPlannedAreClean(w: World, fmt: NumberFormat, os: seq<PlannedOperation>, depth: nat)
    requires depth < MAX_DEPTH
    ensures AllClean(fmt, WriteAllPlanned(w, os), depth)
  {
    if os != [] {
      PlannedIsClean(w, fmt, os[0], depth);
      OneIsClean(fmt, WritePlanned(w, os[0]), depth);
      AllPlannedAreClean(w, fmt, os[1..], depth);
      CleanJoins(fmt, [WritePlanned(w, os[0])], WriteAllPlanned(w, os[1..]), depth);
    }
  }

  /** Strings, and planned operations after them. */
  function ReadParts(back: Bytes -> string, keys: seq<string>, n: nat, v: Json): (r: Option<(seq<string>, seq<PlannedOperation>)>)
    requires n <= |keys|
    ensures r.Some? ==> |r.value.0| == n && |r.value.1| == |keys| - n
  {
    match Fields(v, Names(keys))
    case None => None
    case Some(vs) =>
      var (xs, os) := (ReadTexts(back, vs[0..n]), ReadAllPlanned(back, vs[n..]));
      if xs.None? || os.None? then None else Some((xs.value, os.value))
  }

  lemma PartsReadBack(w: World, back: Bytes -> string, keys: seq<string>, xs: seq<string>, os: seq<PlannedOperation>, after: seq<Json>)
    requires LawfulText(w, back) && AllTextual(w, xs) && GoodKeys(keys) && |keys| == |xs| + |after|
    requires ReadAllPlanned(back, after) == Some(os)
    ensures ReadParts(back, keys, |xs|, WriteMixed(w, keys, [], xs, after)) == Some((xs, os))
  {
    MixedReadsBack(w, back, keys, [], xs, after);
  }

  function WritePlan(w: World, p: Plan): Json {
    WriteMixed(w, PLAN_KEYS, [], PlanTexts(p), WriteAllPlanned(w, OperationsOf(p)))
  }

  function PlanFrom(x: seq<string>, os: seq<PlannedOperation>): Plan
    requires |x| == 9 && |os| == 4
  {
    Plan(x[0], x[1], x[2], x[3], x[4], x[5], x[6], x[7], x[8], os[0], os[1], os[2], os[3])
  }

  function ReadPlan(back: Bytes -> string, v: Json): Option<Plan> {
    match ReadParts(back, PLAN_KEYS, 9, v)
    case None => None
    case Some((xs, os)) => Some(PlanFrom(xs, os))
  }

  predicate PlanWrites(w: World, p: Plan) {
    AllTextual(w, PlanTexts(p)) && OperationsWrite(w, OperationsOf(p))
  }

  lemma PlanReadsBack(w: World, back: Bytes -> string, p: Plan)
    requires LawfulText(w, back) && PlanWrites(w, p)
    ensures ReadPlan(back, WritePlan(w, p)) == Some(p)
  {
    PlanKeysAreGood();
    AllPlannedReadBack(w, back, OperationsOf(p));
    PartsReadBack(w, back, PLAN_KEYS, PlanTexts(p), OperationsOf(p), WriteAllPlanned(w, OperationsOf(p)));
  }

  lemma PlanIsClean(w: World, fmt: NumberFormat, p: Plan, depth: nat)
    requires depth + 1 < MAX_DEPTH
    ensures Clean(fmt, WritePlan(w, p), depth)
  {
    PlanKeysAreGood();
    AllPlannedAreClean(w, fmt, OperationsOf(p), depth + 1);
    MixedIsClean(w, fmt, PLAN_KEYS, [], PlanTexts(p), WriteAllPlanned(w, OperationsOf(p)), depth);
  }

  // ----- the state -----

  function StageName(stage: Stage): string {
    match stage
    case Planned => "planned"
    case CapabilitiesBound => "capabilities_bound"
    case LifecycleBound => "lifecycle_bound"
    case ExecBound => "exec_bound"
    case TerminalBound => "terminal_bound"
    case InitialComplete => "initial_complete"
  }

  /** Another string names no stage, and a state with one is not valid. */
  function StageNamed(name: string): Option<Stage> {
    if name == "planned" then Some(Planned)
    else if name == "capabilities_bound" then Some(CapabilitiesBound)
    else if name == "lifecycle_bound" then Some(LifecycleBound)
    else if name == "exec_bound" then Some(ExecBound)
    else if name == "terminal_bound" then Some(TerminalBound)
    else if name == "initial_complete" then Some(InitialComplete)
    else None
  }

  lemma StageReadsBack(stage: Stage)
    ensures StageNamed(StageName(stage)) == Some(stage)
  {
  }

  lemma StageIsAscii(stage: Stage)
    ensures IsAscii(StageName(stage))
  {
  }

  /** Format, names and digest of the build; the revision, the stage and the plan. */
  datatype Head = Head(header: Header, storeRevision: int, stage: Stage, plan: Plan)

  function HeadValues(w: World, s: State): seq<Json> {
    [WriteInt(s.header.formatVersion)] + WriteTexts(w, HeaderTexts(s.header))
    + RestOfHead(w, s)
  }

  function RestOfHead(w: World, s: State): seq<Json> {
    [WriteInt(s.storeRevision), WriteText(w, StageName(s.stage)), WritePlan(w, s.plan)]
  }

  function ReadHead(back: Bytes -> string, vs: seq<Json>): Option<Head>
    requires |vs| == 8
  {
    var (version, names) := (ReadInt(vs[0]), ReadTexts(back, vs[1..5]));
    var (revision, stage, plan) := (ReadInt(vs[5]), ReadTexts(back, vs[6..7]), ReadPlan(back, vs[7]));
    if version.None? || names.None? || revision.None? || stage.None? || plan.None? || StageNamed(stage.value[0]).None? then None
    else
      var x := names.value;
      Some(Head(Header(version.value, x[0], x[1], x[2], x[3]), revision.value, StageNamed(stage.value[0]).value, plan.value))
  }

  /** null stands for an absent binding. */
  function ReadOptional<T>(v: Json, r: Option<T>): Option<Option<T>> {
    if v.Null? then Some(None) else if r.None? then None else Some(r)
  }

  function ProviderValue(w: World, s: State): Json { if s.provider.None? then Null else WriteProvider(w, s.provider.value) }

  function LifecycleValue(w: World, s: State): Json { if s.lifecycle.None? then Null else WriteOperation(w, s.lifecycle.value) }

  function ExecValue(w: World, s: State): Json { if s.exec.None? then Null else WriteExec(w, s.exec.value) }

  function TerminalValue(w: World, s: State): Json { if s.terminal.None? then Null else WriteTerminal(w, s.terminal.value) }

  function ArtifactValue(w: World, s: State): Json { if s.artifact.None? then Null else WriteArtifact(w, s.artifact.value) }

  function BindingValues(w: World, s: State): seq<Json> {
    [ProviderValue(w, s), LifecycleValue(w, s), ExecValue(w, s)] + ([TerminalValue(w, s)] + [ArtifactValue(w, s)])
  }

  function WriteState(w: World, s: State): Json {
    Record(Names(STATE_KEYS), HeadValues(w, s) + BindingValues(w, s))
  }

  function StateFrom(back: Bytes -> string, h: Head, vs: seq<Json>): Option<State>
    requires |vs| == 5
  {
    var provider := ReadOptional(vs[0], ReadProvider(back, vs[0]));
    var lifecycle := ReadOptional(vs[1], ReadOperation(back, vs[1]));
    var exec := ReadOptional(vs[2], ReadExec(back, vs[2]));
    var terminal := ReadOptional(vs[3], ReadTerminal(back, vs[3]));
    var artifact := ReadOptional(vs[4], ReadArtifact(back, vs[4]));
    if provider.None? || lifecycle.None? || exec.None? || terminal.None? || artifact.None? then None
    else
      Some(State(h.header, h.storeRevision, h.stage, h.plan,
                 provider.value, lifecycle.value, exec.value, terminal.value, artifact.value))
  }

  /** hasExactStateKeys, then the decoder. */
  function ReadState(back: Bytes -> string, v: Json): Option<State> {
    match Fields(v, Names(STATE_KEYS))
    case None => None
    case Some(vs) =>
      match ReadHead(back, vs[..8])
      case None => None
      case Some(h) => StateFrom(back, h, vs[8..])
  }

  /** Everything in the head can be written. */
  predicate HeadWrites(w: World, s: State) {
    s.header == w.header && 0 <= s.storeRevision <= MAX_EXACT && PlanWrites(w, s.plan)
  }

  /** Where the parts of the head stand. */
  lemma HeadPlaces(first: Json, names: seq<Json>, rest: seq<Json>)
    requires |names| == 4 && |rest| == 3
    ensures var vs := [first] + names + rest;
      vs[0] == first && vs[1..5] == names && vs[5] == rest[0] && vs[6..7] == [rest[1]] && vs[7] == rest[2]
  {
  }

  lemma NamesReadBack(w: World, back: Bytes -> string, s: State)
    requires LawfulText(w, back) && HeadWrites(w, s)
    ensures ReadTexts(back, WriteTexts(w, HeaderTexts(s.header))) == Some(HeaderTexts(s.header))
    ensures ReadTexts(back, [WriteText(w, StageName(s.stage))]) == Some([StageName(s.stage)])
  {
    TextsReadBack(w, back, HeaderTexts(s.header));
    StageIsAscii(s.stage);
    TextsReadBack(w, back, [StageName(s.stage)]);
    assert WriteTexts(w, [StageName(s.stage)]) == [WriteText(w, StageName(s.stage))];
  }

  lemma HeadReadsBack(w: World, back: Bytes -> string, s: State)
    requires LawfulText(w, back) && HeadWrites(w, s)
    ensures ReadHead(back, HeadValues(w, s)) == Some(Head(s.header, s.storeRevision, s.stage, s.plan))
  {
    DecimalIsNumber(s.header.formatVersion);
    DecimalIsNumber(s.storeRevision);
    NamesReadBack(w, back, s);
    StageReadsBack(s.stage);
    PlanReadsBack(w, back, s.plan);
    HeadPlaces(WriteInt(s.header.formatVersion), WriteTexts(w, HeaderTexts(s.header)), RestOfHead(w, s));
    HeadFrom(back, HeadValues(w, s), s.header, s.storeRevision, s.stage, s.plan);
  }

  lemma HeadFrom(back: Bytes -> string, vs: seq<Json>, header: Header, revision: int, stage: Stage, plan: Plan)
    requires |vs| == 8 && ReadInt(vs[0]) == Some(header.formatVersion) && ReadTexts(back, vs[1..5]) == Some(HeaderTexts(header))
    requires ReadInt(vs[5]) == Some(revision) && ReadTexts(back, vs[6..7]) == Some([StageName(stage)])
    requires ReadPlan(back, vs[7]) == Some(plan) && StageNamed(StageName(stage)) == Some(stage)
    ensures ReadHead(back, vs) == Some(Head(header, revision, stage, plan))
  {
  }

  lemma HeadIsClean(w: World, fmt: NumberFormat, back: Bytes -> string, s: State)
    requires LawfulText(w, back) && ExactIntegers(fmt) && HeadWrites(w, s)
    ensures AllClean(fmt, HeadValues(w, s), 1)
  {
    IntReadsBack(fmt, s.header.formatVersion, 1);
    OneIsClean(fmt, WriteInt(s.header.formatVersion), 1);
    TextsAreClean(w, fmt, HeaderTexts(s.header), 1);
    CleanJoins(fmt, [WriteInt(s.header.formatVersion)], WriteTexts(w, HeaderTexts(s.header)), 1);
    RestOfHeadIsClean(w, fmt, s);
    CleanJoins(fmt, [WriteInt(s.header.formatVersion)] + WriteTexts(w, HeaderTexts(s.header)), RestOfHead(w, s), 1);
  }

  lemma RestOfHeadIsClean(w: World, fmt: NumberFormat, s: State)
    requires ExactIntegers(fmt) && 0 <= s.storeRevision <= MAX_EXACT
    ensures AllClean(fmt, RestOfHead(w, s), 1)
  {
    IntReadsBack(fmt, s.storeRevision, 1);
    PlainIsClean(fmt, WriteText(w, StageName(s.stage)), 1);
    PlanIsClean(w, fmt, s.plan, 1);
    ThreeAreClean(fmt, WriteInt(s.storeRevision), WriteText(w, StageName(s.stage)), WritePlan(w, s.plan), 1);
  }

  lemma ThreeAreClean(fmt: NumberFormat, u: Json, v: Json, x: Json, depth: nat)
    requires Clean(fmt, u, depth) && Clean(fmt, v, depth) && Clean(fmt, x, depth)
    ensures AllClean(fmt, [u, v, x], depth)
  {
  }

  // ----- the bindings of a state -----

  predicate BindingsWrite(w: World, s: State) {
    && (s.provider.Some? ==> AllTextual(w, ProviderTexts(s.provider.value)))
    && (s.lifecycle.Some? ==> OperationWrites(w, s.lifecycle.value))
    && (s.exec.Some? ==> OperationWrites(w, s.exec.value.operation) && AllTextual(w, ExecTexts(s.exec.value)))
    && (s.terminal.Some? ==> OperationWrites(w, s.terminal.value.operation) && AllTextual(w, TerminalTexts(s.terminal.value)))
    && (s.artifact.Some? ==> OperationWrites(w, s.artifact.value.operation) && AllTextual(w, ArtifactTexts(s.artifact.value)))
  }

  lemma EarlyBindingsReadBack(w: World, back: Bytes -> string, s: State)
    requires LawfulText(w, back) && BindingsWrite(w, s)
    ensures ReadOptional(ProviderValue(w, s), ReadProvider(back, ProviderValue(w, s))) == Some(s.provider)
    ensures ReadOptional(LifecycleValue(w, s), ReadOperation(back, LifecycleValue(w, s))) == Some(s.lifecycle)
    ensures ReadOptional(ExecValue(w, s), ReadExec(back, ExecValue(w, s))) == Some(s.exec)
  {
    if s.provider.Some? { ProviderReadsBack(w, back, s.provider.value); }
    if s.lifecycle.Some? { OperationReadsBack(w, back, s.lifecycle.value); }
    if s.exec.Some? { ExecReadsBack(w, back, s.exec.value); }
  }

  lemma TerminalComesBack(w: World, back: Bytes -> string, s: State)
    requires LawfulText(w, back) && BindingsWrite(w, s)
    ensures ReadOptional(TerminalValue(w, s), ReadTerminal(back, TerminalValue(w, s))) == Some(s.terminal)
  {
    if s.terminal.Some? { TerminalReadsBack(w, back, s.terminal.value); }
  }

  lemma ArtifactComesBack(w: World, back: Bytes -> string, s: State)
    requires LawfulText(w, back) && BindingsWrite(w, s)
    ensures ReadOptional(ArtifactValue(w, s), ReadArtifact(back, ArtifactValue(w, s))) == Some(s.artifact)
  {
    if s.artifact.Some? { ArtifactReadsBack(w, back, s.artifact.value); }
  }

  lemma BindingsReadBack(w: World, back: Bytes -> string, s: State)
    requires LawfulText(w, back) && BindingsWrite(w, s)
    ensures StateFrom(back, Head(s.header, s.storeRevision, s.stage, s.plan), BindingValues(w, s)) == Some(s)
  {
    EarlyBindingsReadBack(w, back, s);
    TerminalComesBack(w, back, s);
    ArtifactComesBack(w, back, s);
  }

  lemma EarlyBindingsAreClean(w: World, fmt: NumberFormat, s: State)
    requires ExactIntegers(fmt) && BindingsWrite(w, s)
    ensures AllClean(fmt, [ProviderValue(w, s), LifecycleValue(w, s), ExecValue(w, s)], 1)
  {
    if s.provider.Some? { ProviderIsClean(w, fmt, s.provider.value, 1); } else { PlainIsClean(fmt, Null, 1); }
    if s.lifecycle.Some? { OperationIsClean(w, fmt, s.lifecycle.value, 1); } else { PlainIsClean(fmt, Null, 1); }
    ExecIsClean(w, fmt, s);
    ThreeAreClean(fmt, ProviderValue(w, s), LifecycleValue(w, s), ExecValue(w, s), 1);
  }

  lemma ExecIsClean(w: World, fmt: NumberFormat, s: State)
    requires ExactIntegers(fmt) && BindingsWrite(w, s)
    ensures Clean(fmt, ExecValue(w, s), 1)
  {
    ExecKeysAreGood();
    if s.exec.Some? {
      BindingIsClean(w, fmt, EXEC_KEYS, s.exec.value.operation, ExecTexts(s.exec.value), 1);
    } else {
      PlainIsClean(fmt, Null, 1);
    }
  }

  lemma TerminalIsClean(w: World, fmt: NumberFormat, s: State)
    requires ExactIntegers(fmt) && BindingsWrite(w, s)
    ensures Clean(fmt, TerminalValue(w, s), 1)
  {
    TerminalKeysAreGood();
    if s.terminal.Some? {
      BindingIsClean(w, fmt, TERMINAL_KEYS, s.terminal.value.operation, TerminalTexts(s.terminal.value), 1);
    } else {
      PlainIsClean(fmt, Null, 1);
    }
  }

  lemma ArtifactIsClean(w: World, fmt: NumberFormat, s: State)
    requires ExactIntegers(fmt) && BindingsWrite(w, s)
    ensures Clean(fmt, ArtifactValue(w, s), 1)
  {
    ExecKeysAreGood();
    if s.artifact.Some? {
      BindingIsClean(w, fmt, ARTIFACT_KEYS, s.artifact.value.operation, ArtifactTexts(s.artifact.value), 1);
    } else {
      PlainIsClean(fmt, Null, 1);
    }
  }

  lemma BindingsAreClean(w: World, fmt: NumberFormat, s: State)
    requires ExactIntegers(fmt) && BindingsWrite(w, s)
    ensures AllClean(fmt, BindingValues(w, s), 1)
  {
    EarlyBindingsAreClean(w, fmt, s);
    TerminalIsClean(w, fmt, s);
    ArtifactIsClean(w, fmt, s);
    OneIsClean(fmt, TerminalValue(w, s), 1);
    OneIsClean(fmt, ArtifactValue(w, s), 1);
    CleanJoins(fmt, [TerminalValue(w, s)], [ArtifactValue(w, s)], 1);
    CleanJoins(fmt, [ProviderValue(w, s), LifecycleValue(w, s), ExecValue(w, s)], [TerminalValue(w, s)] + [ArtifactValue(w, s)], 1);
  }
}
