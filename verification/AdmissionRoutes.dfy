/** Which contract and which endpoint an admitted operation stands for. */
module AdmissionRoutes {
  import opened Prelude

  datatype Operation =
    | Create | Restore | SetDesiredState | ExtendLease | Exec | CancelExec | OpenRuntimeSession | OpenBrowserSession
    | StageArtifact | Snapshot | Terminate
    | ReadSandbox | ReadOperation | ReadResult | ReadRuntimeSession | ReadBrowserSession | ReadArtifactStagingEvidence
    | ReadUsageEvidence | ReadSnapshotManifest | ReadEvents | ConnectRuntimeSession
    | OtherOperation(name: string)

  /** urn:shell-echo:sandbox-runtime:<request or descriptor>:<name>:v1 */
  datatype Contract = Request(name: string) | Descriptor(name: string)

  datatype Profile = MutationProfile | DescriptorProfile

  datatype Method = Get | Post | OtherMethod

  /** A nil query is not an empty one. */
  datatype Target = Target(verb: Method, path: string, query: Option<seq<(string, string)>>)

  function OperationBinding(op: Operation): Option<(Contract, Profile)> {
    match op
    case Create => Some((Request("create"), MutationProfile))
    case Restore => Some((Request("restore"), MutationProfile))
    case SetDesiredState => Some((Request("set-desired-state"), MutationProfile))
    case ExtendLease => Some((Request("extend-lease"), MutationProfile))
    case Exec => Some((Request("exec"), MutationProfile))
    case CancelExec => Some((Request("cancel-exec"), MutationProfile))
    case OpenRuntimeSession => Some((Request("open-runtime-session"), MutationProfile))
    case OpenBrowserSession => Some((Request("open-browser-session"), MutationProfile))
    case StageArtifact => Some((Request("stage-artifact"), MutationProfile))
    case Snapshot => Some((Request("snapshot"), MutationProfile))
    case Terminate => Some((Request("terminate"), MutationProfile))
    case ReadSandbox => Some((Descriptor("status"), DescriptorProfile))
    case ReadOperation => Some((Descriptor("operation"), DescriptorProfile))
    case ReadResult => Some((Descriptor("exec-result"), DescriptorProfile))
    case ReadRuntimeSession => Some((Descriptor("runtime-session"), DescriptorProfile))
    case ReadBrowserSession => Some((Descriptor("browser-session"), DescriptorProfile))
    case ReadArtifactStagingEvidence => Some((Descriptor("artifact-staging-evidence"), DescriptorProfile))
    case ReadUsageEvidence => Some((Descriptor("usage-evidence"), DescriptorProfile))
    case ReadSnapshotManifest => Some((Descriptor("snapshot-manifest"), DescriptorProfile))
    case ReadEvents => Some((Descriptor("events"), DescriptorProfile))
    case ConnectRuntimeSession => Some((Descriptor("runtime-session-connect"), DescriptorProfile))
    case OtherOperation(_) => None
  }

  datatype Place = Collection | SandboxItem | OperationItem | ConnectPoint

  /** The endpoint of an operation: verb, place and what follows the identifier. */
  function Route(op: Operation): Option<(Method, Place, string)> {
    match op
    case Create => Some((Post, Collection, ""))
    case ReadSandbox => Some((Get, SandboxItem, ""))
    case Exec => Some((Post, SandboxItem, "/exec"))
    case CancelExec => Some((Post, SandboxItem, "/exec:cancel"))
    case OpenRuntimeSession => Some((Post, SandboxItem, "/runtime-sessions"))
    case OpenBrowserSession => Some((Post, SandboxItem, "/browser-sessions"))
    case StageArtifact => Some((Post, SandboxItem, "/artifacts:stage"))
    case ReadOperation => Some((Get, OperationItem, ""))
    case ReadResult => Some((Get, OperationItem, "/exec-result"))
    case ReadRuntimeSession => Some((Get, OperationItem, "/runtime-session"))
    case ReadBrowserSession => Some((Get, OperationItem, "/browser-session"))
    case ReadArtifactStagingEvidence => Some((Get, OperationItem, "/artifact-staging-evidence"))
    case ReadUsageEvidence => Some((Get, OperationItem, "/usage-evidence"))
    case ConnectRuntimeSession => Some((Get, ConnectPoint, ""))
    case _ => None
  }

  function Path(place: Place, sandboxId: string, operationId: string, suffix: string): string {
    match place
    case Collection => "/v1/sandboxes"
    case SandboxItem => "/v1/sandboxes/" + (sandboxId + suffix)
    case OperationItem => "/v1/operations/" + (operationId + suffix)
    case ConnectPoint => "/v1/runtime-sessions:connect"
  }

  predicate TargetMatches(op: Operation, sandboxId: string, operationId: string, target: Target) {
    && target.query == Some([])
    && match Route(op)
       case None => false
       case Some((verb, place, suffix)) => target.verb == verb && target.path == Path(place, sandboxId, operationId, suffix)
  }

  /** A non-empty path segment. */
  predicate Segment(s: string) { s != "" && forall i :: 0 <= i < |s| ==> s[i] != '/' }

  predicate Tail(s: string) { s == "" || s[0] == '/' }

  lemma SegmentsSplit(a: string, s: string, b: string, t: string)
    requires Segment(a) && Segment(b) && Tail(s) && Tail(t)
    requires a + s == b + t
    ensures a == b && s == t
  {
    var whole := a + s;
    assert forall i :: 0 <= i < |a| ==> whole[i] == a[i];
    assert whole == b + t;
    assert forall i :: 0 <= i < |b| ==> whole[i] == b[i];
    assert s != "" ==> whole[|a|] == '/';
    assert t != "" ==> whole[|b|] == '/';
    assert |a| == |b|;
    assert a == whole[..|a|] && b == whole[..|b|];
    assert s == whole[|a|..] && t == whole[|b|..];
  }

  lemma PrefixSplits(p: string, x: string, y: string)
    requires p + x == p + y
    ensures x == y
  {
    assert (p + x)[|p|..] == x && (p + y)[|p|..] == y;
  }

  /** A path tells its place. */
  lemma PathTellsPlace(p: Place, q: Place, s: string, o: string, x: string, s': string, o': string, y: string)
    requires Segment(s) && Segment(o) && Segment(s') && Segment(o')
    requires Path(p, s, o, x) == Path(q, s', o', y)
    ensures p == q
  {
    var path := Path(p, s, o, x);
    assert Path(p, s, o, x)[4] == (match p case Collection => 's' case SandboxItem => 's' case OperationItem => 'o' case ConnectPoint => 'r');
    assert Path(q, s', o', y)[4] == (match q case Collection => 's' case SandboxItem => 's' case OperationItem => 'o' case ConnectPoint => 'r');
    if p.Collection? { assert |path| == 13; }
    if q.Collection? { assert |path| == 13; }
  }

  lemma SuffixesAreTails(op: Operation)
    ensures Route(op).Some? ==> Tail(Route(op).value.2)
  {
  }

  /** No two operations share verb, place and suffix. */
  lemma RouteTellsOperation(op: Operation, other: Operation)
    requires Route(op).Some? && Route(op) == Route(other)
    ensures op == other
  {
    var (_, _, x) := Route(op).value;
    assert x == Route(other).value.2;
    SuffixLength(op);
    SuffixLength(other);
  }

  /** The length of an operation's suffix: with verb and place it tells operations apart, but for two pairs. */
  function Length(op: Operation): nat
    requires Route(op).Some?
  {
    match op
    case Exec => 5
    case CancelExec => 12
    case OpenRuntimeSession => 17
    case OpenBrowserSession => 17
    case StageArtifact => 16
    case ReadResult => 12
    case ReadRuntimeSession => 16
    case ReadBrowserSession => 16
    case ReadArtifactStagingEvidence => 26
    case ReadUsageEvidence => 15
    case _ => 0
  }

  lemma SuffixLength(op: Operation)
    requires Route(op).Some?
    ensures |Route(op).value.2| == Length(op)
    ensures op == OpenRuntimeSession ==> Route(op).value.2[1] == 'r'
    ensures op == OpenBrowserSession ==> Route(op).value.2[1] == 'b'
    ensures op == ReadRuntimeSession ==> Route(op).value.2[1] == 'r'
    ensures op == ReadBrowserSession ==> Route(op).value.2[1] == 'b'
  {
  }

  /** An endpoint belongs to one operation on one resource: an admission for it fits no other. */
  lemma TargetTellsOperation(
    op: Operation, s: string, o: string, other: Operation, s': string, o': string, target: Target)
    requires Segment(s) && Segment(o) && Segment(s') && Segment(o')
    requires TargetMatches(op, s, o, target) && TargetMatches(other, s', o', target)
    ensures op == other
    ensures Route(op).value.1 == SandboxItem ==> s == s'
    ensures Route(op).value.1 == OperationItem ==> o == o'
  {
    var (_, p, x) := Route(op).value;
    var (_, q, y) := Route(other).value;
    PathTellsPlace(p, q, s, o, x, s', o', y);
    SuffixesAreTails(op);
    SuffixesAreTails(other);
    if p == SandboxItem {
      PrefixSplits("/v1/sandboxes/", s + x, s' + y);
      SegmentsSplit(s, x, s', y);
    } else if p == OperationItem {
      PrefixSplits("/v1/operations/", o + x, o' + y);
      SegmentsSplit(o, x, o', y);
    }
    NoSuffixElsewhere(op);
    NoSuffixElsewhere(other);
    RouteTellsOperation(op, other);
  }

  lemma NoSuffixElsewhere(op: Operation)
    requires Route(op).Some?
    ensures Route(op).value.1 == Collection || Route(op).value.1 == ConnectPoint ==> Route(op).value.2 == ""
  {
  }

  /** With no query, this verb on this path and nothing else. */
  ghost predicate Only(op: Operation, s: string, o: string, verb: Method, path: string) {
    forall t: Target :: TargetMatches(op, s, o, t) <==> t == Target(verb, path, Some([]))
  }

  /** The endpoints of the contract that change something, for any sandbox. */
  lemma MutationEndpoints(s: string, o: string)
    ensures Only(Create, s, o, Post, "/v1/sandboxes")
    ensures Only(Exec, s, o, Post, "/v1/sandboxes/" + s + "/exec")
    ensures Only(CancelExec, s, o, Post, "/v1/sandboxes/" + s + "/exec:cancel")
    ensures Only(OpenRuntimeSession, s, o, Post, "/v1/sandboxes/" + s + "/runtime-sessions")
    ensures Only(OpenBrowserSession, s, o, Post, "/v1/sandboxes/" + s + "/browser-sessions")
    ensures Only(StageArtifact, s, o, Post, "/v1/sandboxes/" + s + "/artifacts:stage")
  {
    Regroups("/v1/sandboxes/", s, "/exec");
    Regroups("/v1/sandboxes/", s, "/exec:cancel");
    Regroups("/v1/sandboxes/", s, "/runtime-sessions");
    Regroups("/v1/sandboxes/", s, "/browser-sessions");
    Regroups("/v1/sandboxes/", s, "/artifacts:stage");
  }

  /** And those that only read, for any sandbox or operation. */
  lemma ReadEndpoints(s: string, o: string)
    ensures Only(ReadSandbox, s, o, Get, "/v1/sandboxes/" + s) && Only(ReadOperation, s, o, Get, "/v1/operations/" + o)
    ensures Only(ReadResult, s, o, Get, "/v1/operations/" + o + "/exec-result")
    ensures Only(ConnectRuntimeSession, s, o, Get, "/v1/runtime-sessions:connect")
  {
    assert s + "" == s && o + "" == o;
    Regroups("/v1/operations/", o, "/exec-result");
  }

  lemma EvidenceEndpoints(s: string, o: string)
    ensures Only(ReadRuntimeSession, s, o, Get, "/v1/operations/" + o + "/runtime-session")
    ensures Only(ReadBrowserSession, s, o, Get, "/v1/operations/" + o + "/browser-session")
    ensures Only(ReadArtifactStagingEvidence, s, o, Get, "/v1/operations/" + o + "/artifact-staging-evidence")
    ensures Only(ReadUsageEvidence, s, o, Get, "/v1/operations/" + o + "/usage-evidence")
  {
    Regroups("/v1/operations/", o, "/runtime-session");
    Regroups("/v1/operations/", o, "/browser-session");
    Regroups("/v1/operations/", o, "/artifact-staging-evidence");
    Regroups("/v1/operations/", o, "/usage-evidence");
  }

  lemma Regroups(a: string, b: string, c: string)
    ensures a + (b + c) == a + b + c
  {
  }
}
