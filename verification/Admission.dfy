/** Building an admission from a nanosecond clock, and its re-validation in whole seconds. */
module Admission {
  import opened Prelude
  import opened JcsUtf8
  import opened JcsTree
  import opened JcsCanonical
  import opened AdmissionRoutes
  import Correlation = StoreState

  /** Nanoseconds since the Unix epoch. */
  const SECOND: int := 1_000_000_000
  const MAX_BEARER: nat := 8192
  const MAX_CONTEXT: nat := 16384

  /** time.Unix: whole seconds, rounded down. */
  function Seconds(t: int): int { t / SECOND }

  function Truncated(t: int): int { Seconds(t) * SECOND }

  datatype Authority = Authority(issuer: string, subject: string, audience: string, revisionId: string)

  /** What context and claims carry alike. */
  datatype Terms = Terms(
    tenantId: string, workOrderId: string, policyDigest: string, policyDecidedAt: string,
    operation: Operation, sandboxId: string, operationId: string, attemptId: string, fencingToken: int,
    deadlineAt: string, contract: Contract, profile: Profile, requestDigest: string)

  datatype Binding = Binding(jti: string, issuedAt: int, notBefore: int, expiresAt: int, terms: Terms, target: Target)

  /** The members of a context other than its own digest. */
  datatype Body = Body(contractId: string, digestProfile: string, subject: string, revisionId: string, audience: string, terms: Terms, target: Target)

  datatype Context = Context(body: Body, digest: string)

  datatype Claims = Claims(
    jti: string, issuer: string, subject: string, audience: string, iat: int, nbf: int, exp: int,
    revisionId: string, terms: Terms, contextContractId: string, contextProfile: string, contextDigest: string)

  datatype Header = Header(algorithm: string, keyId: string, kind: string)

  /** A compact token split at its dots. */
  datatype Bearer = Bearer(header: string, claims: string, signature: Bytes)

  datatype Admission = Admission(bearer: Bearer, contextHeader: string, context: Context, claims: Claims, header: Header)

  /**
   Libraries and constants: DigestExcluding on a context, base64url of canonical JSON, time
   printing and parsing, the URI and length checks, and the contract and profile names of
   contexts and tokens.
   */
  datatype World = World(
    digest: Context -> Option<string>,
    encodeContext: Context -> Option<string>, encodeClaims: Claims -> Option<string>, encodeHeader: Header -> Option<string>,
    tokenLength: Bearer -> nat,
    show: int -> string, parse: string -> Option<int>,
    authorityOk: Authority -> bool, pathOk: string -> bool, jtiOk: string -> bool, keyIdOk: string -> bool,
    contextContract: string, contextProfile: string, tokenType: string)

  /** Times printed with RFC 3339 and nanoseconds read back as they were. */
  ghost predicate LawfulTimes(w: World) {
    forall t :: w.parse(w.show(t)) == Some(t)
  }

  /** The digest of a context is that of its other members. */
  ghost predicate LawfulDigest(w: World) {
    forall body: Body, before: string, after: string :: w.digest(Context(body, before)) == w.digest(Context(body, after))
  }

  /** jcs.DigestExcluding on the tree encoding/json makes of a context: its other members, and the digest's own. */
  ghost function DigestExcluding(
    members: Body -> map<Text, Json>, own: string -> Json, name: Text, format: NumberFormat, hash: Bytes -> string): Context -> Option<string>
  {
    (c: Context) => match Preimage(format, Obj(members(c.body)[name := own(c.digest)]), name)
      case Err(_) => None
      case Ok(preimage) => Some(hash(preimage))
  }

  /** Filling in the digest does not change it, which is why the client can recompute it. */
  lemma DigestIgnoresItself(
    w: World, members: Body -> map<Text, Json>, own: string -> Json, name: Text, format: NumberFormat, hash: Bytes -> string)
    requires forall c: Context :: w.digest(c) == DigestExcluding(members, own, name, format, hash)(c)
    ensures LawfulDigest(w)
  {
    forall body: Body, before: string, after: string
      ensures w.digest(Context(body, before)) == w.digest(Context(body, after)) {
      PreimageIgnoresExcluded(format, members(body), name, own(before), own(after));
    }
  }

  // ----- building -----

  predicate TargetOk(w: World, t: Target) {
    && t.verb != OtherMethod && w.pathOk(t.path) && t.query.Some? && |t.query.value| <= 4
    && forall i :: 0 <= i < |t.query.value| ==> t.query.value[i].0 != "" && t.query.value[i].1 != ""
  }

  predicate TermsOk(w: World, t: Terms, target: Target) {
    && Correlation.ValidIdentifier(t.tenantId) && Correlation.ValidIdentifier(t.workOrderId)
    && Correlation.ValidDigest(t.policyDigest) && w.parse(t.policyDecidedAt).Some?
    && Correlation.ValidIdentifier(t.sandboxId) && Correlation.ValidIdentifier(t.operationId) && Correlation.ValidIdentifier(t.attemptId)
    && 1 <= t.fencingToken <= Correlation.MAX_SAFE_INTEGER && w.parse(t.deadlineAt).Some? && Correlation.ValidDigest(t.requestDigest)
    && TargetOk(w, target)
    && OperationBinding(t.operation) == Some((t.contract, t.profile))
    && TargetMatches(t.operation, t.sandboxId, t.operationId, target)
  }

  /** The zero time of the source lies before the epoch, so the sign check covers IsZero for the first two. */
  predicate TimesOk(issuedAt: int, notBefore: int, expiresAt: int) {
    Seconds(issuedAt) >= 0 && notBefore >= issuedAt && expiresAt > notBefore && expiresAt - issuedAt <= 300 * SECOND
  }

  /** validateAdmissionBinding. */
  predicate BindingOk(w: World, b: Binding) {
    w.jtiOk(b.jti) && TimesOk(b.issuedAt, b.notBefore, b.expiresAt) && TermsOk(w, b.terms, b.target)
  }

  predicate HeaderOk(w: World, h: Header) {
    (h.algorithm == "EdDSA" || h.algorithm == "ES256") && w.keyIdOk(h.keyId) && h.kind == w.tokenType
  }

  function ContextBody(w: World, a: Authority, b: Binding): Body {
    Body(w.contextContract, w.contextProfile, a.subject, a.revisionId, a.audience, b.terms, b.target)
  }

  function ClaimsOf(w: World, a: Authority, b: Binding, digest: string): Claims {
    Claims(b.jti, a.issuer, a.subject, a.audience, Seconds(b.issuedAt), Seconds(b.notBefore), Seconds(b.expiresAt),
           a.revisionId, b.terms, w.contextContract, w.contextProfile, digest)
  }

  /** What is signed and sent, once the context has its digest. */
  function Assemble(w: World, context: Context, claims: Claims, header: Header, sign: string -> Option<Bytes>): Option<Admission> {
    var (contextHeader, encodedHeader, encodedClaims) := (w.encodeContext(context), w.encodeHeader(header), w.encodeClaims(claims));
    if contextHeader.None? || encodedHeader.None? || encodedClaims.None? then None
    else if !(0 < |contextHeader.value| <= MAX_CONTEXT) || '=' in contextHeader.value then None
    else
      var signature := sign(encodedHeader.value + "." + encodedClaims.value);
      if signature.None? || |signature.value| != 64 then None
      else
        var bearer := Bearer(encodedHeader.value, encodedClaims.value, signature.value);
        if w.tokenLength(bearer) > MAX_BEARER then None
        else Some(Admission(bearer, contextHeader.value, context, claims, header))
  }

  /** BuildAdmission; sign is the signer's answer, None for an error. */
  function Build(w: World, a: Authority, b: Binding, header: Header, sign: string -> Option<Bytes>): Option<Admission> {
    if !HeaderOk(w, header) || !w.authorityOk(a) || !BindingOk(w, b) then None
    else
      var body := ContextBody(w, a, b);
      var digest := w.digest(Context(body, ""));
      if digest.None? then None
      else Assemble(w, Context(body, digest.value), ClaimsOf(w, a, b, digest.value), header, sign)
  }

  // ----- the client's re-validation -----

  /** validateAdmissionEnvelope: everything recomputed, and the times taken back from whole seconds. */
  predicate EnvelopeOk(w: World, m: Admission) {
    var (c, k) := (m.context, m.claims);
    && w.tokenLength(m.bearer) <= MAX_BEARER && 0 < |m.contextHeader| <= MAX_CONTEXT && '=' !in m.contextHeader
    && c.body.contractId == w.contextContract && c.body.digestProfile == w.contextProfile
    && w.digest(c) == Some(c.digest)
    && w.authorityOk(Authority(k.issuer, c.body.subject, c.body.audience, c.body.revisionId))
    && w.encodeContext(c) == Some(m.contextHeader)
    && k.subject == c.body.subject && k.audience == c.body.audience && k.revisionId == c.body.revisionId && k.terms == c.body.terms
    && k.contextContractId == w.contextContract && k.contextProfile == w.contextProfile && k.contextDigest == c.digest
    && BindingOk(w, Binding(k.jti, k.iat * SECOND, k.nbf * SECOND, k.exp * SECOND, c.body.terms, c.body.target))
    && HeaderOk(w, m.header)
    && w.encodeHeader(m.header) == Some(m.bearer.header) && w.encodeClaims(k) == Some(m.bearer.claims)
    && |m.bearer.signature| == 64
  }

  /** validateAdmissionAt. */
  predicate AcceptedAt(w: World, m: Admission, now: int) {
    var deadline := w.parse(m.context.body.terms.deadlineAt);
    deadline.Some? && Seconds(now) >= m.claims.nbf && Seconds(now) < m.claims.exp && now < deadline.value
  }

  /** Both checks, as a request makes them. */
  predicate Accepted(w: World, m: Admission, now: int) { EnvelopeOk(w, m) && AcceptedAt(w, m, now) }

  /** The encodings of an assembled admission are those the client recomputes. */
  predicate Encoded(w: World, m: Admission) {
    && w.tokenLength(m.bearer) <= MAX_BEARER && 0 < |m.contextHeader| <= MAX_CONTEXT && '=' !in m.contextHeader
    && w.encodeContext(m.context) == Some(m.contextHeader)
    && w.encodeHeader(m.header) == Some(m.bearer.header) && w.encodeClaims(m.claims) == Some(m.bearer.claims)
    && |m.bearer.signature| == 64
  }

  lemma AssembledIsEncoded(w: World, context: Context, claims: Claims, header: Header, sign: string -> Option<Bytes>)
    requires Assemble(w, context, claims, header, sign).Some?
    ensures var m := Assemble(w, context, claims, header, sign).value;
      Encoded(w, m) && m.context == context && m.claims == claims && m.header == header
  {
  }

  /** What the builder puts together survives the client's checks exactly when its lifetime survives rounding to seconds. */
  lemma BuiltEnvelopeOkIff(w: World, a: Authority, b: Binding, header: Header, sign: string -> Option<Bytes>)
    requires LawfulDigest(w) && Build(w, a, b, header, sign).Some?
    ensures var m := Build(w, a, b, header, sign).value;
      && (EnvelopeOk(w, m) <==> Seconds(b.expiresAt) > Seconds(b.notBefore))
      && (exists digest :: m.claims == ClaimsOf(w, a, b, digest)) && m.context.body == ContextBody(w, a, b)
  {
    var body := ContextBody(w, a, b);
    var digest := w.digest(Context(body, "")).value;
    assert w.digest(Context(body, digest)) == Some(digest);
    AssembledIsEncoded(w, Context(body, digest), ClaimsOf(w, a, b, digest), header, sign);
    var m := Build(w, a, b, header, sign).value;
    assert m.claims == ClaimsOf(w, a, b, digest);
    assert a == Authority(a.issuer, a.subject, a.audience, a.revisionId);
    SecondsSpan(b.issuedAt, b.notBefore, b.expiresAt);
  }

  lemma SecondsSpan(issuedAt: int, notBefore: int, expiresAt: int)
    requires TimesOk(issuedAt, notBefore, expiresAt)
    ensures TimesOk(Seconds(issuedAt) * SECOND, Seconds(notBefore) * SECOND, Seconds(expiresAt) * SECOND) <==>
            Seconds(expiresAt) > Seconds(notBefore)
  {
  }

  // ----- what the client takes is what a builder makes -----

  /** Whole seconds of issue, start and end, and everything else as the admission says. */
  function BindingIn(m: Admission): Binding {
    Binding(m.claims.jti, m.claims.iat * SECOND, m.claims.nbf * SECOND, m.claims.exp * SECOND, m.context.body.terms, m.context.body.target)
  }

  function AuthorityIn(m: Admission): Authority {
    Authority(m.claims.issuer, m.context.body.subject, m.context.body.audience, m.context.body.revisionId)
  }

  function Signing(signature: Bytes): string -> Option<Bytes> { _ => Some(signature) }

  lemma TakenIsBuilt(w: World, m: Admission)
    requires LawfulDigest(w) && EnvelopeOk(w, m)
    ensures Build(w, AuthorityIn(m), BindingIn(m), m.header, Signing(m.bearer.signature)) == Some(m)
  {
    var (a, b) := (AuthorityIn(m), BindingIn(m));
    var body := ContextBody(w, a, b);
    assert body == m.context.body;
    assert w.digest(Context(body, "")) == w.digest(Context(body, m.context.digest));
    assert m.context == Context(body, m.context.digest);
    SecondsOfWhole(m.claims.iat);
    SecondsOfWhole(m.claims.nbf);
    SecondsOfWhole(m.claims.exp);
    assert ClaimsOf(w, a, b, m.context.digest) == m.claims;
    assert Assemble(w, m.context, m.claims, m.header, Signing(m.bearer.signature)) == Some(m);
  }

  lemma SecondsOfWhole(n: int)
    ensures Seconds(n * SECOND) == n
  {
  }

  /**
   The client's check of everything but the clock takes exactly the admissions that BuildAdmission makes of some authority, header
   and signer and of a binding in whole seconds.
   */
  lemma EnvelopeIffBuilt(w: World, m: Admission)
    requires LawfulDigest(w)
    ensures EnvelopeOk(w, m) <==>
      exists a: Authority, b: Binding, signature: Bytes :: BuiltInSeconds(w, a, b, signature, m)
  {
    if EnvelopeOk(w, m) {
      TakenIsBuilt(w, m);
      SecondsOfWhole(m.claims.nbf);
      SecondsOfWhole(m.claims.exp);
      assert BuiltInSeconds(w, AuthorityIn(m), BindingIn(m), m.bearer.signature, m);
    }
    if a: Authority, b: Binding, signature: Bytes :| BuiltInSeconds(w, a, b, signature, m) {
      BuiltEnvelopeOkIff(w, a, b, m.header, Signing(signature));
      WholeIsLater(b.notBefore, b.expiresAt);
    }
  }

  predicate BuiltInSeconds(w: World, a: Authority, b: Binding, signature: Bytes, m: Admission) {
    && b.notBefore % SECOND == 0 && b.expiresAt % SECOND == 0
    && Build(w, a, b, m.header, Signing(signature)) == Some(m)
  }

  lemma WholeIsLater(start: int, end: int)
    requires start % SECOND == 0 && end % SECOND == 0 && start < end
    ensures Seconds(start) < Seconds(end)
  {
  }

  /**
   At the time t, in nanoseconds, a request takes exactly the admissions that such a builder makes whose nbf has come, whose exp has
   not, and whose own deadline has not.
   */
  lemma AcceptedIff(w: World, m: Admission, t: int)
    requires LawfulDigest(w)
    ensures Accepted(w, m, t) <==>
      && (exists a: Authority, b: Binding, signature: Bytes :: BuiltInSeconds(w, a, b, signature, m))
      && m.claims.nbf * 1_000_000_000 <= t < m.claims.exp * 1_000_000_000
      && exists deadline :: w.parse(m.context.body.terms.deadlineAt) == Some(deadline) && t < deadline
  {
    EnvelopeIffBuilt(w, m);
    var deadline := w.parse(m.context.body.terms.deadlineAt);
    assert deadline.Some? ==> deadline == Some(deadline.value);
  }

  // ----- the caller's side -----

  /** The caller's issuer, key and random identifiers. */
  datatype Access = Access(issuer: string, subject: string, audience: string, header: Header, sign: string -> Option<Bytes>)

  /** policyDecisionAt. */
  function PolicyDecisionAt(w: World, now: int): string { w.show(Truncated(now)) }

  function LifetimeEnd(now: int, deadline: int): int {
    if deadline < now + 60 * SECOND then deadline else now + 60 * SECOND
  }

  /** Which policy digest a tenant and work order stand under; otherDigest is policyDigestFor on them. */
  function PolicyFor(s: Correlation.State, tenantId: string, workOrderId: string, otherDigest: Option<string>): Option<string> {
    if s.provider.None? then None
    else if tenantId == s.plan.tenantA && workOrderId == s.plan.workOrderA then Some(s.provider.value.policyDigest)
    else if tenantId == s.plan.tenantB && workOrderId == s.plan.workOrderB then
      if otherDigest == Some(s.provider.value.policyDigest) then None else otherDigest
    else None
  }

  /** The terms a caller asks for; tenant, policy and times are filled in. */
  function FilledTerms(s: Correlation.State, asked: Terms, tenantId: string, workOrderId: string, policyDigest: string): Terms
    requires s.provider.Some?
  {
    asked.(tenantId := tenantId, workOrderId := workOrderId, policyDigest := policyDigest,
           policyDecidedAt := s.provider.value.decidedAt)
  }

  /** buildAdmissionForTenant; jti is None when randomness fails. */
  function BuildForTenant(
    w: World, x: Access, s: Correlation.State, asked: Terms, target: Target,
    tenantId: string, workOrderId: string, otherDigest: Option<string>, jti: Option<string>, now: int): Option<Admission>
  {
    var deadline := w.parse(asked.deadlineAt);
    if s.provider.None? || deadline.None? || deadline.value <= now || jti.None? then None
    else
      match PolicyFor(s, tenantId, workOrderId, otherDigest)
      case None => None
      case Some(policyDigest) =>
        Build(w, Authority(x.issuer, x.subject, x.audience, s.provider.value.revisionId),
              Binding(jti.value, Truncated(now), Truncated(now), LifetimeEnd(now, deadline.value),
                      FilledTerms(s, asked, tenantId, workOrderId, policyDigest), target),
              x.header, x.sign)
  }

  /** A time rounded down to its second lies in that second. */
  lemma TruncatedIsWhole(t: int)
    ensures Seconds(Truncated(t)) == Seconds(t) && Truncated(t) <= t < Truncated(t) + SECOND
  {
  }

  /** Expiry in seconds: sixty after issue, or the deadline's own second when that comes first. */
  lemma LifetimeInSeconds(now: int, deadline: int)
    requires deadline > now
    ensures var exp := Seconds(LifetimeEnd(now, deadline));
      && exp == (if Seconds(deadline) < Seconds(now) + 60 then Seconds(deadline) else Seconds(now) + 60)
      && (exp > Seconds(now) <==> Seconds(deadline) > Seconds(now))
  {
    assert (now + 60 * SECOND) / SECOND == now / SECOND + 60;
  }

  /**
   A built admission carries iat equal to nbf equal to the clock's second and an exp at most sixty
   seconds later; it is accepted at any time exactly when the deadline falls in a later second than the
   building, that time's second is from the building's on and before exp, and it is before the deadline.
   */
  lemma AcceptedExactlyUntil(
    w: World, x: Access, s: Correlation.State, asked: Terms, target: Target,
    tenantId: string, workOrderId: string, otherDigest: Option<string>, jti: Option<string>, now: int, t: int)
    requires LawfulDigest(w) && BuildForTenant(w, x, s, asked, target, tenantId, workOrderId, otherDigest, jti, now).Some?
    ensures var m := BuildForTenant(w, x, s, asked, target, tenantId, workOrderId, otherDigest, jti, now).value;
      var deadline := w.parse(asked.deadlineAt).value;
      && m.claims.iat == m.claims.nbf == Seconds(now) && m.claims.exp <= m.claims.iat + 60
      && (EnvelopeOk(w, m) <==> Seconds(deadline) > Seconds(now))
      && (Accepted(w, m, t) <==>
            Seconds(deadline) > Seconds(now) && Seconds(now) <= Seconds(t) < m.claims.exp && t < deadline)
  {
    var deadline := w.parse(asked.deadlineAt).value;
    var policyDigest := PolicyFor(s, tenantId, workOrderId, otherDigest).value;
    var b := Binding(jti.value, Truncated(now), Truncated(now), LifetimeEnd(now, deadline),
                     FilledTerms(s, asked, tenantId, workOrderId, policyDigest), target);
    BuiltEnvelopeOkIff(w, Authority(x.issuer, x.subject, x.audience, s.provider.value.revisionId), b, x.header, x.sign);
    TruncatedIsWhole(now);
    LifetimeInSeconds(now, deadline);
  }

  /** More than a second to the deadline is enough, at once and until exp or the deadline. */
  lemma AcceptedWithASecondToSpare(
    w: World, x: Access, s: Correlation.State, asked: Terms, target: Target,
    tenantId: string, workOrderId: string, otherDigest: Option<string>, jti: Option<string>, now: int, t: int)
    requires LawfulDigest(w) && BuildForTenant(w, x, s, asked, target, tenantId, workOrderId, otherDigest, jti, now).Some? && t >= now
    requires w.parse(asked.deadlineAt).value > now + SECOND
    ensures var m := BuildForTenant(w, x, s, asked, target, tenantId, workOrderId, otherDigest, jti, now).value;
      && Accepted(w, m, now)
      && (Accepted(w, m, t) <==> Seconds(t) < m.claims.exp && t < w.parse(asked.deadlineAt).value)
  {
    AcceptedExactlyUntil(w, x, s, asked, target, tenantId, workOrderId, otherDigest, jti, now, t);
    AcceptedExactlyUntil(w, x, s, asked, target, tenantId, workOrderId, otherDigest, jti, now, now);
    var deadline := w.parse(asked.deadlineAt).value;
    assert Seconds(deadline) >= Seconds(now + SECOND) == Seconds(now) + 1;
    LifetimeInSeconds(now, deadline);
    TruncatedIsWhole(now);
  }

  /** boundedDeadline: a lease and a limit in seconds cap the context's deadline, 100 ms at least. */
  function BoundedDeadline(contextDeadline: int, now: int, lease: int, limitSeconds: int): Option<int> {
    if limitSeconds < 1 then None
    else
      var limit := if limitSeconds > 60 then 60 else limitSeconds;
      var first := if lease < contextDeadline then lease else contextDeadline;
      var second := if now + limit * SECOND < first then now + limit * SECOND else first;
      if second > now + SECOND / 10 then Some(second) else None
  }

  /** What is granted is at most a minute from the grant, and more than a tenth of a second. */
  lemma GrantedWithinAMinute(contextDeadline: int, granted: int, lease: int, limitSeconds: int)
    requires BoundedDeadline(contextDeadline, granted, lease, limitSeconds).Some?
    ensures var deadline := BoundedDeadline(contextDeadline, granted, lease, limitSeconds).value;
      granted + SECOND / 10 < deadline <= granted + 60 * SECOND
  {
  }

  /**
   Three clock readings, as the source takes them: a deadline is granted, an admission is built at
   now, and the client checks it at t.  It is accepted exactly when the deadline falls in a later
   second than the check; so at once exactly when it falls in a later second than the building.
   */
  lemma BoundedDeadlineServesIff(
    w: World, x: Access, s: Correlation.State, asked: Terms, target: Target,
    tenantId: string, workOrderId: string, otherDigest: Option<string>, jti: Option<string>,
    granted: int, now: int, t: int, contextDeadline: int, lease: int, limitSeconds: int)
    requires granted <= now <= t
    requires LawfulTimes(w) && BoundedDeadline(contextDeadline, granted, lease, limitSeconds).Some?
    requires asked.deadlineAt == w.show(BoundedDeadline(contextDeadline, granted, lease, limitSeconds).value)
    requires LawfulDigest(w) && BuildForTenant(w, x, s, asked, target, tenantId, workOrderId, otherDigest, jti, now).Some?
    ensures Accepted(w, BuildForTenant(w, x, s, asked, target, tenantId, workOrderId, otherDigest, jti, now).value, t) <==>
            Seconds(BoundedDeadline(contextDeadline, granted, lease, limitSeconds).value) > Seconds(t)
  {
    var deadline := BoundedDeadline(contextDeadline, granted, lease, limitSeconds).value;
    GrantedWithinAMinute(contextDeadline, granted, lease, limitSeconds);
    AcceptedExactlyUntil(w, x, s, asked, target, tenantId, workOrderId, otherDigest, jti, now, t);
    ExpiresAtDeadline(w, x, s, asked, target, tenantId, workOrderId, otherDigest, jti, now);
    LaterSeconds(now, t, deadline);
  }

  /** A deadline within the minute is what exp is taken from. */
  lemma ExpiresAtDeadline(
    w: World, x: Access, s: Correlation.State, asked: Terms, target: Target,
    tenantId: string, workOrderId: string, otherDigest: Option<string>, jti: Option<string>, now: int)
    requires LawfulDigest(w) && BuildForTenant(w, x, s, asked, target, tenantId, workOrderId, otherDigest, jti, now).Some?
    requires w.parse(asked.deadlineAt).value <= now + 60 * SECOND
    ensures BuildForTenant(w, x, s, asked, target, tenantId, workOrderId, otherDigest, jti, now).value.claims.exp ==
            Seconds(w.parse(asked.deadlineAt).value)
  {
    var deadline := w.parse(asked.deadlineAt).value;
    var policyDigest := PolicyFor(s, tenantId, workOrderId, otherDigest).value;
    var b := Binding(jti.value, Truncated(now), Truncated(now), LifetimeEnd(now, deadline),
                     FilledTerms(s, asked, tenantId, workOrderId, policyDigest), target);
    BuiltEnvelopeOkIff(w, Authority(x.issuer, x.subject, x.audience, s.provider.value.revisionId), b, x.header, x.sign);
  }

  lemma LaterSeconds(now: int, t: int, deadline: int)
    requires now <= t
    ensures Seconds(deadline) > Seconds(t) ==> Seconds(deadline) > Seconds(now) && t < deadline
  {
    assert Seconds(now) <= Seconds(t);
  }

  /** No admission is issued, in seconds, before a policy decision recorded earlier. */
  lemma NeverIssuedBeforeItsPolicy(
    w: World, x: Access, s: Correlation.State, asked: Terms, target: Target,
    tenantId: string, workOrderId: string, otherDigest: Option<string>, jti: Option<string>, decided: int, now: int)
    requires LawfulTimes(w) && decided <= now
    requires s.provider.Some? && s.provider.value.decidedAt == PolicyDecisionAt(w, decided)
    requires LawfulDigest(w) && BuildForTenant(w, x, s, asked, target, tenantId, workOrderId, otherDigest, jti, now).Some?
    ensures var m := BuildForTenant(w, x, s, asked, target, tenantId, workOrderId, otherDigest, jti, now).value;
      && m.claims.terms.policyDecidedAt == PolicyDecisionAt(w, decided)
      && w.parse(m.claims.terms.policyDecidedAt).value <= m.claims.iat * SECOND
  {
    AcceptedExactlyUntil(w, x, s, asked, target, tenantId, workOrderId, otherDigest, jti, now, now);
    assert Seconds(decided) <= Seconds(now);
  }

  /**
   Field by field: the request's own operation, resource, attempt, token, deadline, contract, profile and digest; the tenant and
   work order; the policy of the provider binding and its time; the access's issuer, subject and audience; the provider's revision.
   */
  lemma AdmittedFields(
    w: World, x: Access, s: Correlation.State, asked: Terms, target: Target,
    tenantId: string, workOrderId: string, otherDigest: Option<string>, jti: Option<string>, now: int)
    requires LawfulDigest(w) && BuildForTenant(w, x, s, asked, target, tenantId, workOrderId, otherDigest, jti, now).Some?
    ensures s.provider.Some? && jti.Some?
    ensures var m := BuildForTenant(w, x, s, asked, target, tenantId, workOrderId, otherDigest, jti, now).value;
      var (k, c) := (m.claims, m.context.body);
      && k.jti == jti.value && k.issuer == x.issuer && k.subject == x.subject == c.subject && k.audience == x.audience == c.audience
      && k.revisionId == s.provider.value.revisionId == c.revisionId && c.target == target && m.header == x.header
      && k.contextDigest == m.context.digest && k.terms == c.terms && AsAsked(s, asked, tenantId, workOrderId, otherDigest, c.terms)
  {
    var policyDigest := PolicyFor(s, tenantId, workOrderId, otherDigest).value;
    var b := Binding(jti.value, Truncated(now), Truncated(now), LifetimeEnd(now, w.parse(asked.deadlineAt).value),
                     FilledTerms(s, asked, tenantId, workOrderId, policyDigest), target);
    var a := Authority(x.issuer, x.subject, x.audience, s.provider.value.revisionId);
    BuiltDigest(w, a, b, x.header, x.sign);
  }

  predicate AsAsked(s: Correlation.State, asked: Terms, tenantId: string, workOrderId: string, otherDigest: Option<string>, t: Terms) {
    && t.operation == asked.operation && t.sandboxId == asked.sandboxId && t.operationId == asked.operationId
    && t.attemptId == asked.attemptId && t.fencingToken == asked.fencingToken && t.deadlineAt == asked.deadlineAt
    && t.contract == asked.contract && t.profile == asked.profile && t.requestDigest == asked.requestDigest
    && t.tenantId == tenantId && t.workOrderId == workOrderId
    && s.provider.Some? && t.policyDecidedAt == s.provider.value.decidedAt
    && ((tenantId == s.plan.tenantA && workOrderId == s.plan.workOrderA && t.policyDigest == s.provider.value.policyDigest) ||
        (tenantId == s.plan.tenantB && workOrderId == s.plan.workOrderB && otherDigest == Some(t.policyDigest) &&
         t.policyDigest != s.provider.value.policyDigest))
  }

  lemma BuiltDigest(w: World, a: Authority, b: Binding, header: Header, sign: string -> Option<Bytes>)
    requires LawfulDigest(w) && Build(w, a, b, header, sign).Some?
    ensures var m := Build(w, a, b, header, sign).value;
      && m.claims == ClaimsOf(w, a, b, m.context.digest) && m.context.body == ContextBody(w, a, b) && m.header == header
  {
    var body := ContextBody(w, a, b);
    var digest := w.digest(Context(body, "")).value;
    AssembledIsEncoded(w, Context(body, digest), ClaimsOf(w, a, b, digest), header, sign);
  }

  /** Encodings, digest and signature come out, and within their limits. */
  ghost predicate Answers(w: World, x: Access) {
    && (forall c: Context :: w.digest(c).Some?)
    && (forall c: Context :: var e := w.encodeContext(c); e.Some? && 0 < |e.value| <= 16384 && '=' !in e.value)
    && (forall k: Claims :: w.encodeClaims(k).Some?) && (forall h: Header :: w.encodeHeader(h).Some?)
    && (forall input: string :: var y := x.sign(input); y.Some? && |y.value| == 64)
    && (forall bearer: Bearer :: w.tokenLength(bearer) <= 8192)
  }

  /** What can be read off the request. */
  predicate Asks(w: World, asked: Terms, target: Target) {
    && Correlation.ValidIdentifier(asked.sandboxId) && Correlation.ValidIdentifier(asked.operationId)
    && Correlation.ValidIdentifier(asked.attemptId) && 1 <= asked.fencingToken <= 9007199254740991
    && Correlation.ValidDigest(asked.requestDigest)
    && OperationBinding(asked.operation) == Some((asked.contract, asked.profile))
    && TargetMatches(asked.operation, asked.sandboxId, asked.operationId, target) && w.pathOk(target.path)
  }

  /**
   When the libraries answer, an admission is built of a valid state exactly for one of its two tenants with that tenant's own work order and
   policy, a well-formed request to its own endpoint, a deadline ahead of a clock not before 1970, an identifier drawn, and a header and an
   authority that pass.
   */
  lemma BuildsIff(
    w: World, x: Access, v: Correlation.World, s: Correlation.State, asked: Terms, target: Target,
    tenantId: string, workOrderId: string, otherDigest: Option<string>, jti: Option<string>, now: int)
    requires Answers(w, x) && Correlation.ValidState(v, s) && s.provider.Some? && w.parse(s.provider.value.decidedAt).Some?
    ensures BuildForTenant(w, x, s, asked, target, tenantId, workOrderId, otherDigest, jti, now).Some? <==>
      && jti.Some? && w.jtiOk(jti.value) && w.authorityOk(Authority(x.issuer, x.subject, x.audience, s.provider.value.revisionId))
      && x.header.algorithm in {"EdDSA", "ES256"} && w.keyIdOk(x.header.keyId) && x.header.kind == w.tokenType
      && Asks(w, asked, target) && w.parse(asked.deadlineAt).Some? && 0 <= now < w.parse(asked.deadlineAt).value
      && ((tenantId == s.plan.tenantA && workOrderId == s.plan.workOrderA) ||
          (tenantId == s.plan.tenantB && workOrderId == s.plan.workOrderB &&
           otherDigest.Some? && Correlation.ValidDigest(otherDigest.value) && otherDigest.value != s.provider.value.policyDigest))
  {
    TenantsAreIdentifiers(s.plan);
    var policy := PolicyFor(s, tenantId, workOrderId, otherDigest);
    var deadline := w.parse(asked.deadlineAt);
    if policy.Some? && deadline.Some? && deadline.value > now {
      var terms := FilledTerms(s, asked, tenantId, workOrderId, policy.value);
      TimesPass(now, deadline.value);
      if jti.Some? {
        var b := Binding(jti.value, Truncated(now), Truncated(now), LifetimeEnd(now, deadline.value), terms, target);
        Assembles(w, x, Authority(x.issuer, x.subject, x.audience, s.provider.value.revisionId), b);
        TermsPass(w, s, asked, target, tenantId, workOrderId, policy.value);
      }
    }
  }

  lemma TenantsAreIdentifiers(plan: Correlation.Plan)
    requires Correlation.ValidPlan(plan)
    ensures Correlation.ValidIdentifier(plan.tenantA) && Correlation.ValidIdentifier(plan.workOrderA)
    ensures Correlation.ValidIdentifier(plan.tenantB) && Correlation.ValidIdentifier(plan.workOrderB)
    ensures plan.tenantA != plan.tenantB
  {
    var values := Correlation.PlanValues(plan);
    assert values[1] == plan.tenantA && values[2] == plan.tenantB && values[3] == plan.workOrderA && values[4] == plan.workOrderB;
  }

  lemma TimesPass(now: int, deadline: int)
    requires deadline > now
    ensures TimesOk(Truncated(now), Truncated(now), LifetimeEnd(now, deadline)) <==> now >= 0
  {
    TruncatedIsWhole(now);
  }

  lemma TermsPass(w: World, s: Correlation.State, asked: Terms, target: Target, tenantId: string, workOrderId: string, policyDigest: string)
    requires s.provider.Some? && w.parse(s.provider.value.decidedAt).Some? && w.parse(asked.deadlineAt).Some?
    requires Correlation.ValidIdentifier(tenantId) && Correlation.ValidIdentifier(workOrderId)
    ensures TermsOk(w, FilledTerms(s, asked, tenantId, workOrderId, policyDigest), target) <==>
      Asks(w, asked, target) && Correlation.ValidDigest(policyDigest)
  {
  }

  lemma Assembles(w: World, x: Access, a: Authority, b: Binding)
    requires Answers(w, x)
    ensures Build(w, a, b, x.header, x.sign).Some? <==> HeaderOk(w, x.header) && w.authorityOk(a) && BindingOk(w, b)
  {
  }

  // ----- read admissions -----

  datatype ReadDescriptor = ReadDescriptor(operation: Operation, sandboxId: string, operationId: string, attemptId: string, fencingToken: int)

  /** DigestReadDescriptor; digest is jcs.Digest on the descriptor. */
  function DigestReadDescriptor(d: ReadDescriptor, digest: ReadDescriptor -> Option<string>): Option<string> {
    var binding := OperationBinding(d.operation);
    if binding.None? || binding.value.1 != DescriptorProfile ||
       !Correlation.ValidIdentifier(d.sandboxId) || !Correlation.ValidIdentifier(d.operationId) || !Correlation.ValidIdentifier(d.attemptId) ||
       d.fencingToken < 1 || d.fencingToken > Correlation.MAX_SAFE_INTEGER then None
    else digest(d)
  }

  /** The caller's own table of read endpoints: contract and path. */
  function ReadEndpoint(d: ReadDescriptor): Option<(Contract, string)> {
    match d.operation
    case ReadOperation => Some((Descriptor("operation"), Path(OperationItem, d.sandboxId, d.operationId, "")))
    case ReadSandbox => Some((Descriptor("status"), Path(SandboxItem, d.sandboxId, d.operationId, "")))
    case ReadResult => Some((Descriptor("exec-result"), Path(OperationItem, d.sandboxId, d.operationId, "/exec-result")))
    case ReadUsageEvidence => Some((Descriptor("usage-evidence"), Path(OperationItem, d.sandboxId, d.operationId, "/usage-evidence")))
    case ReadRuntimeSession => Some((Descriptor("runtime-session"), Path(OperationItem, d.sandboxId, d.operationId, "/runtime-session")))
    case ReadArtifactStagingEvidence =>
      Some((Descriptor("artifact-staging-evidence"), Path(OperationItem, d.sandboxId, d.operationId, "/artifact-staging-evidence")))
    case _ => None
  }

  /** mutationAdmission: what the caller sends an exec, a cancellation, a session or a staging request with. */
  function MutationAdmission(
    w: World, x: Access, s: Correlation.State, d: ReadDescriptor, operation: Operation, digest: string, deadlineAt: string,
    contract: Contract, path: string, jti: Option<string>, now: int): Option<Admission>
  {
    var terms := Terms("", "", "", "", operation, d.sandboxId, d.operationId, d.attemptId, d.fencingToken,
                       deadlineAt, contract, MutationProfile, digest);
    BuildForTenant(w, x, s, terms, Target(Post, path, Some([])), s.plan.tenantA, s.plan.workOrderA, None, jti, now)
  }

  /** readAdmissionForTenant: deadline is the context's, None when it has none. */
  function ReadAdmissionForTenant(
    w: World, x: Access, s: Correlation.State, d: ReadDescriptor, digest: ReadDescriptor -> Option<string>,
    tenantId: string, workOrderId: string, otherDigest: Option<string>, jti: Option<string>, deadline: Option<int>, now: int): Option<Admission>
  {
    var (requestDigest, endpoint) := (DigestReadDescriptor(d, digest), ReadEndpoint(d));
    if requestDigest.None? || endpoint.None? || deadline.None? || deadline.value <= now + SECOND then None
    else
      var terms := Terms("", "", "", "", d.operation, d.sandboxId, d.operationId, d.attemptId, d.fencingToken,
                         w.show(deadline.value), endpoint.value.0, DescriptorProfile, requestDigest.value);
      BuildForTenant(w, x, s, terms, Target(Get, endpoint.value.1, Some([])), tenantId, workOrderId, otherDigest, jti, now)
  }

  /** validateReadAdmission, for the contract and path of the endpoint called. */
  predicate ReadAdmissionOk(w: World, d: ReadDescriptor, digest: ReadDescriptor -> Option<string>, m: Admission, contract: Contract, path: string) {
    var t := m.context.body.terms;
    && EnvelopeOk(w, m)
    && t.operation == d.operation && t.sandboxId == d.sandboxId && t.operationId == d.operationId
    && t.attemptId == d.attemptId && t.fencingToken == d.fencingToken
    && t.contract == contract && t.profile == DescriptorProfile && DigestReadDescriptor(d, digest) == Some(t.requestDigest)
    && m.context.body.target.verb == Get && m.context.body.target.path == path
  }

  /** What the caller builds for a read the client takes for that read, at once and for as long as it lives. */
  lemma ReadAdmissionIsUsable(
    w: World, x: Access, s: Correlation.State, d: ReadDescriptor, digest: ReadDescriptor -> Option<string>,
    tenantId: string, workOrderId: string, otherDigest: Option<string>, jti: Option<string>, deadline: int, now: int, t: int)
    requires LawfulDigest(w) && LawfulTimes(w) && t >= now
    requires ReadAdmissionForTenant(w, x, s, d, digest, tenantId, workOrderId, otherDigest, jti, Some(deadline), now).Some?
    ensures var m := ReadAdmissionForTenant(w, x, s, d, digest, tenantId, workOrderId, otherDigest, jti, Some(deadline), now).value;
      && ReadAdmissionOk(w, d, digest, m, ReadEndpoint(d).value.0, ReadEndpoint(d).value.1)
      && AcceptedAt(w, m, now)
      && (AcceptedAt(w, m, t) <==> Seconds(t) < m.claims.exp && t < deadline)
  {
    var (requestDigest, endpoint) := (DigestReadDescriptor(d, digest), ReadEndpoint(d));
    var terms := Terms("", "", "", "", d.operation, d.sandboxId, d.operationId, d.attemptId, d.fencingToken,
                       w.show(deadline), endpoint.value.0, DescriptorProfile, requestDigest.value);
    var target := Target(Get, endpoint.value.1, Some([]));
    AcceptedWithASecondToSpare(w, x, s, terms, target, tenantId, workOrderId, otherDigest, jti, now, t);
    AcceptedWithASecondToSpare(w, x, s, terms, target, tenantId, workOrderId, otherDigest, jti, now, now);
    BuiltTerms(w, x, s, terms, target, tenantId, workOrderId, otherDigest, jti, now);
  }

  /** What was asked for is what is admitted, under the tenant's policy. */
  lemma BuiltTerms(
    w: World, x: Access, s: Correlation.State, asked: Terms, target: Target,
    tenantId: string, workOrderId: string, otherDigest: Option<string>, jti: Option<string>, now: int)
    requires LawfulDigest(w) && BuildForTenant(w, x, s, asked, target, tenantId, workOrderId, otherDigest, jti, now).Some?
    ensures var m := BuildForTenant(w, x, s, asked, target, tenantId, workOrderId, otherDigest, jti, now).value;
      && PolicyFor(s, tenantId, workOrderId, otherDigest).Some?
      && m.context.body.terms == FilledTerms(s, asked, tenantId, workOrderId, PolicyFor(s, tenantId, workOrderId, otherDigest).value)
      && m.context.body.target == target
  {
    var policyDigest := PolicyFor(s, tenantId, workOrderId, otherDigest).value;
    var b := Binding(jti.value, Truncated(now), Truncated(now), LifetimeEnd(now, w.parse(asked.deadlineAt).value),
                     FilledTerms(s, asked, tenantId, workOrderId, policyDigest), target);
    BuiltEnvelopeOkIff(w, Authority(x.issuer, x.subject, x.audience, s.provider.value.revisionId), b, x.header, x.sign);
  }
}
