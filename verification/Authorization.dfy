/** Authorization grants: immutable pre-approvals and the decision they make about one request. */
module Authorization {
  import opened Wrappers
  import opened Text
  import opened Provider

  const GRANT_SPEC := "nimora.authorization-grant/1"
  const MAX_ROOTS := 32
  const MAX_DOMAINS := 128
  const MAX_TOOLS := 256
  const MAX_MODELS := 64

  datatype Budget = Budget(
    maxSteps: nat, maxToolCalls: nat, maxElapsedMs: nat, maxInputTokens: nat, maxOutputTokens: nat,
    maxCostMicrounits: nat)

  datatype Sandbox = ReadOnlySandbox | WorkspaceWrite | SelectedRoots | FullDevice

  datatype ApprovalPolicy = AlwaysAsk | AskRisky | AutoReview | NeverAskWithinGrant

  datatype NetworkPolicy = Offline | LoopbackOnly | Allowlisted(domains: set<string>) | Unrestricted

  datatype Lifetime = OneAction | OneTurn | WholeSession | UntilTimestamp

  datatype Grant = Grant(
    spec: string,
    id: nat,
    goalId: nat,
    planRevision: nat,
    workspaceFingerprint: string,
    sandbox: Sandbox,
    approval: ApprovalPolicy,
    network: NetworkPolicy,
    selectedRoots: set<string>,
    toolAllowlist: set<string>,
    providerAllowlist: set<string>,
    modelAllowlist: set<string>,
    maximumDataClassification: DataClassification,
    budget: Budget,
    lifetime: Lifetime,
    issuedAtMs: nat,
    expiresAtMs: Option<nat>,
    revokedAtMs: Option<nat>)

  datatype GrantRequest = GrantRequest(
    goalId: nat,
    planRevision: nat,
    workspaceFingerprint: string,
    toolId: string,
    providerId: string,
    model: string,
    dataClassification: DataClassification,
    requiresNetwork: bool,
    nowMs: nat)

  datatype Decision = Authorized | ApprovalRequired

  datatype AuthorizationError = InvalidGrant | Revoked | Expired | BindingChanged | OutOfScope

  predicate HexDigit(c: char) { '0' <= c <= '9' || 'a' <= c <= 'f' || 'A' <= c <= 'F' }

  predicate ValidFingerprint(s: string) {
    "sha256:" <= s && |s| == 71 && forall i :: 7 <= i < |s| ==> HexDigit(s[i])
  }

  predicate ValidRoot(s: string) { !Blank(s) && Bytes(s) <= 1024 && '\0' !in s }

  predicate ValidDomain(s: string) {
    && s != "" && |s| <= 253
    && forall i :: 0 <= i < |s| ==>
         'a' <= s[i] <= 'z' || 'A' <= s[i] <= 'Z' || '0' <= s[i] <= '9' || s[i] == '.' || s[i] == '-'
  }

  predicate ValidGrant(g: Grant) {
    && g.spec == GRANT_SPEC
    && g.planRevision != 0
    && ValidFingerprint(g.workspaceFingerprint)
    && 0 < |g.toolAllowlist| <= MAX_TOOLS
    && 0 < |g.providerAllowlist| <= MAX_MODELS
    && 0 < |g.modelAllowlist| <= MAX_MODELS
    && (forall p :: p in g.providerAllowlist ==> ValidPrincipal(p))
    && (forall m :: m in g.modelAllowlist ==> ValidPrincipal(m))
    && |g.selectedRoots| <= MAX_ROOTS
    && (forall r :: r in g.selectedRoots ==> ValidRoot(r))
    && (g.network.Allowlisted? ==>
          0 < |g.network.domains| <= MAX_DOMAINS && forall d :: d in g.network.domains ==> ValidDomain(d))
    && (g.lifetime == UntilTimestamp <==> g.expiresAtMs.Some?)
    && (g.expiresAtMs.Some? ==> g.expiresAtMs.value > g.issuedAtMs)
    && (g.revokedAtMs.Some? ==> g.revokedAtMs.value >= g.issuedAtMs)
    && (g.sandbox == SelectedRoots <==> g.selectedRoots != {})
  }

  /** `AuthorizationGrant::authorize`. */
  function Authorize(g: Grant, r: GrantRequest): Result<Decision, AuthorizationError> {
    if !ValidGrant(g) then Failure(InvalidGrant)
    else if g.revokedAtMs.Some? then Failure(Revoked)
    else if g.expiresAtMs.Some? && r.nowMs >= g.expiresAtMs.value then Failure(Expired)
    else if g.goalId != r.goalId || g.planRevision != r.planRevision
            || g.workspaceFingerprint != r.workspaceFingerprint then Failure(BindingChanged)
    else if r.toolId !in g.toolAllowlist || r.providerId !in g.providerAllowlist || r.model !in g.modelAllowlist
            || r.dataClassification.Rank() > g.maximumDataClassification.Rank()
            || (r.requiresNetwork && g.network == Offline) then Failure(OutOfScope)
    else Success(if g.approval == NeverAskWithinGrant then Authorized else ApprovalRequired)
  }

  /** Asking about less sensitive data never loses an authorization. */
  lemma LessSensitiveStaysAuthorized(g: Grant, r: GrantRequest, lower: DataClassification)
    requires Authorize(g, r) == Success(Authorized)
    requires lower.Rank() <= r.dataClassification.Rank()
    ensures Authorize(g, r.(dataClassification := lower)) == Success(Authorized)
  {
    hide ValidGrant;
  }

  /** The order of the classifications, spelled out. */
  predicate NoMoreSensitive(c: DataClassification, maximum: DataClassification) {
    match maximum
    case Public => c.Public?
    case Internal => c.Public? || c.Internal?
    case Personal => c.Public? || c.Internal? || c.Personal?
    case Sensitive => !c.Restricted?
    case Restricted => true
  }

  lemma RankOrder(c: DataClassification, maximum: DataClassification)
    ensures c.Rank() <= maximum.Rank() <==> NoMoreSensitive(c, maximum)
  {
  }

  /** Goal, plan and workspace of the grant are those of the request. */
  predicate BoundTo(g: Grant, r: GrantRequest) {
    g.goalId == r.goalId && g.planRevision == r.planRevision && g.workspaceFingerprint == r.workspaceFingerprint
  }

  /** The grant names tool, Provider and model, and reaches as far as the data and the network asked for. */
  predicate Covers(g: Grant, r: GrantRequest) {
    && r.toolId in g.toolAllowlist && r.providerId in g.providerAllowlist && r.model in g.modelAllowlist
    && NoMoreSensitive(r.dataClassification, g.maximumDataClassification)
    && (r.requiresNetwork ==> !g.network.Offline?)
  }

  /** Exactly when a grant authorizes, asks or refuses, and for what reason: a valid grant that is neither
      revoked nor expired, bound to the request and covering it, authorizes if its policy is never to ask. */
  lemma AuthorizeIff(g: Grant, r: GrantRequest)
    ensures var d := Authorize(g, r);
            var current := && ValidGrant(g) && g.revokedAtMs == None
                           && (g.expiresAtMs.Some? ==> r.nowMs < g.expiresAtMs.value);
            && (d == Success(Authorized) <==>
                  current && BoundTo(g, r) && Covers(g, r) && g.approval == NeverAskWithinGrant)
            && (d == Success(ApprovalRequired) <==>
                  current && BoundTo(g, r) && Covers(g, r) && g.approval in {AlwaysAsk, AskRisky, AutoReview})
            && (d == Failure(OutOfScope) <==> current && BoundTo(g, r) && !Covers(g, r))
            && (d == Failure(BindingChanged) <==> current && !BoundTo(g, r))
            && (d == Failure(Expired) <==> ValidGrant(g) && g.revokedAtMs == None && !current)
            && (d == Failure(Revoked) <==> ValidGrant(g) && g.revokedAtMs.Some?)
            && (d == Failure(InvalidGrant) <==> !ValidGrant(g))
  {
    hide ValidGrant;
    RankOrder(r.dataClassification, g.maximumDataClassification);
    assert g.approval.AlwaysAsk? || g.approval.AskRisky? || g.approval.AutoReview? || g.approval.NeverAskWithinGrant?;
  }

  // ---- What is accepted ----

  predicate HexDigits(s: string) {
    forall c :: c in s ==> c in "0123456789abcdefABCDEF"
  }

  lemma FingerprintIff(s: string)
    ensures ValidFingerprint(s) <==> exists digits :: s == "sha256:" + digits && |digits| == 64 && HexDigits(digits)
  {
    forall c: char ensures HexDigit(c) <==> c in "0123456789abcdefABCDEF" { HexDigitIff(c); }
    hide HexDigit;
    if ValidFingerprint(s) {
      var digits := s[7..];
      assert s == "sha256:" + digits;
      forall c | c in digits ensures c in "0123456789abcdefABCDEF" {
        var i :| 0 <= i < |digits| && digits[i] == c;
        assert HexDigit(s[i + 7]);
      }
    }
    forall digits | s == "sha256:" + digits && |digits| == 64 && HexDigits(digits) ensures ValidFingerprint(s) {
      forall i | 7 <= i < |s| ensures HexDigit(s[i]) { assert digits[i - 7] in digits; }
    }
  }

  lemma HexDigitIff(c: char)
    ensures HexDigit(c) <==> c in "0123456789abcdefABCDEF"
  {
    assert "0123456789abcdefABCDEF" == ['0', '1', '2', '3', '4', '5', '6', '7', '8', '9', 'a', 'b', 'c', 'd', 'e', 'f',
                                        'A', 'B', 'C', 'D', 'E', 'F'];
  }

  predicate DomainShape(s: string) {
    && 1 <= |s| <= 253
    && forall c :: c in s ==> 'a' <= c <= 'z' || 'A' <= c <= 'Z' || '0' <= c <= '9' || c == '.' || c == '-'
  }

  lemma DomainIff(s: string)
    ensures ValidDomain(s) <==> DomainShape(s)
  {
    if DomainShape(s) {
      forall i | 0 <= i < |s|
        ensures 'a' <= s[i] <= 'z' || 'A' <= s[i] <= 'Z' || '0' <= s[i] <= '9' || s[i] == '.' || s[i] == '-'
      {
        assert s[i] in s;
      }
    }
  }

  /** Grants that can authorize anything: bound to a plan and a workspace, with tools, Providers and models
      to name, and with lifetime, revocation and sandbox told consistently. */
  lemma GrantIff(g: Grant)
    ensures ValidGrant(g) <==>
              && g.spec == "nimora.authorization-grant/1" && g.planRevision >= 1
              && ValidFingerprint(g.workspaceFingerprint)
              && 1 <= |g.toolAllowlist| <= 256 && 1 <= |g.providerAllowlist| <= 64 && 1 <= |g.modelAllowlist| <= 64
              && (forall p :: p in g.providerAllowlist || p in g.modelAllowlist ==> ValidPrincipal(p))
              && |g.selectedRoots| <= 32
              && (forall r :: r in g.selectedRoots ==> !Blank(r) && Bytes(r) <= 1024 && '\0' !in r)
              && (g.network.Allowlisted? ==>
                    1 <= |g.network.domains| <= 128 && forall d :: d in g.network.domains ==> DomainShape(d))
              && (g.lifetime.UntilTimestamp? ==> g.expiresAtMs.Some? && g.issuedAtMs < g.expiresAtMs.value)
              && (!g.lifetime.UntilTimestamp? ==> g.expiresAtMs == None)
              && (g.revokedAtMs.Some? ==> g.issuedAtMs <= g.revokedAtMs.value)
              && (g.sandbox.SelectedRoots? <==> g.selectedRoots != {})
  {
    hide ValidFingerprint, ValidPrincipal, Blank, Bytes;
    if g.network.Allowlisted? {
      forall d | d in g.network.domains ensures ValidDomain(d) <==> DomainShape(d) { DomainIff(d); }
      hide ValidDomain, DomainShape;
    }
  }
}
