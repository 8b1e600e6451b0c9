/** The tool registry: admission before any effect, approvals bound to one invocation, dispatch. */
module Tools {
  import opened Wrappers
  import opened Provider
  import opened AutoMode

  const MAX_TOOL_ID_BYTES := 128

  datatype Descriptor = Descriptor(
    id: string, baseRisk: Risk, effect: Effect, dataClassifications: seq<DataClassification>, timeoutMs: nat)

  /** The registered tools and the host's risk evaluator, an arbitrary function. */
  datatype Registry = Registry(descriptors: map<string, Descriptor>, evaluate: (Descriptor, Json) -> Risk)

  datatype Invocation = Invocation(invocationId: nat, taskId: nat, traceId: nat, toolId: string, arguments: Json)

  /** The digested bytes: three fixed-width identifiers, then tool, risk byte and arguments run
      together. The digest itself is taken to be injective. */
  datatype Fingerprint = Sha256(invocationId: nat, taskId: nat, traceId: nat, tail: string)

  datatype Approval = Approval(invocationId: nat, fingerprint: Fingerprint)

  datatype Admission =
    | Ready(effectiveRisk: Risk)
    | NeedsConfirmation(effectiveRisk: Risk, fingerprint: Fingerprint)

  datatype ToolError = UnknownTool | ConfirmationMissing | StaleApproval | InvalidToolTimeout
    | BackendFailed(message: string)

  predicate ToolIdCharacter(c: char) { 'a' <= c <= 'z' || '0' <= c <= '9' || c == '-' || c == '.' }

  predicate ToolIdShape(id: string) {
    id != "" && |id| <= MAX_TOOL_ID_BYTES && forall i :: 0 <= i < |id| ==> ToolIdCharacter(id[i])
  }

  lemma ToolIdIff(id: string)
    ensures ToolIdShape(id) <==>
              && 1 <= |id| <= 128
              && forall c :: c in id ==> 'a' <= c <= 'z' || '0' <= c <= '9' || c == '-' || c == '.'
  {
    if forall c :: c in id ==> ToolIdCharacter(c) {
      forall i | 0 <= i < |id| ensures ToolIdCharacter(id[i]) { assert id[i] in id; }
    }
  }

  function RiskByte(risk: Risk): char {
    match risk
    case Safe => '\U{0}'
    case Low => '\U{1}'
    case Medium => '\U{2}'
    case High => '\U{3}'
    case Critical => '\U{4}'
  }

  function FingerprintOf(inv: Invocation, risk: Risk): Fingerprint {
    Sha256(inv.invocationId, inv.taskId, inv.traceId, inv.toolId + [RiskByte(risk)] + inv.arguments.encoded)
  }

  function Bind(inv: Invocation, risk: Risk): Approval {
    Approval(inv.invocationId, FingerprintOf(inv, risk))
  }

  function MaxRisk(left: Risk, right: Risk): Risk {
    if left.Rank() >= right.Rank() then left else right
  }

  /** The registry's own confirmation test, written independently of the session's. */
  predicate ConfirmationNeeded(effect: Effect, risk: Risk) {
    effect != ReadOnly || risk in {Medium, High, Critical}
  }

  function Admit(registry: Registry, inv: Invocation): Result<Admission, ToolError> {
    if inv.toolId !in registry.descriptors then Failure(UnknownTool)
    else
      var descriptor := registry.descriptors[inv.toolId];
      var risk := MaxRisk(descriptor.baseRisk, registry.evaluate(descriptor, inv.arguments));
      Success(if ConfirmationNeeded(descriptor.effect, risk) then NeedsConfirmation(risk, FingerprintOf(inv, risk))
              else Ready(risk))
  }

  /** Everything dispatch checks before the backend is reached. */
  function DispatchRefusal(registry: Registry, inv: Invocation, approval: Option<Approval>): Option<ToolError> {
    var admission := Admit(registry, inv);
    if admission.Failure? then Some(admission.error)
    else if admission.value.NeedsConfirmation? && approval.None? then Some(ConfirmationMissing)
    else if admission.value.NeedsConfirmation?
            && (approval.value.invocationId != inv.invocationId
                || approval.value.fingerprint != admission.value.fingerprint
                || approval.value.fingerprint != FingerprintOf(inv, admission.value.effectiveRisk))
      then Some(StaleApproval)
    else
      var timeout := registry.descriptors[inv.toolId].timeoutMs;
      if timeout == 0 || timeout > 300_000 then Some(InvalidToolTimeout) else None
  }

  /** The two confirmation tests agree. */
  lemma ConfirmationTestsAgree(effect: Effect, risk: Risk)
    ensures ConfirmationNeeded(effect, risk) <==> RequiresConfirmation(risk, effect)
  {
  }

  /** Although its parts are run together without lengths, a fingerprint fixes the whole invocation
      and its risk: no identifier contains a risk byte. */
  lemma FingerprintBinds(a: Invocation, r: Risk, b: Invocation, s: Risk)
    requires ToolIdShape(a.toolId) && ToolIdShape(b.toolId)
    requires FingerprintOf(a, r) == FingerprintOf(b, s)
    ensures a.invocationId == b.invocationId && a.taskId == b.taskId && a.traceId == b.traceId
    ensures a.toolId == b.toolId && r == s && a.arguments.encoded == b.arguments.encoded
  {
    var left := a.toolId + [RiskByte(r)] + a.arguments.encoded;
    var right := b.toolId + [RiskByte(s)] + b.arguments.encoded;
    RiskBytePosition(a, r, b, s);
    RiskBytePosition(b, s, a, r);
    var n := |a.toolId|;
    assert left[..n] == a.toolId && right[..n] == b.toolId;
    assert left[n] == RiskByte(r) && right[n] == RiskByte(s);
    assert left[n + 1..] == a.arguments.encoded && right[n + 1..] == b.arguments.encoded;
  }

  lemma RiskBytePosition(a: Invocation, r: Risk, b: Invocation, s: Risk)
    requires ToolIdShape(a.toolId) && ToolIdShape(b.toolId)
    requires FingerprintOf(a, r).tail == FingerprintOf(b, s).tail
    ensures |a.toolId| >= |b.toolId|
  {
    var left, right := FingerprintOf(a, r).tail, FingerprintOf(b, s).tail;
    assert left[|a.toolId|] == RiskByte(r);
    forall i | 0 <= i < |b.toolId| ensures ToolIdCharacter(right[i]) {
      assert right[i] == b.toolId[i];
    }
  }

  /** A module backend: any behaviour that depends on the calls made so far. */
  class Backend {
    const respond: (seq<Invocation>, Invocation) -> Result<Json, string>
    var trace: seq<Invocation>

    constructor (respond: (seq<Invocation>, Invocation) -> Result<Json, string>)
      ensures this.respond == respond && trace == []
    {
      this.respond, trace := respond, [];
    }

    method Invoke(inv: Invocation) returns (r: Result<Json, string>)
      modifies this
      ensures r == respond(old(trace), inv) && trace == old(trace) + [inv]
    {
      r := respond(trace, inv);
      trace := trace + [inv];
    }
  }

  /** Dispatch reaches the backend at most once, and only when nothing is refused. */
  method Dispatch(registry: Registry, backend: Backend, inv: Invocation,
                  approval: Option<Approval>) returns (r: Result<Json, ToolError>)
    modifies backend
    ensures var refusal := DispatchRefusal(registry, inv, approval);
            if refusal.Some? then r == Failure(refusal.value) && backend.trace == old(backend.trace)
            else && backend.trace == old(backend.trace) + [inv]
                 && r == BackendAnswer(backend.respond(old(backend.trace), inv))
  {
    if inv.toolId !in registry.descriptors { return Failure(UnknownTool); }
    var descriptor := registry.descriptors[inv.toolId];
    var admitted := Admit(registry, inv);
    assert admitted.Success?;
    var admission := admitted.value;
    if admission.NeedsConfirmation? {
      if approval.None? { return Failure(ConfirmationMissing); }
      if approval.value.invocationId != inv.invocationId
         || approval.value.fingerprint != admission.fingerprint
         || approval.value.fingerprint != FingerprintOf(inv, admission.effectiveRisk)
      {
        return Failure(StaleApproval);
      }
    }
    if descriptor.timeoutMs == 0 || descriptor.timeoutMs > 300_000 { return Failure(InvalidToolTimeout); }
    var answer := backend.Invoke(inv);
    return BackendAnswer(answer);
  }

  function BackendAnswer(r: Result<Json, string>): Result<Json, ToolError> {
    match r case Success(output) => Success(output) case Failure(message) => Failure(BackendFailed(message))
  }
}
