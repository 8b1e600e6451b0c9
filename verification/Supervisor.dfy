/** One supervised Auto Mode turn: a Provider step, a preflight of the whole tool batch, then its
    execution against two budget ledgers. The functions give the turn on values; the methods run it
    on the objects and are proved equal to them. */
module Supervisor {
  import opened Wrappers
  import opened Provider
  import opened Authorization
  import opened AutoMode
  import Tasks = AgentTasks
  import opened Tools
  import opened ToolTurns
  import Compaction

  datatype ProviderRequest = ProviderRequest(
    requestId: nat, taskId: nat, traceId: nat, providerId: string, model: string,
    messages: seq<Message>, tools: seq<string>, maxOutputTokens: nat)

  /** The Provider side: `ready` stands for everything checked before the adapter is called, and
      `complete` for any adapter whose answers may depend on the requests made so far. */
  datatype Port = Port(
    ready: ProviderRequest -> bool,
    complete: (seq<ProviderRequest>, ProviderRequest) -> Option<Response>)

  datatype Env = Env(
    registry: Registry,
    toolList: seq<string>,
    port: Port,
    respond: (seq<Invocation>, Invocation) -> Result<Json, string>,
    grant: Option<Grant>)

  /** Everything a turn can change, with the requests and invocations made so far. */
  datatype World = World(session: Session, task: Tasks.Task, requests: seq<ProviderRequest>, trace: seq<Invocation>)

  datatype StepInput = StepInput(
    model: string, messages: seq<Message>, maxOutputTokens: nat, nowMs: nat, requestId: nat, invocationIds: nat -> nat)

  datatype PlannedCall = PlannedCall(providerCallId: string, invocation: Invocation, admission: Admission)

  datatype StepOutcome = StepCompleted(response: Response) | StepToolCalls(response: Response, calls: seq<PlannedCall>)

  datatype Outcome =
    | TurnCompleted(response: Response)
    | TurnContinues(messages: seq<Message>)
    | TurnPaused(reason: PauseReason, pendingCalls: seq<PlannedCall>)

  datatype Error =
    | SessionError(session: AutoModeError)
    | TaskFailed(task: Tasks.TaskError)
    | ToolFailed(tool: ToolError)
    | ProviderFailed
    | CorrelationMismatch
    | TurnFailed(turn: TurnError)
    | MissingToolDescriptor
    | UnexpectedConfirmation

  // ---- The Provider step ----

  function PlanCalls(registry: Registry, taskId: nat, traceId: nat, calls: seq<ToolCall>, ids: nat -> nat,
                     from: nat): Result<seq<PlannedCall>, ToolError>
    decreases calls
  {
    if calls == [] then Success([]) else
    var inv := Invocation(ids(from), taskId, traceId, calls[0].toolId, calls[0].arguments);
    var admission := Admit(registry, inv);
    if admission.Failure? then Failure(admission.error) else
    var rest := PlanCalls(registry, taskId, traceId, calls[1..], ids, from + 1);
    if rest.Failure? then rest else Success([PlannedCall(calls[0].id, inv, admission.value)] + rest.value)
  }

  predicate AnyNeedsConfirmation(calls: seq<PlannedCall>) {
    exists i :: 0 <= i < |calls| && calls[i].admission.NeedsConfirmation?
  }

  function RequestFor(env: Env, task: Tasks.Task, input: StepInput): ProviderRequest {
    ProviderRequest(input.requestId, task.id, task.traceId, task.providerId, input.model, input.messages, env.toolList,
                    input.maxOutputTokens)
  }

  /** A task change that may be refused; what was changed before the refusal stays changed. */
  function Charged(w: World, step: (Tasks.Task, Result<(), Tasks.TaskError>)): (World, Option<Error>) {
    (w.(task := step.0), if step.1.Failure? then Some(TaskFailed(step.1.error)) else None)
  }

  function EnterPlanning(w: World, nowMs: nat): (World, Option<Error>) {
    if w.task.status == Tasks.Pending then Charged(w, Tasks.Transition(w.task, Tasks.Planning, nowMs)) else (w, None)
  }

  /** What follows an answer: accounting, then completion or the planned calls. */
  function AfterAnswer(env: Env, w: World, response: Response, input: StepInput): (World, Result<StepOutcome, Error>) {
    var used := response.usage;
    var (w1, accounted) := Charged(w, Tasks.AccountProviderStep(w.task, used.inputTokens, used.outputTokens,
                                                                used.costMicrounits, input.nowMs));
    if accounted.Some? then (w1, Failure(accounted.value))
    else if response.finishReason != ToolCallsRequested then
      var (w2, done) := Charged(w1, Tasks.Transition(w1.task, Tasks.Succeeded, input.nowMs));
      (w2, if done.Some? then Failure(done.value) else Success(StepCompleted(response)))
    else
      var planned := PlanCalls(env.registry, w1.task.id, w1.task.traceId, response.toolCalls, input.invocationIds, 0);
      if planned.Failure? then (w1, Failure(ToolFailed(planned.error))) else
      var next := if AnyNeedsConfirmation(planned.value) then Tasks.WaitingForConfirmation else Tasks.Running;
      if w1.task.status == next then (w1, Success(StepToolCalls(response, planned.value)))
      else
        var (w2, moved) := Charged(w1, Tasks.Transition(w1.task, next, input.nowMs));
        (w2, if moved.Some? then Failure(moved.value) else Success(StepToolCalls(response, planned.value)))
  }

  /** `AgentCoordinator::provider_step`. */
  function ProviderStep(env: Env, w: World, input: StepInput): (World, Result<StepOutcome, Error>) {
    var (w1, planning) := EnterPlanning(w, input.nowMs);
    if planning.Some? then (w1, Failure(planning.value)) else
    var request := RequestFor(env, w1.task, input);
    if !Compaction.RequestAccepted(w1.task.providerId, input.model, input.messages, env.toolList, input.maxOutputTokens)
       || !env.port.ready(request) then (w1, Failure(ProviderFailed))
    else
      var answer := env.port.complete(w1.requests, request);
      var w2 := w1.(requests := w1.requests + [request]);
      if answer.None? || !ValidResponse(input.requestId, Compaction.ToolIds(env.toolList).value, input.maxOutputTokens,
                                        answer.value)
      then (w2, Failure(ProviderFailed))
      else AfterAnswer(env, w2, answer.value, input)
  }

  // ---- Preflight of the batch ----

  function MaxClassification(classes: seq<DataClassification>): DataClassification {
    if classes == [] then Public else
    var rest := MaxClassification(classes[1..]);
    if classes[0].Rank() >= rest.Rank() then classes[0] else rest
  }

  function MessageClasses(messages: seq<Message>): seq<DataClassification> {
    seq(|messages|, i requires 0 <= i < |messages| => messages[i].classification)
  }

  function PreflightRequest(session: Session, descriptor: Descriptor, call: PlannedCall): StepRequest {
    StepRequest(session.goalId, session.planRevision, session.policy.workspaceRevision, Some(call.invocation.toolId),
                call.admission.effectiveRisk, descriptor.effect, MaxClassification(descriptor.dataClassifications),
                NO_USAGE)
  }

  function ExecutionRequest(session: Session, call: PlannedCall): StepRequest {
    StepRequest(session.goalId, session.planRevision, session.policy.workspaceRevision, Some(call.invocation.toolId),
                call.admission.effectiveRisk, ReadOnly, Public, NO_USAGE.(toolCalls := 1))
  }

  function CycleRequest(session: Session, classification: DataClassification): StepRequest {
    StepRequest(session.goalId, session.planRevision, session.policy.workspaceRevision, None, Safe, ReadOnly,
                classification, NO_USAGE.(cycles := 1))
  }

  datatype Preflight = Clear | Stop(reason: PauseReason) | Broken(error: Error)

  function PreflightOne(env: Env, session: Session, call: PlannedCall, providerId: string, model: string,
                        nowMs: nat): Preflight {
    if call.invocation.toolId !in env.registry.descriptors then Broken(MissingToolDescriptor) else
    var descriptor := env.registry.descriptors[call.invocation.toolId];
    var (_, d) := EvaluateStep(session, PreflightRequest(session, descriptor, call), env.grant, Some(providerId),
                               Some(model), nowMs);
    match d
    case Failure(e) => Broken(SessionError(e))
    case Success(Pause(reason)) => Stop(reason)
    case Success(Proceed) => Clear
  }

  function PreflightAll(env: Env, session: Session, calls: seq<PlannedCall>, providerId: string, model: string,
                        nowMs: nat): Preflight {
    if calls == [] then Clear else
    var first := PreflightOne(env, session, calls[0], providerId, model, nowMs);
    if first.Clear? then PreflightAll(env, session, calls[1..], providerId, model, nowMs) else first
  }

  // ---- Execution of the batch ----

  function AutoApproval(env: Env, session: Session, call: PlannedCall, classification: DataClassification,
                        providerId: string,
                        model: string, nowMs: nat): Option<Approval>
  {
    if !call.admission.NeedsConfirmation? || env.grant.None? then None else
    var question := GrantRequest(session.goalId, session.planRevision, session.policy.workspaceRevision,
                                 call.invocation.toolId, providerId, model, classification, false, nowMs);
    if Authorize(env.grant.value, question) == Success(Authorized)
    then Some(Bind(call.invocation, call.admission.effectiveRisk))
    else None
  }

  datatype ToolOutcome = ConfirmationAsked | ToolCompleted(output: Json)

  /** The part of `tool_step` behind the confirmation gate. */
  function Execute(env: Env, w: World, inv: Invocation, approval: Option<Approval>, nowMs: nat)
    : (World, Result<ToolOutcome, Error>)
  {
    var (w1, moved) := if w.task.status != Tasks.Running
                       then Charged(w, Tasks.Transition(w.task, Tasks.Running, nowMs)) else (w, None);
    if moved.Some? then (w1, Failure(moved.value)) else
    var (w2, reserved) := Charged(w1, Tasks.ReserveToolCall(w1.task, nowMs));
    if reserved.Some? then (w2, Failure(reserved.value)) else
    var refusal := DispatchRefusal(env.registry, inv, approval);
    if refusal.Some? then (w2, Failure(ToolFailed(refusal.value))) else
    var answer := BackendAnswer(env.respond(w2.trace, inv));
    (w2.(trace := w2.trace + [inv]),
     if answer.Failure? then Failure(ToolFailed(answer.error)) else Success(ToolCompleted(answer.value)))
  }

  /** `AgentCoordinator::tool_step`. */
  function ToolStep(env: Env, w: World, inv: Invocation, approval: Option<Approval>, nowMs: nat)
    : (World, Result<ToolOutcome, Error>)
  {
    if inv.taskId != w.task.id || inv.traceId != w.task.traceId then (w, Failure(CorrelationMismatch)) else
    var admission := Admit(env.registry, inv);
    if admission.Failure? then (w, Failure(ToolFailed(admission.error)))
    else if admission.value.NeedsConfirmation? && approval.None? then
      if w.task.status != Tasks.WaitingForConfirmation then
        var (w1, moved) := Charged(w, Tasks.Transition(w.task, Tasks.WaitingForConfirmation, nowMs));
        (w1, if moved.Some? then Failure(moved.value) else Success(ConfirmationAsked))
      else (w, Success(ConfirmationAsked))
    else Execute(env, w, inv, approval, nowMs)
  }

  function RunOne(env: Env, w: World, response: Response, results: map<string, Json>, call: PlannedCall,
                  providerId: string,
                  model: string, nowMs: nat): (World, Result<(Option<Outcome>, map<string, Json>), Error>)
  {
    if call.invocation.toolId !in env.registry.descriptors then (w, Failure(MissingToolDescriptor)) else
    var classification := MaxClassification(env.registry.descriptors[call.invocation.toolId].dataClassifications);
    var (session, d) := EvaluateStep(w.session, ExecutionRequest(w.session, call), env.grant, Some(providerId),
                                     Some(model), nowMs);
    var w1 := w.(session := session);
    match d
    case Failure(e) => (w1, Failure(SessionError(e)))
    case Success(Pause(reason)) => (w1, Success((Some(TurnPaused(reason, [call])), results)))
    case Success(Proceed) =>
      var approval := AutoApproval(env, session, call, classification, providerId, model, nowMs);
      var (w2, stepped) := ToolStep(env, w1, call.invocation, approval, nowMs);
      if stepped.Failure? then (w2, Failure(stepped.error))
      else if stepped.value.ConfirmationAsked? then (w2, Failure(UnexpectedConfirmation))
      else
        var recorded := Recorded(response.toolCalls, results,
                                 Record(call.providerCallId, call.invocation.toolId, stepped.value.output));
        if recorded.None?
        then (w2, Failure(TurnFailed(ToolResultCorrelationMismatch))) else (w2, Success((None, recorded.value)))
  }

  function RunBatch(env: Env, w: World, response: Response, results: map<string, Json>, calls: seq<PlannedCall>,
                    providerId: string,
                    model: string, nowMs: nat): (World, Result<Outcome, Error>)
    decreases calls
  {
    if calls == [] then
      var messages := Continuation(response, results);
      (w, if messages.Failure? then Failure(TurnFailed(messages.error)) else Success(TurnContinues(messages.value)))
    else
      var (w1, r) := RunOne(env, w, response, results, calls[0], providerId, model, nowMs);
      if r.Failure? then (w1, Failure(r.error))
      else if r.value.0.Some? then (w1, Success(r.value.0.value))
      else RunBatch(env, w1, response, r.value.1, calls[1..], providerId, model, nowMs)
  }

  /** `advance_tool_batch`. */
  function AdvanceBatch(env: Env, w: World, response: Response, calls: seq<PlannedCall>, model: string,
                        nowMs: nat): (World, Result<Outcome, Error>) {
    match PreflightAll(env, w.session, calls, w.task.providerId, model, nowMs)
    case Broken(e) => (w, Failure(e))
    case Stop(reason) =>
      var paused := PauseSession(w.session, reason, nowMs);
      if paused.Failure? then (w, Failure(SessionError(paused.error)))
      else (w.(session := paused.value), Success(TurnPaused(reason, calls)))
    case Clear =>
      if response.finishReason != ToolCallsRequested || response.toolCalls == []
      then (w, Failure(TurnFailed(InvalidToolTurn)))
      else RunBatch(env, w, response, map[], calls, w.task.providerId, model, nowMs)
  }

  /** `AutoModeTurnSupervisor::advance`. */
  function Advance(env: Env, w: World, input: StepInput): (World, Result<Outcome, Error>) {
    var classification := MaxClassification(MessageClasses(input.messages));
    var (session, d) := EvaluateStep(w.session, CycleRequest(w.session, classification), env.grant,
                                     Some(w.task.providerId), Some(input.model), input.nowMs);
    var w1 := w.(session := session);
    match d
    case Failure(e) => (w1, Failure(SessionError(e)))
    case Success(Pause(reason)) => (w1, Success(TurnPaused(reason, [])))
    case Success(Proceed) =>
      var (w2, stepped) := ProviderStep(env, w1, input);
      match stepped
      case Failure(e) => (w2, Failure(e))
      case Success(StepCompleted(response)) => (w2, Success(TurnCompleted(response)))
      case Success(StepToolCalls(response, calls)) => AdvanceBatch(env, w2, response, calls, input.model, input.nowMs)
  }
}
