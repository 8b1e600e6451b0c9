/** The supervised turn on the objects themselves: session, task, Provider registry, tool backend and
    tool turn are changed in place, in the order of the steps, and end as the functions say. */
module TurnSupervisors {
  import opened Wrappers
  import opened Provider
  import opened Authorization
  import opened AutoMode
  import Tasks = AgentTasks
  import opened Tools
  import opened ToolTurns
  import opened Supervisor
  import opened SupervisorSafety
  import Compaction

  /** The registered Provider with its calls so far. */
  class ProviderRegistry {
    const port: Port
    var requests: seq<ProviderRequest>

    constructor (port: Port)
      ensures this.port == port && requests == []
    {
      this.port, requests := port, [];
    }

    /** One checked call: refused before it is made, or made once and its answer checked. */
    method Complete(request: ProviderRequest) returns (r: Option<Response>)
      modifies this
      ensures !port.ready(request) ==> r == None && requests == old(requests)
      ensures port.ready(request) ==>
                && requests == old(requests) + [request]
                && r == Checked(request, port.complete(old(requests), request))
    {
      if !port.ready(request) { return None; }
      var answer := port.complete(requests, request);
      requests := requests + [request];
      if answer.None? { return None; }
      if !ValidResponse(request.requestId, Compaction.ToolIds(request.tools).value, request.maxOutputTokens,
                        answer.value) {
        return None;
      }
      return answer;
    }
  }

  function Checked(request: ProviderRequest, answer: Option<Response>): Option<Response> {
    if answer.Some? && ValidResponse(request.requestId, Compaction.ToolIds(request.tools).value,
                                     request.maxOutputTokens, answer.value)
    then answer else None
  }

  function Planning(done: seq<PlannedCall>, rest: Result<seq<PlannedCall>,
                    ToolError>): Result<seq<PlannedCall>, ToolError> {
    if rest.Failure? then rest else Success(done + rest.value)
  }

  class AgentCoordinator {
    const providers: ProviderRegistry
    const registry: Registry
    const toolList: seq<string>

    constructor (providers: ProviderRegistry, registry: Registry, toolList: seq<string>)
      ensures this.providers == providers && this.registry == registry && this.toolList == toolList
    {
      this.providers, this.registry, this.toolList := providers, registry, toolList;
    }

    method PlanToolCalls(task: Tasks.AgentTask, response: Response,
                         ids: nat -> nat) returns (r: Result<seq<PlannedCall>, Error>)
      ensures var planned := PlanCalls(registry, task.id, task.traceId, response.toolCalls, ids, 0);
              r == if planned.Failure? then Failure(ToolFailed(planned.error)) else Success(planned.value)
      ensures r.Success? ==> PlannedFor(registry, task.State(), response.toolCalls, ids, 0, r.value)
    {
      hide PlannedFor, Planned, Admit;
      var calls: seq<PlannedCall> := [];
      var toolCalls := response.toolCalls;
      assert toolCalls[0..] == toolCalls;
      ghost var all := PlanCalls(registry, task.id, task.traceId, toolCalls, ids, 0);
      assert all.Success? ==> [] + all.value == all.value;
      for i := 0 to |toolCalls|
        invariant PlanCalls(registry, task.id, task.traceId, toolCalls, ids, 0)
                  == Planning(calls, PlanCalls(registry, task.id, task.traceId, toolCalls[i..], ids, i))
      {
        var call := toolCalls[i];
        assert toolCalls[i..][0] == call && toolCalls[i..][1..] == toolCalls[i + 1..];
        var inv := Invocation(ids(i), task.id, task.traceId, call.toolId, call.arguments);
        var admission := Admit(registry, inv);
        if admission.Failure? { return Failure(ToolFailed(admission.error)); }
        ghost var rest := PlanCalls(registry, task.id, task.traceId, toolCalls[i + 1..], ids, i + 1);
        var planned := PlannedCall(call.id, inv, admission.value);
        assert rest.Success? ==> calls + ([planned] + rest.value) == (calls + [planned]) + rest.value;
        calls := calls + [planned];
      }
      assert toolCalls[|toolCalls|..] == [] && calls + [] == calls;
      assert all == Success(calls);
      PlanCallsMeaning(registry, task.State(), toolCalls, ids, 0);
      return Success(calls);
    }

    method ProviderStep(task: Tasks.AgentTask, input: StepInput) returns (r: Result<StepOutcome, Error>)
      modifies task, providers
      ensures forall env: Env, session, trace ::
                env.registry == registry && env.toolList == toolList && env.port == providers.port ==>
                  Supervisor.ProviderStep(env, World(session, old(task.State()), old(providers.requests), trace), input)
                  == (World(session, task.State(), providers.requests, trace), r)
    {
      hide Compaction.RequestAccepted, ValidResponse, PlanCalls, AnyNeedsConfirmation, Tasks.Transition,
           Tasks.AccountProviderStep;
      if task.status == Tasks.Pending {
        var moved := task.TransitionTo(Tasks.Planning, input.nowMs);
        if moved.Failure? { return Failure(TaskFailed(moved.error)); }
      }
      if !Compaction.RequestAccepted(task.providerId, input.model, input.messages, toolList, input.maxOutputTokens) {
        return Failure(ProviderFailed);
      }
      var request := ProviderRequest(input.requestId, task.id, task.traceId, task.providerId, input.model,
                                     input.messages, toolList, input.maxOutputTokens);
      var answer := providers.Complete(request);
      if answer.None? { return Failure(ProviderFailed); }
      var response := answer.value;
      var usage := response.usage;
      var accounted := task.AccountStep(usage.inputTokens, usage.outputTokens, usage.costMicrounits, input.nowMs);
      if accounted.Failure? { return Failure(TaskFailed(accounted.error)); }
      if response.finishReason != ToolCallsRequested {
        var done := task.TransitionTo(Tasks.Succeeded, input.nowMs);
        if done.Failure? { return Failure(TaskFailed(done.error)); }
        return Success(StepCompleted(response));
      }
      var planned := PlanToolCalls(task, response, input.invocationIds);
      if planned.Failure? { return Failure(planned.error); }
      var next := if AnyNeedsConfirmation(planned.value) then Tasks.WaitingForConfirmation else Tasks.Running;
      if task.status != next {
        var moved := task.TransitionTo(next, input.nowMs);
        if moved.Failure? { return Failure(TaskFailed(moved.error)); }
      }
      return Success(StepToolCalls(response, planned.value));
    }

    method ToolStep(task: Tasks.AgentTask, backend: Backend, inv: Invocation, approval: Option<Approval>, nowMs: nat)
      returns (r: Result<ToolOutcome, Error>)
      modifies task, backend
      ensures forall env: Env, session, requests ::
                env.registry == registry && env.respond == backend.respond ==>
                  Supervisor.ToolStep(env, World(session, old(task.State()), requests, old(backend.trace)), inv,
                                      approval, nowMs)
                  == (World(session, task.State(), requests, backend.trace), r)
    {
      hide DispatchRefusal, Tasks.Transition, Tasks.ReserveToolCall, Admit;
      if inv.taskId != task.id || inv.traceId != task.traceId { return Failure(CorrelationMismatch); }
      var admission := Admit(registry, inv);
      if admission.Failure? { return Failure(ToolFailed(admission.error)); }
      if admission.value.NeedsConfirmation? && approval.None? {
        if task.status != Tasks.WaitingForConfirmation {
          var moved := task.TransitionTo(Tasks.WaitingForConfirmation, nowMs);
          if moved.Failure? { return Failure(TaskFailed(moved.error)); }
        }
        return Success(ConfirmationAsked);
      }
      if task.status != Tasks.Running {
        var moved := task.TransitionTo(Tasks.Running, nowMs);
        if moved.Failure? { return Failure(TaskFailed(moved.error)); }
      }
      var reserved := task.ReserveCall(nowMs);
      if reserved.Failure? { return Failure(TaskFailed(reserved.error)); }
      var output := Dispatch(registry, backend, inv, approval);
      if output.Failure? { return Failure(ToolFailed(output.error)); }
      return Success(ToolCompleted(output.value));
    }
  }

  /** A batch is its first call followed by the rest. */
  lemma BatchStep(env: Env, w: World, response: Response, results: map<string, Json>, calls: seq<PlannedCall>, i: nat,
                  providerId: string, model: string, nowMs: nat)
    requires i < |calls|
    ensures var (w1, r) := RunOne(env, w, response, results, calls[i], providerId, model, nowMs);
            RunBatch(env, w, response, results, calls[i..], providerId, model, nowMs)
            == if r.Failure? then (w1, Failure(r.error))
               else if r.value.0.Some? then (w1, Success(r.value.0.value))
               else RunBatch(env, w1, response, r.value.1, calls[i + 1..], providerId, model, nowMs)
  {
    hide RunOne;
    assert calls[i..][0] == calls[i] && calls[i..][1..] == calls[i + 1..];
  }

  class AutoModeTurnSupervisor {
    const coordinator: AgentCoordinator
    const backend: Backend
    const grant: Option<Grant>

    constructor (coordinator: AgentCoordinator, backend: Backend, grant: Option<Grant>)
      ensures this.coordinator == coordinator && this.backend == backend && this.grant == grant
    {
      this.coordinator, this.backend, this.grant := coordinator, backend, grant;
    }

    /** The fixed surroundings of its turns. */
    function Surroundings(): Env {
      Env(coordinator.registry, coordinator.toolList, coordinator.providers.port, backend.respond, grant)
    }

    function WorldOf(session: AutoModeSession, task: Tasks.AgentTask): World
      reads session, task, coordinator.providers, backend
    {
      World(session.State(), task.State(), coordinator.providers.requests, backend.trace)
    }

    method PreflightBatch(session: AutoModeSession, providerId: string, calls: seq<PlannedCall>, model: string,
                          nowMs: nat) returns (r: Preflight)
      ensures r == PreflightAll(Surroundings(), session.State(), calls, providerId, model, nowMs)
    {
      hide EvaluateStep, MaxClassification;
      assert calls[0..] == calls;
      for i := 0 to |calls|
        invariant PreflightAll(Surroundings(), session.State(), calls, providerId, model, nowMs)
                  == PreflightAll(Surroundings(), session.State(), calls[i..], providerId, model, nowMs)
      {
        var call := calls[i];
        assert calls[i..][0] == call && calls[i..][1..] == calls[i + 1..];
        if call.invocation.toolId !in coordinator.registry.descriptors { return Broken(MissingToolDescriptor); }
        var descriptor := coordinator.registry.descriptors[call.invocation.toolId];
        var preview := new AutoModeSession(session.State());
        var d := preview.EvaluateStepWithGrant(PreflightRequest(session.State(), descriptor, call), grant,
                                               Some(providerId), Some(model), nowMs);
        if d.Failure? { return Broken(SessionError(d.error)); }
        if d.value.Pause? { return Stop(d.value.reason); }
      }
      return Clear;
    }

    /** One call of the batch on the objects. */
    method RunCall(session: AutoModeSession, task: Tasks.AgentTask, turn: ProviderToolTurn, call: PlannedCall,
                   providerId: string,
                   model: string, nowMs: nat) returns (r: Result<Option<Outcome>, Error>)
      requires turn.Valid()
      modifies session, task, turn, backend
      ensures turn.Valid()
      ensures var (w, s) := RunOne(Surroundings(), old(WorldOf(session, task)), turn.response, old(turn.results), call,
                                   providerId, model, nowMs);
              && WorldOf(session, task) == w
              && (s.Failure? ==> r == Failure(s.error))
              && (s.Success? ==> r == Success(s.value.0) && turn.results == s.value.1)
    {
      hide EvaluateStep, MaxClassification, Supervisor.ToolStep, AutoApproval, FindCall;
      if call.invocation.toolId !in coordinator.registry.descriptors { return Failure(MissingToolDescriptor); }
      var descriptor := coordinator.registry.descriptors[call.invocation.toolId];
      var classification := MaxClassification(descriptor.dataClassifications);
      var d := session.EvaluateStepWithGrant(ExecutionRequest(session.State(), call), grant, Some(providerId),
                                             Some(model), nowMs);
      if d.Failure? { return Failure(SessionError(d.error)); }
      if d.value.Pause? { return Success(Some(TurnPaused(d.value.reason, [call]))); }
      var approval := AutoApproval(Surroundings(), session.State(), call, classification, providerId, model, nowMs);
      var stepped := coordinator.ToolStep(task, backend, call.invocation, approval, nowMs);
      if stepped.Failure? { return Failure(stepped.error); }
      if stepped.value.ConfirmationAsked? { return Failure(UnexpectedConfirmation); }
      var recorded := turn.RecordResult(call.providerCallId, call.invocation.toolId, stepped.value.output);
      if recorded.Failure? { return Failure(TurnFailed(recorded.error)); }
      return Success(None);
    }

    method AdvanceToolBatch(session: AutoModeSession, task: Tasks.AgentTask, response: Response,
                            calls: seq<PlannedCall>,
                            model: string, nowMs: nat) returns (r: Result<Outcome, Error>)
      modifies session, task, backend
      ensures (WorldOf(session, task), r) == AdvanceBatch(Surroundings(), old(WorldOf(session, task)), response, calls,
                                                          model, nowMs)
    {
      hide PreflightAll, RunOne, Continuation;
      var providerId := task.providerId;
      var preflight := PreflightBatch(session, providerId, calls, model, nowMs);
      if preflight.Broken? { return Failure(preflight.error); }
      if preflight.Stop? {
        var paused := session.PauseFor(preflight.reason, nowMs);
        if paused.Failure? { return Failure(SessionError(paused.error)); }
        return Success(TurnPaused(preflight.reason, calls));
      }
      var started := ProviderToolTurn.Start(response);
      if started.Failure? { return Failure(TurnFailed(started.error)); }
      var turn := started.value;
      ghost var w0 := WorldOf(session, task);
      assert calls[0..] == calls;
      for i := 0 to |calls|
        invariant turn.Valid() && fresh(turn) && turn.response == response
        invariant RunBatch(Surroundings(), w0, response, map[], calls, providerId, model, nowMs)
                  == RunBatch(Surroundings(), WorldOf(session, task), response, turn.results, calls[i..], providerId,
                              model, nowMs)
      {
        ghost var before, had := WorldOf(session, task), turn.results;
        BatchStep(Surroundings(), before, response, had, calls, i, providerId, model, nowMs);
        var ran := RunCall(session, task, turn, calls[i], providerId, model, nowMs);
        ghost var one := RunOne(Surroundings(), before, response, had, calls[i], providerId, model, nowMs);
        assert WorldOf(session, task) == one.0;
        if ran.Failure? { return Failure(ran.error); }
        if ran.value.Some? { return Success(ran.value.value); }
      }
      var messages := turn.ContinuationMessages();
      if messages.Failure? { return Failure(TurnFailed(messages.error)); }
      return Success(TurnContinues(messages.value));
    }

    method Advance(session: AutoModeSession, task: Tasks.AgentTask, input: StepInput)
      returns (r: Result<Outcome, Error>)
      modifies session, task, backend, coordinator.providers
      ensures (WorldOf(session, task), r) == Supervisor.Advance(Surroundings(), old(WorldOf(session, task)), input)
    {
      hide EvaluateStep, Supervisor.ProviderStep, AdvanceBatch;
      var classification := MaxClassification(MessageClasses(input.messages));
      var d := session.EvaluateStepWithGrant(CycleRequest(session.State(), classification), grant,
                                             Some(task.providerId), Some(input.model), input.nowMs);
      if d.Failure? { return Failure(SessionError(d.error)); }
      if d.value.Pause? { return Success(TurnPaused(d.value.reason, [])); }
      var stepped := coordinator.ProviderStep(task, input);
      if stepped.Failure? { return Failure(stepped.error); }
      if stepped.value.StepCompleted? { return Success(TurnCompleted(stepped.value.response)); }
      r := AdvanceToolBatch(session, task, stepped.value.response, stepped.value.calls, input.model, input.nowMs);
    }
  }
}
