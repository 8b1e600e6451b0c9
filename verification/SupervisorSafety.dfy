/** What a supervised turn can and cannot do, over all Providers, tools, evaluators and grants. */
module SupervisorSafety {
  import opened Wrappers
  import opened MachineNumbers
  import opened Provider
  import opened Authorization
  import opened AutoMode
  import Tasks = AgentTasks
  import opened Tools
  import opened ToolTurns
  import opened Supervisor

  // ---- Planned calls ----

  /** The call was planned for this task and admitted as recorded. */
  ghost predicate Planned(registry: Registry, task: Tasks.Task, call: PlannedCall) {
    && Admit(registry, call.invocation) == Success(call.admission)
    && call.invocation.taskId == task.id && call.invocation.traceId == task.traceId
  }

  /** The planned calls are the response's calls in order: each invocation has the next identifier of the
      given source, the task's correlation, and the call's own tool and arguments. */
  ghost predicate PlannedFor(registry: Registry, task: Tasks.Task, toolCalls: seq<ToolCall>, ids: nat -> nat, from: nat,
                             calls: seq<PlannedCall>) {
    && |calls| == |toolCalls|
    && forall i :: 0 <= i < |calls| ==>
         && Planned(registry, task, calls[i])
         && calls[i].providerCallId == toolCalls[i].id
         && calls[i].invocation == Invocation(ids(from + i), task.id, task.traceId, toolCalls[i].toolId,
                                              toolCalls[i].arguments)
  }

  lemma {:induction false} PlanCallsMeaning(registry: Registry, task: Tasks.Task, toolCalls: seq<ToolCall>,
                                            ids: nat -> nat, from: nat)
    ensures var r := PlanCalls(registry, task.id, task.traceId, toolCalls, ids, from);
            && (r.Success? ==> PlannedFor(registry, task, toolCalls, ids, from, r.value))
            && (r.Failure? ==>
                  && r.error == UnknownTool
                  && exists i :: 0 <= i < |toolCalls| && toolCalls[i].toolId !in registry.descriptors)
    decreases toolCalls
  {
    if toolCalls != [] {
      var rest := toolCalls[1..];
      PlanCallsMeaning(registry, task, rest, ids, from + 1);
      var r := PlanCalls(registry, task.id, task.traceId, rest, ids, from + 1);
      if r.Failure? {
        var i :| 0 <= i < |rest| && rest[i].toolId !in registry.descriptors;
        assert toolCalls[i + 1] == rest[i];
      }
    }
  }

  // ---- Clearing the preflight decides the execution ----

  /** The parts of a session that are fixed when it is created. */
  ghost predicate SameBinding(s: Session, t: Session) {
    && s.spec == t.spec && s.id == t.id && s.goalId == t.goalId && s.planRevision == t.planRevision
    && s.policy == t.policy && s.policyFingerprint == t.policyFingerprint && s.createdAtMs == t.createdAtMs
  }

  ghost predicate Cleared(env: Env, session: Session, call: PlannedCall, providerId: string, model: string,
                          nowMs: nat) {
    PreflightOne(env, session, call, providerId, model, nowMs) == Clear
  }

  lemma ClearedGuard(env: Env, session: Session, call: PlannedCall, providerId: string, model: string, nowMs: nat)
    requires Cleared(env, session, call, providerId, model, nowMs)
    ensures call.invocation.toolId in env.registry.descriptors
    ensures var descriptor := env.registry.descriptors[call.invocation.toolId];
            var request := PreflightRequest(session, descriptor, call);
            GuardReason(session, request, env.grant, Some(providerId), Some(model), nowMs) == None
  {
    hide ValidPolicy, ValidBody, ExceedsBudget, GuardReason;
  }

  /** A cleared call that needs confirmation is covered by the grant, at its real classification. */
  lemma ClearedIsAuthorized(env: Env, session: Session, call: PlannedCall, providerId: string, model: string,
                            nowMs: nat)
    requires Cleared(env, session, call, providerId, model, nowMs)
    requires call.invocation.toolId in env.registry.descriptors
    requires RequiresConfirmation(call.admission.effectiveRisk, env.registry.descriptors[call.invocation.toolId].effect)
    ensures env.grant.Some?
    ensures var descriptor := env.registry.descriptors[call.invocation.toolId];
            Authorize(env.grant.value,
                      GrantQuestion(PreflightRequest(session, descriptor, call), call.invocation.toolId, providerId,
                                    model, nowMs))
            == Success(Authorized)
  {
    hide ValidGrant, RequiresConfirmation;
    ClearedGuard(env, session, call, providerId, model, nowMs);
  }

  /** Whatever was cleared passes every guard again when it is executed. */
  lemma ExecutionGuardPasses(env: Env, s0: Session, s: Session, call: PlannedCall, providerId: string, model: string,
                             nowMs: nat)
    requires Cleared(env, s0, call, providerId, model, nowMs) && SameBinding(s0, s)
    ensures GuardReason(s, ExecutionRequest(s, call), env.grant, Some(providerId), Some(model), nowMs) == None
  {
    hide ValidGrant;
    ClearedGuard(env, s0, call, providerId, model, nowMs);
    var descriptor := env.registry.descriptors[call.invocation.toolId];
    if RequiresConfirmation(call.admission.effectiveRisk, ReadOnly) {
      ClearedIsAuthorized(env, s0, call, providerId, model, nowMs);
      var question := GrantQuestion(PreflightRequest(s0, descriptor, call), call.invocation.toolId, providerId, model,
                                    nowMs);
      LessSensitiveStaysAuthorized(env.grant.value, question, Public);
      assert GrantQuestion(ExecutionRequest(s, call), call.invocation.toolId, providerId, model, nowMs)
             == question.(dataClassification := Public);
    }
  }

  /** A cleared call that needs confirmation always gets an approval bound to it, so dispatch has
      nothing to refuse but a bad timeout. */
  lemma ApprovalCovers(env: Env, s0: Session, s: Session, task: Tasks.Task, call: PlannedCall, providerId: string,
                       model: string, nowMs: nat)
    requires Cleared(env, s0, call, providerId, model, nowMs) && SameBinding(s0, s) && Planned(env.registry, task, call)
    ensures call.invocation.toolId in env.registry.descriptors
    ensures var descriptor := env.registry.descriptors[call.invocation.toolId];
            var classification := MaxClassification(descriptor.dataClassifications);
            var approval := AutoApproval(env, s, call, classification, providerId, model, nowMs);
            && (call.admission.NeedsConfirmation? ==>
                     approval == Some(Bind(call.invocation, call.admission.effectiveRisk)))
            && DispatchRefusal(env.registry, call.invocation, approval) in {None, Some(InvalidToolTimeout)}
  {
    hide ValidGrant, Authorize, MaxClassification;
    var descriptor := env.registry.descriptors[call.invocation.toolId];
    if call.admission.NeedsConfirmation? {
      ConfirmationTestsAgree(descriptor.effect, call.admission.effectiveRisk);
      ClearedIsAuthorized(env, s0, call, providerId, model, nowMs);
    }
  }

  // ---- One call ----

  /** The only ways in which an executing batch can fail. */
  predicate Tolerable(e: Error) {
    || e == TaskFailed(Tasks.TaskBudgetExhausted)
    || e == ToolFailed(InvalidToolTimeout)
    || (e.ToolFailed? && e.tool.BackendFailed?)
    || e == TurnFailed(ToolResultCorrelationMismatch)
  }

  ghost predicate SameTask(a: Tasks.Task, b: Tasks.Task) {
    a.id == b.id && a.traceId == b.traceId && a.budget == b.budget && a.createdAtMs == b.createdAtMs
    && a.providerId == b.providerId
  }

  predicate Workable(status: Tasks.TaskStatus) {
    status in {Tasks.Running, Tasks.WaitingForConfirmation}
  }

  /** Each backend call is covered by exactly one unit in both ledgers. */
  ghost predicate Charge(w: World, w': World, inv: Invocation) {
    && w'.requests == w.requests
    && w'.session.usage.cycles == w.session.usage.cycles
    && w.session.usage.toolCalls <= w'.session.usage.toolCalls
    && w.task.usage.toolCalls <= w'.task.usage.toolCalls <= U32_MAX
    && (|| w'.trace == w.trace
        || (&& w'.trace == w.trace + [inv]
            && w'.session.usage.toolCalls == w.session.usage.toolCalls + 1
            && w'.task.usage.toolCalls == w.task.usage.toolCalls + 1 <= w.task.budget.maxToolCalls))
  }

  lemma MoveToRunning(task: Tasks.Task, nowMs: nat)
    requires Workable(task.status) && task.status != Tasks.Running
    ensures var (t, r) := Tasks.Transition(task, Tasks.Running, nowMs);
            && SameTask(t, task) && t.usage == task.usage
            && (if r.Success? then t.status == Tasks.Running else r.error == Tasks.TaskBudgetExhausted)
  {
  }

  lemma ReserveEffect(task: Tasks.Task, nowMs: nat)
    requires task.status == Tasks.Running && Tasks.ValidBudget(task.budget) && task.usage.toolCalls <= U32_MAX
    ensures var (t, r) := Tasks.ReserveToolCall(task, nowMs);
            && SameTask(t, task)
            && task.usage.toolCalls <= t.usage.toolCalls <= U32_MAX
            && (if r.Success?
                then && t.status == Tasks.Running
                     && t.usage.toolCalls == task.usage.toolCalls + 1 <= task.budget.maxToolCalls
                else r.error == Tasks.TaskBudgetExhausted)
  {
  }

  lemma ExecuteEffect(env: Env, w: World, inv: Invocation, approval: Option<Approval>, nowMs: nat)
    requires Workable(w.task.status) && Tasks.ValidBudget(w.task.budget) && w.task.usage.toolCalls <= U32_MAX
    requires DispatchRefusal(env.registry, inv, approval) in {None, Some(InvalidToolTimeout)}
    ensures var (w', r) := Execute(env, w, inv, approval, nowMs);
            && w'.session == w.session && w'.requests == w.requests && SameTask(w'.task, w.task)
            && (r.Failure? ==> Tolerable(r.error) && r.error != TurnFailed(ToolResultCorrelationMismatch))
            && (r.Success? ==> r.value.ToolCompleted? && w'.task.status == Tasks.Running && w'.trace == w.trace + [inv])
            && w.task.usage.toolCalls <= w'.task.usage.toolCalls <= U32_MAX
            && (w'.trace == w.trace
                || (w'.trace == w.trace + [inv]
                    && w'.task.usage.toolCalls == w.task.usage.toolCalls + 1 <= w.task.budget.maxToolCalls))
  {
    hide DispatchRefusal, Tasks.Transition, Tasks.ReserveToolCall, Tasks.ValidBudget;
    if w.task.status != Tasks.Running { MoveToRunning(w.task, nowMs); }
    var running := if w.task.status != Tasks.Running then Tasks.Transition(w.task, Tasks.Running, nowMs).0 else w.task;
    if running.status == Tasks.Running { ReserveEffect(running, nowMs); }
  }

  /** The world a batch starts from and keeps: a valid running session with the bindings that were
      cleared, and a workable task. */
  ghost predicate BatchReady(w: World, s0: Session, task0: Tasks.Task, nowMs: nat) {
    && ValidSession(w.session) && w.session.status == Running && w.session.updatedAtMs <= nowMs
    && SameBinding(s0, w.session)
    && SameTask(w.task, task0) && Workable(w.task.status)
    && Tasks.ValidBudget(w.task.budget) && w.task.usage.toolCalls <= U32_MAX
  }

  predicate PausedFor(s: Session, reason: PauseReason) { s.status == Paused && s.pauseReason == Some(reason) }

  /** Evaluating a cleared call again proceeds, or pauses for the budget. */
  lemma CallEvaluation(env: Env, s0: Session, s: Session, call: PlannedCall, providerId: string, model: string,
                       nowMs: nat)
    requires Cleared(env, s0, call, providerId, model, nowMs) && SameBinding(s0, s)
    requires ValidSession(s) && s.status == Running && s.updatedAtMs <= nowMs
    ensures var (t, d) := EvaluateStep(s, ExecutionRequest(s, call), env.grant, Some(providerId), Some(model), nowMs);
            && ValidSession(t) && SameBinding(s0, t) && t.usage.cycles == s.usage.cycles && t.updatedAtMs <= nowMs
            && (d == Success(Pause(BudgetExhausted)) || d == Success(Proceed))
            && (d == Success(Pause(BudgetExhausted)) ==> t.usage == s.usage && PausedFor(t, BudgetExhausted))
            && (d == Success(Proceed) ==> t.status == Running && t.usage.toolCalls == s.usage.toolCalls + 1)
  {
    hide ValidPolicy, ValidBody, GuardReason, ExceedsBudget, PreflightOne;
    ExecutionGuardPasses(env, s0, s, call, providerId, model, nowMs);
    EvaluateKeepsSession(s, ExecutionRequest(s, call), env.grant, Some(providerId), Some(model), nowMs);
  }

  /** A cleared, planned call is executed, or fails tolerably; it never asks for confirmation. */
  lemma ToolStepEffect(env: Env, w: World, s0: Session, task0: Tasks.Task, call: PlannedCall, providerId: string,
                       model: string, nowMs: nat)
    requires BatchReady(w, s0, task0, nowMs)
    requires Cleared(env, s0, call, providerId, model, nowMs) && Planned(env.registry, task0, call)
    ensures call.invocation.toolId in env.registry.descriptors
    ensures var descriptor := env.registry.descriptors[call.invocation.toolId];
            var classification := MaxClassification(descriptor.dataClassifications);
            var approval := AutoApproval(env, w.session, call, classification, providerId, model, nowMs);
            && ToolStep(env, w, call.invocation, approval, nowMs) == Execute(env, w, call.invocation, approval, nowMs)
            && DispatchRefusal(env.registry, call.invocation, approval) in {None, Some(InvalidToolTimeout)}
  {
    hide DispatchRefusal, AutoApproval, Execute, MaxClassification, PreflightOne, ValidSession;
    ApprovalCovers(env, s0, w.session, w.task, call, providerId, model, nowMs);
  }

  /** One call of a cleared batch: it runs and is recorded, the turn pauses for the budget with
      nothing dispatched, or it fails tolerably. */
  lemma RunOneEffect(env: Env, w: World, s0: Session, task0: Tasks.Task, response: Response, results: map<string, Json>,
                     call: PlannedCall,
                     providerId: string, model: string, nowMs: nat)
    requires BatchReady(w, s0, task0, nowMs)
    requires Cleared(env, s0, call, providerId, model, nowMs) && Planned(env.registry, task0, call)
    ensures var (w', r) := RunOne(env, w, response, results, call, providerId, model, nowMs);
            && ValidSession(w'.session) && SameTask(w'.task, task0) && SameBinding(s0, w'.session)
            && Charge(w, w', call.invocation)
            && (r.Failure? ==> Tolerable(r.error))
            && (r.Success? && r.value.0.Some? ==>
                  && r.value.0.value == TurnPaused(BudgetExhausted, [call])
                  && PausedFor(w'.session, BudgetExhausted) && w'.trace == w.trace)
            && (r.Success? && r.value.0.None? ==>
                     BatchReady(w', s0, task0, nowMs) && w'.trace == w.trace + [call.invocation])
  {
    hide AutoApproval, DispatchRefusal, MaxClassification, Execute, ToolStep, PreflightOne, EvaluateStep, Recorded,
         ValidSession;
    hide Tasks.ValidBudget;
    CallEvaluation(env, s0, w.session, call, providerId, model, nowMs);
    var (session, d) := EvaluateStep(w.session, ExecutionRequest(w.session, call), env.grant, Some(providerId),
                                     Some(model), nowMs);
    if d == Success(Proceed) {
      var w1 := w.(session := session);
      ToolStepEffect(env, w1, s0, task0, call, providerId, model, nowMs);
      var classification := MaxClassification(env.registry.descriptors[call.invocation.toolId].dataClassifications);
      var approval := AutoApproval(env, session, call, classification, providerId, model, nowMs);
      ExecuteEffect(env, w1, call.invocation, approval, nowMs);
    }
  }

  /** A completed call leaves exactly its result behind; recording can only be refused because the
      response used one identifier for two calls or because its identifier is not one of the turn's,
      and only after the call was dispatched. */
  lemma RunOneRecords(env: Env, w: World, response: Response, results: map<string, Json>, call: PlannedCall,
                      providerId: string, model: string, nowMs: nat)
    ensures var (w', r) := RunOne(env, w, response, results, call, providerId, model, nowMs);
            && (r.Success? && r.value.0.None? ==>
                     r.value.1.Keys == results.Keys + {call.providerCallId} && call.providerCallId !in results)
            && (r == Failure(TurnFailed(ToolResultCorrelationMismatch)) ==>
                  && w'.trace == w.trace + [call.invocation]
                  && var found := FindCall(response.toolCalls, call.providerCallId);
                     found.None? || found.value.toolId != call.invocation.toolId || call.providerCallId in results)
  {
    hide AutoApproval, DispatchRefusal, MaxClassification, EvaluateStep, FindCall, Admit;
  }
}
