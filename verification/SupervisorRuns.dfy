/** Budgets and termination over whole runs of supervised turns and of calls on their session and task. */
module SupervisorRuns {
  import opened Wrappers
  import opened MachineNumbers
  import opened Provider
  import opened AutoMode
  import Tasks = AgentTasks
  import opened Tools
  import opened ToolTurns
  import opened Supervisor
  import opened SupervisorSafety
  import opened SupervisorTurns
  import Compaction

  /** What can happen to a session and its task; every turn may meet another environment. Each of the
      session and task operations is one call of the library on the session alone or on the task alone;
      the durable host always moves both together. */
  datatype Op =
    | Turn(env: Env, input: StepInput)
    | SessionPause(reason: PauseReason, nowMs: nat)
    | SessionResume(binding: ResumeBinding, nowMs: nat)
    | SessionCancel(nowMs: nat)
    | SessionComplete(nowMs: nat)
    | TaskMove(next: Tasks.TaskStatus, nowMs: nat)
    | TaskCancel(nowMs: nat)

  function OrSame(w: World, r: Result<Session, AutoModeError>): World {
    if r.Success? then w.(session := r.value) else w
  }

  function Step(w: World, op: Op): World {
    match op
    case Turn(env, input) => Advance(env, w, input).0
    case SessionPause(reason, nowMs) => OrSame(w, PauseSession(w.session, reason, nowMs))
    case SessionResume(binding, nowMs) => OrSame(w, ResumeSession(w.session, binding, nowMs))
    case SessionCancel(nowMs) => OrSame(w, CancelSession(w.session, nowMs))
    case SessionComplete(nowMs) => OrSame(w, CompleteSession(w.session, nowMs))
    case TaskMove(next, nowMs) => w.(task := Tasks.Transition(w.task, next, nowMs).0)
    case TaskCancel(nowMs) => w.(task := Tasks.CancelTask(w.task, nowMs))
  }

  function Run(w: World, ops: seq<Op>): World
    decreases ops
  {
    if ops == [] then w else Run(Step(w, ops[0]), ops[1..])
  }

  ghost predicate Possible(ops: seq<Op>) {
    forall i :: 0 <= i < |ops| ==> ops[i].Turn? ==> Registered(ops[i].env)
  }

  const NO_BINDING := ResumeBinding(false, 0, 0, 0, "", ForeignDigest(""))

  /** A world between operations. */
  ghost predicate Sound(w: World) { ValidSession(w.session) && Paid(w) }

  lemma StepKeeps(w: World, op: Op)
    requires Sound(w) && (op.Turn? ==> Registered(op.env))
    ensures var w' := Step(w, op);
            && Sound(w') && SameBinding(w.session, w'.session) && SameTask(w'.task, w.task)
            && w.requests <= w'.requests && w.trace <= w'.trace
  {
    hide ValidSession, Advance, PauseSession, ResumeSession, CancelSession, CompleteSession, Registered,
         Tasks.ValidBudget;
    match op {
      case Turn(env, input) => hide Paid; PaidMeaning(w); TurnEffect(env, w, input);
      case SessionPause(reason, nowMs) => SessionMoveKeeps(w, reason, NO_BINDING, nowMs);
      case SessionResume(binding, nowMs) => SessionMoveKeeps(w, UserRequested, binding, nowMs);
      case SessionCancel(nowMs) => SessionMoveKeeps(w, UserRequested, NO_BINDING, nowMs);
      case SessionComplete(nowMs) => SessionMoveKeeps(w, UserRequested, NO_BINDING, nowMs);
      case TaskMove(_, _) =>
      case TaskCancel(_) =>
    }
  }

  lemma PaidMeaning(w: World)
    requires Paid(w)
    ensures Tasks.ValidBudget(w.task.budget) && w.task.usage.toolCalls <= U32_MAX
  {
  }

  /** A call on the session changes neither the ledger nor the bindings of a session. */
  ghost predicate Moved(s: Session, r: Result<Session, AutoModeError>) {
    r.Success? ==> ValidSession(r.value) && r.value.usage == s.usage && SameBinding(s, r.value)
  }

  lemma SessionMoveKeeps(w: World, reason: PauseReason, binding: ResumeBinding, nowMs: nat)
    requires ValidSession(w.session)
    ensures Moved(w.session, PauseSession(w.session, reason, nowMs))
    ensures Moved(w.session, ResumeSession(w.session, binding, nowMs))
    ensures Moved(w.session, CancelSession(w.session, nowMs)) && Moved(w.session, CompleteSession(w.session, nowMs))
  {
    hide ValidSession;
    TransitionsKeepSession(w.session, reason, binding, nowMs);
  }

  lemma {:induction false} RunKeeps(w: World, ops: seq<Op>)
    requires Sound(w) && Possible(ops)
    ensures var w' := Run(w, ops);
            && Sound(w') && SameBinding(w.session, w'.session) && SameTask(w'.task, w.task)
            && w.requests <= w'.requests && w.trace <= w'.trace
    decreases ops
  {
    hide Sound, Step;
    if ops != [] {
      StepKeeps(w, ops[0]);
      assert forall i :: 0 <= i < |ops| - 1 ==> ops[1..][i] == ops[i + 1];
      RunKeeps(Step(w, ops[0]), ops[1..]);
    }
  }

  /** Over any run: Provider calls never exceed the session's cycles, nor those its two limits;
      backend calls never exceed either ledger, nor those ledgers' limits. */
  lemma RunBudgets(session: Session, task: Tasks.Task, ops: seq<Op>)
    requires ValidSession(session) && Tasks.ValidTask(task) && Possible(ops)
    ensures var w := Run(World(session, task, [], []), ops);
            && ValidSession(w.session)
            && |w.requests| <= w.session.usage.cycles <= session.policy.maxCycles
            && w.session.usage.cycles <= session.policy.budget.maxSteps
            && |w.trace| <= w.session.usage.toolCalls <= session.policy.budget.maxToolCalls
            && |w.trace| <= w.task.usage.toolCalls && |w.trace| <= task.budget.maxToolCalls
  {
    hide Run, ValidSession, Possible;
    var w0 := World(session, task, [], []);
    RunKeeps(w0, ops);
    WithinPolicy(Run(w0, ops).session);
  }

  lemma WithinPolicy(s: Session)
    requires ValidSession(s)
    ensures s.usage.cycles <= s.policy.maxCycles && s.usage.cycles <= s.policy.budget.maxSteps
    ensures s.usage.toolCalls <= s.policy.budget.maxToolCalls
  {
    hide ValidPolicy;
  }

  // ---- Terminal sessions and tasks ----

  lemma TerminalSessionStep(w: World, op: Op)
    requires w.session.status in {Status.Completed, Cancelled}
    ensures var w' := Step(w, op); w'.session == w.session && w'.requests == w.requests && w'.trace == w.trace
  {
    hide Tasks.Transition, Tasks.CancelTask, ValidPolicy, ValidBody, ProviderStep, AdvanceBatch, MaxClassification;
  }

  /** A completed or cancelled session makes no further Provider call and no further tool call. */
  lemma {:induction false} TerminalSessionIsSilent(w: World, ops: seq<Op>)
    requires w.session.status in {Status.Completed, Cancelled}
    ensures var w' := Run(w, ops); w'.session == w.session && w'.requests == w.requests && w'.trace == w.trace
    decreases ops
  {
    hide Step;
    if ops != [] {
      TerminalSessionStep(w, ops[0]);
      TerminalSessionIsSilent(Step(w, ops[0]), ops[1..]);
    }
  }

  lemma TerminalTaskStep(w: World, op: Op)
    requires Tasks.Terminal(w.task.status)
    ensures var w' := Step(w, op); Tasks.Terminal(w'.task.status) && w'.trace == w.trace
  {
    hide EvaluateStep, AdvanceBatch, MaxClassification, ValidResponse, PlanCalls, Compaction.RequestAccepted,
         ValidSession;
    hide PauseSession, ResumeSession, CancelSession, CompleteSession;
  }

  /** Behind a terminal task no tool is ever called again. */
  lemma {:induction false} TerminalTaskIsSilent(w: World, ops: seq<Op>)
    requires Tasks.Terminal(w.task.status)
    ensures var w' := Run(w, ops); Tasks.Terminal(w'.task.status) && w'.trace == w.trace
    decreases ops
  {
    hide Step;
    if ops != [] {
      TerminalTaskStep(w, ops[0]);
      TerminalTaskIsSilent(Step(w, ops[0]), ops[1..]);
    }
  }

  // ---- Answers to inactive tasks ----

  /** What the Provider says to this turn's request is a valid answer. */
  ghost predicate AnswersWell(env: Env, w: World, input: StepInput) {
    var answer := env.port.complete(w.requests, RequestFor(env, w.task, input));
    answer.Some? && ValidResponse(input.requestId, Compaction.ToolIds(env.toolList).value, input.maxOutputTokens,
                                  answer.value)
  }

  lemma CallNeverInactive(env: Env, w: World, response: Response, results: map<string, Json>, call: PlannedCall,
                          providerId: string, model: string, nowMs: nat)
    ensures var (w', r) := RunOne(env, w, response, results, call, providerId, model, nowMs);
            w'.requests == w.requests && r != Failure(TaskFailed(Tasks.TaskNotActive))
  {
    hide EvaluateStep, AutoApproval, MaxClassification, DispatchRefusal, Admit, Recorded;
  }

  lemma {:induction false} BatchNeverInactive(env: Env, w: World, response: Response, results: map<string, Json>,
                                              calls: seq<PlannedCall>,
                                              providerId: string, model: string, nowMs: nat)
    ensures var (w', r) := RunBatch(env, w, response, results, calls, providerId, model, nowMs);
            w'.requests == w.requests && r != Failure(TaskFailed(Tasks.TaskNotActive))
    decreases calls
  {
    hide RunOne, Continuation;
    if calls != [] {
      CallNeverInactive(env, w, response, results, calls[0], providerId, model, nowMs);
      var (w1, r) := RunOne(env, w, response, results, calls[0], providerId, model, nowMs);
      if r.Success? && r.value.0.None? {
        BatchNeverInactive(env, w1, response, r.value.1, calls[1..], providerId, model, nowMs);
      }
    }
  }

  lemma AdvanceBatchNeverInactive(env: Env, w: World, response: Response, calls: seq<PlannedCall>, model: string,
                                  nowMs: nat)
    ensures var (w', r) := AdvanceBatch(env, w, response, calls, model, nowMs);
            w'.requests == w.requests && r != Failure(TaskFailed(Tasks.TaskNotActive))
  {
    hide RunBatch, PreflightOne;
    BatchNeverInactive(env, w, response, map[], calls, w.task.providerId, model, nowMs);
    PreflightBreaks(env, w.session, calls, w.task.providerId, model, nowMs);
  }

  lemma {:induction false} PreflightBreaks(env: Env, session: Session, calls: seq<PlannedCall>, providerId: string,
                                           model: string, nowMs: nat)
    ensures var p := PreflightAll(env, session, calls, providerId, model, nowMs);
            p.Broken? ==> p.error.SessionError? || p.error == MissingToolDescriptor
  {
    hide EvaluateStep;
    if calls != [] { PreflightBreaks(env, session, calls[1..], providerId, model, nowMs); }
  }

  /** The step throws a valid answer away exactly for such a task. */
  lemma StepWastesIff(env: Env, w: World, input: StepInput)
    ensures var (w', r) := ProviderStep(env, w, input);
            r == Failure(TaskFailed(Tasks.TaskNotActive)) <==>
              && w'.requests != w.requests && AnswersWell(env, w, input) && !Tasks.Elapsed(w.task, input.nowMs)
              && w.task.status !in {Tasks.Pending, Tasks.Planning, Tasks.Running}
  {
    hide ValidResponse, PlanCalls, Compaction.RequestAccepted;
  }

  /** Exactly when a turn ends because its task is not active: the Provider was called, its answer was
      valid and in time, and the task was not pending, planning or running when the turn began. */
  lemma WastedCallIff(env: Env, w: World, input: StepInput)
    ensures var (w', r) := Advance(env, w, input);
            r == Failure(TaskFailed(Tasks.TaskNotActive)) <==>
              && w'.requests != w.requests && AnswersWell(env, w, input) && !Tasks.Elapsed(w.task, input.nowMs)
              && w.task.status !in {Tasks.Pending, Tasks.Planning, Tasks.Running}
  {
    hide EvaluateStep, AdvanceBatch, MaxClassification, ProviderStep, ValidResponse;
    var classification := MaxClassification(MessageClasses(input.messages));
    var (session, _) := EvaluateStep(w.session, CycleRequest(w.session, classification), env.grant,
                                     Some(w.task.providerId), Some(input.model), input.nowMs);
    var w1 := w.(session := session);
    StepWastesIff(env, w1, input);
    var (w2, stepped) := ProviderStep(env, w1, input);
    if stepped.Success? && stepped.value.StepToolCalls? {
      AdvanceBatchNeverInactive(env, w2, stepped.value.response, stepped.value.calls, input.model, input.nowMs);
    }
    assert AnswersWell(env, w1, input) == AnswersWell(env, w, input);
    StepRequests(env, w1, input);
  }

  /** A step that hands something over has called the Provider with a good answer. */
  lemma StepRequests(env: Env, w: World, input: StepInput)
    ensures var (w', r) := ProviderStep(env, w, input);
            r.Success? ==> w.task.status in {Tasks.Pending, Tasks.Planning, Tasks.Running}
  {
    hide ValidResponse, PlanCalls, Compaction.RequestAccepted;
  }
}
