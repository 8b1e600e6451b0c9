/** Agent tasks: the lifecycle and the second budget ledger. */
module AgentTasks {
  import opened Wrappers
  import opened Text
  import opened MachineNumbers
  import opened Authorization

  const TASK_SPEC := "nimora.agent-task/1"

  datatype TaskStatus =
    Pending | Planning | WaitingForConfirmation | Running | Paused | Succeeded | Failed | Cancelled | BudgetExhausted

  datatype TaskUsage = TaskUsage(steps: nat, toolCalls: nat, inputTokens: nat, outputTokens: nat, costMicrounits: nat)

  datatype Task = Task(
    spec: string,
    id: nat,
    traceId: nat,
    requester: string,
    providerId: string,
    status: TaskStatus,
    budget: Budget,
    usage: TaskUsage,
    createdAtMs: nat,
    updatedAtMs: nat)

  datatype TaskError = InvalidTaskIdentity | InvalidTaskBudget | InvalidTaskTransition | TaskNotActive
    | TaskBudgetExhausted

  predicate Terminal(s: TaskStatus) { s in {Succeeded, Failed, Cancelled, BudgetExhausted} }

  predicate ValidTransition(current: TaskStatus, next: TaskStatus) {
    && !Terminal(current)
    && (|| (current == Pending && next == Planning)
        || (current in {Planning, Running} && next in {WaitingForConfirmation, Succeeded, Failed})
        || (current in {Planning, WaitingForConfirmation, Paused} && next == Running)
        || (current in {Planning, WaitingForConfirmation, Running} && next == Cancelled)
        || (current in {Running, WaitingForConfirmation} && next == Paused))
  }

  predicate ValidBudget(b: Budget) {
    && 0 < b.maxSteps <= 256
    && b.maxToolCalls <= b.maxSteps
    && 0 < b.maxElapsedMs <= 24 * 60 * 60 * 1000
    && b.maxInputTokens != 0
    && b.maxOutputTokens != 0
  }

  predicate OverBudget(t: Task) {
    || t.usage.steps > t.budget.maxSteps
    || t.usage.toolCalls > t.budget.maxToolCalls
    || t.usage.inputTokens > t.budget.maxInputTokens
    || t.usage.outputTokens > t.budget.maxOutputTokens
    || t.usage.costMicrounits > t.budget.maxCostMicrounits
  }

  /** `AgentTask::validate`. */
  predicate ValidTask(t: Task) {
    && t.spec == TASK_SPEC
    && ValidPrincipal(t.requester) && ValidPrincipal(t.providerId)
    && t.updatedAtMs >= t.createdAtMs
    && ValidBudget(t.budget)
    && !OverBudget(t)
  }

  predicate Elapsed(t: Task, nowMs: nat) {
    nowMs > t.createdAtMs && nowMs - t.createdAtMs > t.budget.maxElapsedMs
  }

  /** `ensure_elapsed`: running out of time marks the task, whatever its status was. */
  function OutOfTime(t: Task, nowMs: nat): Task { t.(status := BudgetExhausted, updatedAtMs := nowMs) }

  function Transition(t: Task, next: TaskStatus, nowMs: nat): (Task, Result<(), TaskError>) {
    if !ValidTransition(t.status, next) then (t, Failure(InvalidTaskTransition))
    else if Elapsed(t, nowMs) then (OutOfTime(t, nowMs), Failure(TaskBudgetExhausted))
    else (t.(status := next, updatedAtMs := nowMs), Success(()))
  }

  /** `enforce_usage` after the counters have been raised. */
  function Enforce(t: Task): (Task, Result<(), TaskError>) {
    if OverBudget(t) then (t.(status := BudgetExhausted), Failure(TaskBudgetExhausted)) else (t, Success(()))
  }

  function AccountProviderStep(t: Task, inputTokens: nat, outputTokens: nat, costMicrounits: nat, nowMs: nat)
    : (Task, Result<(), TaskError>)
  {
    if Elapsed(t, nowMs) then (OutOfTime(t, nowMs), Failure(TaskBudgetExhausted))
    else if t.status !in {Planning, Running} then (t, Failure(TaskNotActive))
    else
      var usage := t.usage.(steps := SaturatingAdd(t.usage.steps, 1, U32_MAX),
                            inputTokens := SaturatingAdd(t.usage.inputTokens, inputTokens, U64_MAX),
                            outputTokens := SaturatingAdd(t.usage.outputTokens, outputTokens, U64_MAX),
                            costMicrounits := SaturatingAdd(t.usage.costMicrounits, costMicrounits, U64_MAX));
      Enforce(t.(usage := usage, updatedAtMs := nowMs))
  }

  function ReserveToolCall(t: Task, nowMs: nat): (Task, Result<(), TaskError>) {
    if Elapsed(t, nowMs) then (OutOfTime(t, nowMs), Failure(TaskBudgetExhausted))
    else if t.status !in {Planning, Running} then (t, Failure(TaskNotActive))
    else
      var usage := t.usage.(toolCalls := SaturatingAdd(t.usage.toolCalls, 1, U32_MAX));
      Enforce(t.(usage := usage, updatedAtMs := nowMs))
  }

  function CancelTask(t: Task, nowMs: nat): Task {
    if Terminal(t.status) then t else t.(status := Cancelled, updatedAtMs := nowMs)
  }

  // ---- What is accepted ----

  /** Tasks within the limits of the runtime and within their own budget. */
  lemma TaskIff(t: Task)
    ensures ValidTask(t) <==>
              && t.spec == "nimora.agent-task/1" && ValidPrincipal(t.requester) && ValidPrincipal(t.providerId)
              && t.createdAtMs <= t.updatedAtMs
              && 1 <= t.budget.maxSteps <= 256 && t.budget.maxToolCalls <= t.budget.maxSteps
              && 1 <= t.budget.maxElapsedMs <= 86_400_000
              && t.budget.maxInputTokens >= 1 && t.budget.maxOutputTokens >= 1
              && t.usage.steps <= t.budget.maxSteps && t.usage.toolCalls <= t.budget.maxToolCalls
              && t.usage.inputTokens <= t.budget.maxInputTokens && t.usage.outputTokens <= t.budget.maxOutputTokens
              && t.usage.costMicrounits <= t.budget.maxCostMicrounits
  {
    hide ValidPrincipal;
  }

  /** The task machine as a table. */
  lemma TransitionsAre(current: TaskStatus, next: TaskStatus)
    ensures ValidTransition(current, next) <==>
              match current
              case Pending => next == Planning
              case Planning => next in {WaitingForConfirmation, Running, Succeeded, Failed, Cancelled}
              case WaitingForConfirmation => next in {Running, Paused, Cancelled}
              case Running => next in {WaitingForConfirmation, Paused, Succeeded, Failed, Cancelled}
              case Paused => next == Running
              case _ => false
  {
  }

  // ---- What a charge does ----

  /** The limits are machine numbers. */
  predicate MachineBudget(b: Budget) {
    b.maxInputTokens <= U64_MAX && b.maxOutputTokens <= U64_MAX && b.maxCostMicrounits <= U64_MAX
  }

  /** The exact sum is within the limit, or the limit is the number at which counting saturates. */
  predicate Fits(used: nat, more: nat, limit: nat) { used + more <= limit || limit == U64_MAX }

  /** Charging a valid task for a Provider step: it goes through exactly when the task is active and in
      time and every exact sum fits its limit, and then charges those sums. A charge beyond a limit stops
      the task for good and leaves it with a usage that does not validate any more. */
  lemma StepChargeIff(t: Task, i: nat, o: nat, c: nat, nowMs: nat)
    requires ValidTask(t) && MachineBudget(t.budget) && t.updatedAtMs <= nowMs
    ensures var (after, r) := AccountProviderStep(t, i, o, c, nowMs);
            var u := t.usage;
            var fits := && u.steps + 1 <= t.budget.maxSteps
                        && Fits(u.inputTokens, i, t.budget.maxInputTokens)
                        && Fits(u.outputTokens, o, t.budget.maxOutputTokens)
                        && Fits(u.costMicrounits, c, t.budget.maxCostMicrounits);
            && (r.Success? <==> !Elapsed(t, nowMs) && t.status in {Planning, Running} && fits)
            && (r.Success? ==>
                  && after == t.(usage := after.usage, updatedAtMs := nowMs)
                  && after.usage.steps == u.steps + 1 && after.usage.toolCalls == u.toolCalls
                  && after.usage.inputTokens == SaturatingAdd(u.inputTokens, i, U64_MAX)
                  && after.usage.outputTokens == SaturatingAdd(u.outputTokens, o, U64_MAX)
                  && after.usage.costMicrounits == SaturatingAdd(u.costMicrounits, c, U64_MAX))
            && (ValidTask(after) <==> Elapsed(t, nowMs) || t.status !in {Planning, Running} || fits)
            && (!ValidTask(after) ==> after.status == BudgetExhausted)
  {
    hide ValidPrincipal;
  }

  /** The same for one tool call. */
  lemma CallChargeIff(t: Task, nowMs: nat)
    requires ValidTask(t) && t.updatedAtMs <= nowMs
    ensures var (after, r) := ReserveToolCall(t, nowMs);
            var fits := t.usage.toolCalls + 1 <= t.budget.maxToolCalls;
            && (r.Success? <==> !Elapsed(t, nowMs) && t.status in {Planning, Running} && fits)
            && (r.Success? ==> after == t.(usage := t.usage.(toolCalls := t.usage.toolCalls + 1), updatedAtMs := nowMs))
            && (ValidTask(after) <==> Elapsed(t, nowMs) || t.status !in {Planning, Running} || fits)
            && (!ValidTask(after) ==> after.status == BudgetExhausted)
  {
    hide ValidPrincipal;
  }

  // ---- Terminal tasks ----

  /** Which terminal status a task has is kept by an accounting call exactly when the task has time
      left: an accounting call after the deadline relabels any finished task as out of budget. */
  lemma TerminalStatusKeptIffInTime(t: Task, nowMs: nat)
    requires Terminal(t.status) && t.status != BudgetExhausted
    ensures ReserveToolCall(t, nowMs).0.status == t.status <==> !Elapsed(t, nowMs)
    ensures forall i, o, c :: AccountProviderStep(t, i, o, c, nowMs).0.status == t.status <==> !Elapsed(t, nowMs)
  {
  }

  /** A task that finished and is then charged one millisecond past its deadline. */
  lemma SucceededTaskRelabelled() returns (t: Task, nowMs: nat)
    ensures ValidTask(t) && t.status == Succeeded
    ensures ReserveToolCall(t, nowMs).0.status == BudgetExhausted
  {
    t := Task(TASK_SPEC, 0, 0, "a", "b", Succeeded, Budget(1, 0, 10, 1, 1, 0), TaskUsage(0, 0, 0, 0, 0), 0, 0);
    nowMs := 11;
    assert Bytes("a") == 1 && Bytes("b") == 1 by { assert Bytes("") == 0; }
  }

  /** A task in memory; its methods change status, usage and time in place. */
  class AgentTask {
    const spec: string
    const id: nat
    const traceId: nat
    const requester: string
    const providerId: string
    const budget: Budget
    const createdAtMs: nat
    var status: TaskStatus
    var usage: TaskUsage
    var updatedAtMs: nat

    constructor (t: Task)
      ensures State() == t
    {
      spec, id, traceId, requester, providerId := t.spec, t.id, t.traceId, t.requester, t.providerId;
      budget, createdAtMs := t.budget, t.createdAtMs;
      status, usage, updatedAtMs := t.status, t.usage, t.updatedAtMs;
    }

    function State(): Task
      reads this
    {
      Task(spec, id, traceId, requester, providerId, status, budget, usage, createdAtMs, updatedAtMs)
    }

    method EnsureElapsed(nowMs: nat) returns (r: Result<(), TaskError>)
      modifies this
      ensures if old(Elapsed(State(), nowMs))
              then r == Failure(TaskBudgetExhausted) && State() == OutOfTime(old(State()), nowMs)
              else r == Success(()) && State() == old(State())
    {
      if Elapsed(State(), nowMs) {
        status := BudgetExhausted;
        updatedAtMs := nowMs;
        return Failure(TaskBudgetExhausted);
      }
      return Success(());
    }

    method EnforceUsage() returns (r: Result<(), TaskError>)
      modifies this
      ensures r == if old(OverBudget(State())) then Failure(TaskBudgetExhausted) else Success(())
      ensures State() == if r.Success? then old(State()) else old(State()).(status := BudgetExhausted)
      ensures (State(), r) == Enforce(old(State()))
    {
      if OverBudget(State()) {
        status := BudgetExhausted;
        return Failure(TaskBudgetExhausted);
      }
      return Success(());
    }

    method TransitionTo(next: TaskStatus, nowMs: nat) returns (r: Result<(), TaskError>)
      modifies this
      ensures r.Success? <==> old(ValidTransition(status, next) && !Elapsed(State(), nowMs))
      ensures r.Success? ==> State() == old(State()).(status := next, updatedAtMs := nowMs)
      ensures r == Failure(InvalidTaskTransition) ==> State() == old(State())
      ensures r.Failure? && r.error != InvalidTaskTransition ==>
                r.error == TaskBudgetExhausted && State() == OutOfTime(old(State()), nowMs)
      ensures (State(), r) == Transition(old(State()), next, nowMs)
    {
      if !ValidTransition(status, next) { return Failure(InvalidTaskTransition); }
      var _ :- EnsureElapsed(nowMs);
      status := next;
      updatedAtMs := nowMs;
      return Success(());
    }

    method AccountStep(inputTokens: nat, outputTokens: nat, costMicrounits: nat, nowMs: nat)
      returns (r: Result<(), TaskError>)
      modifies this
      ensures r.Success? ==>
                && old(status in {Planning, Running} && !Elapsed(State(), nowMs)) && !OverBudget(State())
                && State() == old(State()).(usage := usage, updatedAtMs := nowMs)
                && usage.steps == SaturatingAdd(old(usage.steps), 1, U32_MAX) && usage.toolCalls == old(usage.toolCalls)
      ensures r == Failure(TaskNotActive) ==> State() == old(State())
      ensures r == Failure(TaskBudgetExhausted) ==> status == BudgetExhausted
      ensures (State(), r) == AccountProviderStep(old(State()), inputTokens, outputTokens, costMicrounits, nowMs)
    {
      var _ :- EnsureElapsed(nowMs);
      if status !in {Planning, Running} { return Failure(TaskNotActive); }
      usage := usage.(steps := SaturatingAdd(usage.steps, 1, U32_MAX));
      usage := usage.(inputTokens := SaturatingAdd(usage.inputTokens, inputTokens, U64_MAX));
      usage := usage.(outputTokens := SaturatingAdd(usage.outputTokens, outputTokens, U64_MAX));
      usage := usage.(costMicrounits := SaturatingAdd(usage.costMicrounits, costMicrounits, U64_MAX));
      updatedAtMs := nowMs;
      r := EnforceUsage();
    }

    method ReserveCall(nowMs: nat) returns (r: Result<(), TaskError>)
      modifies this
      ensures r.Success? ==>
                && old(status in {Planning, Running} && !Elapsed(State(), nowMs)) && !OverBudget(State())
                && State() == old(State()).(usage := old(usage).(toolCalls := usage.toolCalls), updatedAtMs := nowMs)
      ensures r == Failure(TaskNotActive) ==> State() == old(State())
      ensures r == Failure(TaskBudgetExhausted) ==> status == BudgetExhausted
      ensures (State(), r) == ReserveToolCall(old(State()), nowMs)
    {
      var _ :- EnsureElapsed(nowMs);
      if status !in {Planning, Running} { return Failure(TaskNotActive); }
      usage := usage.(toolCalls := SaturatingAdd(usage.toolCalls, 1, U32_MAX));
      updatedAtMs := nowMs;
      r := EnforceUsage();
    }

    method Cancel(nowMs: nat)
      modifies this
      ensures Terminal(status)
      ensures old(Terminal(status)) ==> State() == old(State())
      ensures !old(Terminal(status)) ==> State() == old(State()).(status := Cancelled, updatedAtMs := nowMs)
      ensures State() == CancelTask(old(State()), nowMs)
    {
      if !Terminal(status) {
        status := Cancelled;
        updatedAtMs := nowMs;
      }
    }
  }
}
