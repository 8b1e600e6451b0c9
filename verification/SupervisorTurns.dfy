/** Whole supervised turns: when they may pause, how they may fail and what they leave behind. */
module SupervisorTurns {
  import opened Wrappers
  import opened Text
  import opened MachineNumbers
  import opened Provider
  import opened ProtocolUnits
  import opened Authorization
  import opened AutoMode
  import Tasks = AgentTasks
  import opened Tools
  import opened ToolTurns
  import opened Supervisor
  import opened SupervisorSafety
  import Compaction

  function Invocations(calls: seq<PlannedCall>): seq<Invocation> {
    seq(|calls|, i requires 0 <= i < |calls| => calls[i].invocation)
  }

  /** Every backend call is paid for in both ledgers, within both limits. */
  ghost predicate Paid(w: World) {
    && |w.requests| <= w.session.usage.cycles
    && |w.trace| <= w.session.usage.toolCalls
    && |w.trace| <= w.task.usage.toolCalls <= U32_MAX
    && |w.trace| <= w.task.budget.maxToolCalls
    && Tasks.ValidBudget(w.task.budget)
  }

  // ---- Preflight ----

  ghost predicate AllCleared(env: Env, session: Session, calls: seq<PlannedCall>, providerId: string, model: string,
                             nowMs: nat) {
    forall i :: 0 <= i < |calls| ==> Cleared(env, session, calls[i], providerId, model, nowMs)
  }

  lemma PreflightOneMeaning(env: Env, session: Session, call: PlannedCall, providerId: string, model: string,
                            nowMs: nat)
    requires ValidSession(session) && session.status == Running && session.updatedAtMs <= nowMs
    requires call.invocation.toolId in env.registry.descriptors
    ensures var p := PreflightOne(env, session, call, providerId, model, nowMs);
            !p.Broken? && (p.Stop? ==> p.reason != BudgetExhausted)
  {
    hide GrantConfirmationReason, ValidPolicy;
    var r := PreflightRequest(session, env.registry.descriptors[call.invocation.toolId], call);
    assert AddUsage(session.usage, r.projected) == AddUsage(NO_USAGE, session.usage);
    NoBudgetGuard(session, r, env.grant, Some(providerId), Some(model), nowMs);
  }

  /** No guard names the budget. */
  lemma NoBudgetGuard(s: Session, r: StepRequest, grant: Option<Grant>, p: Option<string>, m: Option<string>,
                      nowMs: nat)
    ensures GuardReason(s, r, grant, p, m, nowMs) != Some(BudgetExhausted)
  {
    hide Authorize;
  }

  lemma {:induction false} PreflightMeaning(env: Env, session: Session, calls: seq<PlannedCall>, providerId: string,
                                            model: string, nowMs: nat)
    requires ValidSession(session) && session.status == Running && session.updatedAtMs <= nowMs
    requires forall i :: 0 <= i < |calls| ==> calls[i].invocation.toolId in env.registry.descriptors
    ensures var p := PreflightAll(env, session, calls, providerId, model, nowMs);
            && !p.Broken? && (p.Stop? ==> p.reason != BudgetExhausted)
            && (p.Clear? <==> AllCleared(env, session, calls, providerId, model, nowMs))
    decreases |calls|
  {
    hide PreflightOne, ValidSession;
    if calls != [] {
      var rest := calls[1..];
      assert forall i :: 0 <= i < |rest| ==> rest[i] == calls[i + 1];
      PreflightOneMeaning(env, session, calls[0], providerId, model, nowMs);
      PreflightMeaning(env, session, rest, providerId, model, nowMs);
      if AllCleared(env, session, rest, providerId, model, nowMs)
         && Cleared(env, session, calls[0], providerId, model, nowMs)
      {
        forall i | 0 <= i < |calls| ensures Cleared(env, session, calls[i], providerId, model, nowMs) {
          if i > 0 { assert Cleared(env, session, rest[i - 1], providerId, model, nowMs); }
        }
      }
      if AllCleared(env, session, calls, providerId, model, nowMs) {
        assert Cleared(env, session, calls[0], providerId, model, nowMs);
        forall i | 0 <= i < |rest| ensures Cleared(env, session, rest[i], providerId, model, nowMs) {
          assert Cleared(env, session, calls[i + 1], providerId, model, nowMs);
        }
      }
    }
  }

  // ---- Execution ----

  /** The messages are the continuation of the response with a result for every call. */
  ghost predicate Complete(response: Response, messages: seq<Message>) {
    exists results :: OnlyCalled(response.toolCalls, results) && |results| == |response.toolCalls|
                      && Continuation(response, results) == Success(messages)
  }

  lemma FinishedBatch(response: Response, results: map<string, Json>)
    requires results.Keys == CallIds(response.toolCalls) && |results| == |response.toolCalls|
    ensures DistinctIds(response.toolCalls)
    ensures Continuation(response, results).Success? && Complete(response, Continuation(response, results).value)
  {
    hide DistinctIds;
    var calls := response.toolCalls;
    forall id | id in results ensures exists c :: c in calls && c.id == id {
      assert id in CallIds(calls);
    }
    CompleteTurnIsDistinct(calls, results);
    ResultMessagesMeaning(calls, results);
  }

  lemma {:induction false} FindDistinct(calls: seq<ToolCall>, i: nat)
    requires DistinctIds(calls) && i < |calls|
    ensures FindCall(calls, calls[i].id) == Some(calls[i])
    ensures calls[i].id !in CallIds(calls[..i])
  {
    var found := FindCall(calls, calls[i].id);
    assert calls[i] in calls;
  }

  lemma CallIdsStep(calls: seq<ToolCall>, i: nat)
    requires i < |calls|
    ensures CallIds(calls[..i + 1]) == CallIds(calls[..i]) + {calls[i].id}
  {
    assert calls[..i + 1] == calls[..i] + [calls[i]];
  }

  /** How far a batch got, from its `i`th call on. */
  ghost predicate Ran(w: World, w': World, calls: seq<PlannedCall>, i: nat)
    requires i <= |calls|
  {
    && |w.trace| <= |w'.trace| <= |w.trace| + |calls| - i
    && w'.trace == w.trace + Invocations(calls)[i..i + |w'.trace| - |w.trace|]
    && (Paid(w) ==> Paid(w'))
  }

  ghost function Reached(w: World, w': World, i: nat): int { i + |w'.trace| - |w.trace| }

  lemma RanStep(w: World, w1: World, w2: World, calls: seq<PlannedCall>, i: nat)
    requires i < |calls| && SameTask(w1.task, w.task)
    requires Charge(w, w1, calls[i].invocation)
    ensures Ran(w, w1, calls, i)
    ensures w1.trace == w.trace + [calls[i].invocation] && Ran(w1, w2, calls, i + 1) ==> Ran(w, w2, calls, i)
  {
    var all := Invocations(calls);
    assert all[i..i + 1] == [calls[i].invocation] && all[i..i] == [];
    if w1.trace == w.trace + [calls[i].invocation] && Ran(w1, w2, calls, i + 1) {
      var k := i + |w2.trace| - |w.trace|;
      assert all[i..k] == [calls[i].invocation] + all[i + 1..k];
    }
  }

  /** What a batch keeps of the world it runs in. */
  ghost predicate BatchKept(w: World, w': World, s0: Session, task0: Tasks.Task) {
    && ValidSession(w'.session) && SameBinding(s0, w'.session) && SameTask(w'.task, task0)
    && w'.requests == w.requests && w'.session.usage.cycles == w.session.usage.cycles
  }

  /** The last of the first `n` calls repeats the identifier of an earlier one. */
  ghost predicate RepeatsEarlier(response: Response, n: int) {
    1 <= n <= |response.toolCalls| && response.toolCalls[n - 1].id in CallIds(response.toolCalls[..n - 1])
  }

  lemma {:induction false} FindEarlier(calls: seq<ToolCall>, i: nat)
    requires i < |calls|
    ensures var found := FindCall(calls, calls[i].id);
            found.Some? && (found.value == calls[i] || calls[i].id in CallIds(calls[..i]))
  {
    if calls[0].id == calls[i].id {
      assert i > 0 ==> calls[0] in calls[..i];
    } else {
      FindEarlier(calls[1..], i - 1);
      assert calls[1..][..i - 1] == calls[..i][1..];
    }
  }

  /** How a batch that runs from its `i`th call on may end. */
  ghost predicate BatchEnds(w: World, w': World, r: Result<Outcome, Error>, response: Response, calls: seq<PlannedCall>,
                            i: nat)
    requires i <= |calls|
  {
    && Ran(w, w', calls, i)
    && (r.Failure? ==> Tolerable(r.error))
    && (r == Failure(TurnFailed(ToolResultCorrelationMismatch)) ==>
          !DistinctIds(response.toolCalls) && RepeatsEarlier(response, Reached(w, w', i)))
    && (r.Success? && r.value.TurnPaused? ==>
          Reached(w, w', i) < |calls| && r.value == TurnPaused(BudgetExhausted, [calls[Reached(w, w', i)]])
          && PausedFor(w'.session, BudgetExhausted))
    && (r.Success? && !r.value.TurnPaused? ==>
          && Reached(w, w', i) == |calls| && DistinctIds(response.toolCalls) && w'.session.status == Running
          && r.value.TurnContinues? && Complete(response, r.value.messages))
  }

  /** The batch stops at its `i`th call. */
  lemma BatchStopsHere(env: Env, w: World, s0: Session, task0: Tasks.Task, response: Response, results: map<string,
                       Json>,
                       calls: seq<PlannedCall>, ids: nat -> nat, i: nat, providerId: string, model: string, nowMs: nat)
    requires BatchReady(w, s0, task0, nowMs) && i < |calls|
    requires PlannedFor(env.registry, task0, response.toolCalls, ids, 0, calls)
    requires AllCleared(env, s0, calls, providerId, model, nowMs)
    requires results.Keys == CallIds(response.toolCalls[..i])
    ensures var (w1, r) := RunOne(env, w, response, results, calls[i], providerId, model, nowMs);
            && BatchKept(w, w1, s0, task0) && SameTask(w1.task, w.task) && Charge(w, w1, calls[i].invocation)
            && (r.Failure? ==> BatchEnds(w, w1, Failure(r.error), response, calls, i))
            && (r.Success? && r.value.0.Some? ==> BatchEnds(w, w1, Success(r.value.0.value), response, calls, i))
  {
    hide RunOne, Cleared, Planned, ValidSession, DistinctIds, Complete, Paid, FindCall, Ran, CallIds, Tolerable;
    RunOneEffect(env, w, s0, task0, response, results, calls[i], providerId, model, nowMs);
    RunOneRecords(env, w, response, results, calls[i], providerId, model, nowMs);
    if DistinctIds(response.toolCalls) { FindDistinct(response.toolCalls, i); }
    FindEarlier(response.toolCalls, i);
    var (w1, _) := RunOne(env, w, response, results, calls[i], providerId, model, nowMs);
    RanStep(w, w1, w1, calls, i);
  }

  /** The batch goes on behind its `i`th call. */
  lemma BatchGoesOn(w: World, w1: World, w2: World, r: Result<Outcome, Error>, s0: Session, task0: Tasks.Task,
                    response: Response,
                    calls: seq<PlannedCall>, i: nat)
    requires i < |calls| && SameTask(w1.task, w.task)
    requires w1.trace == w.trace + [calls[i].invocation] && Charge(w, w1, calls[i].invocation)
    requires BatchKept(w, w1, s0, task0) && BatchKept(w1, w2, s0, task0) && BatchEnds(w1, w2, r, response, calls, i + 1)
    ensures BatchKept(w, w2, s0, task0) && BatchEnds(w, w2, r, response, calls, i)
  {
    hide ValidSession, DistinctIds, Complete, Ran, SameTask, Tolerable;
    RanStep(w, w1, w2, calls, i);
  }

  lemma {:induction false} RunBatchEffect(env: Env, w: World, s0: Session, task0: Tasks.Task, response: Response,
                                          results: map<string, Json>,
                                          calls: seq<PlannedCall>, ids: nat -> nat, i: nat, providerId: string,
                                          model: string, nowMs: nat)
    requires BatchReady(w, s0, task0, nowMs)
    requires PlannedFor(env.registry, task0, response.toolCalls, ids, 0, calls)
    requires AllCleared(env, s0, calls, providerId, model, nowMs)
    requires i <= |calls| && results.Keys == CallIds(response.toolCalls[..i]) && |results| == i
    ensures var (w', r) := RunBatch(env, w, response, results, calls[i..], providerId, model, nowMs);
            BatchKept(w, w', s0, task0) && BatchEnds(w, w', r, response, calls, i)
    decreases |calls| - i
  {
    hide RunOne, Cleared, Planned, ValidSession, DistinctIds, SameTask, Continuation, Complete, CallIds, Paid,
         Tolerable;
    if i == |calls| {
      assert response.toolCalls[..i] == response.toolCalls;
      FinishedBatch(response, results);
    } else {
      hide BatchKept, BatchEnds, BatchReady;
      assert calls[i..][0] == calls[i] && calls[i..][1..] == calls[i + 1..];
      BatchStopsHere(env, w, s0, task0, response, results, calls, ids, i, providerId, model, nowMs);
      var (w1, r) := RunOne(env, w, response, results, calls[i], providerId, model, nowMs);
      if r.Success? && r.value.0.None? {
        RunOneEffect(env, w, s0, task0, response, results, calls[i], providerId, model, nowMs);
        RunOneRecords(env, w, response, results, calls[i], providerId, model, nowMs);
        CallIdsStep(response.toolCalls, i);
        RunBatchEffect(env, w1, s0, task0, response, r.value.1, calls, ids, i + 1, providerId, model, nowMs);
        var (w2, end) := RunBatch(env, w1, response, r.value.1, calls[i + 1..], providerId, model, nowMs);
        BatchGoesOn(w, w1, w2, end, s0, task0, response, calls, i);
      }
    }
  }

  /** All or nothing: if every call is cleared the batch runs and can only be stopped by the budget;
      otherwise nothing is dispatched and the whole batch is handed back. */
  lemma AdvanceBatchEffect(env: Env, w: World, response: Response, calls: seq<PlannedCall>, ids: nat -> nat,
                           model: string, nowMs: nat)
    requires BatchReady(w, w.session, w.task, nowMs)
    requires PlannedFor(env.registry, w.task, response.toolCalls, ids, 0, calls)
    requires response.finishReason == ToolCallsRequested && response.toolCalls != []
    ensures var (w', r) := AdvanceBatch(env, w, response, calls, model, nowMs);
            if AllCleared(env, w.session, calls, w.task.providerId, model, nowMs)
            then BatchKept(w, w', w.session, w.task) && BatchEnds(w, w', r, response, calls, 0)
            else && r.Success? && r.value.TurnPaused? && r.value.reason != BudgetExhausted
                 && r.value.pendingCalls == calls
                 && w' == w.(session := w.session.(status := Paused, pauseReason := Some(r.value.reason),
                                                   updatedAtMs := nowMs))
  {
    hide BatchKept, BatchEnds, ValidSession, AllCleared, PreflightAll, RunBatch;
    forall i | 0 <= i < |calls| ensures calls[i].invocation.toolId in env.registry.descriptors {
      assert Planned(env.registry, w.task, calls[i]);
    }
    PreflightMeaning(env, w.session, calls, w.task.providerId, model, nowMs);
    if AllCleared(env, w.session, calls, w.task.providerId, model, nowMs) {
      assert calls[0..] == calls;
      assert CallIds(response.toolCalls[..0]) == {};
      RunBatchEffect(env, w, w.session, w.task, response, map[], calls, ids, 0, w.task.providerId, model, nowMs);
    }
  }

  // ---- The Provider step ----

  /** The Provider is offered exactly the registered tools. */
  ghost predicate Registered(env: Env) {
    forall id :: id in env.toolList <==> id in env.registry.descriptors
  }

  /** The turn has asked the Provider once, for its own task, and `response` is what the Provider said: an
      answer to this request, within its limits. */
  ghost predicate AnsweredBy(env: Env, w: World, input: StepInput, w': World, response: Response) {
    var request := ProviderRequest(input.requestId, w.task.id, w.task.traceId, w.task.providerId, input.model,
                                   input.messages, env.toolList, input.maxOutputTokens);
    && w'.requests == w.requests + [request]
    && env.port.complete(w.requests, request) == Some(response)
    && response.requestId == input.requestId && response.usage.outputTokens <= input.maxOutputTokens
    && |response.toolCalls| <= 32 && Bytes(response.content) <= 1024 * 1024
  }

  /** What the Provider step can do to the world, and with what it hands over to the batch. */
  ghost predicate Stepped(env: Env, w: World, input: StepInput, w': World, r: Result<StepOutcome, Error>) {
    && w'.session == w.session && w'.trace == w.trace && SameTask(w'.task, w.task)
    && w'.task.usage.toolCalls == w.task.usage.toolCalls
    && w.requests <= w'.requests && |w'.requests| <= |w.requests| + 1
    && (r.Failure? ==> r.error.TaskFailed? || r.error == ProviderFailed)
    && (r.Success? ==> AnsweredBy(env, w, input, w', r.value.response))
    && (r.Success? && r.value.StepCompleted? ==>
          w'.task.status == Tasks.Succeeded && r.value.response.toolCalls == [])
    && (r.Success? && r.value.StepToolCalls? ==>
          && Workable(w'.task.status)
          && r.value.response.finishReason == ToolCallsRequested
          && GoodCalls(r.value.response, Some(env.registry.descriptors.Keys))
          && PlannedFor(env.registry, w'.task, r.value.response.toolCalls, input.invocationIds, 0, r.value.calls))
  }

  lemma AfterAnswerEffect(env: Env, w0: World, w: World, response: Response, input: StepInput)
    requires Registered(env)
    requires ValidResponse(input.requestId, Compaction.ToolIds(env.toolList).value, input.maxOutputTokens, response)
    requires w.session == w0.session && w.trace == w0.trace && SameTask(w.task, w0.task)
    requires w.task.usage.toolCalls == w0.task.usage.toolCalls
    requires AnsweredBy(env, w0, input, w, response)
    ensures var (w', r) := AfterAnswer(env, w, response, input); Stepped(env, w0, input, w', r)
  {
    hide PlannedFor, CallAllowed, Admit, PlanCalls, GoodCalls;
    assert Compaction.ToolIds(env.toolList).value == env.registry.descriptors.Keys;
    ToolsKnown(response, env.registry.descriptors.Keys);
    var (w1, _) := Charged(w, Tasks.AccountProviderStep(w.task, response.usage.inputTokens, response.usage.outputTokens,
                                                        response.usage.costMicrounits, input.nowMs));
    PlanCallsMeaning(env.registry, w1.task, response.toolCalls, input.invocationIds, 0);
    PlannedForSame(env.registry, w1.task, response.toolCalls, input.invocationIds);
  }

  /** Only the task's identity matters to its planned calls. */
  lemma PlannedForSame(registry: Registry, task: Tasks.Task, toolCalls: seq<ToolCall>, ids: nat -> nat)
    ensures forall t: Tasks.Task, calls :: t.id == task.id && t.traceId == task.traceId ==>
              (PlannedFor(registry, t, toolCalls, ids, 0, calls)
               <==> PlannedFor(registry, task, toolCalls, ids, 0, calls))
  {
    forall t: Tasks.Task, calls | t.id == task.id && t.traceId == task.traceId
      ensures PlannedFor(registry, t, toolCalls, ids, 0, calls)
              <==> PlannedFor(registry, task, toolCalls, ids, 0, calls)
    {
      forall call ensures Planned(registry, t, call) <==> Planned(registry, task, call) {}
    }
  }

  lemma ToolsKnown(response: Response, tools: set<string>)
    requires forall i :: 0 <= i < |response.toolCalls| ==> CallAllowed(response.toolCalls[i], Some(tools))
    ensures forall i :: 0 <= i < |response.toolCalls| ==> response.toolCalls[i].toolId in tools
    ensures response.toolCalls != [] ==> GoodCalls(response, Some(tools))
  {
  }

  lemma ResponseLimits(input: StepInput, tools: set<string>, response: Response)
    requires ValidResponse(input.requestId, tools, input.maxOutputTokens, response)
    ensures response.requestId == input.requestId && response.usage.outputTokens <= input.maxOutputTokens
    ensures |response.toolCalls| <= 32 && Bytes(response.content) <= 1024 * 1024
  {
    hide CallAllowed, Bytes;
  }

  lemma ProviderStepEffect(env: Env, w: World, input: StepInput)
    requires Registered(env)
    ensures var (w', r) := ProviderStep(env, w, input); Stepped(env, w, input, w', r)
  {
    hide ValidResponse, PlannedFor, GoodCalls, Registered, Compaction.RequestAccepted, AfterAnswer;
    var (w1, planning) := EnterPlanning(w, input.nowMs);
    var request := RequestFor(env, w1.task, input);
    var answer := env.port.complete(w1.requests, request);
    if planning.None? && answer.Some?
       && ValidResponse(input.requestId, Compaction.ToolIds(env.toolList).value, input.maxOutputTokens, answer.value)
    {
      ResponseLimits(input, Compaction.ToolIds(env.toolList).value, answer.value);
      AfterAnswerEffect(env, w, w1.(requests := w1.requests + [request]), answer.value, input);
    }
  }

  // ---- The whole turn ----

  /** Every way in which a turn can fail. Two kinds are missing from every list: an unexpected
      confirmation and a missing descriptor. */
  predicate PossibleFailure(e: Error) {
    || e == SessionError(InvalidPolicy) || e == SessionError(InvalidSession) || e == SessionError(InvalidTransition)
    || e.TaskFailed? || e == ProviderFailed
    || Tolerable(e)
  }

  /** The links between the worlds before and after a turn that no outcome breaks. */
  ghost predicate TurnKept(w: World, w': World) {
    && (ValidSession(w.session) ==> ValidSession(w'.session))
    && SameBinding(w.session, w'.session) && SameTask(w'.task, w.task)
    && w.requests <= w'.requests && w.trace <= w'.trace && w.session.usage.cycles <= w'.session.usage.cycles
    && (w'.requests != w.requests ==>
             |w'.requests| == |w.requests| + 1 && w'.session.usage.cycles == w.session.usage.cycles + 1)
    && (Paid(w) ==> Paid(w'))
  }

  ghost predicate TurnEnds(env: Env, w: World, input: StepInput, w': World, r: Result<Outcome, Error>) {
    match r
    case Failure(e) =>
      && PossibleFailure(e)
      && (e.SessionError? ==> w' == w)
      && (w'.trace != w.trace ==> Tolerable(e))
      && (e == TurnFailed(ToolResultCorrelationMismatch) ==> exists response,
          calls :: StopsAtRepeat(env, w, input, w', response, calls))
    case Success(TurnPaused(reason, calls)) =>
      && PausedFor(w'.session, reason)
      && (w'.trace != w.trace ==> reason == BudgetExhausted)
    case Success(TurnCompleted(response)) =>
      && w'.trace == w.trace && w'.task.status == Tasks.Succeeded && w'.session.status == Running
      && AnsweredBy(env, w, input, w', response) && response.toolCalls == []
    case Success(TurnContinues(messages)) =>
      && w'.session.status == Running
      && exists response, calls :: ContinuesWith(env, w, input, w', response, calls, messages)
  }

  /** Every call of the Provider's response was dispatched with its own arguments, in order, and answered in
      the continuation. */
  ghost predicate ContinuesWith(env: Env, w: World, input: StepInput, w': World, response: Response,
                                calls: seq<PlannedCall>, messages: seq<Message>) {
    && AnsweredBy(env, w, input, w', response)
    && GoodCalls(response, Some(env.registry.descriptors.Keys)) && DistinctIds(response.toolCalls)
    && PlannedFor(env.registry, w'.task, response.toolCalls, input.invocationIds, 0, calls)
    && w'.trace == w.trace + Invocations(calls)
    && Complete(response, messages)
  }

  /** The calls of the response were dispatched in order up to one whose identifier an earlier one,
      dispatched as well, has used. */
  ghost predicate StopsAtRepeat(env: Env, w: World, input: StepInput, w': World, response: Response,
                                calls: seq<PlannedCall>) {
    var n := |w'.trace| - |w.trace|;
    && AnsweredBy(env, w, input, w', response)
    && GoodCalls(response, Some(env.registry.descriptors.Keys))
    && PlannedFor(env.registry, w'.task, response.toolCalls, input.invocationIds, 0, calls)
    && RepeatsEarlier(response, n) && w'.trace == w.trace + Invocations(calls)[..n]
  }

  lemma CycleEvaluation(env: Env, w: World, input: StepInput)
    ensures var classification := MaxClassification(MessageClasses(input.messages));
            var (s, d) := EvaluateStep(w.session, CycleRequest(w.session, classification), env.grant,
                                       Some(w.task.providerId), Some(input.model), input.nowMs);
            var w1 := w.(session := s);
            && TurnKept(w, w1)
            && (d.Failure? ==> w1 == w && PossibleFailure(SessionError(d.error)))
            && (d.Success? && d.value.Pause? ==> PausedFor(s, d.value.reason))
            && (d == Success(Proceed) ==>
                  && ValidSession(s) && s.status == Running && s.updatedAtMs <= input.nowMs
                  && s.usage.toolCalls == w.session.usage.toolCalls && s.usage.cycles == w.session.usage.cycles + 1)
  {
    hide ValidSession, MaxClassification;
    var classification := MaxClassification(MessageClasses(input.messages));
    EvaluateKeepsSession(w.session, CycleRequest(w.session, classification), env.grant, Some(w.task.providerId),
                         Some(input.model), input.nowMs);
  }

  /** The world between the Provider's answer and the batch. */
  ghost predicate Answered(env: Env, w: World, input: StepInput, w2: World, response: Response,
                           calls: seq<PlannedCall>) {
    && ValidSession(w2.session) && w2.session.status == Running && w2.session.updatedAtMs <= input.nowMs
    && SameBinding(w.session, w2.session) && SameTask(w2.task, w.task) && Workable(w2.task.status)
    && w2.trace == w.trace && AnsweredBy(env, w, input, w2, response)
    && w2.session.usage.cycles == w.session.usage.cycles + 1 && w2.session.usage.toolCalls == w.session.usage.toolCalls
    && w2.task.usage.toolCalls == w.task.usage.toolCalls <= U32_MAX && Tasks.ValidBudget(w.task.budget)
    && response.finishReason == ToolCallsRequested && GoodCalls(response, Some(env.registry.descriptors.Keys))
    && PlannedFor(env.registry, w2.task, response.toolCalls, input.invocationIds, 0, calls)
  }

  lemma BatchPaid(w: World, w2: World, w': World, calls: seq<PlannedCall>)
    requires Ran(w2, w', calls, 0)
    requires w2.trace == w.trace && |w2.requests| == |w.requests| + 1 && w2.task.budget == w.task.budget
    requires w2.session.usage.cycles == w.session.usage.cycles + 1
    requires w2.session.usage.toolCalls == w.session.usage.toolCalls
    requires w2.task.usage.toolCalls == w.task.usage.toolCalls
    ensures w.trace <= w'.trace && (Paid(w) ==> Paid(w'))
  {
  }

  lemma ClearedBatchEndsTurn(env: Env, w: World, input: StepInput, w2: World, w': World, r: Result<Outcome, Error>,
                             response: Response, calls: seq<PlannedCall>)
    requires Answered(env, w, input, w2, response, calls)
    requires BatchKept(w2, w', w2.session, w2.task) && BatchEnds(w2, w', r, response, calls, 0)
    ensures TurnKept(w, w') && TurnEnds(env, w, input, w', r)
  {
    hide ValidSession, GoodCalls, Paid, DistinctIds, Complete;
    BatchPaid(w, w2, w', calls);
    if r.Success? && r.value.TurnContinues? {
      PlannedForSame(env.registry, w2.task, response.toolCalls, input.invocationIds);
      hide PlannedFor;
      assert Invocations(calls)[0..|calls|] == Invocations(calls);
      assert ContinuesWith(env, w, input, w', response, calls, r.value.messages);
    }
    if r == Failure(TurnFailed(ToolResultCorrelationMismatch)) {
      PlannedForSame(env.registry, w2.task, response.toolCalls, input.invocationIds);
      hide PlannedFor;
      assert StopsAtRepeat(env, w, input, w', response, calls);
    }
  }

  lemma StoppedBatchEndsTurn(env: Env, w: World, input: StepInput, w2: World, w': World, response: Response,
                             calls: seq<PlannedCall>, reason: PauseReason)
    requires Answered(env, w, input, w2, response, calls)
    requires w' == w2.(session := w2.session.(status := Paused, pauseReason := Some(reason),
                                              updatedAtMs := input.nowMs))
    ensures TurnKept(w, w') && TurnEnds(env, w, input, w', Success(TurnPaused(reason, calls)))
  {
    hide ValidPolicy, ExceedsBudget, GoodCalls, PlannedFor;
    assert PauseSession(w2.session, reason, input.nowMs) == Success(w'.session);
  }

  lemma BatchEndsTurn(env: Env, w: World, input: StepInput, w2: World, response: Response, calls: seq<PlannedCall>)
    requires Answered(env, w, input, w2, response, calls)
    ensures var (w', r) := AdvanceBatch(env, w2, response, calls, input.model, input.nowMs);
            TurnKept(w, w') && TurnEnds(env, w, input, w', r)
  {
    hide AdvanceBatch, ValidSession, PlannedFor, AllCleared, BatchKept, BatchEnds, TurnKept, TurnEnds, AnsweredBy;
    AdvanceBatchEffect(env, w2, response, calls, input.invocationIds, input.model, input.nowMs);
    var (w', r) := AdvanceBatch(env, w2, response, calls, input.model, input.nowMs);
    if AllCleared(env, w2.session, calls, w2.task.providerId, input.model, input.nowMs) {
      ClearedBatchEndsTurn(env, w, input, w2, w', r, response, calls);
    } else {
      StoppedBatchEndsTurn(env, w, input, w2, w', response, calls, r.value.reason);
    }
  }

  lemma TurnEffect(env: Env, w: World, input: StepInput)
    requires Registered(env) && Tasks.ValidBudget(w.task.budget) && w.task.usage.toolCalls <= U32_MAX
    ensures var (w', r) := Advance(env, w, input);
            TurnKept(w, w') && TurnEnds(env, w, input, w', r)
  {
    hide ValidSession, EvaluateStep, ProviderStep, AdvanceBatch, PlannedFor, GoodCalls;
    CycleEvaluation(env, w, input);
    var classification := MaxClassification(MessageClasses(input.messages));
    var (s, d) := EvaluateStep(w.session, CycleRequest(w.session, classification), env.grant,
                               Some(w.task.providerId), Some(input.model), input.nowMs);
    var w1 := w.(session := s);
    if d == Success(Proceed) {
      ProviderStepEffect(env, w1, input);
      var (w2, r) := ProviderStep(env, w1, input);
      if r.Success? && r.value.StepToolCalls? {
        BatchEndsTurn(env, w, input, w2, r.value.response, r.value.calls);
      }
    }
  }

  /** What a continuing turn adds to the conversation is one protocol unit that answers exactly its
      own calls. */
  lemma ContinuedTurnIsOneUnit(env: Env, w: World, input: StepInput)
    requires Registered(env) && Tasks.ValidBudget(w.task.budget) && w.task.usage.toolCalls <= U32_MAX
    ensures var (w', r) := Advance(env, w, input);
            r.Success? && r.value.TurnContinues? ==>
              && Units(r.value.messages) == Some([r.value.messages])
              && WellPaired(r.value.messages, Some(env.registry.descriptors.Keys))
              && |r.value.messages| == 1 + |w'.trace| - |w.trace|
  {
    hide Advance, GoodCalls, WellPaired, TurnKept, Units, ContinuesWith, PlannedFor, DistinctIds;
    TurnEffect(env, w, input);
    var (w', r) := Advance(env, w, input);
    if r.Success? && r.value.TurnContinues? {
      var response, calls :| ContinuesWith(env, w, input, w', response, calls, r.value.messages);
      OneUnit(env, w, input, w', response, calls, r.value.messages);
    }
  }

  lemma OneUnit(env: Env, w: World, input: StepInput, w': World, response: Response, calls: seq<PlannedCall>,
                messages: seq<Message>)
    requires ContinuesWith(env, w, input, w', response, calls, messages)
    ensures Units(messages) == Some([messages]) && WellPaired(messages, Some(env.registry.descriptors.Keys))
    ensures |messages| == 1 + |w'.trace| - |w.trace|
  {
    hide GoodCalls, WellPaired, Units, DistinctIds, OnlyCalled;
    var results :| OnlyCalled(response.toolCalls, results) && |results| == |response.toolCalls|
                   && Continuation(response, results) == Success(messages);
    ContinuationIsOneUnit(response, results, Some(env.registry.descriptors.Keys));
    CompleteTurnIsDistinct(response.toolCalls, results);
    ResultMessagesMeaning(response.toolCalls, results);
  }
}
