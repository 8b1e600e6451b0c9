/** What a supervised turn says and does, without its intermediate steps: which request the Provider gets,
    which calls reach the tools and under whose permission, and what the conversation gains. */
module TurnDialogue {
  import opened Wrappers
  import opened MachineNumbers
  import opened Provider
  import opened Authorization
  import opened AutoMode
  import Tasks = AgentTasks
  import opened Tools
  import opened ToolTurns
  import opened Supervisor
  import opened SupervisorSafety
  import opened SupervisorTurns
  import SupervisorRuns
  import Compaction

  // ---- Permission ----

  /** The greatest of a list of classifications. */
  lemma {:induction false} MaxClassificationIs(classes: seq<DataClassification>)
    ensures forall c :: c in classes ==> c.Rank() <= MaxClassification(classes).Rank()
    ensures classes == [] ==> MaxClassification(classes).Public?
    ensures classes != [] ==> MaxClassification(classes) in classes
  {
    if classes != [] {
      MaxClassificationIs(classes[1..]);
      assert classes == [classes[0]] + classes[1..];
    }
  }

  /** A list stays within a maximum iff each of its members does. */
  lemma WithinIff(classes: seq<DataClassification>, maximum: DataClassification)
    ensures MaxClassification(classes).Rank() <= maximum.Rank()
            <==> forall c :: c in classes ==> NoMoreSensitive(c, maximum)
  {
    MaxClassificationIs(classes);
    forall c | c in classes ensures NoMoreSensitive(c, maximum) <==> c.Rank() <= maximum.Rank() {
      RankOrder(c, maximum);
    }
  }

  /** The invocation is more than reading, or risky by itself or in the eyes of the host. */
  ghost predicate NeedsGrant(registry: Registry, inv: Invocation)
    requires inv.toolId in registry.descriptors
  {
    var d := registry.descriptors[inv.toolId];
    var evaluated := registry.evaluate(d, inv.arguments);
    || !d.effect.ReadOnly?
    || d.baseRisk.Medium? || d.baseRisk.High? || d.baseRisk.Critical?
    || evaluated.Medium? || evaluated.High? || evaluated.Critical?
  }

  /** A valid grant, neither revoked nor expired, was given for this goal, plan and workspace, for this
      tool, Provider and model, for data of these classes, and without further questions. */
  ghost predicate GrantCovers(g: Grant, s: Session, toolId: string, classes: seq<DataClassification>,
                              providerId: string, model: string, nowMs: nat) {
    && ValidGrant(g) && g.revokedAtMs == None && (g.expiresAtMs.Some? ==> nowMs < g.expiresAtMs.value)
    && g.goalId == s.goalId && g.planRevision == s.planRevision && g.workspaceFingerprint == s.policy.workspaceRevision
    && toolId in g.toolAllowlist && providerId in g.providerAllowlist && model in g.modelAllowlist
    && (forall c :: c in classes ==> NoMoreSensitive(c, g.maximumDataClassification))
    && g.approval == NeverAskWithinGrant
  }

  /** The policy lists the tool and admits its data, and a grant covers the call if it needs one. */
  ghost predicate Sanctioned(env: Env, s: Session, inv: Invocation, providerId: string, model: string, nowMs: nat) {
    && inv.toolId in env.registry.descriptors && inv.toolId in s.policy.toolAllowlist
    && var classes := env.registry.descriptors[inv.toolId].dataClassifications;
       && (forall c :: c in classes ==> NoMoreSensitive(c, s.policy.maximumDataClassification))
       && (NeedsGrant(env.registry, inv) ==>
             env.grant.Some? && GrantCovers(env.grant.value, s, inv.toolId, classes, providerId, model, nowMs))
  }

  /** The order of the risks, spelled out. */
  predicate NoRiskier(a: Risk, b: Risk) {
    match b
    case Safe => a.Safe?
    case Low => a.Safe? || a.Low?
    case Medium => a.Safe? || a.Low? || a.Medium?
    case High => !a.Critical?
    case Critical => true
  }

  /** Admission raises the risk to the greater of the tool's own and the evaluated one, and asks for
      confirmation exactly when the invocation needs a grant. */
  lemma AdmitIff(registry: Registry, inv: Invocation)
    ensures Admit(registry, inv).Success? <==> inv.toolId in registry.descriptors
    ensures inv.toolId !in registry.descriptors ==> Admit(registry, inv) == Failure(UnknownTool)
    ensures inv.toolId in registry.descriptors ==>
              var d := registry.descriptors[inv.toolId];
              var evaluated := registry.evaluate(d, inv.arguments);
              var admission := Admit(registry, inv).value;
              && admission.effectiveRisk in {d.baseRisk, evaluated}
              && NoRiskier(d.baseRisk, admission.effectiveRisk) && NoRiskier(evaluated, admission.effectiveRisk)
              && (admission.NeedsConfirmation? <==> NeedsGrant(registry, inv))
              && (admission.NeedsConfirmation? ==>
                    admission.fingerprint == FingerprintOf(inv, admission.effectiveRisk))
  {
  }

  /** Exactly when a planned call is cleared in a valid running session: it is sanctioned. */
  lemma ClearedIff(env: Env, s: Session, task: Tasks.Task, call: PlannedCall, providerId: string, model: string,
                   nowMs: nat)
    requires ValidSession(s) && s.status == Running && s.updatedAtMs <= nowMs && MachineLimits(s.policy)
    requires Planned(env.registry, task, call)
    ensures Cleared(env, s, call, providerId, model, nowMs)
            <==> Sanctioned(env, s, call.invocation, providerId, model, nowMs)
  {
    var inv := call.invocation;
    AdmitIff(env.registry, inv);
    var d := env.registry.descriptors[inv.toolId];
    var classes := d.dataClassifications;
    WithinIff(classes, s.policy.maximumDataClassification);
    var r := PreflightRequest(s, d, call);
    ProceedsIff(s, r, env.grant, Some(providerId), Some(model), nowMs);
    NothingProjected(s);
    RiskAsks(d.effect, call.admission.effectiveRisk, d.baseRisk, env.registry.evaluate(d, inv.arguments));
    if env.grant.Some? {
      WithinIff(classes, env.grant.value.maximumDataClassification);
      AuthorizeIff(env.grant.value, GrantQuestion(r, inv.toolId, providerId, model, nowMs));
      RankOrder(MaxClassification(classes), env.grant.value.maximumDataClassification);
    }
    hide EvaluateStep, ValidSession, Authorize, ValidGrant, RequiresConfirmation, WithinBudget, MaxClassification,
         NoMoreSensitive, Admit;
  }

  lemma NothingProjected(s: Session)
    requires ValidSession(s)
    ensures WithinBudget(s.policy, s.usage, NO_USAGE)
  {
  }

  lemma RiskAsks(effect: Effect, risk: Risk, base: Risk, evaluated: Risk)
    requires risk in {base, evaluated} && NoRiskier(base, risk) && NoRiskier(evaluated, risk)
    ensures RequiresConfirmation(risk, effect)
            <==> || !effect.ReadOnly? || base.Medium? || base.High? || base.Critical?
                 || evaluated.Medium? || evaluated.High? || evaluated.Critical?
  {
  }

  // ---- What reaches the tools ----

  /** The call at `k` of the response, as it is dispatched. */
  function CallOf(w: World, input: StepInput, response: Response, k: nat): Invocation
    requires k < |response.toolCalls|
  {
    Invocation(input.invocationIds(k), w.task.id, w.task.traceId, response.toolCalls[k].toolId,
               response.toolCalls[k].arguments)
  }

  /** The calls made between two worlds are the first ones of the response, each of them sanctioned. */
  ghost predicate Dispatches(env: Env, w: World, input: StepInput, w': World, response: Response) {
    && |w.trace| <= |w'.trace| <= |w.trace| + |response.toolCalls|
    && w'.trace[..|w.trace|] == w.trace
    && forall k :: 0 <= k < |w'.trace| - |w.trace| ==>
         && w'.trace[|w.trace| + k] == CallOf(w, input, response, k)
         && Sanctioned(env, w.session, CallOf(w, input, response, k), w.task.providerId, input.model, input.nowMs)
  }

  lemma SanctionedAlike(env: Env, s: Session, t: Session, inv: Invocation, providerId: string, model: string,
                        nowMs: nat)
    requires SameBinding(s, t)
    ensures Sanctioned(env, s, inv, providerId, model, nowMs) <==> Sanctioned(env, t, inv, providerId, model, nowMs)
  {
  }

  /** A batch dispatches sanctioned calls of its response, in order. */
  lemma BatchDispatches(env: Env, w: World, input: StepInput, w2: World, response: Response, calls: seq<PlannedCall>)
    requires Answered(env, w, input, w2, response, calls) && MachineLimits(w.session.policy)
    ensures var (w', _) := AdvanceBatch(env, w2, response, calls, input.model, input.nowMs);
            Dispatches(env, w, input, w', response) && w'.requests == w2.requests
  {
    hide AdvanceBatch, ValidSession, Planned, BatchKept, BatchEnds, AnsweredBy, Cleared, Sanctioned, Tasks.ValidBudget;
    AdvanceBatchEffect(env, w2, response, calls, input.invocationIds, input.model, input.nowMs);
    var (w', r) := AdvanceBatch(env, w2, response, calls, input.model, input.nowMs);
    if AllCleared(env, w2.session, calls, w2.task.providerId, input.model, input.nowMs) {
      BatchRan(w2, w', r, response, calls);
      forall k | 0 <= k < |w'.trace| - |w.trace|
        ensures w'.trace[|w.trace| + k] == CallOf(w, input, response, k)
        ensures Sanctioned(env, w.session, CallOf(w, input, response, k), w.task.providerId, input.model, input.nowMs)
      {
        assert Cleared(env, w2.session, calls[k], w2.task.providerId, input.model, input.nowMs);
        ClearedIff(env, w2.session, w2.task, calls[k], w2.task.providerId, input.model, input.nowMs);
        SanctionedAlike(env, w.session, w2.session, calls[k].invocation, w2.task.providerId, input.model, input.nowMs);
      }
    }
  }

  lemma BatchRan(w: World, w': World, r: Result<Outcome, Error>, response: Response, calls: seq<PlannedCall>)
    requires BatchEnds(w, w', r, response, calls, 0) && BatchKept(w, w', w.session, w.task)
    ensures |w.trace| <= |w'.trace| <= |w.trace| + |calls| && w'.trace[..|w.trace|] == w.trace
    ensures forall k :: 0 <= k < |w'.trace| - |w.trace| ==> w'.trace[|w.trace| + k] == calls[k].invocation
    ensures w'.requests == w.requests
  {
    hide ValidSession, Complete, DistinctIds, Tolerable, PausedFor;
    var n := |w'.trace| - |w.trace|;
    assert w'.trace == w.trace + Invocations(calls)[0..n];
  }

  /** Whatever a turn dispatches, in whichever way it ends, is a call that the Provider answered to this
      turn's request, with its own arguments and in order, and the session's policy and grant sanction it. */
  lemma DispatchedCallsAreSanctioned(env: Env, w: World, input: StepInput)
    requires Registered(env) && Tasks.ValidBudget(w.task.budget) && w.task.usage.toolCalls <= U32_MAX
    requires MachineLimits(w.session.policy)
    ensures var w' := Advance(env, w, input).0;
            w'.trace == w.trace
            || exists response :: AnsweredBy(env, w, input, w', response) && Dispatches(env, w, input, w', response)
  {
    hide Advance, EvaluateStep, ProviderStep, AdvanceBatch, MaxClassification, Registered, AnsweredBy, Dispatches, Pays;
    hide PlannedFor, ValidSession, Tasks.ValidBudget, MachineLimits, GoodCalls;
    var (s, d) := Cycle(env, w, input);
    var (w2, stepped) := ProviderStep(env, w.(session := s), input);
    TurnParts(env, w, input);
    if d == Success(Proceed) {
      ProviderStepEffect(env, w.(session := s), input);
      if stepped.Success? && stepped.value.StepToolCalls? {
        var response, calls := stepped.value.response, stepped.value.calls;
        HandsOver(env, w, input, s, w2, response, calls);
        BatchDispatches(env, w, input, w2, response, calls);
        AnsweredAlike(env, w, w, input, w2, response);
        assert AnsweredBy(env, w, input, Advance(env, w, input).0, response);
      }
    }
  }

  /** Only task and requests matter to an answer. */
  lemma AnsweredAlike(env: Env, w: World, v: World, input: StepInput, w': World, response: Response)
    requires w.task == v.task && w.requests == v.requests
    ensures AnsweredBy(env, w, input, w', response) <==> AnsweredBy(env, v, input, w', response)
    ensures forall w'': World :: w''.requests == w'.requests ==>
              (AnsweredBy(env, w, input, w'', response) <==> AnsweredBy(env, w, input, w', response))
  {
  }

  // ---- What the conversation gains ----

  /** One call that goes through leaves the backend's own answer under the call's identifier. */
  lemma CallReplies(env: Env, w: World, response: Response, results: map<string, Json>, call: PlannedCall,
                    providerId: string, model: string, nowMs: nat)
    ensures var (w', r) := RunOne(env, w, response, results, call, providerId, model, nowMs);
            && (r.Success? && r.value.0.Some? ==> r.value.0.value.TurnPaused?)
            && (r.Success? && r.value.0.None? ==>
                  && w'.trace == w.trace + [call.invocation] && call.providerCallId !in results
                  && var output := env.respond(w.trace, call.invocation);
                     output.Success? && r.value.1 == results[call.providerCallId := output.value])
  {
    hide AutoApproval, DispatchRefusal, MaxClassification, EvaluateStep, FindCall, Admit;
  }

  /** What a call may change in the ledgers: a call that goes through is one in each. */
  ghost predicate PaysCalls(w: World, w': World, n: nat) {
    && w'.session.usage == w.session.usage.(toolCalls := w.session.usage.toolCalls + n)
    && w'.task.usage == w.task.usage.(toolCalls := w.task.usage.toolCalls + n)
  }

  /** A dispatched call is reserved first. */
  lemma StepReserves(env: Env, w: World, inv: Invocation, approval: Option<Approval>, nowMs: nat)
    requires w.task.budget.maxToolCalls < U32_MAX
    ensures var (w', r) := ToolStep(env, w, inv, approval, nowMs);
            && w'.task.budget == w.task.budget && w'.session == w.session
            && (r.Success? && r.value.ToolCompleted? ==>
                  && w'.task.status == Tasks.Running
                  && w'.task.usage == w.task.usage.(toolCalls := w.task.usage.toolCalls + 1))
  {
    hide DispatchRefusal, Admit;
  }

  lemma CallCharges(env: Env, w: World, response: Response, results: map<string, Json>, call: PlannedCall,
                    providerId: string, model: string, nowMs: nat)
    requires w.task.budget.maxToolCalls < U32_MAX
    ensures var (w', r) := RunOne(env, w, response, results, call, providerId, model, nowMs);
            && w'.task.budget == w.task.budget
            && (r.Success? && r.value.0.None? ==> PaysCalls(w, w', 1) && w'.task.status == Tasks.Running)
  {
    hide AutoApproval, MaxClassification, EvaluateStep, Recorded, ToolStep;
    EvaluateKeepsSession(w.session, ExecutionRequest(w.session, call), env.grant, Some(providerId), Some(model), nowMs);
    hide ValidSession;
    if call.invocation.toolId in env.registry.descriptors {
      var classification := MaxClassification(env.registry.descriptors[call.invocation.toolId].dataClassifications);
      var session := EvaluateStep(w.session, ExecutionRequest(w.session, call), env.grant, Some(providerId),
                                  Some(model), nowMs).0;
      var approval := AutoApproval(env, session, call, classification, providerId, model, nowMs);
      StepReserves(env, w.(session := session), call.invocation, approval, nowMs);
      var (w2, stepped) := ToolStep(env, w.(session := session), call.invocation, approval, nowMs);
      var (w', r) := RunOne(env, w, response, results, call, providerId, model, nowMs);
      assert r.Success? && r.value.0.None? ==> w' == w2 && stepped.Success? && stepped.value.ToolCompleted?;
    }
  }

  /** The results collected for the calls from the `i`th on are the backend's answers, each given the calls
      made before it. */
  ghost predicate Collects(env: Env, trace: seq<Invocation>, calls: seq<PlannedCall>, i: nat,
                           results: map<string, Json>) {
    forall k :: i <= k < |calls| ==>
      && calls[k].providerCallId in results
      && var output := env.respond(trace + Invocations(calls)[i..k], calls[k].invocation);
         output.Success? && output.value == results[calls[k].providerCallId]
  }

  ghost predicate Grows(results: map<string, Json>, final: map<string, Json>) {
    forall id :: id in results ==> id in final && final[id] == results[id]
  }

  lemma CollectsStep(env: Env, trace: seq<Invocation>, calls: seq<PlannedCall>, i: nat, results: map<string, Json>,
                     more: map<string, Json>, final: map<string, Json>)
    requires i < |calls| && calls[i].providerCallId !in results
    requires env.respond(trace, calls[i].invocation).Success?
    requires more == results[calls[i].providerCallId := env.respond(trace, calls[i].invocation).value]
    requires Grows(more, final) && Collects(env, trace + [calls[i].invocation], calls, i + 1, final)
    ensures Grows(results, final) && Collects(env, trace, calls, i, final)
  {
    forall k | i <= k < |calls|
      ensures calls[k].providerCallId in final
      ensures var output := env.respond(trace + Invocations(calls)[i..k], calls[k].invocation);
              output.Success? && output.value == final[calls[k].providerCallId]
    {
      if k == i {
        assert calls[i].providerCallId in more;
        assert trace + Invocations(calls)[i..i] == trace;
      } else {
        assert trace + [calls[i].invocation] + Invocations(calls)[i + 1..k] == trace + Invocations(calls)[i..k];
      }
    }
  }

  /** A batch that continues has dispatched every call and collected the answers. */
  lemma {:induction false} BatchReplies(env: Env, w: World, response: Response, results: map<string, Json>,
                                        calls: seq<PlannedCall>, i: nat, providerId: string, model: string, nowMs: nat)
    requires i <= |calls|
    ensures var (w', r) := RunBatch(env, w, response, results, calls[i..], providerId, model, nowMs);
            r.Success? && r.value.TurnContinues? ==>
              && w'.trace == w.trace + Invocations(calls)[i..]
              && exists final :: Continuation(response, final) == Success(r.value.messages)
                                 && Grows(results, final) && Collects(env, w.trace, calls, i, final)
    decreases |calls| - i
  {
    hide RunOne, Continuation, Collects, Grows;
    if i == |calls| {
      NothingMissing(env, w.trace, calls, results);
    } else {
      assert calls[i..][0] == calls[i] && calls[i..][1..] == calls[i + 1..];
      CallReplies(env, w, response, results, calls[i], providerId, model, nowMs);
      var (w1, r) := RunOne(env, w, response, results, calls[i], providerId, model, nowMs);
      if r.Success? && r.value.0.None? {
        BatchReplies(env, w1, response, r.value.1, calls, i + 1, providerId, model, nowMs);
        var (w2, end) := RunBatch(env, w1, response, r.value.1, calls[i + 1..], providerId, model, nowMs);
        if end.Success? && end.value.TurnContinues? {
          var final :| Continuation(response, final) == Success(end.value.messages)
                       && Grows(r.value.1, final) && Collects(env, w1.trace, calls, i + 1, final);
          CollectsStep(env, w.trace, calls, i, results, r.value.1, final);
          assert Invocations(calls)[i..] == [calls[i].invocation] + Invocations(calls)[i + 1..];
        }
      }
    }
  }

  /** It has charged each call. */
  lemma {:induction false} BatchCharges(env: Env, w: World, response: Response, results: map<string, Json>,
                                        calls: seq<PlannedCall>, providerId: string, model: string, nowMs: nat)
    requires w.task.budget.maxToolCalls < U32_MAX
    ensures var (w', r) := RunBatch(env, w, response, results, calls, providerId, model, nowMs);
            r.Success? && r.value.TurnContinues? ==>
              PaysCalls(w, w', |calls|) && (calls != [] ==> w'.task.status == Tasks.Running)
    decreases calls
  {
    hide RunOne, Continuation;
    if calls != [] {
      CallReplies(env, w, response, results, calls[0], providerId, model, nowMs);
      CallCharges(env, w, response, results, calls[0], providerId, model, nowMs);
      var (w1, r) := RunOne(env, w, response, results, calls[0], providerId, model, nowMs);
      if r.Success? && r.value.0.None? {
        BatchCharges(env, w1, response, r.value.1, calls[1..], providerId, model, nowMs);
      }
    }
  }

  lemma NothingMissing(env: Env, trace: seq<Invocation>, calls: seq<PlannedCall>, results: map<string, Json>)
    ensures Grows(results, results) && Collects(env, trace, calls, |calls|, results)
  {
  }

  /** The continuation: the Provider's own message, then for every call the backend's own answer. */
  ghost predicate Says(env: Env, before: seq<Invocation>, after: seq<Invocation>, response: Response,
                       messages: seq<Message>) {
    && |messages| == 1 + |response.toolCalls| && |after| == |before| + |response.toolCalls|
    && messages[0] == Message(Assistant, response.content, Personal, false, response.toolCalls, None, None)
    && forall k :: 0 <= k < |response.toolCalls| ==>
         var output := env.respond(after[..|before| + k], after[|before| + k]);
         && output.Success?
         && messages[k + 1] == Message(Tool, output.value.encoded, Personal, true, [], Some(response.toolCalls[k].id),
                                       Some(response.toolCalls[k].toolId))
  }

  lemma ReplyAt(env: Env, w: World, w': World, calls: seq<PlannedCall>, k: nat, final: map<string, Json>)
    requires k < |calls| && w'.trace == w.trace + Invocations(calls) && Collects(env, w.trace, calls, 0, final)
    ensures calls[k].providerCallId in final
    ensures env.respond(w'.trace[..|w.trace| + k], w'.trace[|w.trace| + k])
            == Success(final[calls[k].providerCallId])
  {
    assert w'.trace[..|w.trace| + k] == w.trace + Invocations(calls)[0..k];
    assert calls[k].providerCallId in final;
  }

  lemma CollectedSays(env: Env, w: World, w': World, response: Response, calls: seq<PlannedCall>,
                      final: map<string, Json>, messages: seq<Message>)
    requires |calls| == |response.toolCalls| && w'.trace == w.trace + Invocations(calls)
    requires forall i :: 0 <= i < |calls| ==> calls[i].providerCallId == response.toolCalls[i].id
    requires Continuation(response, final) == Success(messages) && Collects(env, w.trace, calls, 0, final)
    ensures Says(env, w.trace, w'.trace, response, messages)
  {
    hide Collects;
    forall k | 0 <= k < |response.toolCalls|
      ensures response.toolCalls[k].id in final
      ensures env.respond(w'.trace[..|w.trace| + k], w'.trace[|w.trace| + k])
              == Success(final[response.toolCalls[k].id])
    {
      ReplyAt(env, w, w', calls, k, final);
    }
    ContinuationIs(response, final, messages);
  }

  lemma ContinuationIs(response: Response, final: map<string, Json>, messages: seq<Message>)
    requires Continuation(response, final) == Success(messages)
    requires forall k :: 0 <= k < |response.toolCalls| ==> response.toolCalls[k].id in final
    ensures |messages| == 1 + |response.toolCalls|
    ensures messages[0] == Message(Assistant, response.content, Personal, false, response.toolCalls, None, None)
    ensures forall k :: 0 <= k < |response.toolCalls| ==>
              messages[k + 1] == Message(Tool, final[response.toolCalls[k].id].encoded, Personal, true, [],
                                         Some(response.toolCalls[k].id), Some(response.toolCalls[k].toolId))
  {
    ResultMessagesMeaning(response.toolCalls, final);
  }

  // ---- What a turn costs, and the whole turn ----

  /** One cycle of the session, one step of the task with the tokens and cost that the Provider reports, and
      `n` tool calls of each. */
  ghost predicate Pays(w: World, w': World, response: Response, n: nat) {
    var before, after, used := w.task.usage, w'.task.usage, response.usage;
    && w'.session.usage == w.session.usage.(cycles := w.session.usage.cycles + 1,
                                            toolCalls := w.session.usage.toolCalls + n)
    && after.steps == before.steps + 1 && after.toolCalls == before.toolCalls + n
    && after.inputTokens == SaturatingAdd(before.inputTokens, used.inputTokens, U64_MAX)
    && after.outputTokens == SaturatingAdd(before.outputTokens, used.outputTokens, U64_MAX)
    && after.costMicrounits == SaturatingAdd(before.costMicrounits, used.costMicrounits, U64_MAX)
  }

  /** Cycle and Provider step charge the answer. */
  lemma StepPays(env: Env, w: World, input: StepInput)
    requires Tasks.ValidBudget(w.task.budget)
    ensures var (s, d) := Cycle(env, w, input);
            var (w2, stepped) := ProviderStep(env, w.(session := s), input);
            d == Success(Proceed) && stepped.Success? ==> Pays(w, w2, stepped.value.response, 0)
  {
    hide ValidResponse, PlanCalls, Compaction.RequestAccepted, AnyNeedsConfirmation, MaxClassification, EvaluateStep;
    var classification := MaxClassification(MessageClasses(input.messages));
    EvaluateKeepsSession(w.session, CycleRequest(w.session, classification), env.grant, Some(w.task.providerId),
                         Some(input.model), input.nowMs);
    hide ValidSession;
  }

  /** A batch that continues, from outside. */
  lemma BatchSays(env: Env, w: World, input: StepInput, w2: World, response: Response, calls: seq<PlannedCall>)
    requires Answered(env, w, input, w2, response, calls)
    ensures var (w', r) := AdvanceBatch(env, w2, response, calls, input.model, input.nowMs);
            r.Success? && r.value.TurnContinues? ==>
              && Says(env, w.trace, w'.trace, response, r.value.messages)
              && PaysCalls(w2, w', |response.toolCalls|) && w'.task.status == Tasks.Running
  {
    hide PreflightAll, RunBatch, ValidSession, AnsweredBy, Planned, Collects, Says, Continuation;
    var providerId := w2.task.providerId;
    var (w', r) := AdvanceBatch(env, w2, response, calls, input.model, input.nowMs);
    if r.Success? && r.value.TurnContinues? {
      assert calls[0..] == calls;
      BatchReplies(env, w2, response, map[], calls, 0, providerId, input.model, input.nowMs);
      BatchCharges(env, w2, response, map[], calls, providerId, input.model, input.nowMs);
      var final :| Continuation(response, final) == Success(r.value.messages)
                   && Collects(env, w2.trace, calls, 0, final);
      assert Invocations(calls)[0..] == Invocations(calls);
      CollectedSays(env, w2, w', response, calls, final, r.value.messages);
    }
  }

  /** The turn from outside: the Provider answered this turn's request, each call of the answer was
      dispatched, sanctioned and with its own arguments, the conversation gains the Provider's message and
      the backend's answers in call order, and both ledgers are charged for exactly that. */
  ghost predicate Converses(env: Env, w: World, input: StepInput, w': World, response: Response,
                            messages: seq<Message>) {
    && AnsweredBy(env, w, input, w', response) && response.toolCalls != []
    && Dispatches(env, w, input, w', response) && Says(env, w.trace, w'.trace, response, messages)
    && Pays(w, w', response, |response.toolCalls|)
  }

  lemma ContinuingTurn(env: Env, w: World, input: StepInput)
    requires Registered(env) && Tasks.ValidBudget(w.task.budget) && w.task.usage.toolCalls <= U32_MAX
    requires MachineLimits(w.session.policy)
    ensures var (w', r) := Advance(env, w, input);
            r.Success? && r.value.TurnContinues? ==>
              && w'.session.status == Running && w'.task.status == Tasks.Running
              && exists response :: Converses(env, w, input, w', response, r.value.messages)
  {
    hide Advance, EvaluateStep, ProviderStep, AdvanceBatch, MaxClassification, Registered, Converses, TurnKept, Pays;
    hide Answered, ValidSession, ContinuesWith, StopsAtRepeat, Tasks.ValidBudget, MachineLimits;
    TurnEffect(env, w, input);
    var (s, d) := Cycle(env, w, input);
    var (w2, stepped) := ProviderStep(env, w.(session := s), input);
    TurnParts(env, w, input);
    if d == Success(Proceed) && stepped.Success? && stepped.value.StepToolCalls? {
      var response, calls := stepped.value.response, stepped.value.calls;
      HandsOver(env, w, input, s, w2, response, calls);
      StepPays(env, w, input);
      BatchConverses(env, w, input, w2, response, calls);
      var (w', r) := AdvanceBatch(env, w2, response, calls, input.model, input.nowMs);
      assert Advance(env, w, input) == (w', r);
      assert r.Success? && r.value.TurnContinues? ==>
          Converses(env, w, input, w', response, r.value.messages);
    }
  }

  /** The cycle that a turn begins with. */
  function Cycle(env: Env, w: World, input: StepInput): (Session, Result<StepDecision, AutoModeError>) {
    EvaluateStep(w.session, CycleRequest(w.session, MaxClassification(MessageClasses(input.messages))), env.grant,
                 Some(w.task.providerId), Some(input.model), input.nowMs)
  }

  /** A turn is its cycle, then its Provider step, then its batch. */
  lemma TurnParts(env: Env, w: World, input: StepInput)
    ensures var (s, d) := Cycle(env, w, input);
            var (w2, stepped) := ProviderStep(env, w.(session := s), input);
            Advance(env, w, input)
            == if d.Failure? then (w.(session := s), Failure(SessionError(d.error)))
               else if d.value.Pause? then (w.(session := s), Success(TurnPaused(d.value.reason, [])))
               else if stepped.Failure? then (w2, Failure(stepped.error))
               else if stepped.value.StepCompleted? then (w2, Success(TurnCompleted(stepped.value.response)))
               else AdvanceBatch(env, w2, stepped.value.response, stepped.value.calls, input.model, input.nowMs)
  {
    hide EvaluateStep, ProviderStep, AdvanceBatch, MaxClassification;
    var (s, d) := Cycle(env, w, input);
    var (w2, stepped) := ProviderStep(env, w.(session := s), input);
    var (w', r) := Advance(env, w, input);
    if d == Success(Proceed) && stepped.Success? && stepped.value.StepToolCalls? {
      assert (w', r) == AdvanceBatch(env, w2, stepped.value.response, stepped.value.calls, input.model, input.nowMs);
    }
  }

  /** What the Provider step hands over to the batch. */
  lemma HandsOver(env: Env, w: World, input: StepInput, s: Session, w2: World, response: Response,
                  calls: seq<PlannedCall>)
    requires Registered(env) && Tasks.ValidBudget(w.task.budget) && w.task.usage.toolCalls <= U32_MAX
    requires Cycle(env, w, input) == (s, Success(Proceed))
    requires ProviderStep(env, w.(session := s), input) == (w2, Success(StepToolCalls(response, calls)))
    ensures Answered(env, w, input, w2, response, calls)
  {
    hide ValidSession, EvaluateStep, ProviderStep, Stepped, MaxClassification, Registered, Tasks.ValidBudget, Answered;
    CycleEvaluation(env, w, input);
    ProviderStepEffect(env, w.(session := s), input);
    AnsweredFrom(env, w, s, input, w2, Success(StepToolCalls(response, calls)));
  }

  lemma AnsweredFrom(env: Env, w: World, s: Session, input: StepInput, w2: World, r: Result<StepOutcome, Error>)
    requires Stepped(env, w.(session := s), input, w2, r) && r.Success? && r.value.StepToolCalls?
    requires ValidSession(s) && s.status == Running && s.updatedAtMs <= input.nowMs && SameBinding(w.session, s)
    requires s.usage.toolCalls == w.session.usage.toolCalls && s.usage.cycles == w.session.usage.cycles + 1
    requires Tasks.ValidBudget(w.task.budget) && w.task.usage.toolCalls <= U32_MAX
    ensures Answered(env, w, input, w2, r.value.response, r.value.calls)
  {
    hide ValidSession, PlannedFor, GoodCalls, AnsweredBy, Tasks.ValidBudget;
    AnsweredAlike(env, w.(session := s), w, input, w2, r.value.response);
  }

  lemma BatchConverses(env: Env, w: World, input: StepInput, w2: World, response: Response, calls: seq<PlannedCall>)
    requires Answered(env, w, input, w2, response, calls) && MachineLimits(w.session.policy)
    requires Pays(w, w2, response, 0)
    ensures var (w', r) := AdvanceBatch(env, w2, response, calls, input.model, input.nowMs);
            r.Success? && r.value.TurnContinues? ==>
              Converses(env, w, input, w', response, r.value.messages) && w'.task.status == Tasks.Running
  {
    hide AdvanceBatch, AnsweredBy, Dispatches, Says, Pays, PaysCalls, PlannedFor, ValidSession;
    BatchDispatches(env, w, input, w2, response, calls);
    BatchSays(env, w, input, w2, response, calls);
    var (w', r) := AdvanceBatch(env, w2, response, calls, input.model, input.nowMs);
    AnsweredAlike(env, w, w, input, w2, response);
    assert AnsweredBy(env, w, input, w', response);
    if r.Success? && r.value.TurnContinues? { PaysBoth(w, w2, w', response, |response.toolCalls|); }
  }

  lemma PaysBoth(w: World, w2: World, w': World, response: Response, n: nat)
    requires Pays(w, w2, response, 0) && PaysCalls(w2, w', n)
    ensures Pays(w, w', response, n)
  {
  }

  /** A completed turn: the Provider answered this turn's request without calls, nothing was dispatched, and
      the answer is all that both ledgers are charged for. */
  lemma CompletedTurn(env: Env, w: World, input: StepInput)
    requires Registered(env) && Tasks.ValidBudget(w.task.budget) && w.task.usage.toolCalls <= U32_MAX
    ensures var (w', r) := Advance(env, w, input);
            r.Success? && r.value.TurnCompleted? ==>
              && AnsweredBy(env, w, input, w', r.value.response) && r.value.response.toolCalls == []
              && w'.trace == w.trace && w'.task.status == Tasks.Succeeded && w'.session.status == Running
              && Pays(w, w', r.value.response, 0)
  {
    hide Advance, EvaluateStep, ProviderStep, AdvanceBatch, MaxClassification, Registered, AnsweredBy, Pays, TurnKept;
    hide ContinuesWith, StopsAtRepeat, Tasks.ValidBudget;
    TurnEffect(env, w, input);
    StepPays(env, w, input);
    TurnParts(env, w, input);
    var (s, d) := Cycle(env, w, input);
    var (w2, stepped) := ProviderStep(env, w.(session := s), input);
    if d == Success(Proceed) && stepped.Success? && stepped.value.StepToolCalls? {
      BatchNeverCompletes(env, w2, stepped.value.response, stepped.value.calls, input.model, input.nowMs);
    }
  }

  /** A batch continues, pauses or fails. */
  lemma BatchNeverCompletes(env: Env, w: World, response: Response, calls: seq<PlannedCall>, model: string, nowMs: nat)
    ensures var r := AdvanceBatch(env, w, response, calls, model, nowMs).1; r.Success? ==> !r.value.TurnCompleted?
  {
    hide RunBatch, PreflightAll;
    RunNeverCompletes(env, w, response, map[], calls, w.task.providerId, model, nowMs);
  }

  lemma {:induction false} RunNeverCompletes(env: Env, w: World, response: Response, results: map<string, Json>,
                                             calls: seq<PlannedCall>, providerId: string, model: string, nowMs: nat)
    ensures var r := RunBatch(env, w, response, results, calls, providerId, model, nowMs).1;
            r.Success? ==> !r.value.TurnCompleted?
    decreases |calls|
  {
    hide RunOne, Continuation;
    if calls != [] {
      CallReplies(env, w, response, results, calls[0], providerId, model, nowMs);
      var (w1, r) := RunOne(env, w, response, results, calls[0], providerId, model, nowMs);
      if r.Success? && r.value.0.None? {
        RunNeverCompletes(env, w1, response, r.value.1, calls[1..], providerId, model, nowMs);
      }
    }
  }

  // ---- When the Provider is asked at all ----

  /** Exactly when a turn calls the Provider, and with what: the session is valid and runs, every message
      is of a class that its policy admits, one more cycle fits both limits, a pending task is in time, and
      request and Provider are in order. */
  lemma ProviderAskedIff(env: Env, w: World, input: StepInput)
    requires MachineLimits(w.session.policy)
    ensures var w' := Advance(env, w, input).0;
            var s, policy := w.session, w.session.policy;
            var request := ProviderRequest(input.requestId, w.task.id, w.task.traceId, w.task.providerId, input.model,
                                           input.messages, env.toolList, input.maxOutputTokens);
            && (w'.requests != w.requests <==>
                  && ValidSession(s) && s.status == Running && s.updatedAtMs <= input.nowMs
                  && (forall m :: m in input.messages ==>
                        NoMoreSensitive(m.classification, policy.maximumDataClassification))
                  && s.usage.cycles < policy.maxCycles && s.usage.cycles < policy.budget.maxSteps
                  && (w.task.status == Tasks.Pending ==>
                        input.nowMs <= w.task.createdAtMs + w.task.budget.maxElapsedMs)
                  && Compaction.RequestAccepted(w.task.providerId, input.model, input.messages, env.toolList,
                                                input.maxOutputTokens)
                  && env.port.ready(request))
            && (w'.requests != w.requests ==> w'.requests == w.requests + [request])
  {
    hide Advance, ValidSession, EvaluateStep, ProviderStep, AdvanceBatch, MaxClassification,
         Compaction.RequestAccepted, NoMoreSensitive;
    var (s, d) := Cycle(env, w, input);
    TurnParts(env, w, input);
    EvaluateKeepsSession(w.session, CycleRequest(w.session, MaxClassification(MessageClasses(input.messages))),
                         env.grant, Some(w.task.providerId), Some(input.model), input.nowMs);
    CycleProceedsIff(w.session, input.messages, env.grant, w.task.providerId, input.model, input.nowMs);
    StepAsksIff(env, w.(session := s), input);
    var (w2, stepped) := ProviderStep(env, w.(session := s), input);
    if stepped.Success? && stepped.value.StepToolCalls? {
      SupervisorRuns.AdvanceBatchNeverInactive(env, w2, stepped.value.response, stepped.value.calls, input.model,
                                               input.nowMs);
    }
  }

  /** Whatever happens, a turn makes no other request than its own, and that at most once. */
  lemma AsksAtMostOnce(env: Env, w: World, input: StepInput)
    ensures var w' := Advance(env, w, input).0;
            || w'.requests == w.requests
            || w'.requests == w.requests + [ProviderRequest(input.requestId, w.task.id, w.task.traceId,
                                                            w.task.providerId, input.model, input.messages,
                                                            env.toolList, input.maxOutputTokens)]
  {
    hide Advance, EvaluateStep, ProviderStep, AdvanceBatch, MaxClassification;
    var (s, _) := Cycle(env, w, input);
    TurnParts(env, w, input);
    StepAsksIff(env, w.(session := s), input);
    var (w2, stepped) := ProviderStep(env, w.(session := s), input);
    if stepped.Success? && stepped.value.StepToolCalls? {
      SupervisorRuns.AdvanceBatchNeverInactive(env, w2, stepped.value.response, stepped.value.calls, input.model,
                                               input.nowMs);
    }
  }

  lemma CycleProceedsIff(s: Session, messages: seq<Message>, grant: Option<Grant>, providerId: string, model: string,
                         nowMs: nat)
    requires MachineLimits(s.policy)
    ensures EvaluateStep(s, CycleRequest(s, MaxClassification(MessageClasses(messages))), grant, Some(providerId),
                         Some(model), nowMs).1 == Success(Proceed) <==>
              && ValidSession(s) && s.status == Running && s.updatedAtMs <= nowMs
              && (forall m :: m in messages ==> NoMoreSensitive(m.classification, s.policy.maximumDataClassification))
              && s.usage.cycles < s.policy.maxCycles && s.usage.cycles < s.policy.budget.maxSteps
  {
    var classes := MessageClasses(messages);
    var r := CycleRequest(s, MaxClassification(classes));
    ProceedsIff(s, r, grant, Some(providerId), Some(model), nowMs);
    WithinIff(classes, s.policy.maximumDataClassification);
    ClassesOf(messages, s.policy.maximumDataClassification);
    if ValidSession(s) { OneCycleFits(s); }
    hide EvaluateStep, ValidSession, WithinBudget, MaxClassification, NoMoreSensitive, MessageClasses;
  }

  lemma ClassesOf(messages: seq<Message>, maximum: DataClassification)
    ensures (forall c :: c in MessageClasses(messages) ==> NoMoreSensitive(c, maximum))
            <==> forall m :: m in messages ==> NoMoreSensitive(m.classification, maximum)
  {
    hide NoMoreSensitive;
    var classes := MessageClasses(messages);
    if forall c :: c in classes ==> NoMoreSensitive(c, maximum) {
      forall m | m in messages ensures NoMoreSensitive(m.classification, maximum) {
        var i :| 0 <= i < |messages| && messages[i] == m;
        assert classes[i] in classes;
      }
    }
    if forall m :: m in messages ==> NoMoreSensitive(m.classification, maximum) {
      forall c | c in classes ensures NoMoreSensitive(c, maximum) {
        var i :| 0 <= i < |classes| && classes[i] == c;
        assert messages[i] in messages;
      }
    }
  }

  lemma OneCycleFits(s: Session)
    requires ValidSession(s)
    ensures WithinBudget(s.policy, s.usage, NO_USAGE.(cycles := 1))
            <==> s.usage.cycles < s.policy.maxCycles && s.usage.cycles < s.policy.budget.maxSteps
  {
  }

  lemma StepAsksIff(env: Env, w: World, input: StepInput)
    ensures var w' := ProviderStep(env, w, input).0;
            var request := ProviderRequest(input.requestId, w.task.id, w.task.traceId, w.task.providerId, input.model,
                                           input.messages, env.toolList, input.maxOutputTokens);
            && (w'.requests != w.requests <==>
                  && (w.task.status == Tasks.Pending ==>
                        input.nowMs <= w.task.createdAtMs + w.task.budget.maxElapsedMs)
                  && Compaction.RequestAccepted(w.task.providerId, input.model, input.messages, env.toolList,
                                                input.maxOutputTokens)
                  && env.port.ready(request))
            && (w'.requests != w.requests ==> w'.requests == w.requests + [request])
  {
    hide ValidResponse, PlanCalls, Compaction.RequestAccepted, AnyNeedsConfirmation, Tasks.AccountProviderStep;
    assert w.requests + [RequestFor(env, w.task, input)] != w.requests;
  }

  /** A Provider step that hands calls over leaves the task waiting for confirmation exactly if one of the
      calls needs a grant, and running otherwise. */
  lemma StepWaitsIff(env: Env, w: World, input: StepInput)
    requires Registered(env)
    ensures var (w', r) := ProviderStep(env, w, input);
            r.Success? && r.value.StepToolCalls? ==>
              && w'.task.status in {Tasks.WaitingForConfirmation, Tasks.Running}
              && (w'.task.status == Tasks.WaitingForConfirmation <==>
                    exists call :: call in r.value.calls && call.invocation.toolId in env.registry.descriptors
                                   && NeedsGrant(env.registry, call.invocation))
  {
    hide ValidResponse, PlanCalls, Compaction.RequestAccepted, Tasks.AccountProviderStep, NeedsGrant, AnsweredBy,
         GoodCalls, Registered;
    ProviderStepEffect(env, w, input);
    var (w', r) := ProviderStep(env, w, input);
    if r.Success? && r.value.StepToolCalls? {
      var calls := r.value.calls;
      forall call | call in calls
        ensures call.invocation.toolId in env.registry.descriptors
        ensures call.admission.NeedsConfirmation? <==> NeedsGrant(env.registry, call.invocation)
      {
        var i :| 0 <= i < |calls| && calls[i] == call;
        assert Planned(env.registry, w'.task, calls[i]);
        AdmitIff(env.registry, call.invocation);
      }
      hide Admit;
      assert AnyNeedsConfirmation(calls) <==> exists call :: call in calls && call.admission.NeedsConfirmation?;
    }
  }

  // ---- Dispatch ----

  /** Exactly when the registry passes an invocation on: the tool is registered with a sound timeout, and an
      invocation that needs confirmation comes with an approval of itself at its effective risk. */
  lemma DispatchesIff(registry: Registry, inv: Invocation, approval: Option<Approval>)
    ensures DispatchRefusal(registry, inv, approval) == None <==>
              && inv.toolId in registry.descriptors
              && 1 <= registry.descriptors[inv.toolId].timeoutMs <= 300_000
              && (NeedsGrant(registry, inv) ==>
                    && approval.Some?
                    && approval.value == Approval(inv.invocationId,
                                                  FingerprintOf(inv, Admit(registry, inv).value.effectiveRisk)))
  {
    AdmitIff(registry, inv);
    hide FingerprintOf, NeedsGrant, MaxRisk;
  }
}
