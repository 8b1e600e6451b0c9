/** Two concrete runs of the supervisor library in which a Provider call or a tool call is made and its
    result thrown away. */
module SupervisorExamples {
  import opened Wrappers
  import opened Text
  import opened Provider
  import opened Authorization
  import opened AutoMode
  import Tasks = AgentTasks
  import opened Tools
  import opened ToolTurns
  import opened Supervisor
  import opened SupervisorTurns
  import opened SupervisorRuns
  import Compaction

  // ---- A small session with one tool and a Provider that always gives the same answer ----

  const POLICY := AutoMode.Policy(2, 1, Budget(2, 2, 1, 1, 1, 0), Public, {"t"}, "w")

  const NO_OBJECT_MEMBERS := Json("{}", true)

  function SessionWith(status: Status, reason: Option<PauseReason>, usage: Ledger): Session {
    Session(SESSION_SPEC, 0, 0, 1, POLICY, PolicySha256(POLICY), status, reason, usage, 0, 0)
  }

  function TaskWith(status: Tasks.TaskStatus, steps: nat, toolCalls: nat): Tasks.Task {
    Tasks.Task(Tasks.TASK_SPEC, 0, 0, "a", "b", status, Budget(2, 2, 1, 1, 1, 0),
               Tasks.TaskUsage(steps, toolCalls, 0, 0, 0), 0, 0)
  }

  /** A Provider that asks for the tool as many times, always with the same call identifier. */
  function Answer(calls: nat): Response {
    Response(RESPONSE_SPEC, 0, "", seq(calls, _ => ToolCall("c", "t", NO_OBJECT_MEMBERS)), ToolCallsRequested,
             Usage(0, 0, 0))
  }

  function OneTool(risk: Risk, calls: nat): Env {
    Env(Registry(map["t" := Descriptor("t", risk, ReadOnly, [], 1)], (_, _) => Safe), ["t"],
        Port(_ => true, (_, _) => Some(Answer(calls))), (_, _) => Success(NO_OBJECT_MEMBERS), None)
  }

  const INPUT := StepInput("m", [TextMessage(User, "", Public, false)], 1, 0, 0, id => id)

  const BINDING := ResumeBinding(true, 0, 0, 1, "w", PolicySha256(POLICY))

  const START := World(SessionWith(Running, None, NO_USAGE), TaskWith(Tasks.Running, 0, 0), [], [])

  lemma OneByte(s: string)
    requires |s| == 1
    ensures 1 <= Bytes(s) <= 4
  {
    assert Bytes(s[1..]) == 0;
  }

  lemma SmallPartsValid(steps: nat, cycles: nat)
    requires steps <= 2 && cycles <= 2
    ensures ValidPolicy(POLICY) && ValidSession(SessionWith(Running, None, NO_USAGE.(cycles := cycles)))
    ensures Tasks.ValidTask(TaskWith(Tasks.Running, steps, 0))
    ensures Compaction.RequestAccepted("b", "m", INPUT.messages, ["t"], 1)
  {
    OneByte("a");
    OneByte("b");
    OneByte("m");
    OneByte("w");
    assert !Whitespace("w"[0]);
    var message := TextMessage(User, "", Public, false);
    assert Compaction.ContentBytes([message]) == 0 by { assert [message][1..] == []; assert Bytes("") == 0; }
    assert Accepted([message], Compaction.ToolIds(["t"])) by {
      assert [message][1..] == [];
      assert ScanOne(message, Compaction.ToolIds(["t"]), NOTHING_SEEN) == Some(NOTHING_SEEN);
      assert ScanAll([], Compaction.ToolIds(["t"]), NOTHING_SEEN) == Some(NOTHING_SEEN);
    }
  }

  lemma AnswerValid(calls: nat)
    requires 1 <= calls <= 32
    ensures ValidResponse(0, Compaction.ToolIds(["t"]).value, 1, Answer(calls))
  {
    OneByte("c");
    assert Bytes("") == 0;
    assert "t" in Compaction.ToolIds(["t"]).value;
  }

  // ---- An answer thrown away ----

  const ASKING := OneTool(Medium, 1)

  /** A turn that asks for confirmation, a resume of the session alone, and the next turn. The durable host
      never does this: it commits a confirmation pause with the task paused and resumes both. */
  const CONFIRMATION_RUN := [Turn(ASKING, INPUT), SessionResume(BINDING, 0), Turn(ASKING, INPUT)]

  function CycleCharged(cycles: nat): Session { SessionWith(Running, None, NO_USAGE.(cycles := cycles)) }

  /** A cycle of the small session proceeds while there are any left. */
  lemma CycleProceeds(cycles: nat)
    requires cycles < 2
    ensures MaxClassification(MessageClasses(INPUT.messages)) == Public
    ensures EvaluateStep(CycleCharged(cycles), CycleRequest(CycleCharged(cycles), Public), None, Some("b"), Some("m"),
                         0)
            == (CycleCharged(cycles + 1), Success(Proceed))
  {
    SmallPartsValid(0, cycles);
    assert MessageClasses(INPUT.messages) == [Public];
    assert [Public][1..] == [];
  }

  /** The task waits for confirmation of the call that the Provider asked for. */
  lemma AskingStep(w: World)
    requires w == START.(session := CycleCharged(1))
    ensures var (after, r) := ProviderStep(ASKING, w, INPUT);
            && after == w.(task := TaskWith(Tasks.WaitingForConfirmation, 1, 0),
                           requests := [RequestFor(ASKING, w.task, INPUT)])
            && r.Success? && r.value.StepToolCalls? && |r.value.calls| == 1
            && r.value.calls[0].invocation.toolId == "t" && r.value.calls[0].admission.NeedsConfirmation?
            && r.value.calls[0].admission.effectiveRisk == Medium
  {
    SmallPartsValid(0, 1);
    AnswerValid(1);
    hide ValidResponse, Compaction.RequestAccepted;
    var calls := Answer(1).toolCalls;
    assert calls == [ToolCall("c", "t", NO_OBJECT_MEMBERS)] && calls[1..] == [];
    var planned := PlanCalls(ASKING.registry, 0, 0, calls, INPUT.invocationIds, 0);
    assert PlanCalls(ASKING.registry, 0, 0, calls[1..], INPUT.invocationIds, 1) == Success([]);
    assert planned.Success? && |planned.value| == 1 && planned.value[0].admission.NeedsConfirmation?;
    assert AnyNeedsConfirmation(planned.value);
  }

  lemma AskingBatch(w: World, response: Response, calls: seq<PlannedCall>)
    requires w.session == CycleCharged(1) && |calls| == 1
    requires calls[0].invocation.toolId == "t" && calls[0].admission.NeedsConfirmation?
    requires calls[0].admission.effectiveRisk == Medium
    ensures AdvanceBatch(ASKING, w, response, calls, "m", 0).0
            == w.(session := w.session.(status := Paused, pauseReason := Some(ConfirmationRequired)))
  {
    SmallPartsValid(0, 1);
    hide ValidPolicy, RunBatch;
  }

  /** The first turn pauses for confirmation. */
  lemma FirstTurn()
    ensures Advance(ASKING, START, INPUT).0
            == World(CycleCharged(1).(status := Paused, pauseReason := Some(ConfirmationRequired)),
                     TaskWith(Tasks.WaitingForConfirmation, 1, 0), [RequestFor(ASKING, START.task, INPUT)], [])
  {
    hide EvaluateStep, ProviderStep, AdvanceBatch;
    CycleProceeds(0);
    var w := START.(session := CycleCharged(1));
    AskingStep(w);
    var (w2, r) := ProviderStep(ASKING, w, INPUT);
    AskingBatch(w2, r.value.response, r.value.calls);
  }

  /** A caller that resumes the session and leaves the task waiting makes the next turn call the Provider
      for nothing: both turns have called it, and the second answer, valid and in time, is thrown away. */
  lemma WastedCallHappens()
    ensures ValidSession(START.session) && Tasks.ValidTask(START.task) && Possible(CONFIRMATION_RUN)
    ensures var resumed := Run(START, CONFIRMATION_RUN[..2]);
            && resumed.session.status == Running && resumed.task.status == Tasks.WaitingForConfirmation
            && |resumed.requests| == 1 && |Run(START, CONFIRMATION_RUN).requests| == 2
            && Run(START, CONFIRMATION_RUN) == Advance(ASKING, resumed, INPUT).0
            && Advance(ASKING, resumed, INPUT).1 == Failure(TaskFailed(Tasks.TaskNotActive))
  {
    SmallPartsValid(0, 0);
    FirstTurn();
    var w1 := Advance(ASKING, START, INPUT).0;
    var w2 := w1.(session := CycleCharged(1));
    hide Advance;
    assert SupervisorRuns.Step(w1, SessionResume(BINDING, 0)) == w2;
    assert CONFIRMATION_RUN[..2] == [Turn(ASKING, INPUT), SessionResume(BINDING, 0)];
    assert CONFIRMATION_RUN[1..] == [SessionResume(BINDING, 0), Turn(ASKING, INPUT)];
    assert CONFIRMATION_RUN[1..][1..] == [Turn(ASKING, INPUT)];
    assert Run(START, CONFIRMATION_RUN[..2]) == w2 by {
      assert CONFIRMATION_RUN[..2][1..] == [SessionResume(BINDING, 0)];
      assert Run(w1, [SessionResume(BINDING, 0)]) == Run(w2, []);
    }
    assert Run(START, CONFIRMATION_RUN) == Run(w2, [Turn(ASKING, INPUT)]);
    assert Run(w2, [Turn(ASKING, INPUT)]) == Run(Advance(ASKING, w2, INPUT).0, []);
    SecondTurn(w2);
  }

  lemma SecondTurn(w: World)
    requires w.session == CycleCharged(1) && w.task == TaskWith(Tasks.WaitingForConfirmation, 1, 0)
    ensures Advance(ASKING, w, INPUT).0.requests == w.requests + [RequestFor(ASKING, w.task, INPUT)]
    ensures Advance(ASKING, w, INPUT).1 == Failure(TaskFailed(Tasks.TaskNotActive))
  {
    CycleProceeds(1);
    AnswerValid(1);
    SmallPartsValid(0, 2);
    hide EvaluateStep, AdvanceBatch, ValidResponse, Compaction.RequestAccepted, PlanCalls;
  }

  // ---- One identifier for two calls ----

  const REPEATING := OneTool(Safe, 2)

  lemma RepeatingPlan()
    ensures PlanCalls(REPEATING.registry, 0, 0, Answer(2).toolCalls, INPUT.invocationIds, 0) == Success(RepeatedCalls())
  {
    var calls, planned := Answer(2).toolCalls, RepeatedCalls();
    assert calls[1..] == [ToolCall("c", "t", NO_OBJECT_MEMBERS)] && calls[1..][1..] == [];
    assert PlanCalls(REPEATING.registry, 0, 0, calls[1..][1..], INPUT.invocationIds, 2) == Success([]);
    assert Admit(REPEATING.registry, planned[0].invocation) == Success(Ready(Safe))
           == Admit(REPEATING.registry, planned[1].invocation);
    assert planned[1..] == [planned[1]] == [planned[1]] + [] && planned == [planned[0]] + [planned[1]];
    assert PlanCalls(REPEATING.registry, 0, 0, calls[1..], INPUT.invocationIds, 1) == Success([planned[1]]);
  }

  lemma RepeatingStep(w: World)
    requires w == START.(session := CycleCharged(1))
    ensures var (after, r) := ProviderStep(REPEATING, w, INPUT);
            && after == w.(task := TaskWith(Tasks.Running, 1, 0), requests := [RequestFor(REPEATING, w.task, INPUT)])
            && r.Success? && r.value == StepToolCalls(Answer(2), RepeatedCalls())
  {
    SmallPartsValid(0, 1);
    AnswerValid(2);
    RepeatingPlan();
    hide ValidResponse, Compaction.RequestAccepted, PlanCalls, ValidPolicy, ValidSession, Tasks.ValidTask;
  }

  /** The two calls as planned: one identifier of the Provider's, two invocations. */
  function RepeatedCalls(): seq<PlannedCall> {
    [PlannedCall("c", Invocation(0, 0, 0, "t", NO_OBJECT_MEMBERS), Ready(Safe)),
     PlannedCall("c", Invocation(1, 0, 0, "t", NO_OBJECT_MEMBERS), Ready(Safe))]
  }

  function ToolsCharged(toolCalls: nat): Session {
    SessionWith(Running, None, NO_USAGE.(cycles := 1, toolCalls := toolCalls))
  }

  lemma CallProceeds(i: nat)
    requires i < 2
    ensures var request := ExecutionRequest(ToolsCharged(i), RepeatedCalls()[i]);
            EvaluateStep(ToolsCharged(i), request, None, Some("b"), Some("m"), 0)
            == (ToolsCharged(i + 1), Success(Proceed))
  {
    SmallPartsValid(0, 1);
    hide ValidPolicy;
  }

  lemma CallDispatched(w: World, i: nat)
    requires i < 2 && w.task == TaskWith(Tasks.Running, 1, i)
    ensures ToolStep(REPEATING, w, RepeatedCalls()[i].invocation, None, 0)
            == (w.(task := TaskWith(Tasks.Running, 1, i + 1), trace := w.trace + [RepeatedCalls()[i].invocation]),
                Success(ToolCompleted(NO_OBJECT_MEMBERS)))
  {
  }

  lemma CallRecorded(results: map<string, Json>)
    ensures Recorded(Answer(2).toolCalls, results, Record("c", "t", NO_OBJECT_MEMBERS))
            == if "c" in results then None else Some(results["c" := NO_OBJECT_MEMBERS])
  {
    var calls := Answer(2).toolCalls;
    assert calls[0] == ToolCall("c", "t", NO_OBJECT_MEMBERS);
    assert FindCall(calls, "c") == Some(calls[0]);
  }

  lemma RepeatingCall(w: World, results: map<string, Json>, i: nat)
    requires i < 2 && w.session == ToolsCharged(i) && w.task == TaskWith(Tasks.Running, 1, i)
    ensures var (after, r) := RunOne(REPEATING, w, Answer(2), results, RepeatedCalls()[i], "b", "m", 0);
            && after.session == ToolsCharged(i + 1)
            && after.task == TaskWith(Tasks.Running, 1, i + 1) && after.requests == w.requests
            && after.trace == w.trace + [RepeatedCalls()[i].invocation]
            && r == if "c" in results then Failure(TurnFailed(ToolResultCorrelationMismatch))
                    else Success((None, results["c" := NO_OBJECT_MEMBERS]))
  {
    CallProceeds(i);
    CallDispatched(w.(session := ToolsCharged(i + 1)), i);
    CallRecorded(results);
    hide EvaluateStep, ToolStep, Recorded, ExecutionRequest, MaxClassification, SessionWith, TaskWith, Answer;
  }

  lemma RepeatingBatch(w: World)
    requires w.session == CycleCharged(1) && w.task == TaskWith(Tasks.Running, 1, 0) && w.trace == []
    ensures var (after, r) := AdvanceBatch(REPEATING, w, Answer(2), RepeatedCalls(), "m", 0);
            after.trace == Invocations(RepeatedCalls()) && r == Failure(TurnFailed(ToolResultCorrelationMismatch))
  {
    var calls := RepeatedCalls();
    RepeatingPreflight();
    hide RunOne, PreflightAll;
    RepeatingCall(w, map[], 0);
    var (w1, r1) := RunOne(REPEATING, w, Answer(2), map[], calls[0], "b", "m", 0);
    RepeatingCall(w1, r1.value.1, 1);
    assert calls[1..] == [calls[1]];
    assert RunBatch(REPEATING, w1, Answer(2), r1.value.1, [calls[1]], "b", "m", 0).1
           == Failure(TurnFailed(ToolResultCorrelationMismatch));
  }

  lemma RepeatingPreflight()
    ensures PreflightAll(REPEATING, CycleCharged(1), RepeatedCalls(), "b", "m", 0) == Clear
  {
    SmallPartsValid(0, 1);
    hide ValidPolicy;
    var calls := RepeatedCalls();
    assert calls[1..] == [calls[1]] && calls[1..][1..] == [];
    assert MaxClassification([]) == Public;
    assert PreflightOne(REPEATING, CycleCharged(1), calls[0], "b", "m", 0) == Clear;
    assert PreflightOne(REPEATING, CycleCharged(1), calls[1], "b", "m", 0) == Clear;
    assert PreflightAll(REPEATING, CycleCharged(1), calls[1..][1..], "b", "m", 0) == Clear;
    assert PreflightAll(REPEATING, CycleCharged(1), calls[1..], "b", "m", 0) == Clear;
  }

  lemma RepeatingAnswer()
    ensures ValidSession(START.session) && Tasks.ValidTask(START.task) && Registered(REPEATING)
    ensures ValidResponse(INPUT.requestId, {"t"}, INPUT.maxOutputTokens, Answer(2)) && !DistinctIds(Answer(2).toolCalls)
  {
    SmallPartsValid(0, 0);
    AnswerValid(2);
    hide ValidPolicy, ValidSession, Tasks.ValidTask, ValidResponse;
    assert Compaction.ToolIds(["t"]).value == {"t"};
    assert Answer(2).toolCalls[0].id == Answer(2).toolCalls[1].id;
  }

  /** A valid answer with two calls of one identifier: both reach the backend, and then the turn fails. */
  lemma DuplicateCallsAreDispatched()
    ensures ValidSession(START.session) && Tasks.ValidTask(START.task) && Registered(REPEATING)
    ensures ValidResponse(INPUT.requestId, {"t"}, INPUT.maxOutputTokens, Answer(2)) && !DistinctIds(Answer(2).toolCalls)
    ensures var (w, r) := Advance(REPEATING, START, INPUT);
            |w.trace| == 2 && w.trace == Invocations(RepeatedCalls())
            && r == Failure(TurnFailed(ToolResultCorrelationMismatch))
  {
    RepeatingAnswer();
    CycleProceeds(0);
    var w1 := START.(session := CycleCharged(1));
    RepeatingStep(w1);
    hide EvaluateStep, ProviderStep, AdvanceBatch, ValidResponse, ValidSession, Tasks.ValidTask, Registered;
    hide DistinctIds;
    RepeatingBatch(ProviderStep(REPEATING, w1, INPUT).0);
  }
}
