/** Automations: a validated list of actions run against one event, with bounded retries and, on
    failure, compensation of what succeeded. */
module Automation {
  import opened Wrappers
  import opened Text
  import opened Provider
  import AutoMode

  const AUTOMATION_SPEC := "nimora.automation/1"
  const MAX_AUTOMATION_ACTIONS := 64
  const MAX_AUTOMATION_CONDITIONS := 32
  const MAX_AUTOMATION_TIMEOUT_MS := 300_000
  const MAX_AUTOMATION_CONCURRENT_RUNS := 16
  const MAX_AUTOMATION_COOLDOWN_MS := 24 * 60 * 60 * 1000
  const MAX_AUTOMATION_DAILY_COST_MICROUNITS := 1_000_000_000_000
  const MAX_ACTION_ATTEMPTS := 3
  const MAX_JSON_POINTER_BYTES := 256
  const NANOS_PER_MILLI := 1_000_000

  datatype Compensation = Compensation(command: string, arguments: Json, risk: AutoMode.Risk)

  datatype Action = Action(
    id: string, command: string, arguments: Json, risk: AutoMode.Risk, retrySafe: bool, idempotencyKey: Option<string>,
    compensation: Option<Compensation>)

  datatype FailurePolicy = StopRun | CompensateRun

  datatype Policy = Policy(
    timeoutMs: nat, failure: FailurePolicy, maxConcurrentRuns: nat, cooldownMs: nat, dailyCostBudgetMicrounits: nat)

  datatype Condition = Condition(pointer: string, equals: Json)

  datatype Definition = Definition(
    spec: string, id: string, version: string, name: string, enabled: bool, eventType: string,
    conditions: seq<Condition>, actions: seq<Action>, policy: Policy)

  /** An event; `at` looks up a JSON pointer in its data. */
  datatype Event = Event(id: string, traceId: nat, eventType: string, at: string -> Option<Json>)

  datatype Mode = Live | DryRun

  datatype RunStatus =
    TriggerNotMatched | ConditionNotMatched | Planned | Succeeded | Failed | CompensationFailed | Cancelled | TimedOut

  datatype StepStatus = StepPending | StepRunning | StepSucceeded | StepFailed

  datatype Step = Step(actionId: string, command: string, status: StepStatus, attempts: nat, compensated: bool,
                       error: Option<string>)

  datatype Run = Run(runId: nat, automationId: string, traceId: nat, eventId: string, mode: Mode, status: RunStatus,
                     steps: seq<Step>)

  datatype AutomationError = InvalidDefinition | InvalidCondition | InvalidAction

  datatype ActionFailure = ActionFailure(message: string, transient: bool)

  datatype Context = Context(runId: nat, automationId: string, actionId: string, eventId: string, traceId: nat)

  datatype Command = Command(commandId: string, traceId: nat, arguments: Json, risk: AutoMode.Risk,
                             idempotencyKey: Option<string>)

  datatype Call = Call(context: Context, command: Command)

  /** A backend's answer to a call, depending on every call before it; `None` is success. */
  type Answers = (seq<Call>, Call) -> Option<ActionFailure>

  // ---- Validation ----

  predicate ValidSegment(s: string) {
    s != "" && forall i :: 0 <= i < |s| ==> 'a' <= s[i] <= 'z' || '0' <= s[i] <= '9' || s[i] == '-'
  }

  /** A command identifier, and equally an event type: at least three dotted segments. */
  predicate ValidDottedId(s: string) {
    |Split(s, '.')| >= 3 && forall part :: part in Split(s, '.') ==> ValidSegment(part)
  }

  predicate ValidVersion(version: string) {
    && |Split(version, '.')| == 3
    && forall part :: part in Split(version, '.') ==>
         part != "" && (part == "0" || part[0] != '0') && forall i :: 0 <= i < |part| ==> '0' <= part[i] <= '9'
  }

  predicate BadEscape(part: string) {
    || (exists i :: 0 <= i < |part| - 1 && part[i] == '~' && part[i + 1] !in {'0', '1'})
    || (part != "" && part[|part| - 1] == '~')
  }

  predicate ValidPointer(pointer: string) {
    && Bytes(pointer) <= MAX_JSON_POINTER_BYTES
    && (pointer == ""
        || (&& pointer[0] == '/'
            && (forall i :: 0 <= i < |pointer| ==> !Control(pointer[i]))
            && forall part :: part in Split(pointer, '/')[1..] ==> !BadEscape(part)))
  }

  predicate ValidHeader(d: Definition) {
    && d.spec == AUTOMATION_SPEC
    && Bytes(d.id) <= 128 && ValidDottedId(d.id)
    && ValidVersion(d.version)
    && !Blank(d.name) && Bytes(d.name) <= 128
    && 0 < |d.actions| <= MAX_AUTOMATION_ACTIONS && |d.conditions| <= MAX_AUTOMATION_CONDITIONS
    && 0 < d.policy.timeoutMs <= MAX_AUTOMATION_TIMEOUT_MS
    && 0 < d.policy.maxConcurrentRuns <= MAX_AUTOMATION_CONCURRENT_RUNS
    && d.policy.cooldownMs <= MAX_AUTOMATION_COOLDOWN_MS
    && d.policy.dailyCostBudgetMicrounits <= MAX_AUTOMATION_DAILY_COST_MICROUNITS
    && ValidDottedId(d.eventType)
  }

  predicate ValidAction(a: Action) {
    && Bytes(a.id) <= 64 && ValidSegment(a.id)
    && ValidDottedId(a.command) && a.arguments.isObject
    && (a.idempotencyKey.Some? ==>
          && a.idempotencyKey.value != "" && Bytes(a.idempotencyKey.value) <= 128
          && forall i :: 0 <= i < |a.idempotencyKey.value| ==> !Control(a.idempotencyKey.value[i]))
    && (a.retrySafe ==> a.idempotencyKey.Some?)
    && (a.compensation.Some? ==> ValidDottedId(a.compensation.value.command) && a.compensation.value.arguments.isObject)
  }

  predicate DistinctActions(actions: seq<Action>) {
    forall i, j :: 0 <= i < j < |actions| ==> actions[i].id != actions[j].id
  }

  function Validation(d: Definition): Result<(), AutomationError> {
    if !ValidHeader(d) then Failure(InvalidDefinition)
    else if exists i :: 0 <= i < |d.conditions| && !ValidPointer(d.conditions[i].pointer) then Failure(InvalidCondition)
    else if (exists i :: 0 <= i < |d.actions| && !ValidAction(d.actions[i])) || !DistinctActions(d.actions)
    then Failure(InvalidAction)
    else Success(())
  }

  method Validate(d: Definition) returns (r: Result<(), AutomationError>)
    ensures r == Validation(d)
  {
    hide ValidHeader, ValidPointer, ValidAction;
    if !ValidHeader(d) { return Failure(InvalidDefinition); }
    var actionIds: set<string> := {};
    for i := 0 to |d.conditions|
      invariant forall k :: 0 <= k < i ==> ValidPointer(d.conditions[k].pointer)
    {
      if !ValidPointer(d.conditions[i].pointer) { return Failure(InvalidCondition); }
    }
    for i := 0 to |d.actions|
      invariant forall id :: id in actionIds <==> exists k :: 0 <= k < i && d.actions[k].id == id
      invariant forall k :: 0 <= k < i ==> ValidAction(d.actions[k])
      invariant DistinctActions(d.actions[..i])
    {
      var action := d.actions[i];
      if action.id in actionIds { return Failure(InvalidAction); }
      actionIds := actionIds + {action.id};
      if !ValidAction(action) { return Failure(InvalidAction); }
    }
    assert d.actions[..|d.actions|] == d.actions;
    return Success(());
  }

  // ---- What is accepted ----

  predicate SegmentShape(s: string) {
    s != "" && forall c :: c in s ==> 'a' <= c <= 'z' || '0' <= c <= '9' || c == '-'
  }

  predicate Numeral(s: string) {
    s != "" && (forall c :: c in s ==> '0' <= c <= '9') && (|s| > 1 ==> s[0] != '0')
  }

  /** Every tilde is followed by a zero or a one. */
  predicate WellEscaped(s: string) {
    forall i :: 0 <= i < |s| && s[i] == '~' ==> i + 1 < |s| && s[i + 1] in {'0', '1'}
  }

  lemma SegmentIff(s: string)
    ensures ValidSegment(s) <==> SegmentShape(s)
  {
    if SegmentShape(s) {
      forall i | 0 <= i < |s| ensures 'a' <= s[i] <= 'z' || '0' <= s[i] <= '9' || s[i] == '-' { assert s[i] in s; }
    }
  }

  /** Command identifiers and event types are three or more segments with dots between them. */
  lemma DottedIdIff(s: string)
    ensures ValidDottedId(s) <==>
              exists parts :: |parts| >= 3 && s == Joined(parts, '.')
                              && forall i :: 0 <= i < |parts| ==> SegmentShape(parts[i])
  {
    SplitJoined(s, '.');
    forall part: string ensures ValidSegment(part) <==> SegmentShape(part) { SegmentIff(part); }
    hide ValidSegment;
    if ValidDottedId(s) {
      var parts := Split(s, '.');
      forall i | 0 <= i < |parts| ensures SegmentShape(parts[i]) { assert parts[i] in parts; }
    }
    forall parts: seq<string> | |parts| >= 3 && s == Joined(parts, '.')
                                && forall i :: 0 <= i < |parts| ==> SegmentShape(parts[i])
      ensures ValidDottedId(s)
    {
      forall i | 0 <= i < |parts| ensures '.' !in parts[i] { assert SegmentShape(parts[i]); }
      JoinedSplit(parts, '.');
    }
  }

  predicate VersionPart(part: string) {
    part != "" && (part == "0" || part[0] != '0') && forall i :: 0 <= i < |part| ==> '0' <= part[i] <= '9'
  }

  lemma VersionPartIff(part: string)
    ensures VersionPart(part) <==> Numeral(part)
    ensures Numeral(part) ==> '.' !in part
  {
    if Numeral(part) {
      forall i | 0 <= i < |part| ensures '0' <= part[i] <= '9' { assert part[i] in part; }
      if part[0] == '0' { assert part == "0"; }
    }
  }

  /** Versions are three numerals without leading zeros. */
  lemma VersionIff(s: string)
    ensures ValidVersion(s) <==>
              exists major, minor, patch :: s == Joined([major, minor, patch], '.')
                                            && Numeral(major) && Numeral(minor) && Numeral(patch)
  {
    SplitJoined(s, '.');
    var parts := Split(s, '.');
    forall part: string ensures VersionPart(part) <==> Numeral(part) { VersionPartIff(part); }
    if ValidVersion(s) {
      assert parts == [parts[0], parts[1], parts[2]];
      assert VersionPart(parts[0]) && VersionPart(parts[1]) && VersionPart(parts[2]);
      assert s == Joined([parts[0], parts[1], parts[2]], '.');
    }
    forall major, minor, patch | s == Joined([major, minor, patch], '.')
                                 && Numeral(major) && Numeral(minor) && Numeral(patch)
      ensures ValidVersion(s)
    {
      VersionPartIff(major);
      VersionPartIff(minor);
      VersionPartIff(patch);
      JoinedSplit([major, minor, patch], '.');
      forall part | part in Split(s, '.') ensures VersionPart(part) {}
    }
  }

  /** Pointers are empty or a slash before each of their parts, in which every tilde is an escape. */
  lemma PointerIff(pointer: string)
    ensures ValidPointer(pointer) <==>
              && Bytes(pointer) <= 256
              && (pointer == ""
                  || (&& (forall c :: c in pointer ==> !Control(c))
                      && exists parts :: parts != [] && pointer == "/" + Joined(parts, '/')
                                         && forall i :: 0 <= i < |parts| ==> '/' !in parts[i] && WellEscaped(parts[i])))
  {
    hide Control, Bytes;
    forall part: string ensures WellEscaped(part) <==> !BadEscape(part) { EscapeIff(part); }
    hide WellEscaped, BadEscape;
    if pointer != "" && pointer[0] == '/' {
      var rest := Split(pointer[1..], '/');
      SplitJoined(pointer[1..], '/');
      assert pointer == "/" + pointer[1..] && Split(pointer, '/')[1..] == rest;
      if ValidPointer(pointer) {
        forall i | 0 <= i < |rest| ensures WellEscaped(rest[i]) { assert rest[i] in rest; }
      }
      forall parts: seq<string> | parts != [] && pointer == "/" + Joined(parts, '/')
                                  && forall i :: 0 <= i < |parts| ==> '/' !in parts[i] && WellEscaped(parts[i])
        ensures forall part :: part in rest ==> !BadEscape(part)
      {
        JoinedSplit(parts, '/');
        assert pointer[1..] == Joined(parts, '/');
      }
    }
    if forall c :: c in pointer ==> !Control(c) {
      forall i | 0 <= i < |pointer| ensures !Control(pointer[i]) { assert pointer[i] in pointer; }
    }
  }

  lemma EscapeIff(part: string)
    ensures WellEscaped(part) <==> !BadEscape(part)
  {
    if !WellEscaped(part) {
      var i :| 0 <= i < |part| && part[i] == '~' && !(i + 1 < |part| && part[i + 1] in {'0', '1'});
      assert i == |part| - 1 || (0 <= i < |part| - 1 && part[i + 1] !in {'0', '1'});
    }
    if BadEscape(part) && part[|part| - 1] != '~' {
      var i :| 0 <= i < |part| - 1 && part[i] == '~' && part[i + 1] !in {'0', '1'};
    }
  }

  /** Exactly the automations that are accepted. */
  lemma ValidationIff(d: Definition)
    ensures Validation(d).Success? <==>
              && d.spec == "nimora.automation/1" && Bytes(d.id) <= 128 && ValidDottedId(d.id)
              && ValidVersion(d.version) && !Blank(d.name) && Bytes(d.name) <= 128
              && 1 <= |d.actions| <= 64 && |d.conditions| <= 32
              && 1 <= d.policy.timeoutMs <= 300_000 && 1 <= d.policy.maxConcurrentRuns <= 16
              && d.policy.cooldownMs <= 86_400_000 && d.policy.dailyCostBudgetMicrounits <= 1_000_000_000_000
              && ValidDottedId(d.eventType)
              && (forall c :: c in d.conditions ==> ValidPointer(c.pointer))
              && (forall a :: a in d.actions ==> ActionShape(a))
              && forall i, j :: 0 <= i < j < |d.actions| ==> d.actions[i].id != d.actions[j].id
  {
    hide ValidDottedId, ValidVersion, ValidPointer, Blank, Bytes;
    forall a: Action ensures ValidAction(a) <==> ActionShape(a) { ActionIff(a); }
    hide ValidAction, ActionShape;
    if forall c :: c in d.conditions ==> ValidPointer(c.pointer) {
      forall i | 0 <= i < |d.conditions| ensures ValidPointer(d.conditions[i].pointer) {
        assert d.conditions[i] in d.conditions;
      }
    }
    if forall a :: a in d.actions ==> ActionShape(a) {
      forall i | 0 <= i < |d.actions| ensures ValidAction(d.actions[i]) { assert d.actions[i] in d.actions; }
    }
  }

  /** Actions whose commands and arguments can be built, and which say how they are recognized if they are
      to be repeated. */
  predicate ActionShape(a: Action) {
    && Bytes(a.id) <= 64 && SegmentShape(a.id) && ValidDottedId(a.command) && a.arguments.isObject
    && (a.retrySafe ==> a.idempotencyKey.Some?)
    && (a.idempotencyKey.Some? ==>
          && 1 <= |a.idempotencyKey.value| && Bytes(a.idempotencyKey.value) <= 128
          && forall c :: c in a.idempotencyKey.value ==> !Control(c))
    && (a.compensation.Some? ==> a.compensation.value.arguments.isObject && ValidDottedId(a.compensation.value.command))
  }

  lemma ActionIff(a: Action)
    ensures ValidAction(a) <==> ActionShape(a)
  {
    hide ValidDottedId, Bytes, Control;
    SegmentIff(a.id);
    hide ValidSegment, SegmentShape;
    if a.idempotencyKey.Some? && forall c :: c in a.idempotencyKey.value ==> !Control(c) {
      forall i | 0 <= i < |a.idempotencyKey.value| ensures !Control(a.idempotencyKey.value[i]) {
        assert a.idempotencyKey.value[i] in a.idempotencyKey.value;
      }
    }
  }

  // ---- One action ----

  function ContextFor(d: Definition, e: Event, runId: nat, a: Action): Context {
    Context(runId, d.id, a.id, e.id, e.traceId)
  }

  function ActionCall(d: Definition, e: Event, runId: nat, a: Action): Call {
    Call(ContextFor(d, e, runId, a), Command(a.command, e.traceId, a.arguments, a.risk, a.idempotencyKey))
  }

  function UndoCall(d: Definition, e: Event, runId: nat, a: Action): Call
    requires a.compensation.Some?
  {
    var c := a.compensation.value;
    Call(ContextFor(d, e, runId, a), Command(c.command, e.traceId, c.arguments, c.risk, None))
  }

  function AttemptLimit(a: Action): (n: nat)
    ensures n >= 1
  {
    if a.retrySafe then MAX_ACTION_ATTEMPTS else 1
  }

  datatype Tried = Tried(trace: seq<Call>, step: Step, succeeded: bool)

  function TryFrom(answers: Answers, trace: seq<Call>, call: Call, step: Step, attempt: nat, limit: nat): Tried
    requires attempt <= limit
    decreases limit - attempt
  {
    var now := step.(attempts := attempt);
    match answers(trace, call)
    case None => Tried(trace + [call], now.(status := StepSucceeded), true)
    case Some(f) =>
      var failed := now.(error := Some(f.message));
      if f.transient && attempt < limit then TryFrom(answers, trace + [call], call, failed, attempt + 1, limit)
      else Tried(trace + [call], failed, false)
  }

  function NewStep(a: Action): Step { Step(a.id, a.command, StepRunning, 0, false, None) }

  /** `execute_action`; validation has already parsed the command it builds. */
  function TryAction(answers: Answers, trace: seq<Call>, d: Definition, e: Event, runId: nat, a: Action): Tried {
    TryFrom(answers, trace, ActionCall(d, e, runId, a), NewStep(a), 1, AttemptLimit(a))
  }

  // ---- Compensation ----

  datatype Undone = Undone(trace: seq<Call>, steps: seq<Step>, complete: bool)

  /** Compensation of the first `k` steps, the latest first. */
  function Undo(answers: Answers, trace: seq<Call>, d: Definition, e: Event, runId: nat, steps: seq<Step>, k: nat,
                complete: bool): Undone
    requires k <= |steps| <= |d.actions|
    decreases k
  {
    if k == 0 then Undone(trace, steps, complete) else
    var a, i := d.actions[k - 1], k - 1;
    if steps[i].status != StepSucceeded || a.compensation.None?
    then Undo(answers, trace, d, e, runId, steps, i, complete)
    else if !ValidDottedId(a.compensation.value.command) then Undo(answers, trace, d, e, runId, steps, i, false)
    else
      var call := UndoCall(d, e, runId, a);
      match answers(trace, call)
      case None => Undo(answers, trace + [call], d, e, runId, steps[i := steps[i].(compensated := true)], i, complete)
      case Some(f) => Undo(answers, trace + [call], d, e, runId, steps[i := steps[i].(error := Some(f.message))], i,
                           false)
  }

  // ---- The run ----

  /** What the run's control reports at its `n`th poll. */
  datatype Clock = Clock(cancelled: nat -> bool, elapsedNanos: nat -> nat)

  function InterruptedStatus(d: Definition, clock: Clock, poll: nat): Option<RunStatus> {
    if clock.cancelled(poll) then Some(Cancelled)
    else if clock.elapsedNanos(poll) >= d.policy.timeoutMs * NANOS_PER_MILLI then Some(TimedOut)
    else None
  }

  function PlannedStep(a: Action): Step { Step(a.id, a.command, StepPending, 0, false, None) }

  function PlannedSteps(actions: seq<Action>): seq<Step> {
    seq(|actions|, i requires 0 <= i < |actions| => PlannedStep(actions[i]))
  }

  /** The actions from the `i`th on, after `i` successful steps. */
  function RunFrom(answers: Answers, clock: Clock, trace: seq<Call>, d: Definition, e: Event, run: Run,
                   i: nat): (seq<Call>, Run)
    requires i <= |d.actions| && |run.steps| == i
    decreases |d.actions| - i
  {
    if i == |d.actions| then (trace, run.(status := Succeeded)) else
    var interrupted := InterruptedStatus(d, clock, i);
    if interrupted.Some? then (trace, run.(status := interrupted.value)) else
    var tried := TryAction(answers, trace, d, e, run.runId, d.actions[i]);
    if tried.succeeded then RunFrom(answers, clock, tried.trace, d, e, run.(steps := run.steps + [tried.step]), i + 1)
    else
      var failed := run.(steps := run.steps + [tried.step.(status := StepFailed)], status := Failed);
      if d.policy.failure == CompensateRun then
        var undone := Undo(answers, tried.trace, d, e, run.runId, failed.steps, |failed.steps|, true);
        (undone.trace, failed.(steps := undone.steps, status := if undone.complete then Failed else CompensationFailed))
      else (tried.trace, failed)
  }

  function NewRun(runId: nat, d: Definition, e: Event, mode: Mode): Run {
    Run(runId, d.id, e.traceId, e.id, mode, TriggerNotMatched, [])
  }

  predicate ConditionsMet(d: Definition, e: Event) {
    forall i :: 0 <= i < |d.conditions| ==> e.at(d.conditions[i].pointer) == Some(d.conditions[i].equals)
  }

  /** `run_with_id`. */
  function RunWith(answers: Answers, clock: Clock, trace: seq<Call>, runId: nat, d: Definition, e: Event, mode: Mode)
    : (seq<Call>, Result<Run, AutomationError>)
  {
    var valid := Validation(d);
    if valid.Failure? then (trace, Failure(valid.error)) else
    var run := NewRun(runId, d, e, mode);
    if !d.enabled || d.eventType != e.eventType then (trace, Success(run))
    else if !ConditionsMet(d, e) then (trace, Success(run.(status := ConditionNotMatched)))
    else if mode == DryRun then (trace, Success(run.(status := Planned, steps := PlannedSteps(d.actions))))
    else
      var (after, finished) := RunFrom(answers, clock, trace, d, e, run, 0);
      (after, Success(finished))
  }
}
