/** The automation engine on its backend and control, proved to run as the functions say. */
module AutomationEngine {
  import opened Wrappers
  import opened Automation
  import opened AutomationSaga

  /** The host's backend with every call made so far. */
  class AutomationBackend {
    const answers: Answers
    var trace: seq<Call>

    constructor (answers: Answers)
      ensures this.answers == answers && trace == []
    {
      this.answers, trace := answers, [];
    }

    method Execute(call: Call) returns (r: Option<ActionFailure>)
      modifies this
      ensures r == answers(old(trace), call) && trace == old(trace) + [call]
    {
      r := answers(trace, call);
      trace := trace + [call];
    }
  }

  /** Cancellation and elapsed time, polled before each action. */
  class RunControl {
    const clock: Clock
    var polls: nat

    constructor (clock: Clock)
      ensures this.clock == clock && polls == 0
    {
      this.clock, polls := clock, 0;
    }

    method Interrupted(d: Definition) returns (r: Option<RunStatus>)
      modifies this
      ensures r == InterruptedStatus(d, clock, old(polls)) && polls == old(polls) + 1
    {
      r := InterruptedStatus(d, clock, polls);
      polls := polls + 1;
    }
  }

  method ExecuteAction(backend: AutomationBackend, d: Definition, e: Event, runId: nat, a: Action)
    returns (step: Step, succeeded: bool)
    modifies backend
    ensures Tried(backend.trace, step, succeeded) == TryAction(backend.answers, old(backend.trace), d, e, runId, a)
    ensures backend.trace == old(backend.trace) + Repeated(ActionCall(d, e, runId, a), step.attempts)
    ensures Attempted(backend.answers, old(backend.trace), ActionCall(d, e, runId, a), a.retrySafe, step, succeeded)
  {
    ActionAttempts(backend.answers, backend.trace, d, e, runId, a);
    hide ActionCall, Attempted, Repeated;
    var limit := AttemptLimit(a);
    step := NewStep(a);
    ghost var call := ActionCall(d, e, runId, a);
    for attempt := 1 to limit + 1
      invariant attempt <= limit ==>
                  TryAction(backend.answers, old(backend.trace), d, e, runId, a)
                  == TryFrom(backend.answers, backend.trace, call, step, attempt, limit)
      invariant attempt == limit + 1 ==>
                  TryAction(backend.answers, old(backend.trace), d, e, runId, a) == Tried(backend.trace, step, false)
    {
      step := step.(attempts := attempt);
      var failure := backend.Execute(ActionCall(d, e, runId, a));
      if failure.None? {
        step := step.(status := StepSucceeded);
        return step, true;
      }
      step := step.(error := Some(failure.value.message));
      if !failure.value.transient { return step, false; }
    }
    return step, false;
  }

  method Compensate(backend: AutomationBackend, d: Definition, e: Event, runId: nat,
                    before: seq<Step>) returns (steps: seq<Step>, complete: bool)
    requires |before| <= |d.actions|
    modifies backend
    ensures Undone(backend.trace, steps, complete) == Undo(backend.answers, old(backend.trace), d, e, runId, before,
                                                           |before|, true)
  {
    hide UndoCall, ValidDottedId;
    complete := true;
    steps := before;
    for i := |before| downto 0
      invariant |steps| == |before|
      invariant Undo(backend.answers, old(backend.trace), d, e, runId, before, |before|, true)
                == Undo(backend.answers, backend.trace, d, e, runId, steps, i, complete)
    {
      if steps[i].status != StepSucceeded { continue; }
      var compensation := d.actions[i].compensation;
      if compensation.None? { continue; }
      if !ValidDottedId(compensation.value.command) {
        complete := false;
        continue;
      }
      var failure := backend.Execute(UndoCall(d, e, runId, d.actions[i]));
      if failure.None? {
        steps := steps[i := steps[i].(compensated := true)];
      } else {
        complete := false;
        steps := steps[i := steps[i].(error := Some(failure.value.message))];
      }
    }
  }

  method RunActions(backend: AutomationBackend, control: RunControl, d: Definition, e: Event,
                    admitted: Run) returns (run: Run)
    requires admitted.steps == [] && control.polls == 0
    modifies backend, control
    ensures (backend.trace, run) == RunFrom(backend.answers, control.clock, old(backend.trace), d, e, admitted, 0)
  {
    hide TryAction, Undo, InterruptedStatus;
    run := admitted;
    for i := 0 to |d.actions|
      invariant |run.steps| == i == control.polls && run.runId == admitted.runId
      invariant RunFrom(backend.answers, control.clock, old(backend.trace), d, e, admitted, 0)
                == RunFrom(backend.answers, control.clock, backend.trace, d, e, run, i)
    {
      var interrupted := control.Interrupted(d);
      if interrupted.Some? { return run.(status := interrupted.value); }
      var step, succeeded := ExecuteAction(backend, d, e, run.runId, d.actions[i]);
      if !succeeded {
        run := run.(steps := run.steps + [step.(status := StepFailed)], status := Failed);
        if d.policy.failure == CompensateRun {
          var steps, complete := Compensate(backend, d, e, run.runId, run.steps);
          run := run.(steps := steps, status := if complete then Failed else CompensationFailed);
        }
        return run;
      }
      run := run.(steps := run.steps + [step]);
    }
    return run.(status := Succeeded);
  }

  method RunWithId(backend: AutomationBackend, control: RunControl, runId: nat, d: Definition, e: Event, mode: Mode)
    returns (r: Result<Run, AutomationError>)
    requires control.polls == 0
    modifies backend, control
    ensures (backend.trace, r) == RunWith(backend.answers, control.clock, old(backend.trace), runId, d, e, mode)
  {
    hide RunFrom, Validation;
    var _ :- Validate(d);
    var run := NewRun(runId, d, e, mode);
    if !d.enabled || d.eventType != e.eventType { return Success(run); }
    for i := 0 to |d.conditions|
      invariant forall k :: 0 <= k < i ==> e.at(d.conditions[k].pointer) == Some(d.conditions[k].equals)
    {
      if e.at(d.conditions[i].pointer) != Some(d.conditions[i].equals) {
        return Success(run.(status := ConditionNotMatched));
      }
    }
    if mode == DryRun {
      return Success(run.(status := Planned, steps := PlannedSteps(d.actions)));
    }
    run := RunActions(backend, control, d, e, run);
    return Success(run);
  }
}
