/** What an automation run leaves in its backend: the saga trace. */
module AutomationSaga {
  import opened Wrappers
  import opened Automation

  // ---- The expected trace ----

  function Repeated(call: Call, n: nat): seq<Call> { seq(n, _ => call) }

  /** The attempts of the first `n` actions, in order. */
  function Forward(d: Definition, e: Event, runId: nat, steps: seq<Step>, n: nat): seq<Call>
    requires n <= |steps| <= |d.actions|
  {
    if n == 0 then []
    else Forward(d, e, runId, steps, n - 1) + Repeated(ActionCall(d, e, runId, d.actions[n - 1]), steps[n - 1].attempts)
  }

  /** The compensations of the actions below `k` and not below `low`, in reverse order. */
  function Backward(d: Definition, e: Event, runId: nat, k: nat, low: nat): seq<Call>
    requires k <= |d.actions|
  {
    if k <= low then [] else
    var undo := if d.actions[k - 1].compensation.Some? then [UndoCall(d, e, runId, d.actions[k - 1])] else [];
    undo + Backward(d, e, runId, k - 1, low)
  }

  // ---- Attempts ----

  /** The answer to the `j`th attempt, counted from zero, when the attempts start behind `before`. */
  function AnswerTo(answers: Answers, before: seq<Call>, call: Call, j: nat): Option<ActionFailure> {
    answers(before + Repeated(call, j), call)
  }

  /** An action that is not safe to retry is attempted once, any other up to three times. Every attempt but
      the last failed transiently and the last one decided; a failure that could have been retried was. */
  ghost predicate Attempted(answers: Answers, before: seq<Call>, call: Call, retrySafe: bool, step: Step,
                            succeeded: bool) {
    var n := step.attempts;
    && (!retrySafe ==> n == 1)
    && (retrySafe ==> 1 <= n <= 3)
    && (forall j :: 0 <= j < n - 1 ==>
             AnswerTo(answers, before, call, j).Some? && AnswerTo(answers, before, call, j).value.transient)
    && (succeeded <==> AnswerTo(answers, before, call, n - 1).None?)
    && (!succeeded ==> step.error == Some(AnswerTo(answers, before, call, n - 1).value.message))
    && (!succeeded && AnswerTo(answers, before, call, n - 1).value.transient && retrySafe ==> n == 3)
    && (succeeded && n > 1 ==> step.error == Some(AnswerTo(answers, before, call, n - 2).value.message))
    && (succeeded && n == 1 ==> step.error == None)
  }

  lemma RepeatedNext(call: Call, n: nat)
    ensures Repeated(call, n) + [call] == Repeated(call, n + 1)
  {
  }

  lemma {:induction false} TryFromMeaning(answers: Answers, before: seq<Call>, call: Call, step: Step, attempt: nat,
                                          limit: nat, retrySafe: bool)
    requires 1 <= attempt <= limit && limit == if retrySafe then 3 else 1
    requires forall j :: 0 <= j < attempt - 1 ==>
               AnswerTo(answers, before, call, j).Some? && AnswerTo(answers, before, call, j).value.transient
    requires step.error == if attempt == 1 then None
                           else Some(AnswerTo(answers, before, call, attempt - 2).value.message)
    ensures var t := TryFrom(answers, before + Repeated(call, attempt - 1), call, step, attempt, limit);
            && t.trace == before + Repeated(call, t.step.attempts)
            && Attempted(answers, before, call, retrySafe, t.step, t.succeeded)
            && t.step == step.(attempts := t.step.attempts, error := t.step.error,
                               status := if t.succeeded then StepSucceeded else step.status)
    decreases limit - attempt
  {
    hide Repeated;
    var trace := before + Repeated(call, attempt - 1);
    RepeatedNext(call, attempt - 1);
    assert trace + [call] == before + Repeated(call, attempt);
    var answer := answers(trace, call);
    assert answer == AnswerTo(answers, before, call, attempt - 1);
    if answer.Some? && answer.value.transient && attempt < limit {
      TryFromMeaning(answers, before, call, step.(attempts := attempt, error := Some(answer.value.message)),
                     attempt + 1, limit, retrySafe);
    }
  }

  /** One action: its call is made once, or, if it is declared safe to retry, up to three times, again only
      after transient failures. */
  lemma ActionAttempts(answers: Answers, before: seq<Call>, d: Definition, e: Event, runId: nat, a: Action)
    ensures var t := TryAction(answers, before, d, e, runId, a);
            && t.trace == before + Repeated(ActionCall(d, e, runId, a), t.step.attempts)
            && Attempted(answers, before, ActionCall(d, e, runId, a), a.retrySafe, t.step, t.succeeded)
            && t.step.actionId == a.id && t.step.command == a.command && !t.step.compensated
            && t.step.status == if t.succeeded then StepSucceeded else StepRunning
  {
    var call := ActionCall(d, e, runId, a);
    assert before + Repeated(call, 0) == before;
    TryFromMeaning(answers, before, call, NewStep(a), 1, AttemptLimit(a), a.retrySafe);
  }

  // ---- Compensation ----

  /** The answer to the compensation of the `i`th action, below `k`, when compensation starts behind `before`. */
  function AnswerToUndo(answers: Answers, before: seq<Call>, d: Definition, e: Event, runId: nat, k: nat,
                        i: nat): Option<ActionFailure>
    requires i < k <= |d.actions| && d.actions[i].compensation.Some?
  {
    answers(before + Backward(d, e, runId, k, i + 1), UndoCall(d, e, runId, d.actions[i]))
  }

  /** What compensation makes of one step. */
  function Compensated(answers: Answers, before: seq<Call>, d: Definition, e: Event, runId: nat, k: nat, i: nat,
                       step: Step): Step
    requires i < k <= |d.actions|
  {
    if d.actions[i].compensation.None? then step else
    match AnswerToUndo(answers, before, d, e, runId, k, i)
    case None => step.(compensated := true)
    case Some(f) => step.(error := Some(f.message))
  }

  ghost predicate AllUndone(answers: Answers, before: seq<Call>, d: Definition, e: Event, runId: nat, k: nat)
    requires k <= |d.actions|
  {
    forall i :: 0 <= i < k && d.actions[i].compensation.Some? ==> AnswerToUndo(answers, before, d, e, runId, k, i).None?
  }

  ghost predicate UndoableSteps(d: Definition, steps: seq<Step>, k: nat) {
    && k <= |steps| <= |d.actions|
    && (forall i :: 0 <= i < k ==> steps[i].status == StepSucceeded)
    && (forall i :: 0 <= i < |d.actions| ==> ValidAction(d.actions[i]))
  }

  lemma {:induction false} BackwardShift(d: Definition, e: Event, runId: nat, k: nat, low: nat)
    requires low < k <= |d.actions|
    ensures Backward(d, e, runId, k, low)
            == (if d.actions[k - 1].compensation.Some? then [UndoCall(d, e, runId, d.actions[k - 1])] else [])
              + Backward(d, e, runId, k - 1, low)
  {
  }

  /** Moving the start of compensation past the latest action leaves the answers to the others alone. */
  lemma SameAnswers(answers: Answers, before: seq<Call>, next: seq<Call>, d: Definition, e: Event, runId: nat, k: nat,
                    i: nat)
    requires i < k - 1 && k <= |d.actions| && d.actions[i].compensation.Some?
    requires next == before
             + (if d.actions[k - 1].compensation.Some? then [UndoCall(d, e, runId, d.actions[k - 1])] else [])
    ensures AnswerToUndo(answers, before, d, e, runId, k, i) == AnswerToUndo(answers, next, d, e, runId, k - 1, i)
  {
    BackwardShift(d, e, runId, k, i + 1);
    assert before + Backward(d, e, runId, k, i + 1) == next + Backward(d, e, runId, k - 1, i + 1);
  }

  /** The step at the latest action, and the call it makes. */
  function UndoCalls(d: Definition, e: Event, runId: nat, i: nat): seq<Call>
    requires i < |d.actions|
  {
    if d.actions[i].compensation.Some? then [UndoCall(d, e, runId, d.actions[i])] else []
  }

  predicate UndoFailed(answers: Answers, before: seq<Call>, d: Definition, e: Event, runId: nat, k: nat)
    requires 0 < k <= |d.actions|
  {
    d.actions[k - 1].compensation.Some? && AnswerToUndo(answers, before, d, e, runId, k, k - 1).Some?
  }

  lemma UndoUnroll(answers: Answers, before: seq<Call>, d: Definition, e: Event, runId: nat, steps: seq<Step>, k: nat,
                   complete: bool)
    requires k > 0 && UndoableSteps(d, steps, k)
    ensures Undo(answers, before, d, e, runId, steps, k, complete)
            == Undo(answers, before + UndoCalls(d, e, runId, k - 1), d, e, runId,
                    steps[k - 1 := Compensated(answers, before, d, e, runId, k, k - 1, steps[k - 1])], k - 1,
                    complete && !UndoFailed(answers, before, d, e, runId, k))
  {
    assert ValidAction(d.actions[k - 1]);
    hide ValidDottedId, UndoCall;
    assert before + Backward(d, e, runId, k, k) == before;
    assert before + [] == before;
    assert steps[k - 1 := steps[k - 1]] == steps;
  }

  ghost predicate UndoneAs(u: Undone, answers: Answers, before: seq<Call>, d: Definition, e: Event, runId: nat,
                           steps: seq<Step>, k: nat, complete: bool)
    requires k <= |steps| <= |d.actions|
  {
    && u.trace == before + Backward(d, e, runId, k, 0)
    && (u.complete <==> complete && AllUndone(answers, before, d, e, runId, k))
    && |u.steps| == |steps|
    && (forall i :: k <= i < |steps| ==> u.steps[i] == steps[i])
    && (forall i :: 0 <= i < k ==> u.steps[i] == Compensated(answers, before, d, e, runId, k, i, steps[i]))
  }

  lemma AllUndoneStep(answers: Answers, before: seq<Call>, d: Definition, e: Event, runId: nat, k: nat)
    requires 0 < k <= |d.actions|
    ensures AllUndone(answers, before, d, e, runId, k)
            <==>
            && !UndoFailed(answers, before, d, e, runId, k)
            && AllUndone(answers, before + UndoCalls(d, e, runId, k - 1), d, e, runId, k - 1)
  {
    hide UndoCall, AnswerToUndo;
    var next := before + UndoCalls(d, e, runId, k - 1);
    forall i | 0 <= i < k - 1 && d.actions[i].compensation.Some?
      ensures AnswerToUndo(answers, before, d, e, runId, k, i) == AnswerToUndo(answers, next, d, e, runId, k - 1, i)
    {
      SameAnswers(answers, before, next, d, e, runId, k, i);
    }
  }

  lemma CompensatedStep(answers: Answers, before: seq<Call>, d: Definition, e: Event, runId: nat, k: nat, i: nat,
                        step: Step)
    requires i < k - 1 && k <= |d.actions|
    ensures Compensated(answers, before, d, e, runId, k, i, step)
            == Compensated(answers, before + UndoCalls(d, e, runId, k - 1), d, e, runId, k - 1, i, step)
  {
    hide UndoCall, AnswerToUndo;
    if d.actions[i].compensation.Some? {
      SameAnswers(answers, before, before + UndoCalls(d, e, runId, k - 1), d, e, runId, k, i);
    }
  }

  lemma UndoneStep(u: Undone, answers: Answers, before: seq<Call>, d: Definition, e: Event, runId: nat,
                   steps: seq<Step>, k: nat, complete: bool)
    requires k > 0 && UndoableSteps(d, steps, k)
    requires UndoneAs(u, answers, before + UndoCalls(d, e, runId, k - 1), d, e, runId,
                      steps[k - 1 := Compensated(answers, before, d, e, runId, k, k - 1, steps[k - 1])], k - 1,
                      complete && !UndoFailed(answers, before, d, e, runId, k))
    ensures UndoneAs(u, answers, before, d, e, runId, steps, k, complete)
  {
    hide UndoCall, AnswerToUndo, AllUndone, Compensated, UndoFailed, ValidAction;
    var next := before + UndoCalls(d, e, runId, k - 1);
    assert next + Backward(d, e, runId, k - 1, 0) == before + Backward(d, e, runId, k, 0);
    AllUndoneStep(answers, before, d, e, runId, k);
    var first := steps[k - 1 := Compensated(answers, before, d, e, runId, k, k - 1, steps[k - 1])];
    forall i | 0 <= i < k ensures u.steps[i] == Compensated(answers, before, d, e, runId, k, i, steps[i]) {
      if i < k - 1 {
        assert first[i] == steps[i];
        CompensatedStep(answers, before, d, e, runId, k, i, steps[i]);
      }
    }
  }

  /** Compensation calls exactly the compensations of the first `k` actions, the latest first, and
      each step records its own outcome. */
  lemma {:induction false} UndoMeaning(answers: Answers, before: seq<Call>, d: Definition, e: Event, runId: nat,
                                       steps: seq<Step>, k: nat, complete: bool)
    requires UndoableSteps(d, steps, k)
    ensures UndoneAs(Undo(answers, before, d, e, runId, steps, k, complete), answers, before, d, e, runId, steps, k,
                     complete)
    decreases k
  {
    hide ValidAction, UndoCall, AnswerToUndo;
    if k == 0 {
      assert before + Backward(d, e, runId, 0, 0) == before;
    } else {
      hide UndoneAs, Undo, Compensated;
      UndoUnroll(answers, before, d, e, runId, steps, k, complete);
      var step := Compensated(answers, before, d, e, runId, k, k - 1, steps[k - 1]);
      var complete' := complete && !UndoFailed(answers, before, d, e, runId, k);
      UndoMeaning(answers, before + UndoCalls(d, e, runId, k - 1), d, e, runId, steps[k - 1 := step], k - 1, complete');
      UndoneStep(Undo(answers, before, d, e, runId, steps, k, complete), answers, before, d, e, runId, steps, k,
                 complete);
    }
  }

  // ---- The whole run ----

  /** The trace before the attempts of the `i`th action. */
  function BeforeAction(start: seq<Call>, d: Definition, e: Event, runId: nat, steps: seq<Step>, i: nat): seq<Call>
    requires i <= |steps| <= |d.actions|
  {
    start + Forward(d, e, runId, steps, i)
  }

  /** The steps line up with the actions; each records what its attempts met. The last step may have failed. */
  ghost predicate Performed(answers: Answers, start: seq<Call>, d: Definition, e: Event, runId: nat, steps: seq<Step>,
                            lastFailed: bool) {
    && |steps| <= |d.actions|
    && forall i :: 0 <= i < |steps| ==>
         var failed := lastFailed && i == |steps| - 1;
         && steps[i].actionId == d.actions[i].id && steps[i].command == d.actions[i].command && !steps[i].compensated
         && steps[i].status == (if failed then StepFailed else StepSucceeded)
         && Attempted(answers, BeforeAction(start, d, e, runId, steps, i), ActionCall(d, e, runId, d.actions[i]),
                      d.actions[i].retrySafe, steps[i], !failed)
  }

  lemma {:induction false} ForwardPrefix(d: Definition, e: Event, runId: nat, a: seq<Step>, b: seq<Step>, n: nat)
    requires n <= |a| <= |d.actions| && n <= |b| <= |d.actions| && forall i :: 0 <= i < n ==>
               a[i].attempts == b[i].attempts
    ensures Forward(d, e, runId, a, n) == Forward(d, e, runId, b, n)
  {
    if n > 0 { ForwardPrefix(d, e, runId, a, b, n - 1); }
  }

  /** One more action keeps the account. */
  lemma PerformedNext(answers: Answers, start: seq<Call>, d: Definition, e: Event, runId: nat, steps: seq<Step>,
                      next: Step, succeeded: bool)
    requires Performed(answers, start, d, e, runId, steps, false) && |steps| < |d.actions|
    requires next.actionId == d.actions[|steps|].id && next.command == d.actions[|steps|].command && !next.compensated
    requires next.status == if succeeded then StepSucceeded else StepFailed
    requires Attempted(answers, BeforeAction(start, d, e, runId, steps, |steps|),
                       ActionCall(d, e, runId, d.actions[|steps|]),
                       d.actions[|steps|].retrySafe, next, succeeded)
    ensures Performed(answers, start, d, e, runId, steps + [next], !succeeded)
    ensures BeforeAction(start, d, e, runId, steps + [next], |steps| + 1)
            == BeforeAction(start, d, e, runId, steps, |steps|)
               + Repeated(ActionCall(d, e, runId, d.actions[|steps|]), next.attempts)
  {
    hide Attempted, Forward, ActionCall;
    var all := steps + [next];
    forall i | 0 <= i <= |steps|
      ensures BeforeAction(start, d, e, runId, all, i) == BeforeAction(start, d, e, runId, steps, i) {
      ForwardPrefix(d, e, runId, steps, all, i);
    }
    LastForward(start, d, e, runId, all);
  }

  lemma LastForward(start: seq<Call>, d: Definition, e: Event, runId: nat, steps: seq<Step>)
    requires 0 < |steps| <= |d.actions|
    ensures BeforeAction(start, d, e, runId, steps, |steps|)
            == BeforeAction(start, d, e, runId, steps, |steps| - 1)
               + Repeated(ActionCall(d, e, runId, d.actions[|steps| - 1]), steps[|steps| - 1].attempts)
  {
  }

  /** How a run that failed at its last step ends, given the steps as they were before compensation. */
  ghost predicate FailedSaga(answers: Answers, start: seq<Call>, d: Definition, e: Event, run: Run, trace: seq<Call>,
                             done: seq<Step>) {
    && 0 < |done| <= |d.actions| && |run.steps| == |done|
    && Performed(answers, start, d, e, run.runId, done, true)
    && var tried := BeforeAction(start, d, e, run.runId, done, |done|);
       var k := |done| - 1;
       if d.policy.failure == CompensateRun then
         && trace == tried + Backward(d, e, run.runId, k, 0)
         && (run.status == if AllUndone(answers, tried, d, e, run.runId, k) then Failed else CompensationFailed)
         && run.steps[k] == done[k]
         && forall i :: 0 <= i < k ==> run.steps[i] == Compensated(answers, tried, d, e, run.runId, k, i, done[i])
       else trace == tried && run.status == Failed && run.steps == done
  }

  /** The poll before the `i`th action found the run neither cancelled nor out of time. */
  predicate GoesOn(d: Definition, clock: Clock, i: nat) {
    !clock.cancelled(i) && clock.elapsedNanos(i) < d.policy.timeoutMs * 1_000_000
  }

  lemma GoesOnIff(d: Definition, clock: Clock, i: nat)
    ensures InterruptedStatus(d, clock, i) == None <==> GoesOn(d, clock, i)
    ensures InterruptedStatus(d, clock, i) == Some(Cancelled) <==> clock.cancelled(i)
    ensures InterruptedStatus(d, clock, i) in {None, Some(Cancelled), Some(TimedOut)}
  {
  }

  ghost predicate Saga(answers: Answers, clock: Clock, start: seq<Call>, d: Definition, e: Event, run: Run,
                       trace: seq<Call>) {
    && |run.steps| <= |d.actions|
    && (forall i :: 0 <= i < |run.steps| ==> GoesOn(d, clock, i))
    && match run.status
       case Succeeded =>
         && |run.steps| == |d.actions| && Performed(answers, start, d, e, run.runId, run.steps, false)
         && trace == BeforeAction(start, d, e, run.runId, run.steps, |run.steps|)
       case Cancelled | TimedOut =>
         && |run.steps| < |d.actions| && !GoesOn(d, clock, |run.steps|)
         && (run.status == Cancelled <==> clock.cancelled(|run.steps|))
         && Performed(answers, start, d, e, run.runId, run.steps, false)
         && trace == BeforeAction(start, d, e, run.runId, run.steps, |run.steps|)
       case Failed | CompensationFailed => exists done :: FailedSaga(answers, start, d, e, run, trace, done)
       case _ => false
  }

  ghost predicate ValidActions(d: Definition) {
    forall i :: 0 <= i < |d.actions| ==> ValidAction(d.actions[i])
  }

  lemma FailureEnds(answers: Answers, start: seq<Call>, d: Definition, e: Event, run: Run, done: seq<Step>)
    requires 0 < |done| <= |d.actions| && ValidActions(d)
    requires Performed(answers, start, d, e, run.runId, done, true)
    ensures var tried := BeforeAction(start, d, e, run.runId, done, |done|);
            if d.policy.failure == CompensateRun then
              var u := Undo(answers, tried, d, e, run.runId, done, |done|, true);
              FailedSaga(answers, start, d, e,
                         run.(steps := u.steps, status := if u.complete then Failed else CompensationFailed), u.trace,
                         done)
            else FailedSaga(answers, start, d, e, run.(steps := done, status := Failed), tried, done)
  {
    hide Attempted, BeforeAction, ValidAction, AllUndone, Compensated;
    if d.policy.failure == CompensateRun {
      var tried := BeforeAction(start, d, e, run.runId, done, |done|);
      assert done[|done| - 1].status == StepFailed;
      assert Undo(answers, tried, d, e, run.runId, done, |done|, true)
             == Undo(answers, tried, d, e, run.runId, done, |done| - 1, true);
      UndoMeaning(answers, tried, d, e, run.runId, done, |done| - 1, true);
    }
  }

  lemma FailedLength(answers: Answers, start: seq<Call>, d: Definition, e: Event, run: Run, trace: seq<Call>,
                     done: seq<Step>)
    requires FailedSaga(answers, start, d, e, run, trace, done)
    ensures |run.steps| == |done| && run.status in {Failed, CompensationFailed}
  {
    hide Performed, AllUndone, Compensated, BeforeAction;
  }

  lemma {:induction false} RunFromSaga(answers: Answers, clock: Clock, start: seq<Call>, d: Definition, e: Event,
                                       run: Run, i: nat)
    requires ValidActions(d) && |run.steps| == i <= |d.actions|
    requires Performed(answers, start, d, e, run.runId, run.steps, false)
    requires forall k :: 0 <= k < i ==> GoesOn(d, clock, k)
    ensures var (trace, end) := RunFrom(answers, clock, BeforeAction(start, d, e, run.runId, run.steps, i), d, e, run,
                                        i);
            && end == run.(steps := end.steps, status := end.status)
            && Saga(answers, clock, start, d, e, end, trace)
    decreases |d.actions| - i
  {
    hide Performed, BeforeAction, Undo, FailedSaga, ValidActions, Attempted, TryAction;
    if i < |d.actions| {
      GoesOnIff(d, clock, i);
      hide GoesOn;
      var interrupted := InterruptedStatus(d, clock, i);
      if interrupted == None {
        var before := BeforeAction(start, d, e, run.runId, run.steps, i);
        var tried := TryAction(answers, before, d, e, run.runId, d.actions[i]);
        ActionAttempts(answers, before, d, e, run.runId, d.actions[i]);
        if tried.succeeded {
          PerformedNext(answers, start, d, e, run.runId, run.steps, tried.step, true);
          RunFromSaga(answers, clock, start, d, e, run.(steps := run.steps + [tried.step]), i + 1);
        } else {
          hide InterruptedStatus;
          var last := tried.step.(status := StepFailed);
          AttemptedAnyStatus(answers, before, ActionCall(d, e, run.runId, d.actions[i]), d.actions[i].retrySafe,
                             tried.step, last);
          PerformedNext(answers, start, d, e, run.runId, run.steps, last, false);
          FailureEnds(answers, start, d, e, run.(steps := run.steps + [last], status := Failed), run.steps + [last]);
          var (trace, end) := RunFrom(answers, clock, before, d, e, run, i);
          FailedLength(answers, start, d, e, end, trace, run.steps + [last]);
        }
      }
    }
  }

  lemma AttemptedAnyStatus(answers: Answers, before: seq<Call>, call: Call, retrySafe: bool, a: Step, b: Step)
    requires Attempted(answers, before, call, retrySafe, a, false) && b.attempts == a.attempts && b.error == a.error
    ensures Attempted(answers, before, call, retrySafe, b, false)
  {
  }

  /** A live run of a valid automation that its event triggers is a saga: the attempts of its actions
      in order, then, only after a failure and only under the compensating policy, the compensations
      of exactly the actions that succeeded, in reverse. Every other run calls nothing and says why. */
  lemma RunIsSaga(answers: Answers, clock: Clock, start: seq<Call>, runId: nat, d: Definition, e: Event, mode: Mode)
    ensures var (trace, r) := RunWith(answers, clock, start, runId, d, e, mode);
            var triggered := d.enabled && d.eventType == e.eventType;
            var met := forall c :: c in d.conditions ==> e.at(c.pointer) == Some(c.equals);
            && (r.Failure? <==> Validation(d).Failure?)
            && (r.Failure? ==> trace == start && r.error == Validation(d).error)
            && (r.Success? ==>
                  && r.value == Run(runId, d.id, e.traceId, e.id, mode, r.value.status, r.value.steps)
                  && if !triggered then trace == start && r.value.status == TriggerNotMatched && r.value.steps == []
                     else if !met then trace == start && r.value.status == ConditionNotMatched && r.value.steps == []
                     else if mode == DryRun then
                       && trace == start && r.value.status == Planned && |r.value.steps| == |d.actions|
                       && forall i :: 0 <= i < |d.actions| ==>
                            r.value.steps[i] == Step(d.actions[i].id, d.actions[i].command, StepPending, 0, false, None)
                     else Saga(answers, clock, start, d, e, r.value, trace))
  {
    hide RunFrom, Saga, ValidHeader, ValidAction, DistinctActions, ValidPointer, ConditionsMet;
    ConditionsMetIff(d, e);
    if Validation(d).Success? {
      var run := NewRun(runId, d, e, mode);
      assert BeforeAction(start, d, e, runId, [], 0) == start;
      RunFromSaga(answers, clock, start, d, e, run, 0);
    }
  }

  lemma ConditionsMetIff(d: Definition, e: Event)
    ensures ConditionsMet(d, e) <==> forall c :: c in d.conditions ==> e.at(c.pointer) == Some(c.equals)
  {
    if forall c :: c in d.conditions ==> e.at(c.pointer) == Some(c.equals) {
      forall i | 0 <= i < |d.conditions| ensures e.at(d.conditions[i].pointer) == Some(d.conditions[i].equals) {
        assert d.conditions[i] in d.conditions;
      }
    }
  }

  // ---- The calls themselves ----

  /** The call is the `i`th action's own: made for this run and event, with the action's command, arguments,
      risk and idempotency key. */
  predicate CallsAction(call: Call, d: Definition, e: Event, runId: nat, a: Action) {
    && call.context.runId == runId && call.context.automationId == d.id && call.context.actionId == a.id
    && call.context.eventId == e.id && call.context.traceId == e.traceId && call.command.traceId == e.traceId
    && call.command.commandId == a.command && call.command.arguments == a.arguments && call.command.risk == a.risk
    && call.command.idempotencyKey == a.idempotencyKey
  }

  /** The call is the action's compensation, which carries no idempotency key. */
  predicate CallsCompensation(call: Call, d: Definition, e: Event, runId: nat, a: Action) {
    && a.compensation.Some?
    && call.context.runId == runId && call.context.automationId == d.id && call.context.actionId == a.id
    && call.context.eventId == e.id && call.context.traceId == e.traceId && call.command.traceId == e.traceId
    && call.command.commandId == a.compensation.value.command
    && call.command.arguments == a.compensation.value.arguments && call.command.risk == a.compensation.value.risk
    && call.command.idempotencyKey == None
  }

  lemma {:induction false} ForwardCalls(d: Definition, e: Event, runId: nat, steps: seq<Step>, n: nat)
    requires n <= |steps| <= |d.actions|
    ensures forall call :: call in Forward(d, e, runId, steps, n) ==>
              exists i :: 0 <= i < n && CallsAction(call, d, e, runId, d.actions[i])
  {
    if n > 0 {
      ForwardCalls(d, e, runId, steps, n - 1);
      var call := ActionCall(d, e, runId, d.actions[n - 1]);
      assert CallsAction(call, d, e, runId, d.actions[n - 1]);
    }
  }

  lemma {:induction false} BackwardCalls(d: Definition, e: Event, runId: nat, k: nat, low: nat)
    requires k <= |d.actions|
    ensures forall call :: call in Backward(d, e, runId, k, low) ==>
              exists i :: 0 <= i < k && CallsCompensation(call, d, e, runId, d.actions[i])
  {
    if k > low {
      BackwardCalls(d, e, runId, k - 1, low);
      if d.actions[k - 1].compensation.Some? {
        assert CallsCompensation(UndoCall(d, e, runId, d.actions[k - 1]), d, e, runId, d.actions[k - 1]);
      }
    }
  }

  /** Every call of a saga is one of its actions or one of its compensations, as declared. */
  lemma SagaCalls(answers: Answers, clock: Clock, start: seq<Call>, d: Definition, e: Event, run: Run, trace: seq<Call>)
    requires Saga(answers, clock, start, d, e, run, trace)
    ensures start <= trace
    ensures forall call :: call in trace[|start|..] ==>
              exists i :: 0 <= i < |d.actions|
                          && (CallsAction(call, d, e, run.runId, d.actions[i])
                              || CallsCompensation(call, d, e, run.runId, d.actions[i]))
  {
    hide Performed, Compensated, AllUndone, CallsAction, CallsCompensation, GoesOn, Forward, Backward;
    if run.status in {Failed, CompensationFailed} {
      var done :| FailedSaga(answers, start, d, e, run, trace, done);
      ForwardCalls(d, e, run.runId, done, |done|);
      BackwardCalls(d, e, run.runId, |done| - 1, 0);
      assert trace[|start|..] == Forward(d, e, run.runId, done, |done|)
             || trace[|start|..] == Forward(d, e, run.runId, done, |done|) + Backward(d, e, run.runId, |done| - 1, 0);
    } else {
      ForwardCalls(d, e, run.runId, run.steps, |run.steps|);
      assert trace[|start|..] == Forward(d, e, run.runId, run.steps, |run.steps|);
    }
  }

  /** In a valid automation, an action whose call was made more than once carries an idempotency key. */
  lemma RepeatedCallsAreKeyed(answers: Answers, start: seq<Call>, d: Definition, e: Event, runId: nat,
                              steps: seq<Step>, lastFailed: bool, i: nat)
    requires Validation(d).Success? && Performed(answers, start, d, e, runId, steps, lastFailed)
    requires i < |steps| && steps[i].attempts > 1
    ensures d.actions[i].retrySafe && d.actions[i].idempotencyKey.Some?
  {
    hide ValidHeader, ValidPointer, DistinctActions, BeforeAction, ActionCall;
    assert ValidAction(d.actions[i]);
  }
}
