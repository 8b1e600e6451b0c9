/** The host services on the database: each changes the turn's session and task in place, raises the
    sequence and hands the result to one transaction. */
module AutoHostServices {
  import opened Wrappers
  import opened Provider
  import opened AutoMode
  import Tasks = AgentTasks
  import opened Supervisor
  import opened TurnSupervisors
  import opened Workspace
  import opened TurnStore
  import opened TurnDatabase
  import opened AutoHost
  import DE = DurableEffects

  /** What one execution is given. `prepare` compacts the turn's conversation into the messages and
      fingerprint of the request, or fails. */
  datatype Execution = Execution(
    disk: Disk, prepare: Turn -> Option<Prepared>, maxOutputTokens: nat, nowMs: nat, requestId: nat, attemptId: nat,
    invocationIds: nat -> nat)

  datatype Prepared = Prepared(messages: seq<Message>, fingerprint: string)

  datatype Executed = WorkspaceDrift(session: Session, sequence: nat,
                                     workspace: Snapshot) | TurnCommitted(turn: Committed)

  datatype ExecutionError = HostFailed(error: HostError) | ContextFailed | ExecutionIndeterminate(source: Error)

  function InputFor(t: Turn, prepared: Prepared, x: Execution): StepInput {
    StepInput(t.model, prepared.messages, x.maxOutputTokens, x.nowMs, x.requestId, x.invocationIds)
  }

  /** The part of `execute` behind the recorded attempt. */
  function RunAttempt(rows: Rows, env: Env, w: World, t: Turn, attempt: Attempt, prepared: Prepared, x: Execution)
    : (Rows, World, Result<Executed, ExecutionError>)
  {
    var (after, outcome) := Advance(env, w.(session := t.session, task := t.task), InputFor(t, prepared, x));
    if outcome.Failure?
    then (MarkIndeterminate(rows, attempt, x.nowMs).0, after, Failure(ExecutionIndeterminate(outcome.error))) else
    var (stored, r) := CommitOutcome(rows, attempt, t.(session := after.session, task := after.task), outcome.value,
                                     x.nowMs, true);
    (stored, after, if r.Failure? then Failure(HostFailed(r.error)) else Success(TurnCommitted(r.value)))
  }

  /** `AutoModeExecutionService::execute`; the world carries the calls made so far. */
  function ExecuteTurn(h: Digest, rows: Rows, env: Env, w: World, turn: Turn, x: Execution)
    : (Rows, World, Result<Executed, ExecutionError>)
  {
    var (checkedRows, preflight) := PreflightWorkspace(h, rows, turn, x.disk, x.nowMs);
    if preflight.Failure? then (checkedRows, w, Failure(HostFailed(preflight.error)))
    else if preflight.value.PausedForDrift? then
      (checkedRows, w,
       Success(WorkspaceDrift(preflight.value.session, preflight.value.sequence, preflight.value.workspace)))
    else
      var t := preflight.value.turn;
      var prepared := x.prepare(t);
      if prepared.None? then (checkedRows, w, Failure(ContextFailed)) else
      var (begunRows, attempt) := BeginTurn(checkedRows, t, prepared.value.fingerprint, x.attemptId, x.nowMs);
      if attempt.Failure? then (begunRows, w, Failure(HostFailed(attempt.error)))
      else RunAttempt(begunRows, env, w, t, attempt.value, prepared.value, x)
  }

  class AutoModeHost {
    const database: Database

    constructor (database: Database)
      ensures this.database == database
    {
      this.database := database;
    }

    method RecoverTurn(goal: Goal, disk: Disk, nowMs: nat) returns (r: Result<Turn, HostError>)
      modifies database
      ensures (database.State(), r) == Recover(database.h, old(database.State()), goal, disk, nowMs)
    {
      hide Restored;
      if database.session.status != Paused { return Failure(SessionNotPaused); }
      if database.attempt.Some? {
        if database.attempt.value.status == Active {
          var marked := database.MarkIndeterminate(database.attempt.value, nowMs);
          if marked.Failure? { return Failure(Persistence(marked.error)); }
        }
        return Failure(IndeterminateTurnAttempt);
      }
      return Restored(database.h, database.State(), goal, disk, nowMs);
    }

    method CommitResumed(t: Turn, nowMs: nat) returns (r: Result<Turn, HostError>)
      modifies database
      ensures (database.State(), r) == ResumeTurn(old(database.State()), t, nowMs)
    {
      hide TurnStore.CommitResume, ValidCheckpoint, Tasks.Transition;
      var session := new AutoModeSession(t.session);
      var task := new Tasks.AgentTask(t.task);
      var resumed := session.Resume(ResumeBinding(t.goal.active, t.goal.id, t.goal.planGoalId, t.goal.planRevision,
                                                  t.workspace.fingerprint, t.session.policyFingerprint), nowMs);
      if resumed.Failure? { return Failure(ChangedBinding); }
      var moved := task.TransitionTo(Tasks.Running, nowMs);
      if moved.Failure? { return Failure(UnsafeTaskState); }
      var next := t.(session := session.State(), task := task.State(), sequence := t.sequence + 1);
      var c := CheckpointOf(next, next.workspace.fingerprint, nowMs);
      if c.None? { return Failure(UnsafeTaskState); }
      var stored := database.CommitResume(next.session, t.session.updatedAtMs, c.value, t.sequence);
      if stored.Failure? { return Failure(Persistence(stored.error)); }
      return Success(next);
    }

    method Preflight(t: Turn, disk: Disk, nowMs: nat) returns (r: Result<Preflighted, HostError>)
      modifies database
      ensures (database.State(), r) == PreflightWorkspace(database.h, old(database.State()), t, disk, nowMs)
      ensures DriftWritten(old(database.State()), database.State(), t, disk, nowMs, r)
    {
      hide DriftWritten;
      DriftStored(database.h, database.State(), t, disk, nowMs);
      hide TurnStore.CommitDrift, ValidCheckpoint, Tasks.Transition, ScanFiles;
      if t.session.status != Running || t.task.status != Tasks.Running { return Failure(UnsafeTaskState); }
      var latest := Latest(database.State());
      if latest.None? { return Failure(WorkspaceNotFound); }
      var stored := latest.value;
      if disk.root != stored.root { return Failure(ChangedWorkspace); }
      var observed := ScanFiles(database.h, disk.files, stored.snapshot.revision, stored.snapshot.parentFingerprint,
                                nowMs);
      if observed.None? { return Failure(ScanFailed); }
      if observed.value.fingerprint == stored.snapshot.fingerprint {
        return Success(TurnReady(t.(workspace := observed.value)));
      }
      var successor := ScanFiles(database.h, disk.filesAgain, stored.snapshot.revision + 1,
                                 Some(stored.snapshot.fingerprint), nowMs);
      if successor.None? { return Failure(ScanFailed); }
      var session := new AutoModeSession(t.session);
      var task := new Tasks.AgentTask(t.task);
      var paused := session.PauseFor(WorkspaceChanged, nowMs);
      if paused.Failure? { return Failure(UnsafeTaskState); }
      var moved := task.TransitionTo(Tasks.Paused, nowMs);
      if moved.Failure? { return Failure(UnsafeTaskState); }
      var next := t.(session := session.State(), task := task.State(), sequence := t.sequence + 1);
      var c := CheckpointOf(next, stored.snapshot.fingerprint, nowMs);
      if c.None? { return Failure(UnsafeTaskState); }
      var committed := database.CommitDrift(next.session, t.session.updatedAtMs, c.value, t.sequence,
                                            StoredWorkspace(t.session.id, stored.root, successor.value),
                                            stored.snapshot.revision,
                                            stored.snapshot.fingerprint);
      if committed.Failure? { return Failure(Persistence(committed.error)); }
      return Success(PausedForDrift(next.session, next.sequence, successor.value));
    }

    method BeginAttemptFor(t: Turn, fingerprint: string, id: nat, nowMs: nat) returns (r: Result<Attempt, HostError>)
      modifies database
      ensures (database.State(), r) == BeginTurn(old(database.State()), t, fingerprint, id, nowMs)
    {
      hide BeginAttempt;
      if t.session.status != Running || t.task.status != Tasks.Running || nowMs < t.session.updatedAtMs {
        return Failure(InvalidOutcomeState);
      }
      var begun := database.Begin(t.sequence, t.session.updatedAtMs, fingerprint, id, nowMs);
      if begun.Failure? { return Failure(Persistence(begun.error)); }
      return Success(begun.value);
    }

    /** The turn's state after an outcome, changed in place. */
    method SettleOutcome(t: Turn, outcome: Outcome, nowMs: nat) returns (r: Option<Turn>)
      ensures r == Settled(t, outcome, nowMs)
    {
      hide Tasks.Transition;
      var session := new AutoModeSession(t.session);
      var task := new Tasks.AgentTask(t.task);
      match outcome {
        case TurnContinues(messages) =>
          if task.status != Tasks.Running { return None; }
          return Some(t.(messages := t.messages + messages));
        case TurnPaused(reason, _) =>
          if session.status != Paused || session.pauseReason != Some(reason) { return None; }
          if task.status != Tasks.Paused {
            var moved := task.TransitionTo(Tasks.Paused, nowMs);
            if moved.Failure? { return None; }
          }
          return Some(t.(task := task.State()));
        case TurnCompleted(response) =>
          if task.status != Tasks.Succeeded { return None; }
          var completed := session.Complete(nowMs);
          if completed.Failure? { return None; }
          return Some(t.(session := session.State(),
                         messages := t.messages + [TextMessage(Assistant, response.content, Personal, false)]));
      }
    }

    method CommitTurnOutcome(attempt: Attempt, t: Turn, outcome: Outcome, nowMs: nat)
      returns (r: Result<Committed, HostError>)
      modifies database
      ensures (database.State(), r) == CommitOutcome(old(database.State()), attempt, t, outcome, nowMs, true)
    {
      hide TurnStore.CommitTurn, TurnStore.MarkIndeterminate, ValidCheckpoint, Settled;
      if nowMs < t.session.updatedAtMs || attempt.expectedUpdatedAtMs > t.session.updatedAtMs {
        return Failure(InvalidOutcomeState);
      }
      var settled := SettleOutcome(t, outcome, nowMs);
      if settled.None? { return Failure(InvalidOutcomeState); }
      var next := settled.value.(sequence := t.sequence + 1);
      var c := CheckpointOf(next, next.workspace.fingerprint, nowMs);
      if c.None? { return Failure(InvalidOutcomeState); }
      ghost var before := database.State();
      var stored := database.CommitTurn(attempt, next.session, attempt.expectedUpdatedAtMs, c.value, t.sequence);
      if stored.Failure? {
        RefusedTurnChangesNothing(before, attempt, next.session, attempt.expectedUpdatedAtMs, c.value, t.sequence);
        var _ := database.MarkIndeterminate(attempt, nowMs);
        return Failure(CommitIndeterminate(stored.error));
      }
      return Success(Delivered(next, outcome));
    }

    /** The turn's state after a control request, changed in place. */
    method ControlState(t: Turn, control: ControlRequest, nowMs: nat) returns (r: Option<Turn>)
      ensures r == Controlled(t, control, nowMs)
    {
      hide Tasks.Transition, Tasks.CancelTask;
      var session := new AutoModeSession(t.session);
      var task := new Tasks.AgentTask(t.task);
      if control == PauseRequest {
        var paused := session.PauseFor(UserRequested, nowMs);
        if paused.Failure? { return None; }
        var moved := task.TransitionTo(Tasks.Paused, nowMs);
        if moved.Failure? { return None; }
      } else {
        var cancelled := session.Cancel(nowMs);
        if cancelled.Failure? { return None; }
        task.Cancel(nowMs);
      }
      return Some(t.(session := session.State(), task := task.State(), sequence := t.sequence + 1));
    }

    method Control(t: Turn, control: ControlRequest, nowMs: nat) returns (r: Result<Turn, HostError>)
      modifies database
      ensures (database.State(), r) == ControlTurn(old(database.State()), t, control, nowMs)
      ensures ControlWritten(database.State(), t, control, nowMs, r)
    {
      hide ControlWritten, Controlled, TurnStore.CommitHostControl, ValidCheckpoint;
      ControlStored(database.State(), t, control, nowMs);
      if t.session.status != Running || t.task.status != Tasks.Running || nowMs < t.session.updatedAtMs {
        return Failure(InvalidState);
      }
      var next := ControlState(t, control, nowMs);
      if next.None? { return Failure(InvalidState); }
      var c := CheckpointOf(next.value, next.value.workspace.fingerprint, nowMs);
      if c.None? { return Failure(InvalidState); }
      var stored := database.CommitHostControl(next.value.session, t.session.updatedAtMs, c.value, t.sequence);
      if stored.Failure? { return Failure(Persistence(stored.error)); }
      return Success(next.value);
    }

    /** One turn: preflight, context, attempt, supervised step, commit; a failed step is quarantined. */
    method Execute(supervisor: AutoModeTurnSupervisor, turn: Turn, x: Execution)
      returns (r: Result<Executed, ExecutionError>)
      modifies database, supervisor.backend, supervisor.coordinator.providers
      ensures var start := World(turn.session, turn.task, old(supervisor.coordinator.providers.requests),
                                 old(supervisor.backend.trace));
              var (rows, w, result) := ExecuteTurn(database.h, old(database.State()), supervisor.Surroundings(), start,
                                                   turn, x);
              && database.State() == rows && r == result
              && supervisor.coordinator.providers.requests == w.requests && supervisor.backend.trace == w.trace
    {
      hide PreflightWorkspace, BeginTurn, CommitOutcome, TurnStore.MarkIndeterminate, Supervisor.Advance;
      var preflight := Preflight(turn, x.disk, x.nowMs);
      if preflight.Failure? { return Failure(HostFailed(preflight.error)); }
      if preflight.value.PausedForDrift? {
        return Success(WorkspaceDrift(preflight.value.session, preflight.value.sequence, preflight.value.workspace));
      }
      var t := preflight.value.turn;
      var prepared := x.prepare(t);
      if prepared.None? { return Failure(ContextFailed); }
      var attempt := BeginAttemptFor(t, prepared.value.fingerprint, x.attemptId, x.nowMs);
      if attempt.Failure? { return Failure(HostFailed(attempt.error)); }
      var session := new AutoModeSession(t.session);
      var task := new Tasks.AgentTask(t.task);
      var outcome := supervisor.Advance(session, task, InputFor(t, prepared.value, x));
      if outcome.Failure? {
        var _ := database.MarkIndeterminate(attempt.value, x.nowMs);
        return Failure(ExecutionIndeterminate(outcome.error));
      }
      var committed := CommitTurnOutcome(attempt.value, t.(session := session.State(), task := task.State()),
                                         outcome.value, x.nowMs);
      if committed.Failure? { return Failure(HostFailed(committed.error)); }
      return Success(TurnCommitted(committed.value));
    }
  }

  /** A drift pause is stored with its reason, the paused task, the next sequence and the successor of the
      last snapshot; any other preflight stores nothing. */
  ghost predicate DriftWritten(before: Rows, after: Rows, t: Turn, disk: Disk, nowMs: nat,
                               r: Result<Preflighted, HostError>) {
    if r.Success? && r.value.PausedForDrift? then
      && after.session == t.session.(status := Paused, pauseReason := Some(WorkspaceChanged), updatedAtMs := nowMs)
      && after.checkpoint.task == t.task.(status := Tasks.Paused, updatedAtMs := nowMs)
      && after.checkpoint.sequence == before.checkpoint.sequence + 1 == t.sequence + 1
      && after.workspaces == before.workspaces + [StoredWorkspace(t.session.id, disk.root, r.value.workspace)]
    else after == before
  }

  lemma DriftStored(h: Digest, rows: Rows, t: Turn, disk: Disk, nowMs: nat)
    ensures var (after, r) := PreflightWorkspace(h, rows, t, disk, nowMs);
            DriftWritten(rows, after, t, disk, nowMs, r)
  {
    hide DE.Scanned, DE.InTime, ValidSession, ValidCheckpoint, ScanFiles, CommitDriftOf;
    if rows.workspaces != [] {
      DE.DriftsIff(h, rows, t, disk, nowMs);
      hide PreflightWorkspace;
    }
  }

  /** A control request is stored as what it asks for. */
  ghost predicate ControlWritten(after: Rows, t: Turn, control: ControlRequest, nowMs: nat,
                                 r: Result<Turn, HostError>) {
    r.Success? ==>
      match control
      case PauseRequest =>
        && after.session == t.session.(status := Paused, pauseReason := Some(UserRequested), updatedAtMs := nowMs)
        && after.checkpoint.task == t.task.(status := Tasks.Paused, updatedAtMs := nowMs)
      case CancelRequest =>
        && after.session == t.session.(status := Cancelled, pauseReason := None, updatedAtMs := nowMs)
        && after.checkpoint.task == t.task.(status := Tasks.Cancelled, updatedAtMs := nowMs)
  }

  lemma ControlStored(rows: Rows, t: Turn, control: ControlRequest, nowMs: nat)
    ensures var (after, r) := ControlTurn(rows, t, control, nowMs);
            ControlWritten(after, t, control, nowMs, r)
  {
    hide ControlTurn, ValidSession, ValidCheckpoint;
    DE.PausesIff(rows, t, nowMs);
    DE.CancelsIff(rows, t, nowMs);
  }

  lemma RefusedTurnChangesNothing(rows: Rows, a: Attempt, s: Session, previousUpdatedAtMs: nat, c: Checkpoint,
                                  previousSequence: nat)
    requires TurnStore.CommitTurn(rows, a, s, previousUpdatedAtMs, c, previousSequence).1.Failure?
    ensures TurnStore.CommitTurn(rows, a, s, previousUpdatedAtMs, c, previousSequence).0 == rows
  {
    hide ValidSession, ValidCheckpoint, MatchesBindings;
  }
}
