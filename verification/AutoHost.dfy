/** The host services of Auto Mode: recovery, resume, workspace preflight, turn execution, commit and
    host control. Each prepares a new state of the turn and hands it to one transaction. */
module AutoHost {
  import opened Wrappers
  import opened Provider
  import opened AutoMode
  import Tasks = AgentTasks
  import opened Supervisor
  import opened Workspace
  import opened TurnStore

  datatype Goal = Goal(id: nat, active: bool, planGoalId: nat, planRevision: nat)

  /** A continuation held in memory: `RecoveredAutoModeTurn`. */
  datatype Turn = Turn(
    session: Session, goal: Goal, task: Tasks.Task, sequence: nat, checkpointCreatedAtMs: nat, model: string,
    messages: seq<Message>, workspace: Snapshot)

  /** What the host finds at the workspace root: its identity, and the files two scans find, if they do. */
  datatype Disk = Disk(root: string, files: Option<seq<TrackedFile>>, filesAgain: Option<seq<TrackedFile>>)

  datatype HostError =
    | SessionNotPaused | WorkspaceNotFound | ChangedBinding | ChangedWorkspace | UnsafeTaskState
    | IndeterminateTurnAttempt
    | ScanFailed | InvalidState | InvalidOutcomeState | CommitIndeterminate(source: StoreError)
    | Persistence(error: StoreError)

  function ScanFiles(h: Digest, files: Option<seq<TrackedFile>>, revision: nat, parent: Option<string>,
                     nowMs: nat): Option<Snapshot> {
    if files.None? then None else
    var s := NewSnapshot(h, revision, parent, files.value, nowMs);
    if s.Failure? then None else Some(s.value)
  }

  /** `AutoModeCheckpoint::new` for a turn. */
  function CheckpointOf(t: Turn, workspaceRevision: string, nowMs: nat): Option<Checkpoint> {
    var c := Checkpoint(CHECKPOINT_SPEC, t.session.id, t.goal.id, t.goal.planRevision, t.sequence, t.task, t.model,
                        t.messages, workspaceRevision, t.session.policyFingerprint, t.checkpointCreatedAtMs, nowMs);
    if ValidCheckpoint(c) then Some(c) else None
  }

  // ---- Recovery ----

  function Max(a: nat, b: nat): nat { if a >= b then a else b }

  /** The recovered task is always paused. */
  function PausedTask(task: Tasks.Task, nowMs: nat): Option<Tasks.Task> {
    if task.status in {Tasks.Planning, Tasks.Running} then
      var (paused, r) := Tasks.Transition(task, Tasks.Paused, Max(nowMs, task.updatedAtMs));
      if r.Failure? then None else Some(paused)
    else if task.status == Tasks.Paused then Some(task) else None
  }

  /** The part of `recover` behind the attempt check. */
  function Restored(h: Digest, rows: Rows, goal: Goal, disk: Disk, nowMs: nat): Result<Turn, HostError> {
    var stored := Latest(rows);
    if stored.None? then Failure(WorkspaceNotFound)
    else if disk.root != stored.value.root then Failure(ChangedWorkspace)
    else
      var workspace := ScanFiles(h, disk.files, stored.value.snapshot.revision, stored.value.snapshot.parentFingerprint,
                                 nowMs);
      if workspace.None? then Failure(ScanFailed)
      else if workspace.value.fingerprint != stored.value.snapshot.fingerprint then Failure(ChangedWorkspace)
      else if goal.id != rows.session.goalId || goal.planGoalId != rows.session.goalId
              || goal.planRevision != rows.session.planRevision
              || rows.session.policy.workspaceRevision != workspace.value.fingerprint
              || rows.checkpoint.sessionId != rows.session.id || rows.checkpoint.goalId != goal.id
              || rows.checkpoint.planRevision != goal.planRevision
              || rows.checkpoint.workspaceRevision != workspace.value.fingerprint
              || rows.checkpoint.policyFingerprint != rows.session.policyFingerprint
      then Failure(ChangedBinding)
      else
        var task := PausedTask(rows.checkpoint.task, nowMs);
        if task.None? then Failure(UnsafeTaskState)
        else Success(Turn(rows.session, goal, task.value, rows.checkpoint.sequence, rows.checkpoint.createdAtMs,
                          rows.checkpoint.model, rows.checkpoint.messages, workspace.value))
  }

  /** `AutoModeRecoveryService::recover`. */
  function Recover(h: Digest, rows: Rows, goal: Goal, disk: Disk, nowMs: nat): (Rows, Result<Turn, HostError>) {
    if rows.session.status != Paused then (rows, Failure(SessionNotPaused))
    else if rows.attempt.Some? then
      if rows.attempt.value.status == Active then
        var (marked, r) := MarkIndeterminate(rows, rows.attempt.value, nowMs);
        (marked, Failure(if r.Failure? then Persistence(r.error) else IndeterminateTurnAttempt))
      else (rows, Failure(IndeterminateTurnAttempt))
    else (rows, Restored(h, rows, goal, disk, nowMs))
  }

  function Resumed(t: Turn, nowMs: nat): Result<Turn, HostError> {
    var binding := ResumeBinding(t.goal.active, t.goal.id, t.goal.planGoalId, t.goal.planRevision,
                                 t.workspace.fingerprint, t.session.policyFingerprint);
    var session := ResumeSession(t.session, binding, nowMs);
    if session.Failure? then Failure(ChangedBinding) else
    var (task, r) := Tasks.Transition(t.task, Tasks.Running, nowMs);
    if r.Failure? then Failure(UnsafeTaskState)
    else Success(t.(session := session.value, task := task, sequence := t.sequence + 1))
  }

  /** `commit_resume`. */
  function ResumeTurn(rows: Rows, t: Turn, nowMs: nat): (Rows, Result<Turn, HostError>) {
    var resumed := Resumed(t, nowMs);
    if resumed.Failure? then (rows, Failure(resumed.error)) else
    var c := CheckpointOf(resumed.value, resumed.value.workspace.fingerprint, nowMs);
    if c.None? then (rows, Failure(UnsafeTaskState)) else
    var (after, r) := CommitResume(rows, resumed.value.session, t.session.updatedAtMs, c.value, t.sequence);
    (after, if r.Failure? then Failure(Persistence(r.error)) else resumed)
  }

  // ---- Preflight ----

  datatype Preflighted = TurnReady(turn: Turn) | PausedForDrift(session: Session, sequence: nat, workspace: Snapshot)

  function Drifted(t: Turn, nowMs: nat): Result<Turn, HostError> {
    var session := PauseSession(t.session, WorkspaceChanged, nowMs);
    if session.Failure? then Failure(UnsafeTaskState) else
    var (task, r) := Tasks.Transition(t.task, Tasks.Paused, nowMs);
    if r.Failure? then Failure(UnsafeTaskState)
    else Success(t.(session := session.value, task := task, sequence := t.sequence + 1))
  }

  /** The drift branch of `preflight_workspace`. */
  function CommitDriftOf(h: Digest, rows: Rows, t: Turn, stored: StoredWorkspace, disk: Disk, nowMs: nat)
    : (Rows, Result<Preflighted, HostError>)
  {
    var successor := ScanFiles(h, disk.filesAgain, stored.snapshot.revision + 1, Some(stored.snapshot.fingerprint),
                               nowMs);
    if successor.None? then (rows, Failure(ScanFailed)) else
    var drifted := Drifted(t, nowMs);
    if drifted.Failure? then (rows, Failure(drifted.error)) else
    var c := CheckpointOf(drifted.value, stored.snapshot.fingerprint, nowMs);
    if c.None? then (rows, Failure(UnsafeTaskState)) else
    var (after, r) := CommitDrift(h, rows, drifted.value.session, t.session.updatedAtMs, c.value, t.sequence,
                                  StoredWorkspace(t.session.id, stored.root, successor.value), stored.snapshot.revision,
                                  stored.snapshot.fingerprint);
    (after, if r.Failure? then Failure(Persistence(r.error))
            else Success(PausedForDrift(drifted.value.session, drifted.value.sequence, successor.value)))
  }

  /** `preflight_workspace`. */
  function PreflightWorkspace(h: Digest, rows: Rows, t: Turn, disk: Disk, nowMs: nat)
    : (Rows, Result<Preflighted, HostError>)
  {
    if t.session.status != Running || t.task.status != Tasks.Running then (rows, Failure(UnsafeTaskState)) else
    var stored := Latest(rows);
    if stored.None? then (rows, Failure(WorkspaceNotFound))
    else if disk.root != stored.value.root then (rows, Failure(ChangedWorkspace))
    else
      var observed := ScanFiles(h, disk.files, stored.value.snapshot.revision, stored.value.snapshot.parentFingerprint,
                                nowMs);
      if observed.None? then (rows, Failure(ScanFailed))
      else if observed.value.fingerprint == stored.value.snapshot.fingerprint
      then (rows, Success(TurnReady(t.(workspace := observed.value))))
      else CommitDriftOf(h, rows, t, stored.value, disk, nowMs)
  }

  // ---- One turn ----

  /** `AutoModeTurnCommitService::begin`. */
  function BeginTurn(rows: Rows, t: Turn, fingerprint: string, id: nat, nowMs: nat)
    : (Rows, Result<Attempt, HostError>)
  {
    if t.session.status != Running || t.task.status != Tasks.Running || nowMs < t.session.updatedAtMs
    then (rows, Failure(InvalidOutcomeState))
    else
      var (after, r) := BeginAttempt(rows, t.sequence, t.session.updatedAtMs, fingerprint, id, nowMs);
      (after, if r.Failure? then Failure(Persistence(r.error)) else Success(r.value))
  }

  datatype Committed = Continued(turn: Turn) | CommittedPause(turn: Turn) | CommittedEnd(turn: Turn)

  /** The state `commit` stores for an outcome, before the sequence is raised. */
  function Settled(t: Turn, outcome: Outcome, nowMs: nat): Option<Turn> {
    match outcome
    case TurnContinues(messages) =>
      if t.task.status != Tasks.Running then None else Some(t.(messages := t.messages + messages))
    case TurnPaused(reason, _) =>
      if t.session.status != Paused || t.session.pauseReason != Some(reason) then None
      else if t.task.status == Tasks.Paused then Some(t)
      else
        var (task, r) := Tasks.Transition(t.task, Tasks.Paused, nowMs);
        if r.Failure? then None else Some(t.(task := task))
    case TurnCompleted(response) =>
      if t.task.status != Tasks.Succeeded then None else
      var session := CompleteSession(t.session, nowMs);
      if session.Failure? then None
      else Some(t.(session := session.value,
                   messages := t.messages + [TextMessage(Assistant, response.content, Personal, false)]))
  }

  function Delivered(t: Turn, outcome: Outcome): Committed {
    match outcome
    case TurnContinues(_) => Continued(t)
    case TurnPaused(_, _) => CommittedPause(t)
    case TurnCompleted(_) => CommittedEnd(t)
  }

  /** `AutoModeTurnCommitService::commit`; `stored` says whether storage lets the transaction through. */
  function CommitOutcome(rows: Rows, attempt: Attempt, t: Turn, outcome: Outcome, nowMs: nat, stored: bool)
    : (Rows, Result<Committed, HostError>)
  {
    if nowMs < t.session.updatedAtMs || attempt.expectedUpdatedAtMs > t.session.updatedAtMs
    then (rows, Failure(InvalidOutcomeState)) else
    var settled := Settled(t, outcome, nowMs);
    if settled.None? then (rows, Failure(InvalidOutcomeState)) else
    var next := settled.value.(sequence := t.sequence + 1);
    var c := CheckpointOf(next, next.workspace.fingerprint, nowMs);
    if c.None? then (rows, Failure(InvalidOutcomeState)) else
    var (after, r) := if stored then CommitTurn(rows, attempt, next.session, attempt.expectedUpdatedAtMs, c.value,
                                                t.sequence)
                      else (rows, Failure(CommitConflict));
    if r.Failure? then (MarkIndeterminate(rows, attempt, nowMs).0, Failure(CommitIndeterminate(r.error)))
    else (after, Success(Delivered(next, outcome)))
  }

  // ---- Host control ----

  datatype ControlRequest = PauseRequest | CancelRequest

  function Controlled(t: Turn, control: ControlRequest, nowMs: nat): Option<Turn> {
    match control
    case PauseRequest =>
      var session := PauseSession(t.session, UserRequested, nowMs);
      var (task, r) := Tasks.Transition(t.task, Tasks.Paused, nowMs);
      if session.Failure? || r.Failure? then None
      else Some(t.(session := session.value, task := task, sequence := t.sequence + 1))
    case CancelRequest =>
      var session := CancelSession(t.session, nowMs);
      if session.Failure? then None
      else Some(t.(session := session.value, task := Tasks.CancelTask(t.task, nowMs), sequence := t.sequence + 1))
  }

  /** `AutoModeHostControlService::commit`. */
  function ControlTurn(rows: Rows, t: Turn, control: ControlRequest, nowMs: nat): (Rows, Result<Turn, HostError>) {
    if t.session.status != Running || t.task.status != Tasks.Running || nowMs < t.session.updatedAtMs
    then (rows, Failure(InvalidState)) else
    var controlled := Controlled(t, control, nowMs);
    if controlled.None? then (rows, Failure(InvalidState)) else
    var c := CheckpointOf(controlled.value, controlled.value.workspace.fingerprint, nowMs);
    if c.None? then (rows, Failure(InvalidState)) else
    var (after, r) := CommitHostControl(rows, controlled.value.session, t.session.updatedAtMs, c.value, t.sequence);
    (after, if r.Failure? then Failure(Persistence(r.error)) else Success(controlled.value))
  }
}
