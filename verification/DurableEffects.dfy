/** Each service of the host, seen from outside: exactly when it goes through, and exactly what is then
    stored and handed back. */
module DurableEffects {
  import opened Wrappers
  import opened Text
  import opened Provider
  import opened AutoMode
  import Tasks = AgentTasks
  import Supervisor
  import ToolTurns
  import opened Workspace
  import opened TurnStore
  import opened AutoHost

  /** The time budget of the task has not run out. */
  predicate InTime(task: Tasks.Task, nowMs: nat) { nowMs <= task.createdAtMs + task.budget.maxElapsedMs }

  /** The turn was started from the stored session and checkpoint. */
  predicate StartedFrom(rows: Rows, t: Turn, status: Status) {
    && rows.session.id == t.session.id && rows.session.goalId == t.session.goalId
    && rows.session.planRevision == t.session.planRevision && rows.session.createdAtMs == t.session.createdAtMs
    && rows.session.updatedAtMs == t.session.updatedAtMs && rows.session.status == status
    && rows.checkpoint.sessionId == t.session.id && rows.checkpoint.goalId == t.goal.id
    && rows.checkpoint.planRevision == t.goal.planRevision && rows.checkpoint.sequence == t.sequence
  }

  /** Goal, plan and workspace of the turn are those of its session. */
  predicate BoundToSession(t: Turn) {
    && t.goal.id == t.session.goalId && t.goal.planRevision == t.session.planRevision
    && t.workspace.fingerprint == t.session.policy.workspaceRevision
  }

  /** The checkpoint that follows the turn's own, with another task. */
  function NextCheckpoint(t: Turn, task: Tasks.Task, messages: seq<Message>, workspaceRevision: string,
                          nowMs: nat): Checkpoint {
    Checkpoint("nimora.auto-mode-checkpoint/1", t.session.id, t.goal.id, t.goal.planRevision, t.sequence + 1, task,
               t.model, messages, workspaceRevision, t.session.policyFingerprint, t.checkpointCreatedAtMs, nowMs)
  }

  /** The stored checkpoint belongs to the stored session. */
  predicate BoundTogether(rows: Rows) {
    && rows.checkpoint.sessionId == rows.session.id && rows.checkpoint.goalId == rows.session.goalId
    && rows.checkpoint.planRevision == rows.session.planRevision
    && rows.checkpoint.workspaceRevision == rows.session.policy.workspaceRevision
    && rows.checkpoint.policyFingerprint == rows.session.policyFingerprint
  }

  // ---- The transactions, whatever they are given ----

  /** The session and the checkpoint to be stored belong together and go back to the stored ones. */
  predicate GoesBackTo(rows: Rows, session: Session, previousUpdatedAtMs: nat, c: Checkpoint, previousSequence: nat,
                       status: Status) {
    && c.sequence == previousSequence + 1
    && c.sessionId == session.id && c.goalId == session.goalId && c.planRevision == session.planRevision
    && c.workspaceRevision == session.policy.workspaceRevision && c.policyFingerprint == session.policyFingerprint
    && rows.session.id == session.id && rows.session.goalId == session.goalId
    && rows.session.planRevision == session.planRevision && rows.session.createdAtMs == session.createdAtMs
    && rows.session.updatedAtMs == previousUpdatedAtMs && rows.session.status == status
    && rows.checkpoint.sessionId == c.sessionId && rows.checkpoint.goalId == c.goalId
    && rows.checkpoint.planRevision == c.planRevision && rows.checkpoint.sequence == previousSequence
  }

  lemma ResumeCommitsIff(rows: Rows, session: Session, previousUpdatedAtMs: nat, c: Checkpoint, previousSequence: nat)
    ensures var (after, r) := CommitResume(rows, session, previousUpdatedAtMs, c, previousSequence);
            && (r.Success? <==>
                  && GoesBackTo(rows, session, previousUpdatedAtMs, c, previousSequence, Paused)
                  && session.status == Running && c.task.status == Tasks.Running
                  && ValidSession(session) && ValidCheckpoint(c))
            && (r.Success? ==> after == Rows(session, c, rows.attempt, rows.workspaces))
            && (r.Failure? ==> after == rows)
  {
    hide ValidSession, ValidCheckpoint;
  }

  /** A turn is committed only with the active attempt that it names, which it closes. */
  lemma TurnCommitsIff(rows: Rows, attempt: Attempt, session: Session, previousUpdatedAtMs: nat, c: Checkpoint,
                       previousSequence: nat)
    ensures var (after, r) := CommitTurn(rows, attempt, session, previousUpdatedAtMs, c, previousSequence);
            && (r.Success? <==>
                  && GoesBackTo(rows, session, previousUpdatedAtMs, c, previousSequence, Running)
                  && attempt.status == Active && attempt.sessionId == session.id
                  && attempt.sequence == previousSequence && attempt.expectedUpdatedAtMs == previousUpdatedAtMs
                  && rows.attempt.Some? && rows.attempt.value.status == Active
                  && rows.attempt.value.id == attempt.id && rows.attempt.value.sequence == previousSequence
                  && rows.attempt.value.expectedUpdatedAtMs == previousUpdatedAtMs
                  && rows.attempt.value.requestFingerprint == attempt.requestFingerprint
                  && (|| (session.status == Running && c.task.status == Tasks.Running)
                      || (session.status == Paused && c.task.status == Tasks.Paused)
                      || (session.status == Completed && c.task.status == Tasks.Succeeded))
                  && ValidSession(session) && ValidCheckpoint(c))
            && (r.Success? ==> after == Rows(session, c, None, rows.workspaces))
            && (r.Failure? ==> after == rows)
  {
    hide ValidSession, ValidCheckpoint;
  }

  lemma ControlCommitsIff(rows: Rows, session: Session, previousUpdatedAtMs: nat, c: Checkpoint, previousSequence: nat)
    ensures var (after, r) := CommitHostControl(rows, session, previousUpdatedAtMs, c, previousSequence);
            && (r.Success? <==>
                  && GoesBackTo(rows, session, previousUpdatedAtMs, c, previousSequence, Running)
                  && (|| (session.status == Paused && c.task.status == Tasks.Paused)
                      || (session.status == Cancelled && c.task.status == Tasks.Cancelled))
                  && ValidSession(session) && ValidCheckpoint(c))
            && (r.Success? ==> after == Rows(session, c, rows.attempt, rows.workspaces))
            && (r.Failure? ==> after == rows)
  {
    hide ValidSession, ValidCheckpoint;
  }

  // ---- Resume ----

  lemma ResumesIff(rows: Rows, t: Turn, nowMs: nat)
    ensures var (after, r) := ResumeTurn(rows, t, nowMs);
            var session := t.session.(status := Running, pauseReason := None, updatedAtMs := nowMs);
            var task := t.task.(status := Tasks.Running, updatedAtMs := nowMs);
            var c := NextCheckpoint(t, task, t.messages, t.workspace.fingerprint, nowMs);
            && (r.Success? <==>
                  && t.session.status == Paused && t.session.updatedAtMs <= nowMs
                  && t.task.status in {Tasks.Paused, Tasks.Planning, Tasks.WaitingForConfirmation}
                  && InTime(t.task, nowMs)
                  && t.goal.active && t.goal.planGoalId == t.session.goalId && BoundToSession(t)
                  && StartedFrom(rows, t, Paused)
                  && ValidSession(session) && ValidCheckpoint(c))
            && (r.Success? ==>
                  && after == Rows(session, c, rows.attempt, rows.workspaces)
                  && r.value == Turn(session, t.goal, task, t.sequence + 1, t.checkpointCreatedAtMs, t.model,
                                     t.messages, t.workspace))
            && (r.Failure? ==> after == rows)
  {
    hide ValidSession, ValidCheckpoint;
  }

  // ---- Workspace drift ----

  /** A scan of the root, taken as the given revision. */
  function Scanned(h: Digest, files: Option<seq<TrackedFile>>, revision: nat, parent: Option<string>,
                   nowMs: nat): Result<Snapshot, WorkspaceError> {
    if files.None? then Failure(InvalidSnapshot) else NewSnapshot(h, revision, parent, files.value, nowMs)
  }

  /** The files found are not those of the stored snapshot, and the second scan finds a successor. */
  predicate FindsSuccessor(h: Digest, stored: StoredWorkspace, disk: Disk, nowMs: nat) {
    var seen := Scanned(h, disk.files, stored.snapshot.revision, stored.snapshot.parentFingerprint, nowMs);
    && disk.root == stored.root
    && seen.Success? && seen.value.fingerprint != stored.snapshot.fingerprint
    && Scanned(h, disk.filesAgain, stored.snapshot.revision + 1, Some(stored.snapshot.fingerprint), nowMs).Success?
  }

  /** The snapshot is the canonical successor of the last stored one, which has the given version. */
  ghost predicate Succeeds(h: Digest, workspaces: seq<StoredWorkspace>, w: StoredWorkspace, revision: nat,
                           fingerprint: string) {
    && workspaces != []
    && var last := workspaces[|workspaces| - 1];
       && last.snapshot.revision == revision && last.snapshot.fingerprint == fingerprint
       && Canonical(h, w.snapshot) && w.root == last.root
       && w.snapshot.revision == revision + 1 && w.snapshot.parentFingerprint == Some(fingerprint)
  }

  /** The transaction behind a drift, whatever it is given: it goes through exactly for a canonical
      successor of the last stored snapshot and a drift pause of the stored running session. */
  lemma DriftCommitsIff(h: Digest, rows: Rows, session: Session, previousUpdatedAtMs: nat, c: Checkpoint,
                        previousSequence: nat, w: StoredWorkspace, previousRevision: nat, previousFingerprint: string)
    ensures var (after, r) := CommitDrift(h, rows, session, previousUpdatedAtMs, c, previousSequence, w,
                                          previousRevision, previousFingerprint);
            && (r.Success? <==>
                  && Succeeds(h, rows.workspaces, w, previousRevision, previousFingerprint)
                  && w.sessionId == session.id
                  && session.status == Paused && session.pauseReason == Some(WorkspaceChanged)
                  && c.task.status == Tasks.Paused && c.sequence == previousSequence + 1
                  && rows.session.id == session.id && rows.session.status == Running
                  && rows.session.updatedAtMs == previousUpdatedAtMs
                  && rows.checkpoint.sessionId == c.sessionId && rows.checkpoint.sequence == previousSequence
                  && ValidSession(session) && ValidCheckpoint(c))
            && (r.Success? ==> after == Rows(session, c, rows.attempt, rows.workspaces + [w]))
            && (r.Failure? ==> after == rows)
  {
    ValidIffCanonical(h, w.snapshot);
    hide ValidSession, ValidCheckpoint, Validate, Canonical;
  }

  /** A preflight ends in a drift pause exactly when the running turn is the stored one, its clock and time
      budget allow a pause, the files changed and the successor can be built. It then stores the paused
      session and task under the next sequence and appends the successor of the last snapshot. */
  lemma DriftsIff(h: Digest, rows: Rows, t: Turn, disk: Disk, nowMs: nat)
    requires rows.workspaces != []
    ensures var (after, r) := PreflightWorkspace(h, rows, t, disk, nowMs);
            var stored := rows.workspaces[|rows.workspaces| - 1];
            var session := t.session.(status := Paused, pauseReason := Some(WorkspaceChanged), updatedAtMs := nowMs);
            var task := t.task.(status := Tasks.Paused, updatedAtMs := nowMs);
            var c := NextCheckpoint(t, task, t.messages, stored.snapshot.fingerprint, nowMs);
            var successor := Scanned(h, disk.filesAgain, stored.snapshot.revision + 1,
                                     Some(stored.snapshot.fingerprint), nowMs);
            && (r.Success? && r.value.PausedForDrift? <==>
                  && t.session.status == Running && t.session.updatedAtMs <= nowMs
                  && t.task.status == Tasks.Running && InTime(t.task, nowMs)
                  && FindsSuccessor(h, stored, disk, nowMs)
                  && rows.session.id == t.session.id && rows.session.status == Running
                  && rows.session.updatedAtMs == t.session.updatedAtMs
                  && rows.checkpoint.sessionId == t.session.id && rows.checkpoint.sequence == t.sequence
                  && ValidSession(session) && ValidCheckpoint(c))
            && (r.Success? && r.value.PausedForDrift? ==>
                  && successor.Success?
                  && after == Rows(session, c, rows.attempt,
                                   rows.workspaces + [StoredWorkspace(t.session.id, stored.root, successor.value)])
                  && r.value == PausedForDrift(session, t.sequence + 1, successor.value))
            && (!(r.Success? && r.value.PausedForDrift?) ==> after == rows)
  {
    hide ValidSession, ValidCheckpoint, CommitDrift, NewSnapshot, Canonical;
    var stored := rows.workspaces[|rows.workspaces| - 1];
    var session := t.session.(status := Paused, pauseReason := Some(WorkspaceChanged), updatedAtMs := nowMs);
    var task := t.task.(status := Tasks.Paused, updatedAtMs := nowMs);
    var c := NextCheckpoint(t, task, t.messages, stored.snapshot.fingerprint, nowMs);
    var successor := Scanned(h, disk.filesAgain, stored.snapshot.revision + 1, Some(stored.snapshot.fingerprint),
                             nowMs);
    if successor.Success? {
      BuiltFrom(h, stored.snapshot.revision + 1, Some(stored.snapshot.fingerprint), disk.filesAgain.value, nowMs);
      var w := StoredWorkspace(t.session.id, stored.root, successor.value);
      DriftCommitsIff(h, rows, session, t.session.updatedAtMs, c, t.sequence, w, stored.snapshot.revision,
                      stored.snapshot.fingerprint);
      var (stored', r) := CommitDrift(h, rows, session, t.session.updatedAtMs, c, t.sequence, w,
                                      stored.snapshot.revision, stored.snapshot.fingerprint);
      assert r.Success? ==> stored' == Rows(session, c, rows.attempt, rows.workspaces + [w]);
      var (after, found) := PreflightWorkspace(h, rows, t, disk, nowMs);
      assert found.Success? && found.value.PausedForDrift? ==> r.Success? && after == stored';
    }
  }

  lemma BuiltFrom(h: Digest, revision: nat, parent: Option<string>, files: seq<TrackedFile>, nowMs: nat)
    requires NewSnapshot(h, revision, parent, files, nowMs).Success?
    ensures var s := NewSnapshot(h, revision, parent, files, nowMs).value;
            Canonical(h, s) && s.revision == revision && s.parentFingerprint == parent
  {
    BuiltValidates(h, revision, parent, files, nowMs);
    ValidIffCanonical(h, NewSnapshot(h, revision, parent, files, nowMs).value);
    hide Canonical;
  }

  /** A preflight lets the turn go on exactly if it is running and the files are those of the last stored
      snapshot; only the scan in the turn's hands is renewed. */
  lemma ReadyIff(h: Digest, rows: Rows, t: Turn, disk: Disk, nowMs: nat)
    requires rows.workspaces != []
    ensures var (after, r) := PreflightWorkspace(h, rows, t, disk, nowMs);
            var stored := rows.workspaces[|rows.workspaces| - 1];
            var seen := Scanned(h, disk.files, stored.snapshot.revision, stored.snapshot.parentFingerprint, nowMs);
            && (r.Success? && r.value.TurnReady? <==>
                  && t.session.status == Running && t.task.status == Tasks.Running && disk.root == stored.root
                  && seen.Success? && seen.value.fingerprint == stored.snapshot.fingerprint)
            && (r.Success? && r.value.TurnReady? ==>
                  && after == rows
                  && r.value.turn == Turn(t.session, t.goal, t.task, t.sequence, t.checkpointCreatedAtMs, t.model,
                                          t.messages, seen.value))
  {
    hide CommitDriftOf, NewSnapshot;
    DriftNotReady(h, rows, t, rows.workspaces[|rows.workspaces| - 1], disk, nowMs);
  }

  lemma DriftNotReady(h: Digest, rows: Rows, t: Turn, stored: StoredWorkspace, disk: Disk, nowMs: nat)
    ensures var r := CommitDriftOf(h, rows, t, stored, disk, nowMs).1; r.Success? ==> r.value.PausedForDrift?
  {
    hide CommitDrift, NewSnapshot, ValidCheckpoint, Tasks.Transition;
  }

  // ---- Attempts ----

  /** An attempt is recorded exactly for a running turn that is the stored one, when none is recorded. */
  lemma BeginsIff(rows: Rows, t: Turn, fingerprint: string, id: nat, nowMs: nat)
    ensures var (after, r) := BeginTurn(rows, t, fingerprint, id, nowMs);
            && (r.Success? <==>
                  && t.session.status == Running && t.task.status == Tasks.Running && t.session.updatedAtMs <= nowMs
                  && t.sequence != 0 && ValidText(fingerprint, 256)
                  && rows.attempt.None? && rows.session.status == Running
                  && rows.session.updatedAtMs == t.session.updatedAtMs && rows.checkpoint.sequence == t.sequence)
            && (r.Success? ==>
                  && r.value == Attempt(id, rows.session.id, t.sequence, t.session.updatedAtMs, fingerprint, Active,
                                        nowMs, nowMs)
                  && after == Rows(rows.session, rows.checkpoint, Some(r.value), rows.workspaces))
            && (r.Failure? ==> after == rows)
  {
    hide ValidText;
  }

  /** The rows with the recorded attempt marked as being of unknown outcome. */
  function Marked(rows: Rows, nowMs: nat): Rows
    requires rows.attempt.Some?
  {
    var a := rows.attempt.value;
    Rows(rows.session, rows.checkpoint,
         Some(Attempt(a.id, a.sessionId, a.sequence, a.expectedUpdatedAtMs, a.requestFingerprint, Indeterminate,
                      a.startedAtMs, nowMs)),
         rows.workspaces)
  }

  lemma MarksIff(rows: Rows, attempt: Attempt, nowMs: nat)
    ensures var (after, r) := MarkIndeterminate(rows, attempt, nowMs);
            && (r.Success? <==>
                  && attempt.status == Active && attempt.updatedAtMs <= nowMs
                  && rows.attempt.Some? && rows.attempt.value.id == attempt.id && rows.attempt.value.status == Active)
            && (r.Success? ==> after == Marked(rows, nowMs))
            && (r.Failure? ==> after == rows)
  {
  }

  // ---- Recovery ----

  /** Exactly when a stored session can be recovered, and what is then handed back: the stored state with
      its task paused. The match on the task's status names planning as well, but a planning task cannot
      be paused: a session stored that way is always refused. A refused recovery changes nothing, except
      that an active attempt is marked. */
  lemma RecoversIff(h: Digest, rows: Rows, goal: Goal, disk: Disk, nowMs: nat)
    ensures rows.workspaces == [] ==> Recover(h, rows, goal, disk, nowMs).1.Failure?
    ensures rows.workspaces != [] ==>
              var r := Recover(h, rows, goal, disk, nowMs).1;
              var stored := rows.workspaces[|rows.workspaces| - 1];
              var c, task := rows.checkpoint, rows.checkpoint.task;
              var pausedMs := if nowMs >= task.updatedAtMs then nowMs else task.updatedAtMs;
              var seen := Scanned(h, disk.files, stored.snapshot.revision, stored.snapshot.parentFingerprint, nowMs);
              && (r.Success? <==>
                    && rows.session.status == Paused && rows.attempt.None?
                    && disk.root == stored.root
                    && seen.Success? && seen.value.fingerprint == stored.snapshot.fingerprint
                    && rows.session.policy.workspaceRevision == stored.snapshot.fingerprint
                    && goal.id == goal.planGoalId == rows.session.goalId
                    && goal.planRevision == rows.session.planRevision && BoundTogether(rows)
                    && (task.status == Tasks.Paused || (task.status == Tasks.Running && InTime(task, pausedMs))))
              && (r.Success? ==>
                    r.value == Turn(rows.session, goal,
                                    if task.status == Tasks.Paused then task
                                    else task.(status := Tasks.Paused, updatedAtMs := pausedMs),
                                    c.sequence, c.createdAtMs, c.model, c.messages, seen.value))
    ensures var (after, r) := Recover(h, rows, goal, disk, nowMs);
            if && rows.session.status == Paused && rows.attempt.Some? && rows.attempt.value.status == Active
               && rows.attempt.value.updatedAtMs <= nowMs
            then after == Marked(rows, nowMs) && r == Failure(IndeterminateTurnAttempt)
            else after == rows
  {
    hide NewSnapshot;
  }

  // ---- Commit of a turn ----

  /** The attempt is the recorded one, still active, and the store is as it was when it was recorded. */
  predicate AttemptStands(rows: Rows, attempt: Attempt, t: Turn) {
    && attempt.status == Active && attempt.sessionId == t.session.id && attempt.sequence == t.sequence
    && rows.attempt.Some? && rows.attempt.value.status == Active && rows.attempt.value.id == attempt.id
    && rows.attempt.value.sequence == attempt.sequence
    && rows.attempt.value.expectedUpdatedAtMs == attempt.expectedUpdatedAtMs
    && rows.attempt.value.requestFingerprint == attempt.requestFingerprint
    && rows.session.id == t.session.id && rows.session.goalId == t.session.goalId
    && rows.session.planRevision == t.session.planRevision && rows.session.createdAtMs == t.session.createdAtMs
    && rows.session.updatedAtMs == attempt.expectedUpdatedAtMs && rows.session.status == Running
    && rows.checkpoint.sessionId == t.session.id && rows.checkpoint.goalId == t.goal.id
    && rows.checkpoint.planRevision == t.goal.planRevision && rows.checkpoint.sequence == t.sequence
  }

  /** The transaction behind a turn, for a session that differs from the turn's own in status, reason
      and time only. */
  lemma TurnCommits(rows: Rows, attempt: Attempt, t: Turn, session: Session, task: Tasks.Task,
                    messages: seq<Message>, nowMs: nat)
    requires session == t.session.(status := session.status, pauseReason := session.pauseReason,
                                   updatedAtMs := session.updatedAtMs)
    ensures var c := NextCheckpoint(t, task, messages, t.workspace.fingerprint, nowMs);
            var (after, r) := CommitTurn(rows, attempt, session, attempt.expectedUpdatedAtMs, c, t.sequence);
            && (r.Success? <==>
                  && AttemptStands(rows, attempt, t) && BoundToSession(t)
                  && (|| (session.status == Running && task.status == Tasks.Running)
                      || (session.status == Paused && task.status == Tasks.Paused)
                      || (session.status == Completed && task.status == Tasks.Succeeded))
                  && ValidSession(session) && ValidCheckpoint(c))
            && (r.Success? ==> after == Rows(session, c, None, rows.workspaces))
            && (r.Failure? ==> after == rows)
  {
    hide ValidSession, ValidCheckpoint;
  }

  lemma ContinueCommitsIff(rows: Rows, attempt: Attempt, t: Turn, messages: seq<Message>, nowMs: nat, stored: bool)
    ensures var (after, r) := CommitOutcome(rows, attempt, t, Supervisor.TurnContinues(messages), nowMs, stored);
            var c := NextCheckpoint(t, t.task, t.messages + messages, t.workspace.fingerprint, nowMs);
            && (r.Success? <==>
                  && stored && attempt.expectedUpdatedAtMs <= t.session.updatedAtMs <= nowMs
                  && t.session.status == Running && t.task.status == Tasks.Running
                  && AttemptStands(rows, attempt, t) && BoundToSession(t)
                  && ValidSession(t.session) && ValidCheckpoint(c))
            && (r.Success? ==>
                  && after == Rows(t.session, c, None, rows.workspaces)
                  && r.value == Continued(Turn(t.session, t.goal, t.task, t.sequence + 1, t.checkpointCreatedAtMs,
                                               t.model, t.messages + messages, t.workspace)))
  {
    hide ValidSession, ValidCheckpoint, MarkIndeterminate;
    TurnCommits(rows, attempt, t, t.session, t.task, t.messages + messages, nowMs);
  }

  lemma PauseCommitsIff(rows: Rows, attempt: Attempt, t: Turn, reason: PauseReason,
                        calls: seq<Supervisor.PlannedCall>, nowMs: nat, stored: bool)
    ensures var (after, r) := CommitOutcome(rows, attempt, t, Supervisor.TurnPaused(reason, calls), nowMs, stored);
            var task := if t.task.status == Tasks.Paused then t.task
                        else t.task.(status := Tasks.Paused, updatedAtMs := nowMs);
            var c := NextCheckpoint(t, task, t.messages, t.workspace.fingerprint, nowMs);
            && (r.Success? <==>
                  && stored && attempt.expectedUpdatedAtMs <= t.session.updatedAtMs <= nowMs
                  && t.session.status == Paused && t.session.pauseReason == Some(reason)
                  && (t.task.status == Tasks.Paused
                      || (t.task.status in {Tasks.Running, Tasks.WaitingForConfirmation} && InTime(t.task, nowMs)))
                  && AttemptStands(rows, attempt, t) && BoundToSession(t)
                  && ValidSession(t.session) && ValidCheckpoint(c))
            && (r.Success? ==>
                  && after == Rows(t.session, c, None, rows.workspaces)
                  && r.value == CommittedPause(Turn(t.session, t.goal, task, t.sequence + 1, t.checkpointCreatedAtMs,
                                                    t.model, t.messages, t.workspace)))
  {
    hide ValidSession, ValidCheckpoint, CommitTurn, MarkIndeterminate;
    var task := if t.task.status == Tasks.Paused then t.task
                else t.task.(status := Tasks.Paused, updatedAtMs := nowMs);
    var settled := Settled(t, Supervisor.TurnPaused(reason, calls), nowMs);
    assert settled.Some? ==> settled.value == t.(task := task);
    TurnCommits(rows, attempt, t, t.session, task, t.messages, nowMs);
    var c := NextCheckpoint(t, task, t.messages, t.workspace.fingerprint, nowMs);
    var (written, done) := CommitTurn(rows, attempt, t.session, attempt.expectedUpdatedAtMs, c, t.sequence);
    var (after, r) := CommitOutcome(rows, attempt, t, Supervisor.TurnPaused(reason, calls), nowMs, stored);
    assert r.Success? ==> done.Success? && after == written;
  }

  lemma CompletionCommitsIff(rows: Rows, attempt: Attempt, t: Turn, response: ToolTurns.Response, nowMs: nat,
                             stored: bool)
    ensures var (after, r) := CommitOutcome(rows, attempt, t, Supervisor.TurnCompleted(response), nowMs, stored);
            var session := t.session.(status := Completed, pauseReason := None, updatedAtMs := nowMs);
            var said := Message(Assistant, response.content, Personal, false, [], None, None);
            var c := NextCheckpoint(t, t.task, t.messages + [said], t.workspace.fingerprint, nowMs);
            && (r.Success? <==>
                  && stored && attempt.expectedUpdatedAtMs <= t.session.updatedAtMs <= nowMs
                  && t.session.status == Running && t.task.status == Tasks.Succeeded
                  && AttemptStands(rows, attempt, t) && BoundToSession(t)
                  && ValidSession(session) && ValidCheckpoint(c))
            && (r.Success? ==>
                  && after == Rows(session, c, None, rows.workspaces)
                  && r.value == CommittedEnd(Turn(session, t.goal, t.task, t.sequence + 1, t.checkpointCreatedAtMs,
                                                  t.model, t.messages + [said], t.workspace)))
  {
    hide ValidSession, ValidCheckpoint, CommitTurn, MarkIndeterminate;
    var session := t.session.(status := Completed, pauseReason := None, updatedAtMs := nowMs);
    var said := Message(Assistant, response.content, Personal, false, [], None, None);
    var settled := Settled(t, Supervisor.TurnCompleted(response), nowMs);
    assert settled.Some? ==> settled.value == t.(session := session, messages := t.messages + [said]);
    TurnCommits(rows, attempt, t, session, t.task, t.messages + [said], nowMs);
    var c := NextCheckpoint(t, t.task, t.messages + [said], t.workspace.fingerprint, nowMs);
    var (written, done) := CommitTurn(rows, attempt, session, attempt.expectedUpdatedAtMs, c, t.sequence);
    var (after, r) := CommitOutcome(rows, attempt, t, Supervisor.TurnCompleted(response), nowMs, stored);
    assert r.Success? ==> done.Success? && after == written;
  }

  /** A turn that cannot be stored leaves session, checkpoint and snapshots as they are; if it got as far as
      the transaction, its attempt is marked as being of unknown outcome. */
  lemma RefusedTurn(rows: Rows, attempt: Attempt, t: Turn, outcome: Supervisor.Outcome, nowMs: nat, stored: bool)
    requires CommitOutcome(rows, attempt, t, outcome, nowMs, stored).1.Failure?
    ensures var (after, r) := CommitOutcome(rows, attempt, t, outcome, nowMs, stored);
            && (r.error == InvalidOutcomeState || r.error.CommitIndeterminate?)
            && (r.error == InvalidOutcomeState ==> after == rows)
            && (r.error.CommitIndeterminate? ==>
                  after == if && attempt.status == Active && attempt.updatedAtMs <= nowMs
                              && rows.attempt.Some? && rows.attempt.value.id == attempt.id
                              && rows.attempt.value.status == Active
                           then Marked(rows, nowMs) else rows)
  {
    hide ValidSession, ValidCheckpoint, CommitTurn, Settled, MarkIndeterminate;
    MarksIff(rows, attempt, nowMs);
  }

  /** A committed turn is reported as what has been stored, and handed back as it has been stored. */
  predicate Reported(after: Rows, committed: Committed) {
    var t := committed.turn;
    && (committed.Continued? <==> after.session.status == Running)
    && (committed.CommittedPause? <==> after.session.status == Paused)
    && (committed.CommittedEnd? <==> after.session.status == Completed)
    && t.session == after.session && t.task == after.checkpoint.task && t.sequence == after.checkpoint.sequence
    && t.messages == after.checkpoint.messages
  }

  lemma CommitReports(rows: Rows, attempt: Attempt, t: Turn, outcome: Supervisor.Outcome, nowMs: nat, stored: bool)
    ensures var (after, r) := CommitOutcome(rows, attempt, t, outcome, nowMs, stored);
            r.Success? ==> Reported(after, r.value)
  {
    hide CommitOutcome, ValidSession, ValidCheckpoint, InTime, AttemptStands, BoundToSession;
    match outcome {
      case TurnContinues(messages) => ContinueCommitsIff(rows, attempt, t, messages, nowMs, stored);
      case TurnPaused(reason, calls) => PauseCommitsIff(rows, attempt, t, reason, calls, nowMs, stored);
      case TurnCompleted(response) => CompletionCommitsIff(rows, attempt, t, response, nowMs, stored);
    }
  }

  // ---- Host control ----

  /** The transaction behind a control request. */
  lemma ControlCommits(rows: Rows, t: Turn, session: Session, task: Tasks.Task, nowMs: nat)
    requires session == t.session.(status := session.status, pauseReason := session.pauseReason,
                                   updatedAtMs := session.updatedAtMs)
    ensures var c := NextCheckpoint(t, task, t.messages, t.workspace.fingerprint, nowMs);
            var (after, r) := CommitHostControl(rows, session, t.session.updatedAtMs, c, t.sequence);
            && (r.Success? <==>
                  && StartedFrom(rows, t, Running) && BoundToSession(t)
                  && (|| (session.status == Paused && task.status == Tasks.Paused)
                      || (session.status == Cancelled && task.status == Tasks.Cancelled))
                  && ValidSession(session) && ValidCheckpoint(c))
            && (r.Success? ==> after == Rows(session, c, rows.attempt, rows.workspaces))
            && (r.Failure? ==> after == rows)
  {
    hide ValidSession, ValidCheckpoint;
  }

  /** A pause by the user goes through exactly for a running turn that is the stored one and in time. */
  lemma PausesIff(rows: Rows, t: Turn, nowMs: nat)
    ensures var (after, r) := ControlTurn(rows, t, PauseRequest, nowMs);
            var session := t.session.(status := Paused, pauseReason := Some(UserRequested), updatedAtMs := nowMs);
            var task := t.task.(status := Tasks.Paused, updatedAtMs := nowMs);
            var c := NextCheckpoint(t, task, t.messages, t.workspace.fingerprint, nowMs);
            && (r.Success? <==>
                  && t.session.status == Running && t.session.updatedAtMs <= nowMs
                  && t.task.status == Tasks.Running && InTime(t.task, nowMs)
                  && StartedFrom(rows, t, Running) && BoundToSession(t)
                  && ValidSession(session) && ValidCheckpoint(c))
            && (r.Success? ==>
                  && after == Rows(session, c, rows.attempt, rows.workspaces)
                  && r.value == Turn(session, t.goal, task, t.sequence + 1, t.checkpointCreatedAtMs, t.model,
                                     t.messages, t.workspace))
            && (r.Failure? ==> after == rows)
  {
    hide ValidSession, ValidCheckpoint;
    ControlCommits(rows, t, t.session.(status := Paused, pauseReason := Some(UserRequested), updatedAtMs := nowMs),
                   t.task.(status := Tasks.Paused, updatedAtMs := nowMs), nowMs);
  }

  /** A cancellation goes through exactly for a running turn that is the stored one, in time or not. */
  lemma CancelsIff(rows: Rows, t: Turn, nowMs: nat)
    ensures var (after, r) := ControlTurn(rows, t, CancelRequest, nowMs);
            var session := t.session.(status := Cancelled, pauseReason := None, updatedAtMs := nowMs);
            var task := t.task.(status := Tasks.Cancelled, updatedAtMs := nowMs);
            var c := NextCheckpoint(t, task, t.messages, t.workspace.fingerprint, nowMs);
            && (r.Success? <==>
                  && t.session.status == Running && t.session.updatedAtMs <= nowMs
                  && t.task.status == Tasks.Running
                  && StartedFrom(rows, t, Running) && BoundToSession(t)
                  && ValidSession(session) && ValidCheckpoint(c))
            && (r.Success? ==>
                  && after == Rows(session, c, rows.attempt, rows.workspaces)
                  && r.value == Turn(session, t.goal, task, t.sequence + 1, t.checkpointCreatedAtMs, t.model,
                                     t.messages, t.workspace))
            && (r.Failure? ==> after == rows)
  {
    hide ValidSession, ValidCheckpoint;
    ControlCommits(rows, t, t.session.(status := Cancelled, pauseReason := None, updatedAtMs := nowMs),
                   t.task.(status := Tasks.Cancelled, updatedAtMs := nowMs), nowMs);
  }

  // ---- Restart and resolution ----

  /** A restart pauses a running session and leaves everything else, the running task included. */
  lemma RestartsIff(rows: Rows, nowMs: nat)
    ensures var (after, r) := PauseAfterRestart(rows, nowMs);
            if rows.session.status == Running && ValidSession(rows.session) && rows.session.updatedAtMs <= nowMs then
              && r.Success?
              && after == Rows(rows.session.(status := Paused, pauseReason := Some(Restarted), updatedAtMs := nowMs),
                               rows.checkpoint, rows.attempt, rows.workspaces)
            else after == rows && (r.Success? <==> rows.session.status != Running)
  {
    hide ValidSession;
  }

  /** The resolution names the stored attempt of unknown outcome and does not go back in time. */
  predicate Names(rows: Rows, r: Resolution) {
    && rows.attempt.Some? && rows.attempt.value.status == Indeterminate
    && rows.attempt.value.id == r.attemptId && rows.attempt.value.sequence == r.sequence
    && rows.attempt.value.requestFingerprint == r.requestFingerprint
    && rows.checkpoint.sequence == r.sequence
    && rows.attempt.value.updatedAtMs <= r.resolvedAtMs && rows.session.updatedAtMs <= r.resolvedAtMs
    && rows.checkpoint.updatedAtMs <= r.resolvedAtMs && BoundTogether(rows)
  }

  /** What a resolution is signed with. */
  predicate WellSigned(r: Resolution) {
    && r.sequence != 0 && ValidText(r.requestFingerprint, 256) && ValidText(r.actor, 128)
    && (r.reason.Some? ==>
          Bytes(r.reason.value) <= 2048 && forall c :: c in r.reason.value ==> !Control(c))
  }

  lemma ControlIn(s: string)
    ensures (exists i :: 0 <= i < |s| && Control(s[i])) <==> !(forall c :: c in s ==> !Control(c))
  {
  }

  /** Nothing was executed: the turn is put back as a pause. */
  lemma TakesBackIff(rows: Rows, r: Resolution)
    requires r.verdict == ConfirmedNotExecuted
    ensures var (after, done) := Resolve(rows, r);
            var session := if rows.session.status == Paused then rows.session
                           else rows.session.(status := Paused, pauseReason := Some(UserRequested),
                                              updatedAtMs := r.resolvedAtMs);
            var task := if rows.checkpoint.task.status == Tasks.Paused then rows.checkpoint.task
                        else rows.checkpoint.task.(status := Tasks.Paused, updatedAtMs := r.resolvedAtMs);
            var c := rows.checkpoint.(task := task, sequence := rows.checkpoint.sequence + 1,
                                      updatedAtMs := r.resolvedAtMs);
            && (done.Success? <==>
                  && WellSigned(r) && Names(rows, r) && rows.session.status in {Running, Paused}
                  && (rows.checkpoint.task.status == Tasks.Paused
                      || (rows.checkpoint.task.status == Tasks.Running
                          && InTime(rows.checkpoint.task, r.resolvedAtMs)))
                  && ValidSession(session) && ValidCheckpoint(c))
            && (done.Success? ==> after == Rows(session, c, None, rows.workspaces))
            && (done.Failure? ==> after == rows)
  {
    hide ValidSession, ValidCheckpoint, ValidText, Control, Bytes;
    if r.reason.Some? { ControlIn(r.reason.value); }
  }

  /** Something was executed outside: the session ends. */
  lemma AcceptsIff(rows: Rows, r: Resolution)
    requires r.verdict == AcceptExternalEffectAndCancel
    ensures var (after, done) := Resolve(rows, r);
            var session := rows.session.(status := Cancelled, pauseReason := None, updatedAtMs := r.resolvedAtMs);
            var status := rows.checkpoint.task.status;
            var task := if status in {Tasks.Succeeded, Tasks.Failed, Tasks.Cancelled, Tasks.BudgetExhausted}
                        then rows.checkpoint.task
                        else rows.checkpoint.task.(status := Tasks.Cancelled, updatedAtMs := r.resolvedAtMs);
            var c := rows.checkpoint.(task := task, sequence := rows.checkpoint.sequence + 1,
                                      updatedAtMs := r.resolvedAtMs);
            && (done.Success? <==>
                  && WellSigned(r) && Names(rows, r) && rows.session.status in {Running, Paused}
                  && ValidSession(session) && ValidCheckpoint(c))
            && (done.Success? ==> after == Rows(session, c, None, rows.workspaces))
            && (done.Failure? ==> after == rows)
  {
    hide ValidSession, ValidCheckpoint, ValidText, Control, Bytes;
    if r.reason.Some? { ControlIn(r.reason.value); }
    var status := rows.session.status;
    assert status.Running? || status.Paused? || status.Completed? || status.Cancelled?;
  }
}
