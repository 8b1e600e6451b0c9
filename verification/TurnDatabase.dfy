/** The store as the hosts see it: rows that every transaction updates in place or leaves alone. */
module TurnDatabase {
  import opened Wrappers
  import opened Text
  import opened AutoMode
  import Tasks = AgentTasks
  import opened Workspace
  import opened TurnStore

  /** The attempt on record is the one the writer works on. */
  predicate SameActiveAttempt(recorded: Attempt, a: Attempt) {
    && recorded.id == a.id && recorded.sequence == a.sequence && recorded.expectedUpdatedAtMs == a.expectedUpdatedAtMs
    && recorded.requestFingerprint == a.requestFingerprint && recorded.status == Active
  }

  /** The latest stored snapshot is the one the writer's successor was made for. */
  predicate LatestIs(rows: Rows, revision: nat, fingerprint: string, root: string) {
    && Latest(rows).Some? && Latest(rows).value.root == root
    && Latest(rows).value.snapshot.revision == revision && Latest(rows).value.snapshot.fingerprint == fingerprint
  }

  class Database {
    const h: Digest
    var session: Session
    var checkpoint: Checkpoint
    var attempt: Option<Attempt>
    var workspaces: seq<StoredWorkspace>

    constructor (h: Digest, rows: Rows)
      ensures this.h == h && State() == rows
    {
      this.h := h;
      session, checkpoint, attempt, workspaces := rows.session, rows.checkpoint, rows.attempt, rows.workspaces;
    }

    function State(): Rows
      reads this
    {
      Rows(session, checkpoint, attempt, workspaces)
    }

    method Begin(sequence: nat, expectedUpdatedAtMs: nat, fingerprint: string, id: nat,
                 nowMs: nat) returns (r: Result<Attempt, StoreError>)
      modifies this
      ensures r.Success? <==>
                && sequence != 0 && ValidText(fingerprint, MAX_FINGERPRINT_BYTES)
                && old(attempt.None? && session.status == Running && session.updatedAtMs == expectedUpdatedAtMs
                       && checkpoint.sequence == sequence)
      ensures State() == if r.Success? then old(State()).(attempt := Some(r.value)) else old(State())
      ensures r.Success? ==>
                r.value == Attempt(id, session.id, sequence, expectedUpdatedAtMs, fingerprint, Active, nowMs, nowMs)
      ensures (State(), r) == BeginAttempt(old(State()), sequence, expectedUpdatedAtMs, fingerprint, id, nowMs)
    {
      hide ValidText;
      if sequence == 0 || !ValidText(fingerprint, MAX_FINGERPRINT_BYTES) { return Failure(InvalidAttempt); }
      var begun := Attempt(id, session.id, sequence, expectedUpdatedAtMs, fingerprint, Active, nowMs, nowMs);
      if attempt.Some? || session.status != Running || session.updatedAtMs != expectedUpdatedAtMs
         || checkpoint.sequence != sequence {
        return Failure(AttemptConflict);
      }
      attempt := Some(begun);
      return Success(begun);
    }

    method MarkIndeterminate(a: Attempt, nowMs: nat) returns (r: Result<(), StoreError>)
      modifies this
      ensures r.Success? <==>
                && a.status == Active && a.updatedAtMs <= nowMs
                && old(attempt.Some? && attempt.value.id == a.id && attempt.value.status == Active)
      ensures State() == if r.Failure? then old(State()) else old(State()).(attempt := attempt)
      ensures r.Success? ==> attempt == Some(old(attempt).value.(status := Indeterminate, updatedAtMs := nowMs))
      ensures (State(), r) == TurnStore.MarkIndeterminate(old(State()), a, nowMs)
    {
      if a.status != Active || nowMs < a.updatedAtMs { return Failure(InvalidAttempt); }
      if attempt.None? || attempt.value.id != a.id || attempt.value.status != Active {
        return Failure(AttemptConflict);
      }
      attempt := Some(attempt.value.(status := Indeterminate, updatedAtMs := nowMs));
      return Success(());
    }

    method CommitResume(s: Session, previousUpdatedAtMs: nat, c: Checkpoint,
                        previousSequence: nat) returns (r: Result<(), StoreError>)
      modifies this
      ensures r.Success? <==>
                && ValidSession(s) && ValidCheckpoint(c) && MatchesBindings(c, s)
                && s.status == Running && c.task.status == Tasks.Running && c.sequence == previousSequence + 1
                && old(SessionRowMatches(State(), s, previousUpdatedAtMs, Paused))
                && old(CheckpointRowMatches(State(), c, previousSequence))
      ensures State() == if r.Success? then old(State()).(session := s, checkpoint := c) else old(State())
      ensures (State(), r) == TurnStore.CommitResume(old(State()), s, previousUpdatedAtMs, c, previousSequence)
    {
      hide ValidSession, ValidCheckpoint, MatchesBindings;
      if !ValidSession(s) { return Failure(InvalidStoredSession); }
      if !ValidCheckpoint(c) { return Failure(InvalidStoredCheckpoint); }
      if s.status != Running || c.task.status != Tasks.Running || c.sequence != previousSequence + 1
         || !MatchesBindings(c, s) {
        return Failure(InvalidStoredCheckpoint);
      }
      if !SessionRowMatches(State(), s, previousUpdatedAtMs, Paused)
         || !CheckpointRowMatches(State(), c, previousSequence) {
        return Failure(CommitConflict);
      }
      session := s;
      checkpoint := c;
      return Success(());
    }

    method CommitTurn(a: Attempt, s: Session, previousUpdatedAtMs: nat, c: Checkpoint,
                      previousSequence: nat) returns (r: Result<(), StoreError>)
      modifies this
      ensures r.Success? <==>
                && ValidSession(s) && ValidCheckpoint(c) && MatchesBindings(c, s)
                && TurnCoupled(s.status, c.task.status) && c.sequence == previousSequence + 1
                && a.status == Active && a.sessionId == s.id && a.sequence == previousSequence
                && a.expectedUpdatedAtMs == previousUpdatedAtMs
                && old(SessionRowMatches(State(), s, previousUpdatedAtMs, Running))
                && old(CheckpointRowMatches(State(), c, previousSequence))
                && old(attempt.Some? && SameActiveAttempt(attempt.value, a))
      ensures State() == if r.Success? then old(State()).(session := s, checkpoint := c, attempt := None)
                         else old(State())
      ensures (State(), r) == TurnStore.CommitTurn(old(State()), a, s, previousUpdatedAtMs, c, previousSequence)
    {
      hide ValidSession, ValidCheckpoint, MatchesBindings;
      if !ValidSession(s) { return Failure(InvalidStoredSession); }
      if !ValidCheckpoint(c) { return Failure(InvalidStoredCheckpoint); }
      if a.status != Active || a.sessionId != s.id || a.sequence != previousSequence
         || a.expectedUpdatedAtMs != previousUpdatedAtMs
         || !TurnCoupled(s.status, c.task.status) || c.sequence != previousSequence + 1 || !MatchesBindings(c, s)
      {
        return Failure(InvalidStoredCheckpoint);
      }
      if !SessionRowMatches(State(), s, previousUpdatedAtMs, Running)
         || !CheckpointRowMatches(State(), c, previousSequence)
         || attempt.None? || attempt.value.id != a.id || attempt.value.sequence != a.sequence
         || attempt.value.expectedUpdatedAtMs != a.expectedUpdatedAtMs
         || attempt.value.requestFingerprint != a.requestFingerprint
         || attempt.value.status != Active
      {
        return Failure(CommitConflict);
      }
      session := s;
      checkpoint := c;
      attempt := None;
      return Success(());
    }

    method CommitHostControl(s: Session, previousUpdatedAtMs: nat, c: Checkpoint,
                             previousSequence: nat) returns (r: Result<(), StoreError>)
      modifies this
      ensures r.Success? <==>
                && ValidSession(s) && ValidCheckpoint(c) && MatchesBindings(c, s)
                && ControlCoupled(s.status, c.task.status) && c.sequence == previousSequence + 1
                && old(SessionRowMatches(State(), s, previousUpdatedAtMs, Running))
                && old(CheckpointRowMatches(State(), c, previousSequence))
      ensures State() == if r.Success? then old(State()).(session := s, checkpoint := c) else old(State())
      ensures (State(), r) == TurnStore.CommitHostControl(old(State()), s, previousUpdatedAtMs, c, previousSequence)
    {
      hide ValidSession, ValidCheckpoint, MatchesBindings;
      if !ValidSession(s) { return Failure(InvalidStoredSession); }
      if !ValidCheckpoint(c) { return Failure(InvalidStoredCheckpoint); }
      if !ControlCoupled(s.status, c.task.status) || c.sequence != previousSequence + 1 || !MatchesBindings(c, s) {
        return Failure(InvalidStoredCheckpoint);
      }
      if !SessionRowMatches(State(), s, previousUpdatedAtMs, Running)
         || !CheckpointRowMatches(State(), c, previousSequence) {
        return Failure(CommitConflict);
      }
      session := s;
      checkpoint := c;
      return Success(());
    }

    method CommitDrift(s: Session, previousUpdatedAtMs: nat, c: Checkpoint, previousSequence: nat,
                       workspace: StoredWorkspace,
                       previousRevision: nat, previousFingerprint: string) returns (r: Result<(), StoreError>)
      modifies this
      ensures r.Success? <==>
                && ValidSession(s) && ValidCheckpoint(c) && Validate(h, workspace.snapshot).Success?
                && s.status == Paused && s.pauseReason == Some(WorkspaceChanged) && c.task.status == Tasks.Paused
                && c.sequence == previousSequence + 1 && workspace.sessionId == s.id
                && workspace.snapshot.revision == previousRevision + 1
                && workspace.snapshot.parentFingerprint == Some(previousFingerprint)
                && old(session.id == s.id && session.updatedAtMs == previousUpdatedAtMs && session.status == Running)
                && old(checkpoint.sessionId == c.sessionId && checkpoint.sequence == previousSequence)
                && old(LatestIs(State(), previousRevision, previousFingerprint, workspace.root))
      ensures State() == if r.Failure? then old(State())
                         else old(State()).(session := s, checkpoint := c, workspaces := old(workspaces) + [workspace])
      ensures (State(), r)
              == TurnStore.CommitDrift(h, old(State()), s, previousUpdatedAtMs, c, previousSequence, workspace,
                                       previousRevision, previousFingerprint)
    {
      hide ValidSession, ValidCheckpoint, Validate;
      if !ValidSession(s) { return Failure(InvalidStoredSession); }
      if !ValidCheckpoint(c) { return Failure(InvalidStoredCheckpoint); }
      if Validate(h, workspace.snapshot).Failure? || s.status != Paused || s.pauseReason != Some(WorkspaceChanged)
         || c.task.status != Tasks.Paused || c.sequence != previousSequence + 1 || workspace.sessionId != s.id
         || workspace.snapshot.revision != previousRevision + 1
         || workspace.snapshot.parentFingerprint != Some(previousFingerprint)
      {
        return Failure(InvalidStoredWorkspace);
      }
      var latest := Latest(State());
      if session.id != s.id || session.updatedAtMs != previousUpdatedAtMs || session.status != Running
         || checkpoint.sessionId != c.sessionId || checkpoint.sequence != previousSequence
         || latest.None? || latest.value.snapshot.revision != previousRevision
         || latest.value.snapshot.fingerprint != previousFingerprint || latest.value.root != workspace.root
      {
        return Failure(CommitConflict);
      }
      session := s;
      checkpoint := c;
      workspaces := workspaces + [workspace];
      return Success(());
    }

    method PauseRunningAfterRestart(nowMs: nat) returns (r: Result<(), StoreError>)
      modifies this
      ensures r.Success? <==> old(session.status == Running ==> ValidSession(session) && session.updatedAtMs <= nowMs)
      ensures State() == if r.Success? && old(session).status == Running
                         then old(State()).(session := session) else old(State())
      ensures r.Success? && old(session).status == Running ==>
                session == old(session).(status := Paused, pauseReason := Some(Restarted), updatedAtMs := nowMs)
      ensures (State(), r) == PauseAfterRestart(old(State()), nowMs)
    {
      hide ValidSession;
      if session.status != Running { return Success(()); }
      if !ValidSession(session) { return Failure(InvalidStoredSession); }
      var paused := PauseSession(session, Restarted, nowMs);
      if paused.Failure? { return Failure(InvalidStoredSession); }
      session := paused.value;
      return Success(());
    }

    method ResolveAttempt(request: Resolution) returns (r: Result<(), StoreError>)
      modifies this
      ensures r.Failure? ==> State() == old(State())
      ensures r.Success? ==>
                && old(attempt.Some? && attempt.value.status == Indeterminate
                       && attempt.value.sequence == checkpoint.sequence)
                && State() == old(State()).(session := session, checkpoint := checkpoint, attempt := None)
                && checkpoint == old(checkpoint).(task := checkpoint.task, sequence := checkpoint.sequence,
                                                  updatedAtMs := request.resolvedAtMs)
                && checkpoint.sequence == old(checkpoint).sequence + 1
                && if request.verdict.ConfirmedNotExecuted?
                   then session.status == Paused && checkpoint.task.status == Tasks.Paused
                   else session.status == Cancelled && Tasks.Terminal(checkpoint.task.status)
      ensures (State(), r) == Resolve(old(State()), request)
    {
      hide ValidSession, ValidCheckpoint, MatchesBindings, ValidText;
      if request.sequence == 0 || !ValidText(request.requestFingerprint, 256)
         || !ValidText(request.actor, MAX_ACTOR_BYTES) {
        return Failure(InvalidResolution);
      }
      if request.reason.Some? && (Bytes(request.reason.value) > MAX_REASON_BYTES
                                  || exists i :: 0 <= i < |request.reason.value| && Control(request.reason.value[i]))
      {
        return Failure(InvalidResolution);
      }
      if !ResolutionApplies(State(), request) { return Failure(ResolutionConflict); }
      var converged := Converged(session, checkpoint.task, request.verdict, request.resolvedAtMs);
      if converged.None? { return Failure(InvalidResolution); }
      var (s, task) := converged.value;
      var c := checkpoint.(task := task, sequence := checkpoint.sequence + 1, updatedAtMs := request.resolvedAtMs);
      if !ValidCheckpoint(c) || !ValidSession(s) { return Failure(InvalidResolution); }
      session := s;
      checkpoint := c;
      attempt := None;
      return Success(());
    }
  }
}
