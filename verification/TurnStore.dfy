/** The durable rows of one Auto Mode session and the transactions on them: each either checks all
    its expected versions and writes everything, or writes nothing. */
module TurnStore {
  import opened Wrappers
  import opened Text
  import opened Provider
  import opened ProtocolMeaning
  import opened AutoMode
  import Tasks = AgentTasks
  import opened Workspace

  const CHECKPOINT_SPEC := "nimora.auto-mode-checkpoint/1"
  const MAX_BINDING_BYTES := 256
  const MAX_MODEL_BYTES := 128
  const MAX_FINGERPRINT_BYTES := 256
  const MAX_ACTOR_BYTES := 128
  const MAX_REASON_BYTES := 2 * 1024

  datatype AttemptStatus = Active | Indeterminate

  datatype Attempt = Attempt(
    id: nat, sessionId: nat, sequence: nat, expectedUpdatedAtMs: nat, requestFingerprint: string, status: AttemptStatus,
    startedAtMs: nat, updatedAtMs: nat)

  datatype Checkpoint = Checkpoint(
    spec: string, sessionId: nat, goalId: nat, planRevision: nat, sequence: nat, task: Tasks.Task, model: string,
    messages: seq<Message>, workspaceRevision: string, policyFingerprint: PolicyDigest, createdAtMs: nat,
    updatedAtMs: nat)

  datatype StoredWorkspace = StoredWorkspace(sessionId: nat, root: string, snapshot: Snapshot)

  /** The session's rows; workspace snapshots in revision order. */
  datatype Rows = Rows(session: Session, checkpoint: Checkpoint, attempt: Option<Attempt>,
                       workspaces: seq<StoredWorkspace>)

  datatype StoreError =
    InvalidAttempt | AttemptConflict | InvalidStoredSession | InvalidStoredCheckpoint | InvalidStoredWorkspace
    | CommitConflict | InvalidResolution | ResolutionConflict

  // ---- Checkpoints ----

  predicate ValidText(s: string, limit: nat) {
    !Blank(s) && Bytes(s) <= limit && forall i :: 0 <= i < |s| ==> !Control(s[i])
  }

  predicate ValidDigest(p: PolicyDigest) {
    match p case PolicySha256(_) => true case ForeignDigest(text) => ValidText(text, MAX_BINDING_BYTES)
  }

  /** `AutoModeCheckpoint::validate`. */
  predicate ValidCheckpoint(c: Checkpoint) {
    && Tasks.ValidTask(c.task)
    && c.spec == CHECKPOINT_SPEC
    && c.planRevision != 0 && c.sequence != 0
    && c.updatedAtMs >= c.createdAtMs
    && c.task.status in {Tasks.Planning, Tasks.Running, Tasks.Paused, Tasks.Succeeded, Tasks.Cancelled}
    && !Blank(c.model) && Bytes(c.model) <= MAX_MODEL_BYTES
    && ValidText(c.workspaceRevision, MAX_BINDING_BYTES) && ValidDigest(c.policyFingerprint)
    && Accepted(c.messages, None)
  }

  /** Text that is stored as a key: not blank, short and without control characters. */
  lemma TextIff(s: string, limit: nat)
    ensures ValidText(s, limit) <==>
              (exists c :: c in s && !Whitespace(c)) && Bytes(s) <= limit && forall c :: c in s ==> !Control(c)
  {
    hide Whitespace, Control, Bytes;
    if exists c :: c in s && !Whitespace(c) {
      var c :| c in s && !Whitespace(c);
      var i :| 0 <= i < |s| && s[i] == c;
    }
    if forall c :: c in s ==> !Control(c) {
      forall i | 0 <= i < |s| ensures !Control(s[i]) { assert s[i] in s; }
    }
  }

  /** Checkpoints that can be stored: a valid task that is planning, running, paused, succeeded or cancelled,
      and a conversation that pairs its calls with their results. */
  lemma CheckpointIff(c: Checkpoint)
    ensures ValidCheckpoint(c) <==>
              && Tasks.ValidTask(c.task) && c.spec == "nimora.auto-mode-checkpoint/1"
              && c.planRevision >= 1 && c.sequence >= 1 && c.createdAtMs <= c.updatedAtMs
              && (|| c.task.status.Planning? || c.task.status.Running? || c.task.status.Paused?
                  || c.task.status.Succeeded? || c.task.status.Cancelled?)
              && !Blank(c.model) && Bytes(c.model) <= 128 && ValidText(c.workspaceRevision, 256)
              && (c.policyFingerprint.ForeignDigest? ==> ValidText(c.policyFingerprint.text, 256))
              && WellPaired(c.messages, None)
  {
    AcceptedIffWellPaired(c.messages, None);
    hide Tasks.ValidTask, Blank, Bytes, ValidText, Accepted, WellPaired;
  }

  predicate MatchesBindings(c: Checkpoint, s: Session) {
    && c.sessionId == s.id && c.goalId == s.goalId && c.planRevision == s.planRevision
    && c.workspaceRevision == s.policy.workspaceRevision && c.policyFingerprint == s.policyFingerprint
  }

  // ---- Attempts ----

  function BeginAttempt(rows: Rows, sequence: nat, expectedUpdatedAtMs: nat, fingerprint: string, id: nat,
                        nowMs: nat): (Rows, Result<Attempt, StoreError>) {
    if sequence == 0 || !ValidText(fingerprint, MAX_FINGERPRINT_BYTES) then (rows, Failure(InvalidAttempt)) else
    var attempt := Attempt(id, rows.session.id, sequence, expectedUpdatedAtMs, fingerprint, Active, nowMs, nowMs);
    if rows.attempt.Some? || rows.session.status != Running || rows.session.updatedAtMs != expectedUpdatedAtMs
       || rows.checkpoint.sequence != sequence
    then (rows, Failure(AttemptConflict))
    else (rows.(attempt := Some(attempt)), Success(attempt))
  }

  function MarkIndeterminate(rows: Rows, attempt: Attempt, nowMs: nat): (Rows, Result<(), StoreError>) {
    if attempt.status != Active || nowMs < attempt.updatedAtMs then (rows, Failure(InvalidAttempt))
    else if rows.attempt.None? || rows.attempt.value.id != attempt.id || rows.attempt.value.status != Active
    then (rows, Failure(AttemptConflict))
    else (rows.(attempt := Some(rows.attempt.value.(status := Indeterminate, updatedAtMs := nowMs))), Success(()))
  }

  // ---- Commits ----

  /** The stored session row is the one the writer started from. */
  predicate SessionRowMatches(rows: Rows, session: Session, previousUpdatedAtMs: nat, status: Status) {
    && rows.session.id == session.id && rows.session.goalId == session.goalId
    && rows.session.planRevision == session.planRevision
    && rows.session.createdAtMs == session.createdAtMs && rows.session.updatedAtMs == previousUpdatedAtMs
    && rows.session.status == status
  }

  predicate CheckpointRowMatches(rows: Rows, c: Checkpoint, previousSequence: nat) {
    && rows.checkpoint.sessionId == c.sessionId && rows.checkpoint.goalId == c.goalId
    && rows.checkpoint.planRevision == c.planRevision && rows.checkpoint.sequence == previousSequence
  }

  function CommitResume(rows: Rows, session: Session, previousUpdatedAtMs: nat, c: Checkpoint,
                        previousSequence: nat): (Rows, Result<(), StoreError>) {
    if !ValidSession(session) then (rows, Failure(InvalidStoredSession))
    else if !ValidCheckpoint(c) then (rows, Failure(InvalidStoredCheckpoint))
    else if session.status != Running || c.task.status != Tasks.Running || c.sequence != previousSequence + 1
            || !MatchesBindings(c, session)
    then (rows, Failure(InvalidStoredCheckpoint))
    else if !SessionRowMatches(rows, session, previousUpdatedAtMs, Paused)
            || !CheckpointRowMatches(rows, c, previousSequence)
    then (rows, Failure(CommitConflict))
    else (rows.(session := session, checkpoint := c), Success(()))
  }

  predicate TurnCoupled(session: Status, task: Tasks.TaskStatus) {
    (session == Running && task == Tasks.Running) || (session == Paused && task == Tasks.Paused)
    || (session == Completed && task == Tasks.Succeeded)
  }

  function CommitTurn(rows: Rows, attempt: Attempt, session: Session, previousUpdatedAtMs: nat, c: Checkpoint,
                      previousSequence: nat)
    : (Rows, Result<(), StoreError>)
  {
    if !ValidSession(session) then (rows, Failure(InvalidStoredSession))
    else if !ValidCheckpoint(c) then (rows, Failure(InvalidStoredCheckpoint))
    else if attempt.status != Active || attempt.sessionId != session.id || attempt.sequence != previousSequence
            || attempt.expectedUpdatedAtMs != previousUpdatedAtMs || !TurnCoupled(session.status, c.task.status)
            || c.sequence != previousSequence + 1 || !MatchesBindings(c, session)
    then (rows, Failure(InvalidStoredCheckpoint))
    else if !SessionRowMatches(rows, session, previousUpdatedAtMs, Running)
            || !CheckpointRowMatches(rows, c, previousSequence)
            || rows.attempt.None? || rows.attempt.value.id != attempt.id
            || rows.attempt.value.sequence != attempt.sequence
            || rows.attempt.value.expectedUpdatedAtMs != attempt.expectedUpdatedAtMs
            || rows.attempt.value.requestFingerprint != attempt.requestFingerprint
            || rows.attempt.value.status != Active
    then (rows, Failure(CommitConflict))
    else (rows.(session := session, checkpoint := c, attempt := None), Success(()))
  }

  predicate ControlCoupled(session: Status, task: Tasks.TaskStatus) {
    (session == Paused && task == Tasks.Paused) || (session == Cancelled && task == Tasks.Cancelled)
  }

  function CommitHostControl(rows: Rows, session: Session, previousUpdatedAtMs: nat, c: Checkpoint,
                             previousSequence: nat): (Rows, Result<(), StoreError>) {
    if !ValidSession(session) then (rows, Failure(InvalidStoredSession))
    else if !ValidCheckpoint(c) then (rows, Failure(InvalidStoredCheckpoint))
    else if !ControlCoupled(session.status, c.task.status) || c.sequence != previousSequence + 1
            || !MatchesBindings(c, session)
    then (rows, Failure(InvalidStoredCheckpoint))
    else if !SessionRowMatches(rows, session, previousUpdatedAtMs, Running)
            || !CheckpointRowMatches(rows, c, previousSequence)
    then (rows, Failure(CommitConflict))
    else (rows.(session := session, checkpoint := c), Success(()))
  }

  function Latest(rows: Rows): Option<StoredWorkspace> {
    if rows.workspaces == [] then None else Some(rows.workspaces[|rows.workspaces| - 1])
  }

  function CommitDrift(h: Digest, rows: Rows, session: Session, previousUpdatedAtMs: nat, c: Checkpoint,
                       previousSequence: nat,
                       workspace: StoredWorkspace, previousRevision: nat,
                       previousFingerprint: string): (Rows, Result<(), StoreError>)
  {
    if !ValidSession(session) then (rows, Failure(InvalidStoredSession))
    else if !ValidCheckpoint(c) then (rows, Failure(InvalidStoredCheckpoint))
    else if Validate(h, workspace.snapshot).Failure?
            || session.status != Paused || session.pauseReason != Some(WorkspaceChanged)
            || c.task.status != Tasks.Paused || c.sequence != previousSequence + 1
            || workspace.sessionId != session.id || workspace.snapshot.revision != previousRevision + 1
            || workspace.snapshot.parentFingerprint != Some(previousFingerprint)
    then (rows, Failure(InvalidStoredWorkspace))
    else if rows.session.id != session.id || rows.session.updatedAtMs != previousUpdatedAtMs
            || rows.session.status != Running
            || rows.checkpoint.sessionId != c.sessionId || rows.checkpoint.sequence != previousSequence
            || Latest(rows).None? || Latest(rows).value.snapshot.revision != previousRevision
            || Latest(rows).value.snapshot.fingerprint != previousFingerprint
            || Latest(rows).value.root != workspace.root
    then (rows, Failure(CommitConflict))
    else (rows.(session := session, checkpoint := c, workspaces := rows.workspaces + [workspace]), Success(()))
  }

  /** `pause_running_after_restart`, as far as this session is concerned. */
  function PauseAfterRestart(rows: Rows, nowMs: nat): (Rows, Result<(), StoreError>) {
    if rows.session.status != Running then (rows, Success(())) else
    if !ValidSession(rows.session) then (rows, Failure(InvalidStoredSession)) else
    var paused := PauseSession(rows.session, Restarted, nowMs);
    if paused.Failure? then (rows, Failure(InvalidStoredSession)) else (rows.(session := paused.value), Success(()))
  }

  // ---- Manual resolution ----

  datatype Verdict = ConfirmedNotExecuted | AcceptExternalEffectAndCancel

  datatype Resolution = Resolution(
    attemptId: nat, sequence: nat, requestFingerprint: string, verdict: Verdict, actor: string, reason: Option<string>,
    resolvedAtMs: nat)

  /** `converge_state`. */
  function Converged(session: Session, task: Tasks.Task, verdict: Verdict, nowMs: nat): Option<(Session, Tasks.Task)> {
    match verdict
    case ConfirmedNotExecuted =>
      var s := if session.status == Running then PauseSession(session, UserRequested, nowMs)
               else if session.status == Paused then Success(session) else Failure(InvalidTransition);
      var t := if task.status == Tasks.Running then Tasks.Transition(task, Tasks.Paused, nowMs)
               else if task.status == Tasks.Paused
               then (task, Success(())) else (task, Failure(Tasks.InvalidTaskTransition));
      if s.Failure? || t.1.Failure? then None else Some((s.value, t.0))
    case AcceptExternalEffectAndCancel =>
      var s := CancelSession(session, nowMs);
      if s.Failure? then None else Some((s.value, Tasks.CancelTask(task, nowMs)))
  }

  predicate ResolutionApplies(rows: Rows, r: Resolution) {
    && rows.attempt.Some?
    && var attempt := rows.attempt.value;
       && attempt.status == Indeterminate && attempt.id == r.attemptId && attempt.sequence == r.sequence
       && attempt.requestFingerprint == r.requestFingerprint
       && rows.checkpoint.sequence == r.sequence
       && r.resolvedAtMs >= attempt.updatedAtMs && r.resolvedAtMs >= rows.session.updatedAtMs
       && r.resolvedAtMs >= rows.checkpoint.updatedAtMs
       && MatchesBindings(rows.checkpoint, rows.session)
  }

  function Resolve(rows: Rows, r: Resolution): (Rows, Result<(), StoreError>) {
    if r.sequence == 0 || !ValidText(r.requestFingerprint, 256) || !ValidText(r.actor, MAX_ACTOR_BYTES)
       || (r.reason.Some? && (Bytes(r.reason.value) > MAX_REASON_BYTES
                              || exists i :: 0 <= i < |r.reason.value| && Control(r.reason.value[i])))
    then (rows, Failure(InvalidResolution))
    else if !ResolutionApplies(rows, r) then (rows, Failure(ResolutionConflict))
    else
      var converged := Converged(rows.session, rows.checkpoint.task, r.verdict, r.resolvedAtMs);
      if converged.None? then (rows, Failure(InvalidResolution)) else
      var (session, task) := converged.value;
      var c := rows.checkpoint.(task := task, sequence := rows.checkpoint.sequence + 1, updatedAtMs := r.resolvedAtMs);
      if !ValidCheckpoint(c) || !ValidSession(session) then (rows, Failure(InvalidResolution))
      else (rows.(session := session, checkpoint := c, attempt := None), Success(()))
  }

  // ---- What every transaction keeps ----

  /** The statuses that can be stored together. Only a restart leaves a running task behind a paused
      session; the last is the state a session is created in. */
  predicate Coupled(session: Session, task: Tasks.TaskStatus) {
    || (session.status == Running && task == Tasks.Running)
    || (session.status == Paused && task == Tasks.Paused)
    || (session.status == Paused && task == Tasks.Running && session.pauseReason == Some(Restarted))
    || (session.status == Completed && task == Tasks.Succeeded)
    || (session.status == Cancelled && task == Tasks.Cancelled)
    || (session.status == Paused && task == Tasks.Planning)
  }

  datatype Transaction =
    | DoBegin(sequence: nat, expectedUpdatedAtMs: nat, fingerprint: string, id: nat, nowMs: nat)
    | DoMark(attempt: Attempt, nowMs: nat)
    | DoResume(session: Session, previousUpdatedAtMs: nat, checkpoint: Checkpoint, previousSequence: nat)
    | DoTurn(attempt: Attempt, session: Session, previousUpdatedAtMs: nat, checkpoint: Checkpoint,
             previousSequence: nat)
    | DoControl(session: Session, previousUpdatedAtMs: nat, checkpoint: Checkpoint, previousSequence: nat)
    | DoDrift(session: Session, previousUpdatedAtMs: nat, checkpoint: Checkpoint, previousSequence: nat,
              workspace: StoredWorkspace,
              previousRevision: nat, previousFingerprint: string)
    | DoRestart(nowMs: nat)
    | DoResolve(resolution: Resolution)

  function Execute(h: Digest, rows: Rows, t: Transaction): Rows {
    match t
    case DoBegin(sequence, expected, fingerprint, id, nowMs) =>
      BeginAttempt(rows, sequence, expected, fingerprint, id, nowMs).0
    case DoMark(attempt, nowMs) => MarkIndeterminate(rows, attempt, nowMs).0
    case DoResume(session, updated, c, sequence) => CommitResume(rows, session, updated, c, sequence).0
    case DoTurn(attempt, session, updated, c, sequence) => CommitTurn(rows, attempt, session, updated, c, sequence).0
    case DoControl(session, updated, c, sequence) => CommitHostControl(rows, session, updated, c, sequence).0
    case DoDrift(session, updated, c, sequence, w, revision, fingerprint) =>
      CommitDrift(h, rows, session, updated, c, sequence, w, revision, fingerprint).0
    case DoRestart(nowMs) => PauseAfterRestart(rows, nowMs).0
    case DoResolve(r) => Resolve(rows, r).0
  }

  /** Session and checkpoint move together: whatever a transaction is given, the stored statuses stay
      coupled, the checkpoint changes only together with its sequence, by exactly one, and a session
      or task that is stored as finished stays as it is. */
  lemma TransactionKeepsCoupling(h: Digest, rows: Rows, t: Transaction)
    requires Coupled(rows.session, rows.checkpoint.task.status)
    ensures var after := Execute(h, rows, t);
            && Coupled(after.session, after.checkpoint.task.status)
            && (after.checkpoint != rows.checkpoint <==> after.checkpoint.sequence == rows.checkpoint.sequence + 1)
            && (after.checkpoint == rows.checkpoint || after.checkpoint.sequence == rows.checkpoint.sequence + 1)
            && (after.session != rows.session && after.checkpoint == rows.checkpoint ==>
                  t.DoRestart? && rows.session.status == Running && after.session == rows.session.(
                    status := Paused, pauseReason := Some(Restarted), updatedAtMs := t.nowMs))
            && (after.session.status == Paused && after.checkpoint.task.status == Tasks.Running ==>
                  t.DoRestart? || (after.session == rows.session && after.checkpoint == rows.checkpoint))
            && (rows.session.status in {Completed, Cancelled} ==>
                     after.session == rows.session && after.checkpoint == rows.checkpoint)
  {
    hide ValidSession, ValidCheckpoint, ValidText, MatchesBindings, Validate, Tasks.CancelTask;
    match t {
      case DoResolve(r) =>
        hide PauseSession;
        ResolveKeepsCoupling(rows, r);
      case _ =>
    }
  }

  lemma ResolveKeepsCoupling(rows: Rows, r: Resolution)
    requires Coupled(rows.session, rows.checkpoint.task.status)
    ensures var (after, done) := Resolve(rows, r);
            if done.Failure? then after == rows
            else && Coupled(after.session, after.checkpoint.task.status)
                 && after.checkpoint.sequence == rows.checkpoint.sequence + 1
                 && rows.session.status !in {Completed, Cancelled}
  {
    hide ValidSession, ValidCheckpoint, ValidText, MatchesBindings;
  }

  // ---- Writers that come too late ----

  /** The checkpoint sequence a commit was prepared for. */
  function PreparedFor(t: Transaction): Option<nat> {
    match t
    case DoResume(_, _, _, previousSequence) => Some(previousSequence)
    case DoTurn(_, _, _, _, previousSequence) => Some(previousSequence)
    case DoControl(_, _, _, previousSequence) => Some(previousSequence)
    case DoDrift(_, _, _, previousSequence, _, _, _) => Some(previousSequence)
    case DoBegin(sequence, _, _, _, _) => Some(sequence)
    case _ => None
  }

  /** Of any two commits prepared for the same sequence at most one takes effect, in whichever order
      they run and whatever they write: the second finds the store as the first left it. */
  lemma SecondCommitLoses(h: Digest, rows: Rows, first: Transaction, second: Transaction)
    requires Coupled(rows.session, rows.checkpoint.task.status)
    requires PreparedFor(first).Some? && PreparedFor(second) == PreparedFor(first)
    requires Execute(h, rows, first).checkpoint != rows.checkpoint
    ensures Execute(h, Execute(h, rows, first), second) == Execute(h, rows, first)
  {
    hide Execute, Coupled;
    TransactionKeepsCoupling(h, rows, first);
    CommitsAtItsSequence(h, rows, first);
    var after := Execute(h, rows, first);
    if Execute(h, after, second) != after { CommitsAtItsSequence(h, after, second); }
  }

  /** A commit, or the record of an attempt, changes nothing unless the store is at its sequence. */
  lemma CommitsAtItsSequence(h: Digest, rows: Rows, t: Transaction)
    requires PreparedFor(t).Some? && Execute(h, rows, t) != rows
    ensures rows.checkpoint.sequence == PreparedFor(t).value
  {
    hide ValidSession, ValidCheckpoint, ValidText, MatchesBindings, Validate;
  }

  /** Once a restart has paused the session, whatever a host that survived it still writes as part of its
      turn is refused; only a resume, a mark or a resolution changes the store. */
  lemma RestartStopsWriters(h: Digest, rows: Rows, nowMs: nat, t: Transaction)
    requires var paused := Execute(h, rows, DoRestart(nowMs)); paused != rows && Execute(h, paused, t) != paused
    ensures t.DoResume? || t.DoMark? || t.DoResolve?
  {
    hide ValidSession, ValidCheckpoint, ValidText, MatchesBindings, Validate, Resolve, CommitResume, MarkIndeterminate;
  }

  /** An attempt is committed at most once and only while active: a turn that commits takes its attempt
      away, and behind a mark no turn commits. */
  lemma AttemptCommitsOnce(h: Digest, rows: Rows, t: Transaction, a: Attempt, nowMs: nat)
    requires t.DoTurn?
    ensures Execute(h, rows, t) != rows ==>
              && rows.attempt.Some? && rows.attempt.value.status == Active && Execute(h, rows, t).attempt.None?
              && Execute(h, Execute(h, rows, t), t) == Execute(h, rows, t)
    ensures Execute(h, rows, DoMark(a, nowMs)) != rows ==>
              Execute(h, Execute(h, rows, DoMark(a, nowMs)), t) == Execute(h, rows, DoMark(a, nowMs))
  {
    hide ValidSession, ValidCheckpoint, ValidText, MatchesBindings, Validate;
  }
}
