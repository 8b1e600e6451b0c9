/** What a host can always do: in every reachable state, whoever holds the stored turn holds exactly what is
    stored, so its services are refused only for the clock, the time budget or the files. */
module DurableProgress {
  import opened Wrappers
  import opened AutoMode
  import Tasks = AgentTasks
  import Supervisor
  import opened Workspace
  import opened TurnStore
  import opened AutoHost
  import opened DurableEffects
  import opened DurableTurns
  import DS = DurableSafety
  import DH = DurableHistory
  import DC = DurableCoupling

  // ---- The invariant ----

  /** Session and task in a host's hands are the stored ones; a recovered task has been paused, and a
      session that was running may have been paused in the store by a restart. */
  ghost predicate SameState(rows: Rows, t: Turn) {
    && t.model == rows.checkpoint.model && t.messages == rows.checkpoint.messages
    && (|| (&& t.session == rows.session
            && (rows.session.status == Running ==> t.task == rows.checkpoint.task)
            && (rows.session.status == Paused ==>
                  t.task == rows.checkpoint.task.(status := Tasks.Paused, updatedAtMs := t.task.updatedAtMs)))
        || (rows.session.status == Paused && t.session.status == Running))
  }

  ghost predicate InStep(rows: Rows, host: Host) {
    var t := host.turn;
    && t.sequence <= rows.checkpoint.sequence
    && (t.sequence == rows.checkpoint.sequence ==>
          && rows.workspaces != []
          && rows.workspaces[|rows.workspaces| - 1].snapshot.fingerprint == t.workspace.fingerprint
          && t.goal.planGoalId == t.goal.id && t.checkpointCreatedAtMs == rows.checkpoint.createdAtMs
          && (!host.Answered? ==> BoundToSession(t) && BoundTogether(rows) && SameState(rows, t)))
  }

  ghost predicate AllInStep(net: Net) {
    forall a :: a in net.hosts ==> InStep(net.rows, net.hosts[a])
  }

  /** No host is added or moved, and the rows change at most in the attempt or by a restart. */
  lemma InStepStays(net: Net, after: Net)
    requires AllInStep(net)
    requires after.rows.checkpoint == net.rows.checkpoint && after.rows.workspaces == net.rows.workspaces
    requires after.rows.session == net.rows.session
             || (net.rows.session.status == Running
                 && after.rows.session == net.rows.session.(
                      status := Paused, pauseReason := after.rows.session.pauseReason,
                      updatedAtMs := after.rows.session.updatedAtMs))
    requires forall a :: a in after.hosts ==>
               a in net.hosts && (after.hosts[a] == net.hosts[a] || InStep(after.rows, after.hosts[a]))
    ensures AllInStep(after)
  {
    forall a | a in after.hosts ensures InStep(after.rows, after.hosts[a]) {
      assert InStep(net.rows, net.hosts[a]);
    }
  }

  /** A commit by one host leaves everyone else behind. */
  lemma InStepCommit(net: Net, after: Net, host: nat)
    requires AllInStep(net) && after.rows.checkpoint.sequence == net.rows.checkpoint.sequence + 1
    requires forall a :: a in after.hosts ==>
               (a in net.hosts && after.hosts[a] == net.hosts[a]) || (a == host && InStep(after.rows, after.hosts[a]))
    ensures AllInStep(after)
  {
    forall a | a in after.hosts ensures InStep(after.rows, after.hosts[a]) {
      if a in net.hosts && after.hosts[a] == net.hosts[a] { assert InStep(net.rows, net.hosts[a]); }
    }
  }

  lemma InStepRecover(h: Digest, net: Net, host: nat, goal: Goal, disk: Disk, nowMs: nat)
    requires AllInStep(net)
    ensures AllInStep(Recovering(h, net, host, goal, disk, nowMs))
  {
    hide Recover, Scanned, InTime;
    RecoversIff(h, net.rows, goal, disk, nowMs);
    var after := Recovering(h, net, host, goal, disk, nowMs);
    forall a | a in after.hosts ensures InStep(after.rows, after.hosts[a]) {
      if a in net.hosts { assert InStep(net.rows, net.hosts[a]); }
    }
  }

  lemma InStepResume(net: Net, host: nat, nowMs: nat)
    requires AllInStep(net)
    ensures AllInStep(Resuming(net, host, nowMs))
  {
    hide ResumeTurn, InTime, ValidSession, ValidCheckpoint;
    var after := Resuming(net, host, nowMs);
    if HeldBy(net, host).Some? {
      var t := HeldBy(net, host).value;
      ResumesIff(net.rows, t, nowMs);
      assert InStep(net.rows, net.hosts[host]);
      if ResumeTurn(net.rows, t, nowMs).1.Success? {
        InStepCommit(net, after, host);
      } else {
        InStepStays(net, after);
      }
    }
  }

  lemma InStepControl(net: Net, host: nat, control: ControlRequest, nowMs: nat)
    requires AllInStep(net)
    ensures AllInStep(Controlling(net, host, control, nowMs))
  {
    hide ControlTurn, InTime, ValidSession, ValidCheckpoint;
    var after := Controlling(net, host, control, nowMs);
    if HeldBy(net, host).Some? {
      var t := HeldBy(net, host).value;
      PausesIff(net.rows, t, nowMs);
      CancelsIff(net.rows, t, nowMs);
      assert InStep(net.rows, net.hosts[host]);
      if ControlTurn(net.rows, t, control, nowMs).1.Success? {
        InStepCommit(net, after, host);
      } else {
        InStepStays(net, after);
      }
    }
  }

  lemma InStepPreflight(h: Digest, net: Net, host: nat, disk: Disk, nowMs: nat)
    requires AllInStep(net)
    ensures AllInStep(Preflighting(h, net, host, disk, nowMs))
  {
    hide PreflightWorkspace, InTime, ValidSession, ValidCheckpoint, Scanned, FindsSuccessor;
    var after := Preflighting(h, net, host, disk, nowMs);
    if HeldBy(net, host).Some? {
      var t := HeldBy(net, host).value;
      assert InStep(net.rows, net.hosts[host]);
      if net.rows.workspaces == [] {
        NothingStored(h, net.rows, t, disk, nowMs);
        InStepStays(net, after);
      } else {
        DriftsIff(h, net.rows, t, disk, nowMs);
        ReadyIff(h, net.rows, t, disk, nowMs);
        var r := PreflightWorkspace(h, net.rows, t, disk, nowMs).1;
        if r.Success? && r.value.PausedForDrift? {
          InStepCommit(net, after, host);
        } else {
          InStepStays(net, after);
        }
      }
    }
  }

  lemma NothingStored(h: Digest, rows: Rows, t: Turn, disk: Disk, nowMs: nat)
    requires rows.workspaces == []
    ensures PreflightWorkspace(h, rows, t, disk, nowMs).0 == rows
    ensures PreflightWorkspace(h, rows, t, disk, nowMs).1.Failure?
  {
    hide ScanFiles, CommitDriftOf;
  }

  lemma InStepBegin(net: Net, host: nat, id: nat, fingerprint: string, nowMs: nat)
    requires AllInStep(net)
    ensures AllInStep(Beginning(net, host, id, fingerprint, nowMs))
  {
    hide BeginTurn, ValidText;
    if host in net.hosts && net.hosts[host].Checked? {
      DS.BeginRows(net.rows, net.hosts[host].turn, fingerprint, id, nowMs);
      assert InStep(net.rows, net.hosts[host]);
      var after := Beginning(net, host, id, fingerprint, nowMs);
      assert after.rows == BeginTurn(net.rows, net.hosts[host].turn, fingerprint, id, nowMs).0;
      InStepStays(net, after);
    }
  }

  /** A committed turn is handed back as it is stored. */
  lemma CommittedInStep(rows: Rows, attempt: Attempt, t: Turn, outcome: Supervisor.Outcome, nowMs: nat, stored: bool)
    requires InStep(rows, Answered(attempt, t, Success(outcome)))
    ensures var (after, r) := CommitOutcome(rows, attempt, t, outcome, nowMs, stored);
            if r.Success? then after.checkpoint.sequence == rows.checkpoint.sequence + 1
                               && InStep(after, Holding(r.value.turn))
            else after == rows || (rows.attempt.Some? && after == Marked(rows, nowMs))
  {
    hide CommitOutcome, ValidSession, ValidCheckpoint, InTime;
    if CommitOutcome(rows, attempt, t, outcome, nowMs, stored).1.Failure? {
      RefusedTurn(rows, attempt, t, outcome, nowMs, stored);
    } else {
      match outcome {
        case TurnContinues(messages) => ContinueCommitsIff(rows, attempt, t, messages, nowMs, stored);
        case TurnPaused(reason, calls) => PauseCommitsIff(rows, attempt, t, reason, calls, nowMs, stored);
        case TurnCompleted(response) => CompletionCommitsIff(rows, attempt, t, response, nowMs, stored);
      }
    }
  }

  lemma InStepFinish(net: Net, host: nat, nowMs: nat, stored: bool)
    requires AllInStep(net)
    ensures AllInStep(Finishing(net, host, nowMs, stored))
  {
    hide CommitOutcome, MarkIndeterminate;
    if host in net.hosts && net.hosts[host].Answered? {
      var Answered(attempt, t, outcome) := net.hosts[host];
      var after := Finishing(net, host, nowMs, stored);
      assert InStep(net.rows, net.hosts[host]);
      if outcome.Failure? {
        MarksIff(net.rows, attempt, nowMs);
        InStepStays(net, after);
      } else {
        CommittedInStep(net.rows, attempt, t, outcome.value, nowMs, stored);
        if CommitOutcome(net.rows, attempt, t, outcome.value, nowMs, stored).1.Success? {
          InStepCommit(net, after, host);
        } else {
          InStepStays(net, after);
        }
      }
    }
  }

  lemma InStepCall(net: Net, host: nat, env: Supervisor.Env, input: Supervisor.StepInput)
    requires AllInStep(net)
    ensures AllInStep(Calling(net, host, env, input))
  {
    hide Supervised;
    if host in net.hosts && net.hosts[host].Begun? {
      assert InStep(net.rows, net.hosts[host]);
      InStepStays(net, Calling(net, host, env, input));
    }
  }

  lemma InStepCopy(net: Net, host: nat, other: nat)
    requires AllInStep(net)
    ensures AllInStep(Copying(net, host, other))
  {
    var after := Copying(net, host, other);
    forall a | a in after.hosts ensures InStep(after.rows, after.hosts[a]) {
      assert InStep(net.rows, if a in net.hosts then net.hosts[a] else net.hosts[host]);
    }
  }

  lemma StepKeepsInStep(h: Digest, net: Net, e: Event)
    requires AllInStep(net)
    ensures AllInStep(Step(h, net, e))
  {
    hide AllInStep, Resolve, PauseAfterRestart, Recovering, Beginning, Finishing, Preflighting, Resuming, Controlling,
         Copying, Calling;
    match e {
      case RecoverBy(host, goal, disk, nowMs) => InStepRecover(h, net, host, goal, disk, nowMs);
      case ResumeBy(host, nowMs) => InStepResume(net, host, nowMs);
      case CopyTurn(host, other) => InStepCopy(net, host, other);
      case PreflightBy(host, disk, nowMs) => InStepPreflight(h, net, host, disk, nowMs);
      case BeginBy(host, id, fingerprint, nowMs) => InStepBegin(net, host, id, fingerprint, nowMs);
      case CallBy(host, env, input) => InStepCall(net, host, env, input);
      case FinishBy(host, nowMs, stored) => InStepFinish(net, host, nowMs, stored);
      case ControlBy(host, control, nowMs) => InStepControl(net, host, control, nowMs);
      case Crash(host) => InStepStays(net, Step(h, net, e));
      case Restart(nowMs) =>
        RestartsIff(net.rows, nowMs);
        InStepStays(net, Step(h, net, e));
      case ResolveAttempt(r) =>
        DS.ResolveRows(net.rows, r);
        if Resolve(net.rows, r).1.Success? { InStepCommit(net, Step(h, net, e), 0); }
    }
  }

  lemma {:induction false} RunKeepsInStep(h: Digest, net: Net, events: seq<Event>)
    requires AllInStep(net)
    ensures AllInStep(Run(h, net, events))
    decreases events
  {
    hide AllInStep, Step;
    if events != [] {
      StepKeepsInStep(h, net, events[0]);
      RunKeepsInStep(h, Step(h, net, events[0]), events[1..]);
    }
  }

  // ---- What the holder of the stored turn can do ----

  /** The host holds the turn that is stored. */
  ghost predicate Stored(rows: Rows, t: Turn) {
    DH.StoredValid(rows) && InStep(rows, Holding(t)) && t.sequence == rows.checkpoint.sequence
  }

  /** The clock has not gone back behind anything that is stored. */
  predicate ClockGoesOn(rows: Rows, nowMs: nat) {
    && rows.session.updatedAtMs <= nowMs && rows.checkpoint.createdAtMs <= nowMs
    && rows.checkpoint.task.createdAtMs <= nowMs
  }

  /** Moving status, reason and time of a valid session keeps it valid if its clock goes on. */
  lemma MovedSessionValid(s: Session, status: Status, reason: Option<PauseReason>, nowMs: nat)
    requires ValidSession(s) && s.updatedAtMs <= nowMs && (status == Paused <==> reason.Some?)
    ensures ValidSession(s.(status := status, pauseReason := reason, updatedAtMs := nowMs))
  {
    hide ValidPolicy, ExceedsBudget;
  }

  /** The next checkpoint of the stored turn is valid. */
  lemma NextCheckpointValid(rows: Rows, t: Turn, status: Tasks.TaskStatus, nowMs: nat)
    requires Stored(rows, t) && t.session == rows.session && ClockGoesOn(rows, nowMs)
    requires t.task == rows.checkpoint.task.(status := t.task.status, updatedAtMs := t.task.updatedAtMs)
    requires status in {Tasks.Running, Tasks.Paused, Tasks.Cancelled}
    ensures ValidCheckpoint(NextCheckpoint(t, t.task.(status := status, updatedAtMs := nowMs), t.messages,
                                           t.workspace.fingerprint, nowMs))
  {
    hide ValidText, ValidDigest, ValidSession;
  }

  /** Pausing or cancelling a stored running turn, and committing that its files changed, can fail only
      because of the time budget or the files. */
  lemma RunningTurnServed(h: Digest, rows: Rows, t: Turn, disk: Disk, nowMs: nat)
    requires Stored(rows, t) && rows.session.status == Running && rows.checkpoint.task.status == Tasks.Running
    requires ClockGoesOn(rows, nowMs)
    ensures ControlTurn(rows, t, PauseRequest, nowMs).1.Success? <==> InTime(rows.checkpoint.task, nowMs)
    ensures ControlTurn(rows, t, CancelRequest, nowMs).1.Success?
    ensures rows.workspaces != []
    ensures var r := PreflightWorkspace(h, rows, t, disk, nowMs).1;
            r.Success? && r.value.PausedForDrift?
            <==> && FindsSuccessor(h, rows.workspaces[|rows.workspaces| - 1], disk, nowMs)
                 && InTime(rows.checkpoint.task, nowMs)
  {
    hide FindsSuccessor, ValidSession, ValidCheckpoint, PreflightWorkspace, ControlTurn;
    assert ValidSession(rows.session);
    PausesIff(rows, t, nowMs);
    CancelsIff(rows, t, nowMs);
    DriftsIff(h, rows, t, disk, nowMs);
    MovedSessionValid(rows.session, Paused, Some(WorkspaceChanged), nowMs);
    MovedSessionValid(rows.session, Paused, Some(UserRequested), nowMs);
    MovedSessionValid(rows.session, Cancelled, None, nowMs);
    NextCheckpointValid(rows, t, Tasks.Paused, nowMs);
    NextCheckpointValid(rows, t, Tasks.Cancelled, nowMs);
  }

  /** Resuming a stored paused turn can fail only because of its goal or the time budget. */
  lemma PausedTurnResumes(rows: Rows, t: Turn, nowMs: nat)
    requires Stored(rows, t) && rows.session.status == Paused && t.session.status == Paused && ClockGoesOn(rows, nowMs)
    ensures ResumeTurn(rows, t, nowMs).1.Success? <==> t.goal.active && InTime(rows.checkpoint.task, nowMs)
  {
    hide ValidSession, ValidCheckpoint, ResumeTurn;
    assert ValidSession(rows.session);
    ResumesIff(rows, t, nowMs);
    MovedSessionValid(rows.session, Running, None, nowMs);
    NextCheckpointValid(rows, t, Tasks.Running, nowMs);
  }

  /** In every state that a created session can reach, and for whichever host holds the stored turn while
      the clock goes on: if the session runs, it can be cancelled, it can be paused iff its time budget has
      not run out, and changed files are committed as a drift iff, besides, they can be scanned; if both
      are paused, it can be resumed iff the goal is active and the time budget has not run out. */
  lemma StoredTurnIsServed(h: Digest, rows: Rows, events: seq<Event>, host: nat, disk: Disk, nowMs: nat)
    requires Created(h, rows) && DH.Possible(events)
    requires var at := Run(h, Start(rows), events);
             && HeldBy(at, host).Some? && HeldBy(at, host).value.sequence == at.rows.checkpoint.sequence
             && ClockGoesOn(at.rows, nowMs)
    ensures var at := Run(h, Start(rows), events).rows;
            var t := HeldBy(Run(h, Start(rows), events), host).value;
            var inTime := nowMs <= at.checkpoint.task.createdAtMs + at.checkpoint.task.budget.maxElapsedMs;
            && at.workspaces != []
            && (at.session.status == Running ==>
                  && ControlTurn(at, t, CancelRequest, nowMs).1.Success?
                  && (ControlTurn(at, t, PauseRequest, nowMs).1.Success? <==> inTime)
                  && var r := PreflightWorkspace(h, at, t, disk, nowMs).1;
                     (r.Success? && r.value.PausedForDrift?
                      <==> FindsSuccessor(h, at.workspaces[|at.workspaces| - 1], disk, nowMs) && inTime))
            && (at.session.status == Paused && t.session.status == Paused ==>
                  (ResumeTurn(at, t, nowMs).1.Success? <==> t.goal.active && inTime))
  {
    hide Step, DH.Possible, ResumeTurn, ControlTurn, PreflightWorkspace, FindsSuccessor;
    RunKeepsInStep(h, Start(rows), events);
    DC.CreatedSessionsAreSound(h, rows, events);
    hide Run, Created;
    var net := Run(h, Start(rows), events);
    var t := HeldBy(net, host).value;
    assert InStep(net.rows, net.hosts[host]);
    assert Stored(net.rows, t);
    hide Stored, InStep;
    if net.rows.session.status == Running { RunningTurnServed(h, net.rows, t, disk, nowMs); }
    if net.rows.session.status == Paused && t.session.status == Paused { PausedTurnResumes(net.rows, t, nowMs); }
  }
}
