/** States a durable session never leaves: finished, drifted, or created but never startable. */
module DurableFinality {
  import opened Wrappers
  import opened AutoMode
  import Tasks = AgentTasks
  import Supervisor
  import opened SupervisorSafety
  import opened Workspace
  import Sorting
  import opened TurnStore
  import opened AutoHost
  import opened DurableTurns
  import DE = DurableEffects
  import DS = DurableSafety
  import DH = DurableHistory

  // ---- The workspace chain ----

  ghost predicate CollisionFree(h: Digest) { forall a, b :: h(a) == h(b) ==> a == b }

  /** The stored snapshots are canonical, numbered and chained from the one the policy is bound to. */
  ghost predicate Chain(h: Digest, rows: Rows) {
    && rows.workspaces != []
    && rows.session.policy.workspaceRevision == rows.workspaces[0].snapshot.fingerprint
    && (forall i :: 0 <= i < |rows.workspaces| ==>
             Canonical(h, rows.workspaces[i].snapshot) && rows.workspaces[i].snapshot.revision == i + 1)
    && (forall i, j :: 0 <= i && j == i + 1 < |rows.workspaces| ==>
          rows.workspaces[j].snapshot.parentFingerprint == Some(rows.workspaces[i].snapshot.fingerprint))
  }

  lemma DriftExtendsChain(h: Digest, rows: Rows, t: Turn, disk: Disk, nowMs: nat)
    requires Chain(h, rows) && SameBinding(rows.session, t.session)
    ensures var (after, r) := PreflightWorkspace(h, rows, t, disk, nowMs);
            && Chain(h, after)
            && (if r.Success? && r.value.PausedForDrift?
                then |after.workspaces| == |rows.workspaces| + 1 && after.session.status == Paused
                else after == rows)
  {
    hide Canonical, NewSnapshot, ValidSession, ValidCheckpoint, Tasks.Transition;
    var last := Latest(rows).value;
    var (after, r) := PreflightWorkspace(h, rows, t, disk, nowMs);
    if r.Success? && r.value.PausedForDrift? {
      var added := after.workspaces[|after.workspaces| - 1];
      hide Validate;
      ValidIffCanonical(h, added.snapshot);
    }
  }

  /** Keeping the bindings and the snapshots keeps the chain. */
  lemma SameChain(h: Digest, rows: Rows, after: Rows)
    requires Chain(h, rows) && SameBinding(rows.session, after.session) && after.workspaces == rows.workspaces
    ensures Chain(h, after)
  {
    hide Canonical;
  }

  lemma OtherStepsKeepWorkspaces(h: Digest, net: Net, e: Event)
    requires !e.PreflightBy?
    ensures Step(h, net, e).rows.workspaces == net.rows.workspaces
  {
    hide ValidSession, ValidCheckpoint, Restored, Supervised, Settled, Resumed, Controlled, MatchesBindings, Converged,
         ValidText;
  }

  lemma {:induction false} ChainKept(h: Digest, net: Net, events: seq<Event>)
    requires Chain(h, net.rows) && DH.Remembers(net) && DS.Account(net) && DH.Possible(events)
    ensures Chain(h, Run(h, net, events).rows)
    decreases events
  {
    hide Chain, DH.Remembers, DS.Account, Step, DH.Extends;
    if events != [] {
      ChainStep(h, net, events[0]);
      DS.AccountStep(h, net, events[0]);
      DH.StepRemembers(h, net, events[0]);
      assert forall i :: 0 <= i < |events| - 1 ==> events[1..][i] == events[i + 1];
      ChainKept(h, Step(h, net, events[0]), events[1..]);
    }
  }

  lemma ChainStep(h: Digest, net: Net, e: Event)
    requires Chain(h, net.rows) && DH.Remembers(net) && DS.Account(net)
    ensures Chain(h, Step(h, net, e).rows)
  {
    hide Chain, DS.Account, PreflightWorkspace;
    if e.PreflightBy? {
      if HeldBy(net, e.host).Some? {
        assert DH.HostFollows(net, net.hosts[e.host]);
        DriftExtendsChain(h, net.rows, HeldBy(net, e.host).value, e.disk, e.nowMs);
      }
    } else {
      hide DH.Remembers, Step;
      DH.StepExtends(h, net, e);
      OtherStepsKeepWorkspaces(h, net, e);
      SameChain(h, net.rows, Step(h, net, e).rows);
    }
  }

  // ---- Recovery ----

  /** What is recovered is the stored state: the files on disk are those of the stored snapshot. */
  lemma RecoveredFilesUnchanged(h: Digest, rows: Rows, goal: Goal, disk: Disk, nowMs: nat)
    requires CollisionFree(h) && Chain(h, rows) && Recover(h, rows, goal, disk, nowMs).1.Success?
    ensures disk.files.Some?
    ensures Sorting.Sort(PathAtMost, disk.files.value) == Latest(rows).value.snapshot.files
    ensures |rows.workspaces| == 1
  {
    hide ValidFile, StrictPaths, ValidFingerprint, RepeatsPath, PausedTask;
    var stored := Latest(rows).value;
    assert Canonical(h, stored.snapshot) && Canonical(h, rows.workspaces[0].snapshot);
  }

  // ---- Frozen sessions ----

  /** Nothing this host can still do reaches the store. */
  ghost predicate Spent(rows: Rows, host: Host) {
    || host.turn.sequence < rows.checkpoint.sequence
    || (host.Holding? && host.turn.session.status in {Completed, Cancelled})
  }

  ghost predicate Frozen(h: Digest, net: Net) {
    && (net.rows.session.status in {Completed, Cancelled}
        || (net.rows.session.status == Paused && Chain(h, net.rows) && |net.rows.workspaces| >= 2))
    && (net.rows.attempt.Some? ==> net.rows.attempt.value.sequence < net.rows.checkpoint.sequence)
    && forall a :: a in net.hosts ==> Spent(net.rows, net.hosts[a])
  }

  ghost predicate SameStored(a: Rows, b: Rows) {
    a.session == b.session && a.checkpoint == b.checkpoint && a.workspaces == b.workspaces
    && DS.SameAttempt(a.attempt, b.attempt)
  }

  lemma NothingRecovered(h: Digest, rows: Rows, goal: Goal, disk: Disk, nowMs: nat)
    requires CollisionFree(h)
    requires rows.session.status in {Completed, Cancelled} || (Chain(h, rows) && |rows.workspaces| >= 2)
    ensures Recover(h, rows, goal, disk, nowMs).1.Failure?
  {
    hide Chain, Recover;
    if Recover(h, rows, goal, disk, nowMs).1.Success? {
      DE.RecoversIff(h, rows, goal, disk, nowMs);
      RecoveredFilesUnchanged(h, rows, goal, disk, nowMs);
    }
  }

  lemma SpentTurnFails(h: Digest, rows: Rows, t: Turn, disk: Disk, control: ControlRequest, nowMs: nat)
    requires Spent(rows, Holding(t))
    ensures ResumeTurn(rows, t, nowMs).1.Failure? && ControlTurn(rows, t, control, nowMs).1.Failure?
    ensures var (after, r) := PreflightWorkspace(h, rows, t, disk, nowMs);
            after == rows && (r.Success? ==> r.value.TurnReady? && Spent(rows, Checked(r.value.turn)))
  {
    hide ResumeTurn, ControlTurn, PreflightWorkspace;
    DS.ResumeRows(rows, t, nowMs);
    DS.ControlRows(rows, t, control, nowMs);
    DS.PreflightRows(h, rows, t, disk, nowMs);
    var r := PreflightWorkspace(h, rows, t, disk, nowMs).1;
    assert r.Success? ==> r.value.TurnReady? || r.value.PausedForDrift?;
    if t.sequence >= rows.checkpoint.sequence { TerminalTurnFails(h, rows, t, disk, control, nowMs); }
  }

  lemma TerminalTurnFails(h: Digest, rows: Rows, t: Turn, disk: Disk, control: ControlRequest, nowMs: nat)
    requires t.session.status in {Completed, Cancelled}
    ensures ResumeTurn(rows, t, nowMs).1.Failure? && ControlTurn(rows, t, control, nowMs).1.Failure?
    ensures PreflightWorkspace(h, rows, t, disk, nowMs).1.Failure?
  {
    hide Tasks.Transition, CommitResume, CommitHostControl, CommitDriftOf, ScanFiles;
  }

  lemma FrozenStep(h: Digest, net: Net, e: Event)
    requires CollisionFree(h) && Frozen(h, net)
    ensures var after := Step(h, net, e);
            SameStored(after.rows, net.rows) && after.begun == net.begun && forall a :: a in after.hosts ==>
              Spent(net.rows, after.hosts[a])
  {
    hide Recover, ResumeTurn, PreflightWorkspace, ControlTurn, Resolve, PauseAfterRestart, BeginTurn, Supervised,
         CommitOutcome, MarkIndeterminate, Chain;
    hide CollisionFree;
    match e {
      case RecoverBy(host, goal, disk, nowMs) =>
        DS.RecoverRows(h, net.rows, goal, disk, nowMs);
        NothingRecovered(h, net.rows, goal, disk, nowMs);
      case ResumeBy(host, nowMs) =>
        if HeldBy(net, host).Some? {
          DS.ResumeRows(net.rows, HeldBy(net, host).value, nowMs);
          SpentTurnFails(h, net.rows, HeldBy(net, host).value, Disk("", None, None), PauseRequest, nowMs);
        }
      case PreflightBy(host, disk, nowMs) =>
        if HeldBy(net, host).Some? { SpentTurnFails(h, net.rows, HeldBy(net, host).value, disk, PauseRequest, nowMs); }
      case BeginBy(host, id, fingerprint, nowMs) =>
        if host in net.hosts && net.hosts[host].Checked? {
          DS.BeginRows(net.rows, net.hosts[host].turn, fingerprint, id, nowMs);
        }
      case FinishBy(host, nowMs, stored) => FrozenFinish(h, net, host, nowMs, stored);
      case ControlBy(host, control, nowMs) =>
        if HeldBy(net, host).Some? {
          DS.ControlRows(net.rows, HeldBy(net, host).value, control, nowMs);
          SpentTurnFails(h, net.rows, HeldBy(net, host).value, Disk("", None, None), control, nowMs);
        }
      case Restart(nowMs) =>
        DS.RestartRows(net.rows, nowMs);
        NotRunning(net.rows, nowMs);
      case ResolveAttempt(r) => DS.ResolveRows(net.rows, r);
      case _ =>
    }
  }

  lemma NotRunning(rows: Rows, nowMs: nat)
    requires rows.session.status != Running
    ensures PauseAfterRestart(rows, nowMs).0 == rows
  {
  }

  lemma FrozenFinish(h: Digest, net: Net, host: nat, nowMs: nat, stored: bool)
    requires Frozen(h, net)
    ensures var after := Finishing(net, host, nowMs, stored);
            SameStored(after.rows, net.rows) && after.begun == net.begun && forall a :: a in after.hosts ==>
              Spent(net.rows, after.hosts[a])
  {
    hide CommitOutcome, MarkIndeterminate, Chain;
    if host in net.hosts && net.hosts[host].Answered? {
      var Answered(attempt, t, outcome) := net.hosts[host];
      DS.MarkRows(net.rows, attempt, nowMs);
      if outcome.Success? { DS.FinishRows(net.rows, attempt, t, outcome.value, nowMs, stored); }
    }
  }

  lemma StillFrozen(h: Digest, net: Net, after: Net)
    requires Frozen(h, net) && SameStored(after.rows, net.rows)
    requires forall a :: a in after.hosts ==> Spent(net.rows, after.hosts[a])
    ensures Frozen(h, after)
  {
    hide Canonical;
    if Chain(h, net.rows) { SameChain(h, net.rows, after.rows); }
  }

  lemma SameStoredOn(a: Rows, b: Rows, c: Rows)
    requires SameStored(b, a) && SameStored(c, b)
    ensures SameStored(c, a)
  {
  }

  /** A frozen session stays as it is in every run; no further attempt is recorded. */
  lemma {:induction false} FrozenForever(h: Digest, net: Net, events: seq<Event>)
    requires CollisionFree(h) && Frozen(h, net)
    ensures var end := Run(h, net, events); Frozen(h, end) && SameStored(end.rows, net.rows) && end.begun == net.begun
    decreases events
  {
    hide CollisionFree, Frozen, Step, SameStored;
    if events == [] {
      assert SameStored(net.rows, net.rows) by { SameItself(net.rows); }
    } else {
      var next := Step(h, net, events[0]);
      FrozenStep(h, net, events[0]);
      StillFrozen(h, net, next);
      FrozenForever(h, next, events[1..]);
      SameStoredOn(net.rows, next.rows, Run(h, next, events[1..]).rows);
    }
  }

  lemma SameItself(rows: Rows)
    ensures SameStored(rows, rows)
  {
  }

  /** Everyone else is behind a commit. */
  lemma CommitFreezes(h: Digest, net: Net, after: Net, host: nat)
    requires DH.Remembers(net) && DS.Account(net)
    requires DS.Moved(net.rows, after.rows) || DS.Closes(net.rows, after.rows)
    requires after.rows.session.status in {Completed, Cancelled}
             || (after.rows.session.status == Paused && Chain(h, after.rows) && |after.rows.workspaces| >= 2)
    requires forall a :: a in after.hosts ==>
               (a in net.hosts && after.hosts[a] == net.hosts[a])
               || (a == host && after.hosts[a].Holding? && after.hosts[a].turn.session.status in {Completed, Cancelled})
    ensures Frozen(h, after)
  {
    hide Chain, DH.StoredValid;
    forall a | a in after.hosts ensures Spent(after.rows, after.hosts[a]) {
      if a in net.hosts && after.hosts[a] == net.hosts[a] { assert DH.HostFollows(net, net.hosts[a]); }
    }
  }

  /** Drift is final: once a host has committed a drift, no run changes the stored session any more,
      no attempt is recorded, and no recovery succeeds, whatever the files become. */
  lemma DriftIsFinal(h: Digest, net: Net, host: nat, t: Turn, disk: Disk, nowMs: nat, events: seq<Event>, goal: Goal,
                     later: Disk, laterMs: nat)
    requires CollisionFree(h) && Chain(h, net.rows) && DH.Remembers(net) && DS.Account(net)
    requires HeldBy(net, host) == Some(t)
    requires var r := PreflightWorkspace(h, net.rows, t, disk, nowMs).1; r.Success? && r.value.PausedForDrift?
    ensures var drifted := Preflighting(h, net, host, disk, nowMs);
            var end := Run(h, drifted, events);
            && end.rows.session.status == Paused && SameStored(end.rows, drifted.rows) && end.begun == drifted.begun
            && Recover(h, end.rows, goal, later, laterMs).1.Failure?
  {
    hide CollisionFree, Chain, PreflightWorkspace, Run, Recover;
    assert DH.HostFollows(net, net.hosts[host]);
    DriftExtendsChain(h, net.rows, t, disk, nowMs);
    DS.PreflightRows(h, net.rows, t, disk, nowMs);
    var drifted := Preflighting(h, net, host, disk, nowMs);
    ChainLength(h, net.rows);
    CommitFreezes(h, net, drifted, host);
    FrozenForever(h, drifted, events);
    NothingRecovered(h, Run(h, drifted, events).rows, goal, later, laterMs);
  }

  lemma ChainLength(h: Digest, rows: Rows)
    requires Chain(h, rows)
    ensures |rows.workspaces| >= 1
  {
    hide Canonical;
  }

  /** A cancelled session is final. */
  lemma CancelIsFinal(h: Digest, net: Net, host: nat, t: Turn, nowMs: nat, events: seq<Event>)
    requires CollisionFree(h) && DH.Remembers(net) && DS.Account(net)
    requires HeldBy(net, host) == Some(t) && ControlTurn(net.rows, t, CancelRequest, nowMs).1.Success?
    ensures var cancelled := Controlling(net, host, CancelRequest, nowMs);
            var end := Run(h, cancelled, events);
            end.rows.session.status == Cancelled && SameStored(end.rows, cancelled.rows) && end.begun == cancelled.begun
  {
    hide CollisionFree, ControlTurn, Run;
    DS.ControlRows(net.rows, t, CancelRequest, nowMs);
    CancelledRows(net.rows, t, nowMs);
    var cancelled := Controlling(net, host, CancelRequest, nowMs);
    CommitFreezes(h, net, cancelled, host);
    FrozenForever(h, cancelled, events);
  }

  lemma CancelledRows(rows: Rows, t: Turn, nowMs: nat)
    requires ControlTurn(rows, t, CancelRequest, nowMs).1.Success?
    ensures var (after, r) := ControlTurn(rows, t, CancelRequest, nowMs);
            after.session.status == Cancelled && r.value.session == after.session
  {
    hide ValidSession, ValidCheckpoint, MatchesBindings;
  }

  /** A completed session is final. */
  lemma CompletionIsFinal(h: Digest, net: Net, host: nat, nowMs: nat, events: seq<Event>)
    requires CollisionFree(h) && DH.Remembers(net) && DS.Account(net)
    requires host in net.hosts && net.hosts[host].Answered? && net.hosts[host].outcome.Success?
    requires net.hosts[host].outcome.value.TurnCompleted?
    requires var Answered(attempt, t, outcome) := net.hosts[host];
             CommitOutcome(net.rows, attempt, t, outcome.value, nowMs, true).1.Success?
    ensures var completed := Finishing(net, host, nowMs, true);
            var end := Run(h, completed, events);
            end.rows.session.status == Completed && SameStored(end.rows, completed.rows) && end.begun == completed.begun
  {
    hide CollisionFree, CommitOutcome, Run;
    var Answered(attempt, t, outcome) := net.hosts[host];
    DS.FinishRows(net.rows, attempt, t, outcome.value, nowMs, true);
    CompletedRows(net.rows, attempt, t, outcome.value, nowMs);
    var completed := Finishing(net, host, nowMs, true);
    CommitFreezes(h, net, completed, host);
    FrozenForever(h, completed, events);
  }

  lemma CompletedRows(rows: Rows, attempt: Attempt, t: Turn, outcome: Supervisor.Outcome, nowMs: nat)
    requires outcome.TurnCompleted? && CommitOutcome(rows, attempt, t, outcome, nowMs, true).1.Success?
    ensures var (after, r) := CommitOutcome(rows, attempt, t, outcome, nowMs, true);
            after.session.status == Completed && r.value.turn.session == after.session
  {
    hide ValidSession, ValidCheckpoint, MatchesBindings, MarkIndeterminate;
  }

  // ---- Sessions that cannot start ----

  /** A session created with a planning task is never started: in every run the store stays as created
      and no host ever holds a turn. */
  lemma {:induction false} PlanningSessionNeverStarts(h: Digest, rows: Rows, events: seq<Event>)
    requires rows.session.status == Paused && rows.checkpoint.task.status == Tasks.Planning && rows.attempt.None?
    ensures Run(h, Start(rows), events) == Start(rows)
    decreases events
  {
    hide Step;
    if events != [] {
      PlanningStep(h, rows, events[0]);
      PlanningSessionNeverStarts(h, rows, events[1..]);
    }
  }

  lemma PlanningStep(h: Digest, rows: Rows, e: Event)
    requires rows.session.status == Paused && rows.checkpoint.task.status == Tasks.Planning && rows.attempt.None?
    ensures Step(h, Start(rows), e) == Start(rows)
  {
    hide Recover, Resolve;
    var net := Start(rows);
    match e {
      case RecoverBy(host, goal, disk, nowMs) =>
        DE.RecoversIff(h, rows, goal, disk, nowMs);
        DS.RecoverRows(h, rows, goal, disk, nowMs);
        assert Recover(h, rows, goal, disk, nowMs).0 == rows;
        assert map[] - {host} == net.hosts;
      case ResolveAttempt(r) => DS.ResolveRows(rows, r);
      case Crash(host) => assert map[] - {host} == net.hosts;
      case _ =>
    }
  }
}
