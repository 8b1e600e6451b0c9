/** Every step of every host is one transaction on the store, so what transactions keep, runs keep. */
module DurableCoupling {
  import opened Wrappers
  import opened AutoMode
  import Supervisor
  import opened Workspace
  import opened TurnStore
  import opened AutoHost
  import opened DurableTurns
  import DS = DurableSafety
  import DH = DurableHistory
  import DF = DurableFinality

  ghost predicate OneTransaction(h: Digest, rows: Rows, after: Rows) {
    after == rows || exists t: Transaction :: after == Execute(h, rows, t)
  }

  lemma ResumeTransaction(h: Digest, rows: Rows, t: Turn, nowMs: nat)
    ensures OneTransaction(h, rows, ResumeTurn(rows, t, nowMs).0)
  {
    hide CommitResume, Resumed;
    var resumed := Resumed(t, nowMs);
    if resumed.Success? {
      var c := CheckpointOf(resumed.value, resumed.value.workspace.fingerprint, nowMs);
      if c.Some? {
        assert ResumeTurn(rows, t, nowMs).0 == Execute(h, rows,
                                                       DoResume(resumed.value.session, t.session.updatedAtMs, c.value,
                                                                t.sequence));
      }
    }
  }

  lemma ControlTransaction(h: Digest, rows: Rows, t: Turn, control: ControlRequest, nowMs: nat)
    ensures OneTransaction(h, rows, ControlTurn(rows, t, control, nowMs).0)
  {
    hide CommitHostControl, Controlled;
    var controlled := Controlled(t, control, nowMs);
    if controlled.Some? {
      var c := CheckpointOf(controlled.value, controlled.value.workspace.fingerprint, nowMs);
      if c.Some? {
        assert Execute(h, rows, DoControl(controlled.value.session, t.session.updatedAtMs, c.value, t.sequence))
               == CommitHostControl(rows, controlled.value.session, t.session.updatedAtMs, c.value, t.sequence).0;
      }
    }
  }

  lemma DriftTransaction(h: Digest, rows: Rows, t: Turn, stored: StoredWorkspace, disk: Disk, nowMs: nat)
    ensures OneTransaction(h, rows, CommitDriftOf(h, rows, t, stored, disk, nowMs).0)
  {
    hide CommitDrift, Drifted, ScanFiles;
    var successor := ScanFiles(h, disk.filesAgain, stored.snapshot.revision + 1, Some(stored.snapshot.fingerprint),
                               nowMs);
    var drifted := Drifted(t, nowMs);
    if successor.Some? && drifted.Success? {
      var c := CheckpointOf(drifted.value, stored.snapshot.fingerprint, nowMs);
      if c.Some? {
        assert CommitDriftOf(h, rows, t, stored, disk, nowMs).0
               == Execute(h, rows, DoDrift(drifted.value.session, t.session.updatedAtMs, c.value, t.sequence,
                                           StoredWorkspace(t.session.id, stored.root, successor.value),
                                           stored.snapshot.revision,
                                           stored.snapshot.fingerprint));
      }
    }
  }

  lemma FinishTransaction(h: Digest, rows: Rows, attempt: Attempt, t: Turn, outcome: Supervisor.Outcome, nowMs: nat,
                          stored: bool)
    ensures OneTransaction(h, rows, CommitOutcome(rows, attempt, t, outcome, nowMs, stored).0)
  {
    hide CommitTurn, Settled, MarkIndeterminate;
    var settled := Settled(t, outcome, nowMs);
    assert Execute(h, rows, DoMark(attempt, nowMs)) == MarkIndeterminate(rows, attempt, nowMs).0;
    if settled.Some? {
      var next := settled.value.(sequence := t.sequence + 1);
      var c := CheckpointOf(next, next.workspace.fingerprint, nowMs);
      if c.Some? {
        assert Execute(h, rows, DoTurn(attempt, next.session, attempt.expectedUpdatedAtMs, c.value, t.sequence))
               == CommitTurn(rows, attempt, next.session, attempt.expectedUpdatedAtMs, c.value, t.sequence).0;
      }
    }
  }

  lemma RecoverTransaction(h: Digest, rows: Rows, goal: Goal, disk: Disk, nowMs: nat)
    ensures OneTransaction(h, rows, Recover(h, rows, goal, disk, nowMs).0)
  {
    hide Restored, MarkIndeterminate;
    if rows.attempt.Some? {
      var attempt := rows.attempt.value;
      assert Execute(h, rows, DoMark(attempt, nowMs)) == MarkIndeterminate(rows, attempt, nowMs).0;
    }
  }

  lemma PreflightTransaction(h: Digest, rows: Rows, t: Turn, disk: Disk, nowMs: nat)
    ensures OneTransaction(h, rows, PreflightWorkspace(h, rows, t, disk, nowMs).0)
  {
    hide CommitDriftOf, ScanFiles, OneTransaction;
    Unchanged(h, rows);
    if Latest(rows).Some? { DriftTransaction(h, rows, t, Latest(rows).value, disk, nowMs); }
  }

  lemma BeginTransaction(h: Digest, rows: Rows, t: Turn, fingerprint: string, id: nat, nowMs: nat)
    ensures OneTransaction(h, rows, BeginTurn(rows, t, fingerprint, id, nowMs).0)
  {
    hide BeginAttempt;
    assert Execute(h, rows, DoBegin(t.sequence, t.session.updatedAtMs, fingerprint, id, nowMs))
           == BeginAttempt(rows, t.sequence, t.session.updatedAtMs, fingerprint, id, nowMs).0;
  }

  lemma Unchanged(h: Digest, rows: Rows)
    ensures OneTransaction(h, rows, rows)
  {
  }

  lemma MarkTransaction(h: Digest, rows: Rows, attempt: Attempt, nowMs: nat)
    ensures OneTransaction(h, rows, MarkIndeterminate(rows, attempt, nowMs).0)
  {
    hide MarkIndeterminate;
    assert Execute(h, rows, DoMark(attempt, nowMs)) == MarkIndeterminate(rows, attempt, nowMs).0;
  }

  lemma StoreTransactions(h: Digest, rows: Rows, nowMs: nat, r: Resolution)
    ensures OneTransaction(h, rows, PauseAfterRestart(rows, nowMs).0) && OneTransaction(h, rows, Resolve(rows, r).0)
  {
    hide PauseAfterRestart, Resolve;
    assert Execute(h, rows, DoRestart(nowMs)) == PauseAfterRestart(rows, nowMs).0;
    assert Execute(h, rows, DoResolve(r)) == Resolve(rows, r).0;
  }

  lemma StepIsTransaction(h: Digest, net: Net, e: Event)
    ensures OneTransaction(h, net.rows, Step(h, net, e).rows)
  {
    hide OneTransaction, Recover, ResumeTurn, PreflightWorkspace, BeginTurn, ControlTurn, Resolve, PauseAfterRestart;
    hide CommitOutcome, MarkIndeterminate, Supervised;
    var rows := net.rows;
    Unchanged(h, rows);
    match e {
      case RecoverBy(host, goal, disk, nowMs) => RecoverTransaction(h, rows, goal, disk, nowMs);
      case ResumeBy(host, nowMs) =>
        if HeldBy(net, host).Some? { ResumeTransaction(h, rows, HeldBy(net, host).value, nowMs); }
      case PreflightBy(host, disk, nowMs) =>
        if HeldBy(net, host).Some? { PreflightTransaction(h, rows, HeldBy(net, host).value, disk, nowMs); }
      case BeginBy(host, id, fingerprint, nowMs) =>
        if host in net.hosts { BeginTransaction(h, rows, net.hosts[host].turn, fingerprint, id, nowMs); }
      case FinishBy(host, nowMs, stored) =>
        if host in net.hosts && net.hosts[host].Answered? {
          var Answered(attempt, t, outcome) := net.hosts[host];
          MarkTransaction(h, rows, attempt, nowMs);
          if outcome.Success? { FinishTransaction(h, rows, attempt, t, outcome.value, nowMs, stored); }
        }
      case ControlBy(host, control, nowMs) =>
        if HeldBy(net, host).Some? { ControlTransaction(h, rows, HeldBy(net, host).value, control, nowMs); }
      case Restart(nowMs) =>
        StoreTransactions(h, rows, nowMs, Resolution(0, 0, "", ConfirmedNotExecuted, "", None, 0));
      case ResolveAttempt(r) => StoreTransactions(h, rows, 0, r);
      case _ =>
    }
  }

  /** In every run of a created session the stored statuses of session and task fit together, and a
      running task is stored behind a paused session only after a restart. */
  lemma {:induction false} StatusesStayCoupled(h: Digest, net: Net, events: seq<Event>)
    requires Coupled(net.rows.session, net.rows.checkpoint.task.status)
    ensures var end := Run(h, net, events); Coupled(end.rows.session, end.rows.checkpoint.task.status)
    decreases events
  {
    hide Step, Execute, Coupled;
    if events != [] {
      var next := Step(h, net, events[0]);
      StepIsTransaction(h, net, events[0]);
      if next.rows != net.rows {
        var t: Transaction :| next.rows == Execute(h, net.rows, t);
        TransactionKeepsCoupling(h, net.rows, t);
      }
      StatusesStayCoupled(h, next, events[1..]);
    }
  }

  /** Everything the protocol promises holds of a created session and in each of its reachable states. */
  lemma CreatedSessionsAreSound(h: Digest, rows: Rows, events: seq<Event>)
    requires Created(h, rows) && DH.Possible(events)
    ensures var end := Run(h, Start(rows), events);
            && DS.Account(end) && DH.Remembers(end) && DF.Chain(h, end.rows)
            && Coupled(end.rows.session, end.rows.checkpoint.task.status)
            && rows.checkpoint.messages <= end.rows.checkpoint.messages
  {
    hide ValidSession, ValidCheckpoint, Canonical, Run, DH.Possible;
    DS.StartAccount(rows);
    StatusesStayCoupled(h, Start(rows), events);
    DF.ChainKept(h, Start(rows), events);
    DH.HistoryGrows(h, Start(rows), events);
  }
}
