/** When a manual resolution can remove an attempt that was left open: exactly while no commit has
    moved the checkpoint past it, and that never happens unless a running turn is duplicated. */
module DurableOvertaking {
  import opened Wrappers
  import opened Text
  import opened Provider
  import opened AutoMode
  import Tasks = AgentTasks
  import Supervisor
  import opened Workspace
  import opened TurnStore
  import opened AutoHost
  import opened DurableTurns
  import DS = DurableSafety
  import DH = DurableHistory
  import DC = DurableCoupling

  // ---- One holder of a running turn ----

  /** The host's turn is at the stored sequence. */
  ghost predicate Current(net: Net, host: nat) {
    host in net.hosts && net.hosts[host].turn.sequence == net.rows.checkpoint.sequence
  }

  /** Nobody is ahead of the store; a running session has one current holder, whose turn is running;
      and while an attempt is recorded every current holder is in the middle of a turn. */
  ghost predicate Sole(net: Net) {
    && (forall a :: a in net.hosts ==> net.hosts[a].turn.sequence <= net.rows.checkpoint.sequence)
    && (net.rows.session.status == Running ==> forall a, b :: Current(net, a) && Current(net, b) ==> a == b)
    && (net.rows.session.status == Running ==>
          forall a :: Current(net, a) && net.hosts[a].Holding? ==> net.hosts[a].turn.session.status == Running)
    && (net.rows.attempt.Some? ==> net.rows.attempt.value.sequence == net.rows.checkpoint.sequence)
    && (net.rows.attempt.Some? ==> forall a :: Current(net, a) ==> net.hosts[a].MidTurn())
  }

  /** The event does not duplicate a turn whose session is running. */
  ghost predicate CopiesNoRunningTurn(net: Net, e: Event) {
    e.CopyTurn? && HeldBy(net, e.host).Some? ==> HeldBy(net, e.host).value.session.status != Running
  }

  ghost predicate SingleHanded(h: Digest, net: Net, events: seq<Event>)
    decreases events
  {
    events != [] ==> CopiesNoRunningTurn(net, events[0]) && SingleHanded(h, Step(h, net, events[0]), events[1..])
  }

  /** The rows stay at their sequence: the session as it was or paused, the attempt as it was or marked. */
  ghost predicate Stays(rows: Rows, after: Rows) {
    && after.checkpoint.sequence == rows.checkpoint.sequence && DS.SameAttempt(rows.attempt, after.attempt)
    && (after.session == rows.session || after.session.status == Paused)
  }

  lemma StaysItself(rows: Rows)
    ensures Stays(rows, rows)
  {
  }

  /** No host is added or moved. */
  lemma SoleStays(net: Net, after: Net)
    requires Sole(net) && Stays(net.rows, after.rows)
    requires forall a :: a in after.hosts ==> a in net.hosts && after.hosts[a] == net.hosts[a]
    ensures Sole(after)
  {
    assert forall a :: Current(after, a) ==> Current(net, a);
  }

  /** A host takes a turn from a store that is not running, or goes on with its own. */
  lemma SoleNext(net: Net, after: Net, host: nat)
    requires Sole(net) && after.rows == net.rows && host in after.hosts
    requires forall a :: a in after.hosts ==> a == host || (a in net.hosts && after.hosts[a] == net.hosts[a])
    requires after.hosts[host].turn.sequence <= net.rows.checkpoint.sequence
    requires Current(after, host) && !after.hosts[host].MidTurn() ==> net.rows.attempt.None?
    requires Current(after, host) && net.rows.session.status == Running ==>
               Current(net, host) && !after.hosts[host].Holding?
    ensures Sole(after)
  {
    assert forall a :: Current(after, a) && a != host ==> Current(net, a);
  }

  /** A commit by one host leaves everyone else behind. */
  lemma SoleCommit(net: Net, after: Net, host: nat)
    requires Sole(net) && after.rows.checkpoint.sequence == net.rows.checkpoint.sequence + 1 && after.rows.attempt.None?
    requires forall a :: a in after.hosts ==>
               || (a in net.hosts && after.hosts[a] == net.hosts[a])
               || (a == host && after.hosts[a].Holding? && after.hosts[a].turn.session == after.rows.session
                   && after.hosts[a].turn.sequence == after.rows.checkpoint.sequence)
    ensures Sole(after)
  {
    assert forall a :: Current(after, a) ==> a == host;
  }

  lemma CommittedSessions(h: Digest, rows: Rows, t: Turn, control: ControlRequest, attempt: Attempt,
                          outcome: Supervisor.Outcome, nowMs: nat, stored: bool)
    ensures var (after, r) := ResumeTurn(rows, t, nowMs); r.Success? ==> r.value.session == after.session
    ensures var (after, r) := ControlTurn(rows, t, control, nowMs); r.Success? ==> r.value.session == after.session
    ensures var (after, r) := CommitOutcome(rows, attempt, t, outcome, nowMs, stored); r.Success? ==>
              r.value.turn.session == after.session
  {
    hide ValidSession, ValidCheckpoint, MatchesBindings, Resumed, Controlled, Settled, MarkIndeterminate;
  }

  const NO_ATTEMPT := Attempt(0, 0, 0, 0, "", Active, 0, 0)

  lemma SoleResume(h: Digest, net: Net, host: nat, nowMs: nat)
    requires Sole(net)
    ensures Sole(Resuming(net, host, nowMs))
  {
    hide ResumeTurn;
    StaysItself(net.rows);
    var after := Resuming(net, host, nowMs);
    if HeldBy(net, host).Some? {
      var t := HeldBy(net, host).value;
      DS.ResumeRows(net.rows, t, nowMs);
      CommittedSessions(h, net.rows, t, PauseRequest, NO_ATTEMPT, Supervisor.TurnContinues([]), nowMs, true);
      if ResumeTurn(net.rows, t, nowMs).1.Success? {
        assert Current(net, host);
        SoleCommit(net, after, host);
      } else {
        SoleStays(net, after);
      }
    }
  }

  lemma SoleControl(h: Digest, net: Net, host: nat, control: ControlRequest, nowMs: nat)
    requires Sole(net)
    ensures Sole(Controlling(net, host, control, nowMs))
  {
    hide ControlTurn;
    StaysItself(net.rows);
    var after := Controlling(net, host, control, nowMs);
    if HeldBy(net, host).Some? {
      var t := HeldBy(net, host).value;
      DS.ControlRows(net.rows, t, control, nowMs);
      CommittedSessions(h, net.rows, t, control, NO_ATTEMPT, Supervisor.TurnContinues([]), nowMs, true);
      if ControlTurn(net.rows, t, control, nowMs).1.Success? {
        assert Current(net, host);
        SoleCommit(net, after, host);
      } else {
        SoleStays(net, after);
      }
    }
  }

  lemma SolePreflight(h: Digest, net: Net, host: nat, t: Turn, disk: Disk, nowMs: nat)
    requires Sole(net) && HeldBy(net, host) == Some(t)
    ensures Sole(Preflighting(h, net, host, disk, nowMs))
  {
    hide PreflightWorkspace;
    StaysItself(net.rows);
    var after := Preflighting(h, net, host, disk, nowMs);
    DS.PreflightRows(h, net.rows, t, disk, nowMs);
    var r := PreflightWorkspace(h, net.rows, t, disk, nowMs).1;
    if r.Success? && r.value.TurnReady? {
      SoleNext(net, after, host);
    } else if r.Success? {
      assert Current(net, host);
      SoleCommit(net, after, host);
    } else {
      SoleStays(net, after);
    }
  }

  lemma PreflightsNothing(h: Digest, net: Net, host: nat, disk: Disk, nowMs: nat)
    requires HeldBy(net, host).None?
    ensures Preflighting(h, net, host, disk, nowMs) == net
  {
  }

  lemma SoleCopy(net: Net, host: nat, other: nat)
    requires Sole(net) && CopiesNoRunningTurn(net, CopyTurn(host, other))
    ensures Sole(Copying(net, host, other))
  {
    if HeldBy(net, host).Some? && other !in net.hosts {
      assert Current(Copying(net, host, other), other) ==> Current(net, host);
      SoleNext(net, Copying(net, host, other), other);
    }
  }

  lemma SoleBegin(net: Net, host: nat, id: nat, fingerprint: string, nowMs: nat)
    requires Sole(net)
    ensures Sole(Beginning(net, host, id, fingerprint, nowMs))
  {
    hide BeginTurn;
    StaysItself(net.rows);
    if host in net.hosts && net.hosts[host].Checked? {
      var t := net.hosts[host].turn;
      var after := Beginning(net, host, id, fingerprint, nowMs);
      DS.BeginRows(net.rows, t, fingerprint, id, nowMs);
      if BeginTurn(net.rows, t, fingerprint, id, nowMs).1.Success? {
        assert Current(net, host);
        assert forall a :: Current(after, a) ==> Current(net, a);
      } else {
        SoleStays(net, after);
      }
    }
  }

  lemma SoleFinish(h: Digest, net: Net, host: nat, nowMs: nat, stored: bool)
    requires Sole(net)
    ensures Sole(Finishing(net, host, nowMs, stored))
  {
    hide CommitOutcome, MarkIndeterminate;
    if host in net.hosts && net.hosts[host].Answered? {
      var Answered(attempt, t, outcome) := net.hosts[host];
      var after := Finishing(net, host, nowMs, stored);
      DS.MarkRows(net.rows, attempt, nowMs);
      if outcome.Failure? {
        SoleStays(net, after);
      } else {
        DS.FinishRows(net.rows, attempt, t, outcome.value, nowMs, stored);
        CommittedSessions(h, net.rows, t, PauseRequest, attempt, outcome.value, nowMs, stored);
        if CommitOutcome(net.rows, attempt, t, outcome.value, nowMs, stored).1.Success? {
          SoleCommit(net, after, host);
        } else {
          SoleStays(net, after);
        }
      }
    }
  }

  lemma SoleRecover(h: Digest, net: Net, host: nat, goal: Goal, disk: Disk, nowMs: nat)
    requires Sole(net)
    ensures Sole(Recovering(h, net, host, goal, disk, nowMs))
  {
    hide Restored, MarkIndeterminate;
    DS.RecoverRows(h, net.rows, goal, disk, nowMs);
    if host !in net.hosts {
      var after := Recovering(h, net, host, goal, disk, nowMs);
      if Recover(h, net.rows, goal, disk, nowMs).1.Success? {
        SoleNext(net, after, host);
      } else {
        SoleStays(net, after);
      }
    }
  }

  lemma SoleStep(h: Digest, net: Net, e: Event)
    requires Sole(net) && CopiesNoRunningTurn(net, e)
    ensures Sole(Step(h, net, e))
  {
    hide Resolve, PauseAfterRestart, Supervised, Recovering, Beginning, Finishing, Preflighting, Resuming, Controlling,
         Copying;
    match e {
      case RecoverBy(host, goal, disk, nowMs) => SoleRecover(h, net, host, goal, disk, nowMs);
      case CopyTurn(host, other) => SoleCopy(net, host, other);
      case BeginBy(host, id, fingerprint, nowMs) => SoleBegin(net, host, id, fingerprint, nowMs);
      case CallBy(host, env, input) =>
        if host in net.hosts && net.hosts[host].Begun? { SoleNext(net, Step(h, net, e), host); }
      case FinishBy(host, nowMs, stored) => SoleFinish(h, net, host, nowMs, stored);
      case Crash(host) =>
        StaysItself(net.rows);
        SoleStays(net, Step(h, net, e));
      case Restart(nowMs) =>
        DS.RestartRows(net.rows, nowMs);
        SoleStays(net, Step(h, net, e));
      case ResolveAttempt(r) =>
        DS.ResolveRows(net.rows, r);
        if Resolve(net.rows, r).1.Success? { SoleCommit(net, Step(h, net, e), 0); }
      case ResumeBy(host, nowMs) => SoleResume(h, net, host, nowMs);
      case ControlBy(host, control, nowMs) => SoleControl(h, net, host, control, nowMs);
      case PreflightBy(host, disk, nowMs) =>
        if HeldBy(net, host).Some? {
          SolePreflight(h, net, host, HeldBy(net, host).value, disk, nowMs);
        } else {
          PreflightsNothing(h, net, host, disk, nowMs);
        }
    }
  }

  lemma {:induction false} SoleRun(h: Digest, net: Net, events: seq<Event>)
    requires Sole(net) && SingleHanded(h, net, events)
    ensures Sole(Run(h, net, events))
    decreases events
  {
    hide Sole, Step, CopiesNoRunningTurn;
    if events != [] {
      SoleStep(h, net, events[0]);
      SoleRun(h, Step(h, net, events[0]), events[1..]);
    }
  }

  /** While no running turn is duplicated, no commit ever overtakes an attempt: whatever the hosts do,
      in any interleaving with crashes, restarts, control and resolutions, a recorded attempt is at
      the stored sequence. */
  lemma AttemptsAreNotOvertaken(h: Digest, rows: Rows, events: seq<Event>)
    requires rows.attempt.None? && SingleHanded(h, Start(rows), events)
    ensures var end := Run(h, Start(rows), events).rows;
            !DS.Overtaken(end) && (end.attempt.Some? ==> end.attempt.value.sequence == end.checkpoint.sequence)
  {
    hide Step;
    SoleRun(h, Start(rows), events);
  }

  // ---- What a resolution finds ----

  /** A recorded attempt was well formed, is not ahead of the store, and as long as it is not behind
      the session can still be ended and fits its checkpoint. */
  ghost predicate Settleable(rows: Rows) {
    && (rows.session.status == Running ==> MatchesBindings(rows.checkpoint, rows.session))
    && (rows.attempt.Some? ==>
          && var attempt := rows.attempt.value;
             && ValidText(attempt.requestFingerprint, MAX_FINGERPRINT_BYTES)
             && attempt.sequence <= rows.checkpoint.sequence
             && (attempt.sequence == rows.checkpoint.sequence ==>
                   rows.session.status in {Running, Paused} && MatchesBindings(rows.checkpoint, rows.session)))
  }

  lemma TransactionKeepsSettleable(h: Digest, rows: Rows, t: Transaction)
    requires Settleable(rows)
    ensures Settleable(Execute(h, rows, t))
  {
    hide ValidSession, ValidCheckpoint, ValidText, Validate, Tasks.CancelTask, Tasks.Transition;
  }

  lemma {:induction false} RunKeepsSettleable(h: Digest, net: Net, events: seq<Event>)
    requires Settleable(net.rows)
    ensures Settleable(Run(h, net, events).rows)
    decreases events
  {
    hide Step, Execute, Settleable;
    if events != [] {
      var next := Step(h, net, events[0]);
      DC.StepIsTransaction(h, net, events[0]);
      if next.rows != net.rows {
        var t: Transaction :| next.rows == Execute(h, net.rows, t);
        TransactionKeepsSettleable(h, net.rows, t);
      }
      RunKeepsSettleable(h, next, events[1..]);
    }
  }

  /** The resolution that accepts whatever the attempt has done and cancels, late enough for everyone. */
  function Accepting(rows: Rows): Resolution
    requires rows.attempt.Some?
  {
    var attempt := rows.attempt.value;
    Resolution(attempt.id, attempt.sequence, attempt.requestFingerprint, AcceptExternalEffectAndCancel, "a", None,
               Max(Max(attempt.updatedAtMs, rows.session.updatedAtMs),
                   Max(rows.checkpoint.updatedAtMs, rows.checkpoint.task.createdAtMs)))
  }

  lemma ActorIsText()
    ensures ValidText("a", MAX_ACTOR_BYTES)
  {
    assert Bytes("a") == 1 by { assert Bytes("") == 0; }
    assert !Whitespace("a"[0]);
  }

  /** Cancelling leaves a checkpoint that validates. */
  lemma CancelledCheckpoint(c: Checkpoint, nowMs: nat)
    requires ValidCheckpoint(c) && nowMs >= c.updatedAtMs && nowMs >= c.task.createdAtMs
    ensures ValidCheckpoint(c.(task := Tasks.CancelTask(c.task, nowMs), sequence := c.sequence + 1,
                               updatedAtMs := nowMs))
  {
    hide ValidText, ValidDigest, Blank, Bytes, Accepted, ValidPrincipal;
  }

  lemma AcceptingResolves(rows: Rows)
    requires DH.StoredValid(rows) && Settleable(rows) && rows.attempt.Some?
    requires rows.attempt.value.status == Indeterminate
    requires rows.attempt.value.sequence == rows.checkpoint.sequence
    ensures Resolve(rows, Accepting(rows)).1.Success?
  {
    var r := Accepting(rows);
    assert rows.checkpoint.sequence != 0;
    ActorIsText();
    CancelledCheckpoint(rows.checkpoint, r.resolvedAtMs);
    TransitionsKeepSession(rows.session, UserRequested,
                           ResumeBinding(true, 0, 0, 0, "", rows.session.policyFingerprint), r.resolvedAtMs);
    hide ValidSession, ValidCheckpoint, ValidText, MatchesBindings;
  }

  /** Exactly when an attempt of unknown outcome can be removed by hand: while its sequence is still
      the stored one. */
  lemma ResolvableIffNotOvertaken(rows: Rows)
    requires DH.StoredValid(rows) && Settleable(rows) && rows.attempt.Some?
    requires rows.attempt.value.status == Indeterminate
    ensures (exists r: Resolution :: Resolve(rows, r).0.attempt.None?)
            <==> rows.attempt.value.sequence == rows.checkpoint.sequence
  {
    hide DH.StoredValid, Settleable, Resolve;
    if rows.attempt.value.sequence == rows.checkpoint.sequence {
      AcceptingResolves(rows);
      DS.ResolveRows(rows, Accepting(rows));
      assert Resolve(rows, Accepting(rows)).0.attempt.None?;
    }
    forall r: Resolution | Resolve(rows, r).0.attempt.None?
      ensures rows.attempt.value.sequence == rows.checkpoint.sequence
    {
      DS.ResolveRows(rows, r);
    }
  }

  /** Over every run of a created session: an attempt of unknown outcome can be resolved by hand iff
      no commit has overtaken it, and so always if no running turn was duplicated. */
  lemma AttemptsResolvableIff(h: Digest, rows: Rows, events: seq<Event>)
    requires Created(h, rows) && DH.Possible(events)
    ensures var end := Run(h, Start(rows), events).rows;
            end.attempt.Some? && end.attempt.value.status == Indeterminate ==>
              && ((exists r: Resolution :: Resolve(end, r).0.attempt.None?) <==> !DS.Overtaken(end))
              && (SingleHanded(h, Start(rows), events) ==> exists r: Resolution :: Resolve(end, r).0.attempt.None?)
  {
    hide Step, Resolve, SingleHanded, DH.Possible, DH.StoredValid, ValidSession, ValidCheckpoint, Canonical;
    DC.CreatedSessionsAreSound(h, rows, events);
    RunKeepsSettleable(h, Start(rows), events);
    var end := Run(h, Start(rows), events).rows;
    if SingleHanded(h, Start(rows), events) { AttemptsAreNotOvertaken(h, rows, events); }
    if end.attempt.Some? && end.attempt.value.status == Indeterminate { ResolvableIffNotOvertaken(end); }
  }
}
