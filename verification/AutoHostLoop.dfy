/** The bounded batch of turns, and its place in the protocol: one execution is four of its steps. */
module AutoHostLoop {
  import opened Wrappers
  import opened AutoMode
  import opened Supervisor
  import opened TurnSupervisors
  import opened Workspace
  import opened TurnStore
  import opened AutoHost
  import opened AutoHostServices
  import opened DurableTurns
  import DE = DurableEffects
  import DS = DurableSafety
  import TD = TurnDialogue

  datatype LoopStop =
    | Yielded(turn: Turn)
    | StoppedForDrift(session: Session, sequence: nat, workspace: Snapshot)
    | StoppedPaused(turn: Turn)
    | StoppedCompleted(turn: Turn)

  datatype LoopResult = LoopResult(turnsExecuted: nat, stop: LoopStop)

  datatype LoopError = InvalidTurnLimit | TurnFailure(error: ExecutionError)

  /** The turns from the `i`th on; `plan` gives each one its own clock, disk and identities. */
  function LoopFrom(h: Digest, rows: Rows, env: Env, w: World, turn: Turn, plan: nat -> Execution, i: nat,
                    maxTurns: nat)
    : (Rows, World, Result<LoopResult, LoopError>)
    requires i <= maxTurns
    decreases maxTurns - i
  {
    if i == maxTurns then (rows, w, Success(LoopResult(maxTurns, Yielded(turn)))) else
    var (after, w', r) := ExecuteTurn(h, rows, env, w, turn, plan(i));
    match r
    case Failure(e) => (after, w', Failure(TurnFailure(e)))
    case Success(WorkspaceDrift(session, sequence, workspace)) =>
      (after, w', Success(LoopResult(i + 1, StoppedForDrift(session, sequence, workspace))))
    case Success(TurnCommitted(Continued(next))) => LoopFrom(h, after, env, w', next, plan, i + 1, maxTurns)
    case Success(TurnCommitted(CommittedPause(paused))) =>
      (after, w', Success(LoopResult(i + 1, StoppedPaused(paused))))
    case Success(TurnCommitted(CommittedEnd(completed))) =>
      (after, w', Success(LoopResult(i + 1, StoppedCompleted(completed))))
  }

  /** `AutoModeLoopService::run`. */
  method RunLoop(host: AutoModeHost, supervisor: AutoModeTurnSupervisor, start: Turn, plan: nat -> Execution,
                 maxTurns: nat)
    returns (r: Result<LoopResult, LoopError>)
    modifies host.database, supervisor.backend, supervisor.coordinator.providers
    ensures maxTurns == 0 || maxTurns > 256 ==>
              r == Failure(InvalidTurnLimit) && host.database.State() == old(host.database.State())
    ensures 0 < maxTurns <= 256 ==>
              var w := World(start.session, start.task, old(supervisor.coordinator.providers.requests),
                             old(supervisor.backend.trace));
              var (rows, w', result) := LoopFrom(host.database.h, old(host.database.State()), supervisor.Surroundings(),
                                                 w, start, plan, 0, maxTurns);
              && host.database.State() == rows && r == result
              && supervisor.coordinator.providers.requests == w'.requests && supervisor.backend.trace == w'.trace
  {
    hide ExecuteTurn;
    if maxTurns == 0 || maxTurns > 256 { return Failure(InvalidTurnLimit); }
    var turn := start;
    ghost var w := World(start.session, start.task, supervisor.coordinator.providers.requests,
                         supervisor.backend.trace);
    ghost var w0 := w;
    for i := 0 to maxTurns
      invariant w.requests == supervisor.coordinator.providers.requests && w.trace == supervisor.backend.trace
      invariant LoopFrom(host.database.h, old(host.database.State()), supervisor.Surroundings(), w0, start, plan, 0,
                         maxTurns)
                == LoopFrom(host.database.h, host.database.State(), supervisor.Surroundings(), w, turn, plan, i,
                            maxTurns)
    {
      ghost var before := host.database.State();
      WorldOnlyLogs(host.database.h, before, supervisor.Surroundings(), w, turn, plan(i));
      var result := host.Execute(supervisor, turn, plan(i));
      w := ExecuteTurn(host.database.h, before, supervisor.Surroundings(), w, turn, plan(i)).1;
      if result.Failure? { return Failure(TurnFailure(result.error)); }
      match result.value {
        case WorkspaceDrift(session, sequence, workspace) =>
          return Success(LoopResult(i + 1, StoppedForDrift(session, sequence, workspace)));
        case TurnCommitted(Continued(next)) => turn := next;
        case TurnCommitted(CommittedPause(paused)) => return Success(LoopResult(i + 1, StoppedPaused(paused)));
        case TurnCommitted(CommittedEnd(completed)) => return Success(LoopResult(i + 1, StoppedCompleted(completed)));
      }
    }
    return Success(LoopResult(maxTurns, Yielded(turn)));
  }

  /** An execution looks at nothing of the world but its logs. */
  lemma WorldOnlyLogs(h: Digest, rows: Rows, env: Env, w: World, turn: Turn, x: Execution)
    ensures var own := World(turn.session, turn.task, w.requests, w.trace);
            var (a, u, r) := ExecuteTurn(h, rows, env, w, turn, x);
            var (b, v, s) := ExecuteTurn(h, rows, env, own, turn, x);
            a == b && r == s && u.requests == v.requests && u.trace == v.trace
  {
    hide PreflightWorkspace, BeginTurn, CommitOutcome, MarkIndeterminate, Advance;
    var own := World(turn.session, turn.task, w.requests, w.trace);
    var (_, preflight) := PreflightWorkspace(h, rows, turn, x.disk, x.nowMs);
    if preflight.Success? && preflight.value.TurnReady? {
      var t := preflight.value.turn;
      assert w.(session := t.session, task := t.task) == own.(session := t.session, task := t.task);
    }
  }

  // ---- What a batch does to the store ----

  /** A successful execution commits exactly once. */
  lemma ExecutionCommitsOnce(h: Digest, rows: Rows, env: Env, w: World, turn: Turn, x: Execution)
    ensures var (after, _, r) := ExecuteTurn(h, rows, env, w, turn, x);
            r.Success? ==>
              after.checkpoint.sequence == rows.checkpoint.sequence + 1 && turn.sequence == rows.checkpoint.sequence
  {
    hide PreflightWorkspace, BeginTurn, CommitOutcome, MarkIndeterminate, Advance;
    DS.PreflightRows(h, rows, turn, x.disk, x.nowMs);
    var (rows1, preflight) := PreflightWorkspace(h, rows, turn, x.disk, x.nowMs);
    assert preflight.Success? ==> preflight.value.TurnReady? || preflight.value.PausedForDrift?;
    if preflight.Success? && preflight.value.TurnReady? {
      var t := preflight.value.turn;
      var prepared := x.prepare(t);
      if prepared.Some? {
        DS.BeginRows(rows1, t, prepared.value.fingerprint, x.attemptId, x.nowMs);
        var (rows2, attempt) := BeginTurn(rows1, t, prepared.value.fingerprint, x.attemptId, x.nowMs);
        if attempt.Success? {
          var (after, outcome) := Advance(env, w.(session := t.session, task := t.task),
                                          InputFor(t, prepared.value, x));
          if outcome.Success? {
            DS.FinishRows(rows2, attempt.value, t.(session := after.session, task := after.task), outcome.value,
                          x.nowMs, true);
          }
        }
      }
    }
  }

  /** A successful execution reports what it has stored: a drift pause, without any call, or the committed
      turn as running, paused or completed. */
  lemma ExecutionReports(h: Digest, rows: Rows, env: Env, w: World, turn: Turn, x: Execution)
    ensures var (after, w', r) := ExecuteTurn(h, rows, env, w, turn, x);
            r.Success? ==>
              match r.value
              case WorkspaceDrift(session, sequence, workspace) =>
                && w' == w && after.session == session && after.checkpoint.sequence == sequence
                && session.status == Paused && session.pauseReason == Some(WorkspaceChanged)
                && after.workspaces != [] && after.workspaces[|after.workspaces| - 1].snapshot == workspace
              case TurnCommitted(committed) => DE.Reported(after, committed)
  {
    hide PreflightWorkspace, BeginTurn, CommitOutcome, MarkIndeterminate, Advance, ValidSession, ValidCheckpoint,
         DE.FindsSuccessor, DE.Scanned, DE.Reported, RunAttempt;
    if rows.workspaces != [] { DE.DriftsIff(h, rows, turn, x.disk, x.nowMs); } else { NothingStored(h, rows, turn, x); }
    var (rows1, preflight) := PreflightWorkspace(h, rows, turn, x.disk, x.nowMs);
    if preflight.Success? && preflight.value.TurnReady? {
      var t := preflight.value.turn;
      var prepared := x.prepare(t);
      if prepared.Some? {
        var (rows2, attempt) := BeginTurn(rows1, t, prepared.value.fingerprint, x.attemptId, x.nowMs);
        if attempt.Success? { AttemptReports(rows2, env, w, t, attempt.value, prepared.value, x); }
      }
    }
  }

  lemma AttemptReports(rows: Rows, env: Env, w: World, t: Turn, attempt: Attempt, prepared: Prepared, x: Execution)
    ensures var (after, _, r) := RunAttempt(rows, env, w, t, attempt, prepared, x);
            r.Success? ==> r.value.TurnCommitted? && DE.Reported(after, r.value.turn)
  {
    hide CommitOutcome, MarkIndeterminate, Advance, DE.Reported;
    var (after, outcome) := Advance(env, w.(session := t.session, task := t.task), InputFor(t, prepared, x));
    if outcome.Success? {
      var next := t.(session := after.session, task := after.task);
      DE.CommitReports(rows, attempt, next, outcome.value, x.nowMs, true);
      var (stored, r) := CommitOutcome(rows, attempt, next, outcome.value, x.nowMs, true);
      assert r.Success? ==> RunAttempt(rows, env, w, t, attempt, prepared, x).2 == Success(TurnCommitted(r.value));
    }
  }

  lemma NothingStored(h: Digest, rows: Rows, turn: Turn, x: Execution)
    requires rows.workspaces == []
    ensures PreflightWorkspace(h, rows, turn, x.disk, x.nowMs).1.Failure?
  {
    hide ScanFiles, CommitDriftOf;
  }

  /** An execution asks the Provider at most once, with the prepared messages of the turn in hand. */
  lemma ExecutionAsksOnce(h: Digest, rows: Rows, env: Env, w: World, turn: Turn, x: Execution)
    ensures var (_, w', _) := ExecuteTurn(h, rows, env, w, turn, x);
            var preflight := PreflightWorkspace(h, rows, turn, x.disk, x.nowMs).1;
            w'.requests == w.requests
            || (&& preflight.Success? && preflight.value.TurnReady? && x.prepare(preflight.value.turn).Some?
                && var t := preflight.value.turn;
                   w'.requests == w.requests
                     + [ProviderRequest(x.requestId, t.task.id, t.task.traceId, t.task.providerId, t.model,
                                        x.prepare(t).value.messages, env.toolList, x.maxOutputTokens)])
  {
    hide PreflightWorkspace, BeginTurn, CommitOutcome, MarkIndeterminate, Advance;
    var preflight := PreflightWorkspace(h, rows, turn, x.disk, x.nowMs).1;
    if preflight.Success? && preflight.value.TurnReady? && x.prepare(preflight.value.turn).Some? {
      var t := preflight.value.turn;
      TD.AsksAtMostOnce(env, w.(session := t.session, task := t.task), InputFor(t, x.prepare(t).value, x));
    }
  }

  /** A batch that stops, or yields after at least one turn, reports what is stored. */
  ghost predicate StopReported(after: Rows, stop: LoopStop) {
    match stop
    case Yielded(t) => DE.Reported(after, Continued(t))
    case StoppedPaused(t) => DE.Reported(after, CommittedPause(t))
    case StoppedCompleted(t) => DE.Reported(after, CommittedEnd(t))
    case StoppedForDrift(session, sequence, workspace) =>
      && after.session == session && after.checkpoint.sequence == sequence
      && session.status == Paused && session.pauseReason == Some(WorkspaceChanged)
      && after.workspaces != [] && after.workspaces[|after.workspaces| - 1].snapshot == workspace
  }

  lemma {:induction false} LoopReports(h: Digest, rows: Rows, env: Env, w: World, turn: Turn, plan: nat -> Execution,
                                       i: nat, maxTurns: nat)
    requires i < maxTurns
    ensures var (after, _, r) := LoopFrom(h, rows, env, w, turn, plan, i, maxTurns);
            r.Success? ==> StopReported(after, r.value.stop)
    decreases maxTurns - i
  {
    hide ExecuteTurn, DE.Reported;
    ExecutionReports(h, rows, env, w, turn, plan(i));
    var (after, w', r) := ExecuteTurn(h, rows, env, w, turn, plan(i));
    if r.Success? && r.value.TurnCommitted? && r.value.turn.Continued? && i + 1 < maxTurns {
      LoopReports(h, after, env, w', r.value.turn.turn, plan, i + 1, maxTurns);
    }
  }

  /** A batch that ends without an error has raised the stored sequence by exactly the number of turns
      it reports, and it reports at most as many as it was allowed. */
  lemma {:induction false} LoopCountsCommits(h: Digest, rows: Rows, env: Env, w: World, turn: Turn,
                                             plan: nat -> Execution, i: nat, maxTurns: nat)
    requires i <= maxTurns
    ensures var (after, _, r) := LoopFrom(h, rows, env, w, turn, plan, i, maxTurns);
            r.Success? ==>
              && i <= r.value.turnsExecuted <= maxTurns
              && after.checkpoint.sequence == rows.checkpoint.sequence + r.value.turnsExecuted - i
              && (r.value.stop.Yielded? ==> r.value.turnsExecuted == maxTurns)
    decreases maxTurns - i
  {
    hide ExecuteTurn;
    if i < maxTurns {
      ExecutionCommitsOnce(h, rows, env, w, turn, plan(i));
      var (after, w', r) := ExecuteTurn(h, rows, env, w, turn, plan(i));
      if r.Success? && r.value.TurnCommitted? && r.value.turn.Continued? {
        LoopCountsCommits(h, after, env, w', r.value.turn.turn, plan, i + 1, maxTurns);
      }
    }
  }

  // ---- One execution in the protocol ----

  /** The protocol steps of one execution by a host that holds the turn. */
  function ProtocolSteps(h: Digest, rows: Rows, host: nat, turn: Turn, env: Env, x: Execution): seq<Event> {
    var preflight := PreflightWorkspace(h, rows, turn, x.disk, x.nowMs).1;
    var first := PreflightBy(host, x.disk, x.nowMs);
    if preflight.Failure? || preflight.value.PausedForDrift? then [first] else
    var t := preflight.value.turn;
    var prepared := x.prepare(t);
    if prepared.None? then [first, Crash(host)]
    else [first, BeginBy(host, x.attemptId, prepared.value.fingerprint, x.nowMs),
          CallBy(host, env, InputFor(t, prepared.value, x)),
          FinishBy(host, x.nowMs, true)]
  }

  lemma {:induction false} RunSteps(h: Digest, net: Net, a: Event, b: Event, c: Event, d: Event)
    ensures Run(h, net, [a]) == Step(h, net, a)
    ensures Run(h, net, [a, b]) == Step(h, Step(h, net, a), b)
    ensures Run(h, net, [a, b, c, d]) == Step(h, Step(h, Step(h, Step(h, net, a), b), c), d)
  {
    hide Step;
    assert [a, b, c, d][1..] == [b, c, d] && [b, c, d][1..] == [c, d] && [c, d][1..] == [d] && [d][1..] == [];
    assert [a, b][1..] == [b]
           && [a][1..] == [] && [b][1..] == [];
    assert Run(h, Step(h, net, a), [b]) == Step(h, Step(h, net, a), b);
    var n2 := Step(h, Step(h, net, a), b);
    assert Run(h, n2, [c, d]) == Run(h, Step(h, n2, c), [d]);
    assert Run(h, Step(h, n2, c), [d]) == Step(h, Step(h, n2, c), d);
    assert Run(h, Step(h, net, a), [b, c, d]) == Run(h, n2, [c, d]);
  }

  /** What an execution leaves in the store, and in the hands of its host, is what its protocol steps
      leave; so all that is proved of the protocol holds of executions. */
  lemma ExecutionIsProtocolSteps(h: Digest, net: Net, host: nat, turn: Turn, env: Env, x: Execution)
    requires HeldBy(net, host) == Some(turn)
    ensures var (rows, _, r) := ExecuteTurn(h, net.rows, env, World(turn.session, turn.task, [], []), turn, x);
            var end := Run(h, net, ProtocolSteps(h, net.rows, host, turn, env, x));
            && end.rows == rows
            && (r.Success? && r.value.TurnCommitted? ==> HeldBy(end, host) == Some(r.value.turn.turn))
            && (r.Failure? || r.value.WorkspaceDrift? ==> host !in end.hosts)
  {
    hide PreflightWorkspace, BeginTurn, CommitOutcome, MarkIndeterminate, Advance, Run;
    var (rows1, preflight) := PreflightWorkspace(h, net.rows, turn, x.disk, x.nowMs);
    var first := PreflightBy(host, x.disk, x.nowMs);
    assert preflight.Success? ==> preflight.value.TurnReady? || preflight.value.PausedForDrift?;
    if preflight.Failure? || preflight.value.PausedForDrift? {
      RunSteps(h, net, first, first, first, first);
    } else {
      var t := preflight.value.turn;
      var prepared := x.prepare(t);
      if prepared.None? {
        RunSteps(h, net, first, Crash(host), first, first);
      } else {
        var begin := BeginBy(host, x.attemptId, prepared.value.fingerprint, x.nowMs);
        RunSteps(h, net, first, begin, CallBy(host, env, InputFor(t, prepared.value, x)),
                 FinishBy(host, x.nowMs, true));
        FourSteps(h, Step(h, net, first), host, t, prepared.value, env, x);
      }
    }
  }

  lemma FourSteps(h: Digest, net: Net, host: nat, t: Turn, prepared: Prepared, env: Env, x: Execution)
    requires host in net.hosts && net.hosts[host] == Checked(t)
    ensures var begun := Step(h, net, BeginBy(host, x.attemptId, prepared.fingerprint, x.nowMs));
            var end := Step(h, Step(h, begun, CallBy(host, env, InputFor(t, prepared, x))),
                            FinishBy(host, x.nowMs, true));
            var (rows2, attempt) := BeginTurn(net.rows, t, prepared.fingerprint, x.attemptId, x.nowMs);
            if attempt.Failure? then end.rows == rows2 && host !in end.hosts
            else
              var (rows, _, r) := RunAttempt(rows2, env, World(t.session, t.task, [], []), t, attempt.value, prepared,
                                             x);
              && end.rows == rows
              && (if r.Success? then r.value.TurnCommitted? && HeldBy(end, host) == Some(r.value.turn.turn)
                  else host !in end.hosts)
  {
    hide BeginTurn, CommitOutcome, MarkIndeterminate, Advance;
    var start := World(t.session, t.task, [], []);
    assert start.(session := t.session, task := t.task) == start;
  }
}
