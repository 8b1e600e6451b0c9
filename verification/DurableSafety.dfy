/** At most one turn per checkpoint sequence, and nothing behind an attempt that was left open. */
module DurableSafety {
  import opened Wrappers
  import opened Provider
  import opened AutoMode
  import Tasks = AgentTasks
  import Supervisor
  import opened Workspace
  import opened TurnStore
  import opened AutoHost
  import opened DurableTurns

  // ---- What each service does to the rows ----

  ghost predicate SameAttempt(a: Option<Attempt>, b: Option<Attempt>) {
    || (a.None? && b.None?)
    || (a.Some? && b.Some?
        && a.value.(status := Active, updatedAtMs := 0) == b.value.(status := Active, updatedAtMs := 0))
  }

  /** The checkpoint is untouched; the attempt at most changes its status. */
  ghost predicate Quiet(rows: Rows, after: Rows) {
    after.checkpoint == rows.checkpoint && SameAttempt(rows.attempt, after.attempt)
  }

  /** A commit that leaves the attempt row alone. */
  ghost predicate Moved(rows: Rows, after: Rows) {
    after.checkpoint.sequence == rows.checkpoint.sequence + 1 && after.attempt == rows.attempt
  }

  /** A commit or resolution that closes the attempt made on the stored sequence. */
  ghost predicate Closes(rows: Rows, after: Rows) {
    && after.checkpoint.sequence == rows.checkpoint.sequence + 1
    && rows.attempt.Some? && rows.attempt.value.sequence == rows.checkpoint.sequence && after.attempt.None?
  }

  lemma RecoverRows(h: Digest, rows: Rows, goal: Goal, disk: Disk, nowMs: nat)
    ensures var (after, r) := Recover(h, rows, goal, disk, nowMs);
            && Quiet(rows, after) && after.session == rows.session && after.workspaces == rows.workspaces
            && (r.Success? ==> rows.attempt.None? && r.value.sequence == rows.checkpoint.sequence)
  {
    hide NewSnapshot;
  }

  lemma ResumeRows(rows: Rows, t: Turn, nowMs: nat)
    ensures var (after, r) := ResumeTurn(rows, t, nowMs);
            if r.Failure? then after == rows
            else Moved(rows, after) && t.sequence == rows.checkpoint.sequence
                 && r.value.sequence == after.checkpoint.sequence
  {
    hide ValidSession, ValidCheckpoint, MatchesBindings, Tasks.Transition;
  }

  lemma PreflightRows(h: Digest, rows: Rows, t: Turn, disk: Disk, nowMs: nat)
    ensures var (after, r) := PreflightWorkspace(h, rows, t, disk, nowMs);
            && (after == rows || Moved(rows, after))
            && (r.Failure? ==> after == rows)
            && (r.Success? && r.value.TurnReady? ==>
                     after == rows && r.value.turn == t.(workspace := r.value.turn.workspace)
                                                     && t.session.status == Running && t.task.status == Tasks.Running)
            && (r.Success? && r.value.PausedForDrift? ==> Moved(rows, after) && t.sequence == rows.checkpoint.sequence)
  {
    hide ValidSession, ValidCheckpoint, Validate, NewSnapshot, Tasks.Transition;
  }

  lemma ControlRows(rows: Rows, t: Turn, control: ControlRequest, nowMs: nat)
    ensures var (after, r) := ControlTurn(rows, t, control, nowMs);
            if r.Failure? then after == rows
            else Moved(rows, after) && t.sequence == rows.checkpoint.sequence
                 && r.value.sequence == after.checkpoint.sequence
  {
    hide ValidSession, ValidCheckpoint, MatchesBindings, Tasks.Transition, Tasks.CancelTask;
  }

  lemma BeginRows(rows: Rows, t: Turn, fingerprint: string, id: nat, nowMs: nat)
    ensures var (after, r) := BeginTurn(rows, t, fingerprint, id, nowMs);
            if r.Failure? then after == rows
            else && rows.attempt.None? && after == rows.(attempt := Some(r.value))
                 && r.value.sequence == t.sequence == rows.checkpoint.sequence
                 && rows.session.status == Running && r.value.status == Active
  {
    hide ValidText;
  }

  lemma MarkRows(rows: Rows, attempt: Attempt, nowMs: nat)
    ensures var after := MarkIndeterminate(rows, attempt, nowMs).0;
            Quiet(rows, after) && after.session == rows.session && after.workspaces == rows.workspaces
  {
  }

  lemma FinishRows(rows: Rows, attempt: Attempt, t: Turn, outcome: Supervisor.Outcome, nowMs: nat, stored: bool)
    ensures var (after, r) := CommitOutcome(rows, attempt, t, outcome, nowMs, stored);
            if r.Failure?
            then Quiet(rows, after) && after.session == rows.session && after.workspaces == rows.workspaces
            else && Closes(rows, after) && attempt.sequence == t.sequence == rows.checkpoint.sequence
                 && r.value.turn.sequence == after.checkpoint.sequence
  {
    hide ValidSession, ValidCheckpoint, MatchesBindings, Tasks.Transition, CompleteSession;
    MarkRows(rows, attempt, nowMs);
  }

  lemma ResolveRows(rows: Rows, r: Resolution)
    ensures var (after, done) := Resolve(rows, r);
            if done.Failure? then after == rows else Closes(rows, after)
  {
    hide ValidSession, ValidCheckpoint, MatchesBindings, Converged, ValidText;
  }

  lemma RestartRows(rows: Rows, nowMs: nat)
    ensures var after := PauseAfterRestart(rows, nowMs).0;
            && Quiet(rows, after) && after.attempt == rows.attempt && after.workspaces == rows.workspaces
            && (after.session != rows.session ==> after.session.status == Paused)
  {
    hide ValidSession;
  }

  // ---- The account of attempts and turns ----

  /** Every recorded attempt belongs to its own sequence, and the current sequence has one exactly
      while its row is there. */
  ghost predicate Recorded(net: Net) {
    && NoRepeats(net.begun)
    && (forall s :: s in net.begun ==> s <= net.rows.checkpoint.sequence)
    && (net.rows.checkpoint.sequence in net.begun ==>
          net.rows.attempt.Some? && net.rows.attempt.value.sequence == net.rows.checkpoint.sequence)
    && (net.rows.attempt.Some? ==>
             net.rows.attempt.value.sequence in net.begun && net.rows.attempt.value.sequence !in net.committed)
  }

  ghost predicate Started(net: Net) {
    && NoRepeats(net.called) && (forall s :: s in net.called ==> s in net.begun)
    && NoRepeats(net.asked) && (forall s :: s in net.asked ==> s in net.called)
    && NoRepeats(net.committed) && (forall s :: s in net.committed ==> s in net.called)
  }

  /** A host in the middle of a turn works on an attempt that was recorded and not committed. */
  ghost predicate Working(net: Net, host: Host) {
    host.MidTurn() ==>
      && host.attempt.sequence == host.turn.sequence
      && host.attempt.sequence in net.begun && host.attempt.sequence !in net.committed
      && (host.Begun? <==> host.attempt.sequence !in net.called)
  }

  ghost predicate Separate(hosts: map<nat, Host>) {
    forall a, b :: a in hosts && b in hosts && a != b && hosts[a].MidTurn() && hosts[b].MidTurn() ==>
      hosts[a].attempt.sequence != hosts[b].attempt.sequence
  }

  ghost predicate Account(net: Net) {
    Recorded(net) && Started(net) && Separate(net.hosts) && forall a :: a in net.hosts ==> Working(net, net.hosts[a])
  }

  lemma NoRepeatsAppend(s: seq<nat>, x: nat)
    requires NoRepeats(s) && x !in s
    ensures NoRepeats(s + [x])
  {
  }

  /** The host ends, or holds a turn again; rows move on without touching what was recorded. */
  lemma AccountQuiet(net: Net, after: Net)
    requires Account(net)
    requires Quiet(net.rows, after.rows) || Moved(net.rows, after.rows) || Closes(net.rows, after.rows)
    requires after.begun == net.begun && after.called == net.called && after.asked == net.asked
    requires after.committed == net.committed
    requires forall a :: a in after.hosts ==>
               !after.hosts[a].MidTurn() || (a in net.hosts && after.hosts[a] == net.hosts[a])
    ensures Account(after)
  {
    assert Recorded(after);
    forall a | a in after.hosts ensures Working(after, after.hosts[a]) {
      if after.hosts[a].MidTurn() { assert Working(net, net.hosts[a]); }
    }
  }

  lemma AccountBegin(net: Net, host: nat, id: nat, fingerprint: string, nowMs: nat)
    requires Account(net)
    ensures Account(Beginning(net, host, id, fingerprint, nowMs))
  {
    hide BeginTurn;
    if host in net.hosts && net.hosts[host].Checked? {
      var t := net.hosts[host].turn;
      BeginRows(net.rows, t, fingerprint, id, nowMs);
      var (rows, r) := BeginTurn(net.rows, t, fingerprint, id, nowMs);
      var after := Beginning(net, host, id, fingerprint, nowMs);
      if r.Failure? {
        AccountQuiet(net, after);
      } else {
        NoRepeatsAppend(net.begun, r.value.sequence);
        forall a | a in after.hosts ensures Working(after, after.hosts[a]) {
          if a != host { assert Working(net, net.hosts[a]); }
        }
        forall a, b | a in after.hosts && b in after.hosts && a != b && after.hosts[a].MidTurn()
                      && after.hosts[b].MidTurn()
          ensures after.hosts[a].attempt.sequence != after.hosts[b].attempt.sequence
        {
          assert a != host ==> Working(net, net.hosts[a]);
          assert b != host ==> Working(net, net.hosts[b]);
        }
      }
    }
  }

  lemma AccountCall(net: Net, host: nat, env: Supervisor.Env, input: Supervisor.StepInput)
    requires Account(net)
    ensures Account(Calling(net, host, env, input))
  {
    hide Supervised;
    if host in net.hosts && net.hosts[host].Begun? {
      var s := net.hosts[host].attempt.sequence;
      var after := Calling(net, host, env, input);
      assert Working(net, net.hosts[host]);
      NoRepeatsAppend(net.called, s);
      NoRepeatsAppend(net.asked, s);
      forall a | a in after.hosts ensures Working(after, after.hosts[a]) {
        if a != host { assert Working(net, net.hosts[a]); }
      }
    }
  }

  lemma AccountFinish(net: Net, host: nat, nowMs: nat, stored: bool)
    requires Account(net)
    ensures Account(Finishing(net, host, nowMs, stored))
  {
    hide CommitOutcome, MarkIndeterminate;
    if host in net.hosts && net.hosts[host].Answered? {
      var Answered(attempt, t, outcome) := net.hosts[host];
      var after := Finishing(net, host, nowMs, stored);
      assert Working(net, net.hosts[host]);
      if outcome.Failure? {
        MarkRows(net.rows, attempt, nowMs);
        AccountQuiet(net, after);
      } else {
        FinishRows(net.rows, attempt, t, outcome.value, nowMs, stored);
        var (rows, r) := CommitOutcome(net.rows, attempt, t, outcome.value, nowMs, stored);
        if r.Failure? {
          AccountQuiet(net, after);
        } else {
          NoRepeatsAppend(net.committed, attempt.sequence);
          forall a | a in after.hosts ensures Working(after, after.hosts[a]) {
            if a != host { assert Working(net, net.hosts[a]); }
          }
        }
      }
    }
  }

  lemma AccountStep(h: Digest, net: Net, e: Event)
    requires Account(net)
    ensures Account(Step(h, net, e))
  {
    hide Account, Recover, ResumeTurn, PreflightWorkspace, ControlTurn, Resolve, PauseAfterRestart, Beginning, Calling,
         Finishing, Quiet, Moved, Closes;
    match e {
      case RecoverBy(host, goal, disk, nowMs) =>
        RecoverRows(h, net.rows, goal, disk, nowMs);
        QuietStays(net.rows);
        AccountQuiet(net, Step(h, net, e));
      case ResumeBy(host, nowMs) =>
        if HeldBy(net, host).Some? { ResumeRows(net.rows, HeldBy(net, host).value, nowMs); }
        QuietStays(net.rows);
        AccountQuiet(net, Step(h, net, e));
      case CopyTurn(host, other) =>
        QuietStays(net.rows);
        AccountQuiet(net, Step(h, net, e));
      case PreflightBy(host, disk, nowMs) =>
        if HeldBy(net, host).Some? { PreflightRows(h, net.rows, HeldBy(net, host).value, disk, nowMs); }
        QuietStays(net.rows);
        AccountQuiet(net, Step(h, net, e));
      case BeginBy(host, id, fingerprint, nowMs) => AccountBegin(net, host, id, fingerprint, nowMs);
      case CallBy(host, env, input) => AccountCall(net, host, env, input);
      case FinishBy(host, nowMs, stored) => AccountFinish(net, host, nowMs, stored);
      case ControlBy(host, control, nowMs) =>
        if HeldBy(net, host).Some? { ControlRows(net.rows, HeldBy(net, host).value, control, nowMs); }
        QuietStays(net.rows);
        AccountQuiet(net, Step(h, net, e));
      case Crash(host) =>
        QuietStays(net.rows);
        AccountQuiet(net, Step(h, net, e));
      case Restart(nowMs) =>
        RestartRows(net.rows, nowMs);
        QuietStays(net.rows);
        AccountQuiet(net, Step(h, net, e));
      case ResolveAttempt(r) =>
        ResolveRows(net.rows, r);
        QuietStays(net.rows);
        AccountQuiet(net, Step(h, net, e));
    }
  }

  lemma QuietStays(rows: Rows)
    ensures Quiet(rows, rows)
  {
  }

  /** Over every run: one attempt and at most one turn per checkpoint sequence, every turn belongs to
      a recorded attempt, and nothing is committed twice. */
  lemma {:induction false} AtMostOneTurnPerSequence(h: Digest, net: Net, events: seq<Event>)
    requires Account(net)
    ensures var end := Run(h, net, events);
            && Account(end) && NoRepeats(end.begun) && NoRepeats(end.called)
            && (forall s :: s in end.called ==> s in end.begun)
    decreases events
  {
    hide Account, Step;
    if events == [] {
      AccountMeans(net);
    } else {
      AccountStep(h, net, events[0]);
      AtMostOneTurnPerSequence(h, Step(h, net, events[0]), events[1..]);
    }
  }

  lemma AccountMeans(net: Net)
    requires Account(net)
    ensures NoRepeats(net.begun) && NoRepeats(net.called) && (forall s :: s in net.called ==> s in net.begun)
  {
  }

  /** Every host that works on the session of a fresh store starts from this account. */
  lemma StartAccount(rows: Rows)
    requires rows.attempt.None?
    ensures Account(Start(rows)) && Start(rows).hosts == map[] && Start(rows).resolutions == 0
  {
  }

  // ---- An attempt left open ----

  ghost predicate NobodyMidTurn(net: Net) {
    forall a :: a in net.hosts ==> !net.hosts[a].MidTurn()
  }

  /** An attempt is recorded whose host is gone. */
  ghost predicate LeftOpen(net: Net) { net.rows.attempt.Some? && NobodyMidTurn(net) }

  lemma LeftOpenStep(h: Digest, net: Net, e: Event)
    requires LeftOpen(net)
    ensures var after := Step(h, net, e);
            || (LeftOpen(after) && after.begun == net.begun && after.called == net.called && after.asked == net.asked
                && after.resolutions == net.resolutions)
            || (e.ResolveAttempt? && after.resolutions == net.resolutions + 1)
  {
    hide Recover, ResumeTurn, PreflightWorkspace, ControlTurn, Resolve, PauseAfterRestart, BeginTurn, Supervised,
         CommitOutcome;
    match e {
      case RecoverBy(host, goal, disk, nowMs) => RecoverRows(h, net.rows, goal, disk, nowMs);
      case ResumeBy(host, nowMs) => if HeldBy(net, host).Some? { ResumeRows(net.rows, HeldBy(net, host).value, nowMs); }
      case PreflightBy(host, disk, nowMs) =>
        if HeldBy(net, host).Some? { PreflightRows(h, net.rows, HeldBy(net, host).value, disk, nowMs); }
      case BeginBy(host, id, fingerprint, nowMs) =>
        if host in net.hosts && net.hosts[host].Checked? {
          BeginRows(net.rows, net.hosts[host].turn, fingerprint, id, nowMs);
        }
      case ControlBy(host, control, nowMs) =>
        if HeldBy(net, host).Some? { ControlRows(net.rows, HeldBy(net, host).value, control, nowMs); }
      case Restart(nowMs) => RestartRows(net.rows, nowMs);
      case _ =>
    }
  }

  /** While nobody is in mid-turn and an attempt is recorded, no attempt is recorded and no turn is
      started any more, by any host in any run, unless the attempt is resolved by hand. */
  lemma {:induction false} LeftOpenBlocks(h: Digest, net: Net, events: seq<Event>)
    requires LeftOpen(net)
    ensures var end := Run(h, net, events);
            end.resolutions == net.resolutions ==>
              LeftOpen(end) && end.begun == net.begun && end.called == net.called && end.asked == net.asked
    decreases events
  {
    hide LeftOpen, Step;
    if events != [] {
      LeftOpenStep(h, net, events[0]);
      var next := Step(h, net, events[0]);
      ResolutionsGrow(h, next, events[1..]);
      if next.resolutions == net.resolutions {
        LeftOpenBlocks(h, next, events[1..]);
      }
    }
  }

  lemma {:induction false} ResolutionsGrow(h: Digest, net: Net, events: seq<Event>)
    ensures Run(h, net, events).resolutions >= net.resolutions
    decreases events
  {
    if events != [] {
      assert Step(h, net, events[0]).resolutions >= net.resolutions by {
        hide Recover, ResumeTurn, PreflightWorkspace, ControlTurn, Resolve, PauseAfterRestart, BeginTurn, Supervised,
             CommitOutcome;
      }
      ResolutionsGrow(h, Step(h, net, events[0]), events[1..]);
    }
  }

  // ---- Whose attempt it is ----

  /** Without a resolution, every attempt ever recorded was committed or is the one on record. */
  ghost predicate OneUnsettled(net: Net) {
    net.resolutions == 0 ==>
      forall s :: s in net.begun && s !in net.committed ==>
        net.rows.attempt.Some? && net.rows.attempt.value.sequence == s
  }

  /** Rows that keep the attempt, or a resolution, keep that. */
  lemma UnsettledStays(net: Net, after: Net)
    requires OneUnsettled(net) && after.begun == net.begun && after.committed == net.committed
    requires after.resolutions == net.resolutions ==> SameAttempt(net.rows.attempt, after.rows.attempt)
    requires after.resolutions >= net.resolutions
    ensures OneUnsettled(after)
  {
  }

  lemma UnsettledFinish(net: Net, host: nat, nowMs: nat, stored: bool)
    requires OneUnsettled(net)
    ensures OneUnsettled(Finishing(net, host, nowMs, stored))
  {
    hide CommitOutcome, MarkIndeterminate;
    if host in net.hosts && net.hosts[host].Answered? {
      var Answered(attempt, t, outcome) := net.hosts[host];
      MarkRows(net.rows, attempt, nowMs);
      if outcome.Success? { FinishRows(net.rows, attempt, t, outcome.value, nowMs, stored); }
    }
  }

  lemma UnsettledBegin(net: Net, host: nat, id: nat, fingerprint: string, nowMs: nat)
    requires OneUnsettled(net)
    ensures OneUnsettled(Beginning(net, host, id, fingerprint, nowMs))
  {
    hide BeginTurn;
    if host in net.hosts && net.hosts[host].Checked? {
      BeginRows(net.rows, net.hosts[host].turn, fingerprint, id, nowMs);
    }
  }

  lemma UnsettledStep(h: Digest, net: Net, e: Event)
    requires OneUnsettled(net)
    ensures OneUnsettled(Step(h, net, e))
  {
    hide OneUnsettled, Recover, ResumeTurn, PreflightWorkspace, ControlTurn, Resolve, PauseAfterRestart, Beginning,
         Supervised, Finishing;
    var after := Step(h, net, e);
    match e {
      case RecoverBy(host, goal, disk, nowMs) =>
        RecoverRows(h, net.rows, goal, disk, nowMs);
        UnsettledStays(net, after);
      case ResumeBy(host, nowMs) =>
        if HeldBy(net, host).Some? { ResumeRows(net.rows, HeldBy(net, host).value, nowMs); }
        UnsettledStays(net, after);
      case PreflightBy(host, disk, nowMs) =>
        if HeldBy(net, host).Some? { PreflightRows(h, net.rows, HeldBy(net, host).value, disk, nowMs); }
        UnsettledStays(net, after);
      case BeginBy(host, id, fingerprint, nowMs) => UnsettledBegin(net, host, id, fingerprint, nowMs);
      case FinishBy(host, nowMs, stored) => UnsettledFinish(net, host, nowMs, stored);
      case ControlBy(host, control, nowMs) =>
        if HeldBy(net, host).Some? { ControlRows(net.rows, HeldBy(net, host).value, control, nowMs); }
        UnsettledStays(net, after);
      case Restart(nowMs) =>
        RestartRows(net.rows, nowMs);
        UnsettledStays(net, after);
      case _ => UnsettledStays(net, after);
    }
  }

  lemma {:induction false} UnsettledRun(h: Digest, net: Net, events: seq<Event>)
    requires OneUnsettled(net)
    ensures OneUnsettled(Run(h, net, events))
    decreases events
  {
    hide OneUnsettled, Step;
    if events != [] {
      UnsettledStep(h, net, events[0]);
      UnsettledRun(h, Step(h, net, events[0]), events[1..]);
    }
  }

  /** Without a resolution, a host in the middle of a turn works on the attempt on record, so there is at
      most one such host. */
  lemma MidTurnOwnsAttempt(net: Net, host: nat)
    requires Account(net) && OneUnsettled(net) && net.resolutions == 0
    requires host in net.hosts && net.hosts[host].MidTurn()
    ensures net.rows.attempt.Some? && net.hosts[host].attempt.sequence == net.rows.attempt.value.sequence
    ensures forall other :: other in net.hosts && net.hosts[other].MidTurn() ==> other == host
  {
    assert Working(net, net.hosts[host]);
    forall other | other in net.hosts && net.hosts[other].MidTurn() ensures other == host {
      assert Working(net, net.hosts[other]);
    }
  }

  /** Nobody works on the attempt on record: its host is gone. */
  ghost predicate Abandoned(net: Net) {
    && net.rows.attempt.Some?
    && forall a :: a in net.hosts && net.hosts[a].MidTurn() ==>
         net.hosts[a].attempt.sequence != net.rows.attempt.value.sequence
  }

  /** Once the host of an attempt is gone, whatever took it away, no attempt is recorded and no Provider
      called any more, by any host in any run, unless an attempt is resolved by hand. */
  lemma OpenAttemptBlocks(h: Digest, rows: Rows, before: seq<Event>, later: seq<Event>)
    requires rows.attempt.None? && Abandoned(Run(h, Start(rows), before))
    ensures var net := Run(h, Start(rows), before);
            var end := Run(h, net, later);
            end.resolutions == 0 ==>
              LeftOpen(end) && end.begun == net.begun && end.called == net.called && end.asked == net.asked
  {
    hide Run, Account, OneUnsettled;
    var net := Run(h, Start(rows), before);
    StartAccount(rows);
    AtMostOneTurnPerSequence(h, Start(rows), before);
    NothingUnsettled(rows);
    UnsettledRun(h, Start(rows), before);
    ResolutionsGrow(h, net, later);
    if net.resolutions == 0 {
      forall a | a in net.hosts && net.hosts[a].MidTurn() ensures false { MidTurnOwnsAttempt(net, a); }
      LeftOpenBlocks(h, net, later);
    }
  }

  lemma NothingUnsettled(rows: Rows)
    ensures OneUnsettled(Start(rows))
  {
  }

  /** In particular after a crash in mid-turn. */
  lemma CrashedTurnBlocks(h: Digest, rows: Rows, before: seq<Event>, host: nat, later: seq<Event>)
    requires rows.attempt.None?
    requires var net := Run(h, Start(rows), before); host in net.hosts && net.hosts[host].MidTurn()
    ensures var net := Run(h, Start(rows), before);
            var end := Run(h, net, [Crash(host)] + later);
            end.resolutions == 0 ==>
              LeftOpen(end) && end.begun == net.begun && end.called == net.called && end.asked == net.asked
  {
    hide Run, Account, OneUnsettled;
    var net := Run(h, Start(rows), before);
    StartAccount(rows);
    AtMostOneTurnPerSequence(h, Start(rows), before);
    NothingUnsettled(rows);
    UnsettledRun(h, Start(rows), before);
    var crashed := Step(h, net, Crash(host));
    RunFirst(h, net, Crash(host), later);
    ResolutionsGrow(h, crashed, later);
    if net.resolutions == 0 {
      MidTurnOwnsAttempt(net, host);
      LeftOpenBlocks(h, crashed, later);
    }
  }

  lemma RunFirst(h: Digest, net: Net, e: Event, later: seq<Event>)
    ensures Run(h, net, [e] + later) == Run(h, Step(h, net, e), later)
  {
    hide Step;
    assert ([e] + later)[1..] == later;
  }

  // ---- An attempt overtaken by a commit ----

  /** The checkpoint has moved past the sequence of the recorded attempt. */
  ghost predicate Overtaken(rows: Rows) {
    rows.attempt.Some? && rows.attempt.value.sequence < rows.checkpoint.sequence
  }

  lemma OvertakenStep(h: Digest, net: Net, e: Event)
    requires Overtaken(net.rows)
    ensures Overtaken(Step(h, net, e).rows) && Step(h, net, e).begun == net.begun
  {
    hide Recover, ResumeTurn, PreflightWorkspace, ControlTurn, Resolve, PauseAfterRestart, BeginTurn, Supervised,
         CommitOutcome, MarkIndeterminate;
    match e {
      case RecoverBy(host, goal, disk, nowMs) => RecoverRows(h, net.rows, goal, disk, nowMs);
      case ResumeBy(host, nowMs) => if HeldBy(net, host).Some? { ResumeRows(net.rows, HeldBy(net, host).value, nowMs); }
      case PreflightBy(host, disk, nowMs) =>
        if HeldBy(net, host).Some? { PreflightRows(h, net.rows, HeldBy(net, host).value, disk, nowMs); }
      case BeginBy(host, id, fingerprint, nowMs) =>
        if host in net.hosts && net.hosts[host].Checked? {
          BeginRows(net.rows, net.hosts[host].turn, fingerprint, id, nowMs);
        }
      case FinishBy(host, nowMs, stored) => FinishOvertaken(net, host, nowMs, stored);
      case ControlBy(host, control, nowMs) =>
        if HeldBy(net, host).Some? { ControlRows(net.rows, HeldBy(net, host).value, control, nowMs); }
      case Restart(nowMs) => RestartRows(net.rows, nowMs);
      case ResolveAttempt(r) => ResolveRows(net.rows, r);
      case _ =>
    }
  }

  lemma FinishOvertaken(net: Net, host: nat, nowMs: nat, stored: bool)
    requires Overtaken(net.rows)
    ensures Overtaken(Finishing(net, host, nowMs, stored).rows)
    ensures Finishing(net, host, nowMs, stored).begun == net.begun
  {
    hide CommitOutcome, MarkIndeterminate;
    if host in net.hosts && net.hosts[host].Answered? {
      var Answered(attempt, t, outcome) := net.hosts[host];
      MarkRows(net.rows, attempt, nowMs);
      if outcome.Success? { FinishRows(net.rows, attempt, t, outcome.value, nowMs, stored); }
    }
  }

  /** Resolving by hand does not always help: an attempt that a commit has overtaken stays recorded for
      ever, whatever is resolved, and no later attempt can be recorded. */
  lemma {:induction false} OvertakenAttemptStays(h: Digest, net: Net, events: seq<Event>)
    requires Overtaken(net.rows)
    ensures Overtaken(Run(h, net, events).rows) && Run(h, net, events).begun == net.begun
    decreases events
  {
    hide Overtaken, Step;
    if events != [] {
      OvertakenStep(h, net, events[0]);
      OvertakenAttemptStays(h, Step(h, net, events[0]), events[1..]);
    }
  }
}
