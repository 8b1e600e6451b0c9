/** What the durable session remembers over crashes: no lost or doubled messages, and a bound on the
    Provider calls of all hosts together. */
module DurableHistory {
  import opened MachineNumbers
  import opened Provider
  import opened AutoMode
  import Tasks = AgentTasks
  import Supervisor
  import opened SupervisorSafety
  import SupervisorTurns
  import SupervisorRuns
  import FiniteSets
  import opened Workspace
  import opened TurnStore
  import opened AutoHost
  import opened DurableTurns
  import DS = DurableSafety

  ghost predicate StoredValid(rows: Rows) { ValidSession(rows.session) && ValidCheckpoint(rows.checkpoint) }

  ghost predicate SameConversation(c: Checkpoint, d: Checkpoint) {
    c.messages == d.messages && c.model == d.model && SameTask(c.task, d.task)
  }

  /** A turn that goes back to this store: an older version of it, or, if the sequences agree, exactly
      what is stored. */
  ghost predicate Follows(rows: Rows, t: Turn) {
    && t.sequence <= rows.checkpoint.sequence
    && SameBinding(rows.session, t.session)
    && SameTask(t.task, rows.checkpoint.task) && t.task.usage.toolCalls <= U32_MAX
    && (t.sequence == rows.checkpoint.sequence ==>
             t.messages == rows.checkpoint.messages && t.model == rows.checkpoint.model)
  }

  ghost predicate UpToDate(rows: Rows, t: Turn) {
    Follows(rows, t) && (t.sequence == rows.checkpoint.sequence ==> t.session.usage == rows.session.usage)
  }

  /** The rows change without losing the conversation, the bindings or the ledger. */
  ghost predicate Kept(rows: Rows, after: Rows) {
    && StoredValid(after) && SameBinding(rows.session, after.session)
    && SameConversation(rows.checkpoint, after.checkpoint)
    && after.session.usage == rows.session.usage
  }

  // ---- The services keep the conversation ----

  lemma PausedTaskSame(task: Tasks.Task, nowMs: nat)
    requires Tasks.ValidTask(task) && PausedTask(task, nowMs).Some?
    ensures SameTask(PausedTask(task, nowMs).value, task) && PausedTask(task, nowMs).value.usage.toolCalls <= U32_MAX
  {
  }

  lemma RestoredFollows(h: Digest, rows: Rows, goal: Goal, disk: Disk, nowMs: nat)
    requires Tasks.ValidTask(rows.checkpoint.task) && Restored(h, rows, goal, disk, nowMs).Success?
    ensures UpToDate(rows, Restored(h, rows, goal, disk, nowMs).value)
  {
    hide ScanFiles, PausedTask, Tasks.ValidTask;
    PausedTaskSame(rows.checkpoint.task, nowMs);
  }

  lemma RecoverKeeps(h: Digest, rows: Rows, goal: Goal, disk: Disk, nowMs: nat)
    requires StoredValid(rows)
    ensures var (after, r) := Recover(h, rows, goal, disk, nowMs);
            Kept(rows, after) && (r.Success? ==> UpToDate(after, r.value))
  {
    hide Restored, ValidSession, UpToDate;
    assert Tasks.ValidTask(rows.checkpoint.task);
    hide ValidCheckpoint, Tasks.ValidTask;
    if Restored(h, rows, goal, disk, nowMs).Success? { RestoredFollows(h, rows, goal, disk, nowMs); }
  }

  lemma TransitionSame(task: Tasks.Task, next: Tasks.TaskStatus, nowMs: nat)
    ensures SameTask(Tasks.Transition(task, next, nowMs).0, task)
    ensures Tasks.Transition(task, next, nowMs).0.usage == task.usage
  {
  }

  lemma ResumeKeeps(rows: Rows, t: Turn, nowMs: nat)
    requires StoredValid(rows) && UpToDate(rows, t)
    ensures var (after, r) := ResumeTurn(rows, t, nowMs);
            Kept(rows, after) && (r.Success? ==> UpToDate(after, r.value))
  {
    hide ValidSession, ValidCheckpoint, MatchesBindings, Tasks.Transition;
    TransitionSame(t.task, Tasks.Running, nowMs);
  }

  lemma ControlKeeps(rows: Rows, t: Turn, control: ControlRequest, nowMs: nat)
    requires StoredValid(rows) && UpToDate(rows, t)
    ensures var (after, r) := ControlTurn(rows, t, control, nowMs);
            Kept(rows, after) && (r.Success? ==> UpToDate(after, r.value))
  {
    hide ValidSession, ValidCheckpoint, MatchesBindings, Tasks.Transition;
    TransitionSame(t.task, Tasks.Paused, nowMs);
  }

  lemma DriftKeeps(h: Digest, rows: Rows, t: Turn, disk: Disk, nowMs: nat)
    requires StoredValid(rows) && UpToDate(rows, t)
    ensures var (after, r) := PreflightWorkspace(h, rows, t, disk, nowMs);
            Kept(rows, after) && (r.Success? && r.value.TurnReady? ==> UpToDate(after, r.value.turn))
  {
    hide ValidSession, ValidCheckpoint, Validate, NewSnapshot, Tasks.Transition;
    TransitionSame(t.task, Tasks.Paused, nowMs);
  }

  lemma MarkKeeps(rows: Rows, attempt: Attempt, nowMs: nat)
    requires StoredValid(rows)
    ensures Kept(rows, MarkIndeterminate(rows, attempt, nowMs).0)
  {
    hide ValidSession, ValidCheckpoint;
  }

  lemma RestartKeeps(rows: Rows, nowMs: nat)
    requires StoredValid(rows)
    ensures Kept(rows, PauseAfterRestart(rows, nowMs).0)
  {
    hide ValidCheckpoint, ValidPolicy, ExceedsBudget;
  }

  lemma ResolveKeeps(rows: Rows, r: Resolution)
    requires StoredValid(rows)
    ensures Kept(rows, Resolve(rows, r).0)
  {
    hide ValidSession, ValidCheckpoint, MatchesBindings, Tasks.Transition, ValidText;
    TransitionSame(rows.checkpoint.task, Tasks.Paused, r.resolvedAtMs);
  }

  /** What an outcome adds to the conversation. */
  function Said(outcome: Supervisor.Outcome): seq<Message> {
    match outcome
    case TurnContinues(messages) => messages
    case TurnPaused(_, _) => []
    case TurnCompleted(response) => [TextMessage(Assistant, response.content, Personal, false)]
  }

  lemma SettledSays(t: Turn, outcome: Supervisor.Outcome, nowMs: nat)
    requires Settled(t, outcome, nowMs).Some?
    ensures var s := Settled(t, outcome, nowMs).value;
            && s.messages == t.messages + Said(outcome) && SameTask(s.task, t.task) && s.task.usage == t.task.usage
            && s.session.usage == t.session.usage && SameBinding(t.session, s.session)
            && s.sequence == t.sequence && s.model == t.model && s.goal == t.goal && s.workspace == t.workspace
            && s.checkpointCreatedAtMs == t.checkpointCreatedAtMs
  {
    hide Tasks.Transition;
    TransitionSame(t.task, Tasks.Paused, nowMs);
  }

  /** A committed turn appends exactly what its outcome says to exactly the stored conversation, and
      stores the turn's own ledger. */
  lemma CommitAppends(rows: Rows, attempt: Attempt, t: Turn, outcome: Supervisor.Outcome, nowMs: nat, stored: bool)
    requires StoredValid(rows) && Follows(rows, t)
    ensures var (after, r) := CommitOutcome(rows, attempt, t, outcome, nowMs, stored);
            if r.Failure? then Kept(rows, after)
            else && StoredValid(after) && SameBinding(rows.session, after.session)
                 && after.checkpoint.messages == rows.checkpoint.messages + Said(outcome)
                 && after.checkpoint.model == rows.checkpoint.model
                 && SameTask(after.checkpoint.task, rows.checkpoint.task)
                 && after.session.usage == t.session.usage && UpToDate(after, r.value.turn)
  {
    hide ValidSession, ValidCheckpoint, MatchesBindings, Settled, MarkIndeterminate;
    MarkKeeps(rows, attempt, nowMs);
    if Settled(t, outcome, nowMs).Some? { SettledSays(t, outcome, nowMs); }
  }

  // ---- The invariant over all hosts ----

  /** An answered turn has paid for the Provider call it made. */
  ghost predicate HostFollows(net: Net, host: Host) {
    && Follows(net.rows, host.turn)
    && (host.turn.sequence == net.rows.checkpoint.sequence ==>
          if host.Answered? then
            net.rows.session.usage.cycles + (if host.attempt.sequence in net.asked then 1 else 0)
            <= host.turn.session.usage.cycles
          else host.turn.session.usage == net.rows.session.usage)
  }

  ghost predicate Remembers(net: Net) {
    StoredValid(net.rows) && forall a :: a in net.hosts ==> HostFollows(net, net.hosts[a])
  }

  /** A row change that keeps the ledger leaves every host behind or up to date. */
  lemma HostStays(net: Net, after: Net, host: Host)
    requires HostFollows(net, host) && after.asked == net.asked
    requires Kept(net.rows, after.rows) && after.rows.checkpoint.sequence >= net.rows.checkpoint.sequence
    ensures HostFollows(after, host)
  {
    hide StoredValid;
  }

  /** One service call by one host: the rows are kept, and only that host may end up elsewhere, with
      a turn that goes back to the new rows. */
  ghost predicate Serviced(net: Net, after: Net, host: nat) {
    && after.asked == net.asked
    && Kept(net.rows, after.rows) && after.rows.checkpoint.sequence >= net.rows.checkpoint.sequence
    && forall a :: a in after.hosts ==>
         || (a in net.hosts && after.hosts[a] == net.hosts[a])
         || (a == host && !after.hosts[a].Answered? && UpToDate(after.rows, after.hosts[a].turn))
  }

  lemma RemembersKept(net: Net, after: Net, host: nat)
    requires Remembers(net) && Serviced(net, after, host)
    ensures Remembers(after)
  {
    hide StoredValid, HostFollows, Kept, Follows;
    KeptValid(net.rows, after.rows);
    forall a | a in after.hosts ensures HostFollows(after, after.hosts[a]) {
      if a in net.hosts && after.hosts[a] == net.hosts[a] {
        HostStays(net, after, net.hosts[a]);
      } else {
        UpToDateFollows(after, after.hosts[a]);
      }
    }
  }

  lemma KeptValid(rows: Rows, after: Rows)
    requires Kept(rows, after)
    ensures StoredValid(after)
  {
  }

  lemma UpToDateFollows(net: Net, host: Host)
    requires UpToDate(net.rows, host.turn) && !host.Answered?
    ensures HostFollows(net, host)
  {
  }

  lemma HostUpToDate(net: Net, host: nat)
    requires Remembers(net) && host in net.hosts && !net.hosts[host].Answered?
    ensures UpToDate(net.rows, net.hosts[host].turn)
  {
    assert HostFollows(net, net.hosts[host]);
  }

  lemma CallRemembers(net: Net, host: nat, env: Supervisor.Env, input: Supervisor.StepInput)
    requires Remembers(net) && DS.Account(net) && SupervisorTurns.Registered(env)
    ensures Remembers(Calling(net, host, env, input))
  {
    hide StoredValid, Supervised, SupervisorTurns.Registered;
    if host in net.hosts && net.hosts[host].Begun? {
      var Begun(attempt, t) := net.hosts[host];
      var after := Calling(net, host, env, input);
      assert HostFollows(net, net.hosts[host]) && DS.Working(net, net.hosts[host]);
      SupervisedKeeps(net.rows, t, env, input);
      forall a | a in after.hosts ensures HostFollows(after, after.hosts[a]) {
        if a != host {
          assert HostFollows(net, net.hosts[a]) && DS.Working(net, net.hosts[a]);
          assert net.hosts[a].Answered? ==> net.hosts[a].attempt.sequence != attempt.sequence;
        }
      }
    }
  }

  lemma SupervisedKeeps(rows: Rows, t: Turn, env: Supervisor.Env, input: Supervisor.StepInput)
    requires StoredValid(rows) && Follows(rows, t) && SupervisorTurns.Registered(env)
    ensures var (w, _) := Supervised(env, t, input);
            && Follows(rows, t.(session := w.session, task := w.task)) && |w.requests| <= 1
            && t.session.usage.cycles + |w.requests| <= w.session.usage.cycles
  {
    hide Supervisor.Advance, SupervisorTurns.Registered, ValidSession, SupervisorTurns.TurnEnds;
    var start := Supervisor.World(t.session, t.task, [], []);
    assert Tasks.ValidBudget(t.task.budget);
    hide ValidCheckpoint;
    SupervisorTurns.TurnEffect(env, start, input);
    PaidUsage(start, Supervised(env, t, input).0);
  }

  lemma PaidUsage(w: Supervisor.World, after: Supervisor.World)
    requires SupervisorTurns.TurnKept(w, after) && w.requests == [] && w.trace == []
    requires Tasks.ValidBudget(w.task.budget) && w.task.usage.toolCalls <= U32_MAX
    ensures after.task.usage.toolCalls <= U32_MAX
  {
    assert SupervisorTurns.Paid(w);
  }

  lemma CommitRemembers(net: Net, after: Net)
    requires Remembers(net) && after.asked == net.asked
    requires StoredValid(after.rows) && SameBinding(net.rows.session, after.rows.session)
    requires SameTask(after.rows.checkpoint.task, net.rows.checkpoint.task)
    requires after.rows.checkpoint.sequence == net.rows.checkpoint.sequence + 1
    requires forall a :: a in after.hosts ==>
               (a in net.hosts && after.hosts[a] == net.hosts[a])
               || (after.hosts[a].Holding? && UpToDate(after.rows, after.hosts[a].turn))
    ensures Remembers(after)
  {
    hide StoredValid;
    forall a | a in after.hosts ensures HostFollows(after, after.hosts[a]) {
      if a in net.hosts && after.hosts[a] == net.hosts[a] { assert HostFollows(net, net.hosts[a]); }
    }
  }

  lemma FinishRemembers(net: Net, host: nat, nowMs: nat, stored: bool)
    requires Remembers(net) && DS.Account(net)
    ensures Remembers(Finishing(net, host, nowMs, stored))
  {
    hide CommitOutcome, MarkIndeterminate, DS.Account, Kept, UpToDate;
    if host in net.hosts && net.hosts[host].Answered? {
      var Answered(attempt, t, outcome) := net.hosts[host];
      var after := Finishing(net, host, nowMs, stored);
      assert HostFollows(net, net.hosts[host]);
      DS.MarkRows(net.rows, attempt, nowMs);
      MarkKeeps(net.rows, attempt, nowMs);
      if outcome.Failure? {
        RemembersKept(net, after, host);
      } else {
        DS.FinishRows(net.rows, attempt, t, outcome.value, nowMs, stored);
        CommitAppends(net.rows, attempt, t, outcome.value, nowMs, stored);
        var (rows, r) := CommitOutcome(net.rows, attempt, t, outcome.value, nowMs, stored);
        if r.Failure? {
          RemembersKept(net, after, host);
        } else {
          CommitRemembers(net, after);
        }
      }
    }
  }

  lemma RecoverServes(h: Digest, net: Net, host: nat, goal: Goal, disk: Disk, nowMs: nat)
    requires Remembers(net)
    ensures Serviced(net, Recovering(h, net, host, goal, disk, nowMs), host)
  {
    hide Recover, StoredValid, Kept, UpToDate, HostFollows;
    KeptItself(net.rows);
    RecoverKeeps(h, net.rows, goal, disk, nowMs);
    DS.RecoverRows(h, net.rows, goal, disk, nowMs);
  }

  lemma ResumeServes(net: Net, host: nat, nowMs: nat)
    requires Remembers(net)
    ensures Serviced(net, Resuming(net, host, nowMs), host)
  {
    hide ResumeTurn, StoredValid, Kept, UpToDate, HostFollows;
    KeptItself(net.rows);
    if HeldBy(net, host).Some? {
      HostUpToDate(net, host);
      ResumeKeeps(net.rows, HeldBy(net, host).value, nowMs);
      DS.ResumeRows(net.rows, HeldBy(net, host).value, nowMs);
    }
  }

  lemma PreflightServes(h: Digest, net: Net, host: nat, disk: Disk, nowMs: nat)
    requires Remembers(net)
    ensures Serviced(net, Preflighting(h, net, host, disk, nowMs), host)
  {
    hide PreflightWorkspace, StoredValid, Kept, UpToDate, HostFollows;
    KeptItself(net.rows);
    if HeldBy(net, host).Some? {
      HostUpToDate(net, host);
      DriftKeeps(h, net.rows, HeldBy(net, host).value, disk, nowMs);
      DS.PreflightRows(h, net.rows, HeldBy(net, host).value, disk, nowMs);
    }
  }

  lemma ControlServes(net: Net, host: nat, control: ControlRequest, nowMs: nat)
    requires Remembers(net)
    ensures Serviced(net, Controlling(net, host, control, nowMs), host)
  {
    hide ControlTurn, StoredValid, Kept, UpToDate, HostFollows;
    KeptItself(net.rows);
    if HeldBy(net, host).Some? {
      HostUpToDate(net, host);
      ControlKeeps(net.rows, HeldBy(net, host).value, control, nowMs);
      DS.ControlRows(net.rows, HeldBy(net, host).value, control, nowMs);
    }
  }

  lemma CopyServes(net: Net, host: nat, other: nat)
    requires Remembers(net)
    ensures Serviced(net, Copying(net, host, other), other)
  {
    hide StoredValid, Kept, UpToDate, HostFollows;
    KeptItself(net.rows);
    if HeldBy(net, host).Some? { HostUpToDate(net, host); }
  }

  lemma StoreServes(h: Digest, net: Net, e: Event)
    requires Remembers(net) && (e.Restart? || e.ResolveAttempt? || e.Crash?)
    ensures Serviced(net, Step(h, net, e), 0)
  {
    hide Resolve, PauseAfterRestart, StoredValid, Kept, UpToDate, HostFollows;
    KeptItself(net.rows);
    match e {
      case Restart(nowMs) =>
        RestartKeeps(net.rows, nowMs);
        DS.RestartRows(net.rows, nowMs);
      case ResolveAttempt(r) =>
        ResolveKeeps(net.rows, r);
        DS.ResolveRows(net.rows, r);
      case _ =>
    }
  }

  lemma BeginServes(net: Net, host: nat, id: nat, fingerprint: string, nowMs: nat)
    requires Remembers(net)
    ensures Serviced(net, Beginning(net, host, id, fingerprint, nowMs), host)
  {
    hide BeginTurn, StoredValid, Kept, UpToDate, HostFollows;
    KeptItself(net.rows);
    if host in net.hosts && net.hosts[host].Checked? {
      HostUpToDate(net, host);
      BeginKeeps(net.rows, net.hosts[host].turn, fingerprint, id, nowMs);
    }
  }

  function Acting(e: Event): nat {
    match e
    case CopyTurn(_, other) => other
    case Restart(_) => 0
    case ResolveAttempt(_) => 0
    case Crash(_) => 0
    case _ => e.host
  }

  /** Every step but the Provider call and the commit of its outcome is a service call. */
  lemma StepServes(h: Digest, net: Net, e: Event)
    requires Remembers(net) && !e.CallBy? && !e.FinishBy?
    ensures Serviced(net, Step(h, net, e), Acting(e))
  {
    hide Remembers, Serviced, Recovering, Resuming, Copying, Preflighting, Beginning, Controlling, Resolving;
    match e {
      case RecoverBy(host, goal, disk, nowMs) => RecoverServes(h, net, host, goal, disk, nowMs);
      case ResumeBy(host, nowMs) => ResumeServes(net, host, nowMs);
      case CopyTurn(host, other) => CopyServes(net, host, other);
      case PreflightBy(host, disk, nowMs) => PreflightServes(h, net, host, disk, nowMs);
      case BeginBy(host, id, fingerprint, nowMs) => BeginServes(net, host, id, fingerprint, nowMs);
      case ControlBy(host, control, nowMs) => ControlServes(net, host, control, nowMs);
      case _ => StoreServes(h, net, e);
    }
  }

  lemma StepRemembers(h: Digest, net: Net, e: Event)
    requires Remembers(net) && DS.Account(net) && (e.CallBy? ==> SupervisorTurns.Registered(e.env))
    ensures Remembers(Step(h, net, e))
  {
    hide Remembers, Serviced, Recovering, Resuming, Copying, Preflighting, Beginning, Controlling, Resolving, Calling,
         Finishing;
    hide DS.Account, SupervisorTurns.Registered;
    match e {
      case CallBy(host, env, input) => CallRemembers(net, host, env, input);
      case FinishBy(host, nowMs, stored) => FinishRemembers(net, host, nowMs, stored);
      case _ =>
        StepServes(h, net, e);
        RemembersKept(net, Step(h, net, e), Acting(e));
    }
  }

  lemma KeptItself(rows: Rows)
    requires StoredValid(rows)
    ensures Kept(rows, rows)
  {
  }

  lemma BeginKeeps(rows: Rows, t: Turn, fingerprint: string, id: nat, nowMs: nat)
    requires StoredValid(rows) && UpToDate(rows, t)
    ensures var (after, r) := BeginTurn(rows, t, fingerprint, id, nowMs);
            Kept(rows, after) && UpToDate(after, t) && after.checkpoint == rows.checkpoint
  {
    hide BeginTurn, ValidSession, ValidCheckpoint;
    DS.BeginRows(rows, t, fingerprint, id, nowMs);
  }

  // ---- Runs ----

  ghost predicate Possible(events: seq<Event>) {
    forall i :: 0 <= i < |events| ==> events[i].CallBy? ==> SupervisorTurns.Registered(events[i].env)
  }

  /** The rows of every later state: same bindings, and the conversation only ever grows at its end. */
  ghost predicate Extends(rows: Rows, after: Rows) {
    && SameBinding(rows.session, after.session) && SameTask(after.checkpoint.task, rows.checkpoint.task)
    && rows.checkpoint.messages <= after.checkpoint.messages && after.checkpoint.model == rows.checkpoint.model
    && rows.session.usage.cycles <= after.session.usage.cycles
    && rows.checkpoint.sequence <= after.checkpoint.sequence
  }

  lemma KeptExtends(rows: Rows, after: Rows)
    requires Kept(rows, after) && rows.checkpoint.sequence <= after.checkpoint.sequence
    ensures Extends(rows, after)
  {
    hide StoredValid;
  }

  lemma StepExtends(h: Digest, net: Net, e: Event)
    requires Remembers(net) && DS.Account(net)
    ensures Extends(net.rows, Step(h, net, e).rows)
  {
    hide Remembers, Recovering, Resuming, Copying, Preflighting, Beginning, Controlling, Resolving, Calling, Finishing,
         Kept, Extends;
    hide DS.Account, UpToDate;
    match e {
      case CallBy(host, env, input) =>
        CallKeepsRows(net, host, env, input);
        ExtendsItself(net.rows);
      case FinishBy(host, nowMs, stored) => FinishExtends(net, host, nowMs, stored);
      case _ =>
        StepServes(h, net, e);
        KeptExtends(net.rows, Step(h, net, e).rows);
    }
  }

  lemma CallKeepsRows(net: Net, host: nat, env: Supervisor.Env, input: Supervisor.StepInput)
    ensures Calling(net, host, env, input).rows == net.rows
  {
    hide Supervised;
  }

  lemma FinishExtends(net: Net, host: nat, nowMs: nat, stored: bool)
    requires Remembers(net) && DS.Account(net)
    ensures Extends(net.rows, Finishing(net, host, nowMs, stored).rows)
  {
    hide CommitOutcome, MarkIndeterminate, DS.Account, Kept, UpToDate;
    KeptItself(net.rows);
    KeptExtends(net.rows, net.rows);
    if host in net.hosts && net.hosts[host].Answered? {
      var Answered(attempt, t, outcome) := net.hosts[host];
      var after := Finishing(net, host, nowMs, stored).rows;
      assert HostFollows(net, net.hosts[host]);
      hide StoredValid;
      MarkKeeps(net.rows, attempt, nowMs);
      DS.MarkRows(net.rows, attempt, nowMs);
      if outcome.Failure? {
        KeptExtends(net.rows, after);
      } else {
        DS.FinishRows(net.rows, attempt, t, outcome.value, nowMs, stored);
        CommitAppends(net.rows, attempt, t, outcome.value, nowMs, stored);
        if CommitOutcome(net.rows, attempt, t, outcome.value, nowMs, stored).1.Failure? {
          KeptExtends(net.rows, after);
        }
      }
    }
  }

  /** Over every run no stored message is lost, changed or reordered, the ledger never goes back and
      the session keeps its goal, plan and policy. */
  lemma {:induction false} HistoryGrows(h: Digest, net: Net, events: seq<Event>)
    requires Remembers(net) && DS.Account(net) && Possible(events)
    ensures var end := Run(h, net, events); Remembers(end) && DS.Account(end) && Extends(net.rows, end.rows)
    decreases events
  {
    hide Remembers, Step, Extends, DS.Account;
    if events == [] {
      assert Extends(net.rows, net.rows) by { ExtendsItself(net.rows); }
    } else {
      var next := Step(h, net, events[0]);
      DS.AccountStep(h, net, events[0]);
      StepRemembers(h, net, events[0]);
      StepExtends(h, net, events[0]);
      assert forall i :: 0 <= i < |events| - 1 ==> events[1..][i] == events[i + 1];
      HistoryGrows(h, next, events[1..]);
      ExtendsOn(net.rows, next.rows, Run(h, next, events[1..]).rows);
    }
  }

  lemma ExtendsItself(rows: Rows)
    ensures Extends(rows, rows)
  {
  }

  lemma ExtendsOn(a: Rows, b: Rows, c: Rows)
    requires Extends(a, b) && Extends(b, c)
    ensures Extends(a, c)
  {
  }

  // ---- Provider calls of all hosts together ----

  /** Turns that called the Provider and were committed. */
  ghost function Bought(net: Net): set<nat> { set s | s in net.asked && s in net.committed }

  /** Attempts that were never committed. */
  ghost function Uncommitted(net: Net): set<nat> { set s | s in net.begun && s !in net.committed }

  ghost predicate Covered(net: Net) {
    && |Bought(net)| <= net.rows.session.usage.cycles
    && |Uncommitted(net)| <= net.resolutions + if net.rows.attempt.Some? then 1 else 0
  }

  lemma CoveredSame(net: Net, after: Net)
    requires Covered(net) && after.begun == net.begun && after.asked == net.asked && after.committed == net.committed
    requires net.rows.session.usage.cycles <= after.rows.session.usage.cycles
    requires net.resolutions + (if net.rows.attempt.Some? then 1 else 0)
             <= after.resolutions + (if after.rows.attempt.Some? then 1 else 0)
    ensures Covered(after)
  {
    assert Bought(after) == Bought(net) && Uncommitted(after) == Uncommitted(net);
  }

  lemma CoveredBegin(net: Net, host: nat, id: nat, fingerprint: string, nowMs: nat)
    requires Covered(net) && DS.Account(net)
    ensures Covered(Beginning(net, host, id, fingerprint, nowMs))
  {
    hide BeginTurn;
    if host in net.hosts && net.hosts[host].Checked? {
      DS.BeginRows(net.rows, net.hosts[host].turn, fingerprint, id, nowMs);
      var r := BeginTurn(net.rows, net.hosts[host].turn, fingerprint, id, nowMs).1;
      var after := Beginning(net, host, id, fingerprint, nowMs);
      if r.Failure? {
        CoveredSame(net, after);
      } else {
        assert Bought(after) == Bought(net);
        assert Uncommitted(after) <= Uncommitted(net) + {r.value.sequence};
        FiniteSets.SubsetCount(Uncommitted(after), Uncommitted(net) + {r.value.sequence});
      }
    }
  }

  lemma CoveredCall(net: Net, host: nat, env: Supervisor.Env, input: Supervisor.StepInput)
    requires Covered(net) && DS.Account(net)
    ensures Covered(Calling(net, host, env, input))
  {
    hide Supervised;
    if host in net.hosts && net.hosts[host].Begun? {
      var after := Calling(net, host, env, input);
      assert DS.Working(net, net.hosts[host]);
      assert Bought(after) == Bought(net) && Uncommitted(after) == Uncommitted(net);
    }
  }

  lemma CoveredFinish(net: Net, host: nat, nowMs: nat, stored: bool)
    requires Covered(net) && DS.Account(net) && Remembers(net)
    ensures Covered(Finishing(net, host, nowMs, stored))
  {
    hide CommitOutcome, MarkIndeterminate;
    if host in net.hosts && net.hosts[host].Answered? {
      var Answered(attempt, t, outcome) := net.hosts[host];
      var after := Finishing(net, host, nowMs, stored);
      assert HostFollows(net, net.hosts[host]) && DS.Working(net, net.hosts[host]);
      hide StoredValid;
      DS.MarkRows(net.rows, attempt, nowMs);
      if outcome.Failure? {
        CoveredSame(net, after);
      } else {
        DS.FinishRows(net.rows, attempt, t, outcome.value, nowMs, stored);
        CommitAppends(net.rows, attempt, t, outcome.value, nowMs, stored);
        if CommitOutcome(net.rows, attempt, t, outcome.value, nowMs, stored).1.Failure? {
          CoveredSame(net, after);
        } else {
          CoveredCommit(net, after, attempt.sequence);
        }
      }
    }
  }

  lemma CoveredCommit(net: Net, after: Net, sequence: nat)
    requires Covered(net) && after.begun == net.begun && after.asked == net.asked
    requires after.committed == net.committed + [sequence]
    requires sequence in net.begun && sequence !in net.committed
    requires net.rows.attempt.Some? && after.rows.attempt.None? && after.resolutions == net.resolutions
    requires net.rows.session.usage.cycles + (if sequence in net.asked then 1 else 0) <= after.rows.session.usage.cycles
    ensures Covered(after)
  {
    assert Uncommitted(after) == Uncommitted(net) - {sequence};
    assert Bought(after) == Bought(net) + if sequence in net.asked then {sequence} else {};
  }

  lemma StepCovered(h: Digest, net: Net, e: Event)
    requires Covered(net) && DS.Account(net) && Remembers(net)
    ensures Covered(Step(h, net, e))
  {
    hide Recover, ResumeTurn, PreflightWorkspace, ControlTurn, Resolve, PauseAfterRestart, BeginTurn, Calling,
         Finishing, Beginning, Covered;
    hide DS.Account, Remembers;
    StepExtends(h, net, e);
    match e {
      case RecoverBy(host, goal, disk, nowMs) =>
        DS.RecoverRows(h, net.rows, goal, disk, nowMs);
        CoveredSame(net, Step(h, net, e));
      case ResumeBy(host, nowMs) =>
        if HeldBy(net, host).Some? { DS.ResumeRows(net.rows, HeldBy(net, host).value, nowMs); }
        CoveredSame(net, Step(h, net, e));
      case PreflightBy(host, disk, nowMs) =>
        if HeldBy(net, host).Some? { DS.PreflightRows(h, net.rows, HeldBy(net, host).value, disk, nowMs); }
        CoveredSame(net, Step(h, net, e));
      case BeginBy(host, id, fingerprint, nowMs) => CoveredBegin(net, host, id, fingerprint, nowMs);
      case CallBy(host, env, input) => CoveredCall(net, host, env, input);
      case FinishBy(host, nowMs, stored) => CoveredFinish(net, host, nowMs, stored);
      case ControlBy(host, control, nowMs) =>
        if HeldBy(net, host).Some? { DS.ControlRows(net.rows, HeldBy(net, host).value, control, nowMs); }
        CoveredSame(net, Step(h, net, e));
      case Restart(nowMs) =>
        DS.RestartRows(net.rows, nowMs);
        CoveredSame(net, Step(h, net, e));
      case ResolveAttempt(r) =>
        DS.ResolveRows(net.rows, r);
        CoveredSame(net, Step(h, net, e));
      case _ => CoveredSame(net, Step(h, net, e));
    }
  }

  lemma {:induction false} RunCovered(h: Digest, net: Net, events: seq<Event>)
    requires Covered(net) && DS.Account(net) && Remembers(net) && Possible(events)
    ensures var end := Run(h, net, events); Covered(end) && DS.Account(end) && Remembers(end)
    decreases events
  {
    hide Remembers, Step, DS.Account, Covered;
    if events != [] {
      DS.AccountStep(h, net, events[0]);
      StepRemembers(h, net, events[0]);
      StepCovered(h, net, events[0]);
      assert forall i :: 0 <= i < |events| - 1 ==> events[1..][i] == events[i + 1];
      RunCovered(h, Step(h, net, events[0]), events[1..]);
    }
  }

  lemma {:induction false} DistinctCount(s: seq<nat>, all: set<nat>)
    requires NoRepeats(s) && forall x :: x in s ==> x in all
    ensures |s| <= |all|
  {
    if s != [] {
      var x, rest := s[0], s[1..];
      assert s == [x] + rest && x in s;
      forall y | y in rest ensures y in all - {x} {
        var i :| 0 <= i < |rest| && rest[i] == y;
        assert s[i + 1] == y;
      }
      DistinctCount(rest, all - {x});
    }
  }

  lemma AskedCovered(net: Net)
    requires Covered(net) && DS.Account(net)
    ensures |net.asked| <= net.rows.session.usage.cycles + net.resolutions + 1
  {
    var all := Bought(net) + Uncommitted(net);
    assert forall s :: s in net.asked ==> s in all;
    DistinctCount(net.asked, all);
  }

  /** All hosts together, over all crashes and restarts, call the Provider at most as often as the
      session's cycle budget allows, plus once for each manual resolution and once for an attempt left
      open. */
  lemma ProviderCallsBounded(h: Digest, rows: Rows, events: seq<Event>)
    requires Created(h, rows) && Possible(events)
    ensures var end := Run(h, Start(rows), events);
            && |end.asked| <= end.rows.session.usage.cycles + end.resolutions + 1
            && end.rows.session.usage.cycles <= rows.session.policy.maxCycles
            && end.rows.session.usage.cycles <= rows.session.policy.budget.maxSteps
  {
    hide ValidSession, ValidCheckpoint, Canonical, Run, DS.Account, Covered;
    var net := Start(rows);
    DS.StartAccount(rows);
    StartCovered(rows);
    RunCovered(h, net, events);
    HistoryGrows(h, net, events);
    var end := Run(h, net, events);
    AskedCovered(end);
    SupervisorRuns.WithinPolicy(end.rows.session);
  }

  lemma StartCovered(rows: Rows)
    requires rows.attempt.None?
    ensures Covered(Start(rows))
  {
    assert Bought(Start(rows)) == {} && Uncommitted(Start(rows)) == {};
  }
}
