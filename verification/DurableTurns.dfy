/** Several hosts working on one durable session: every interleaving of their steps with crashes,
    restarts, host control, workspace changes and manual resolutions. */
module DurableTurns {
  import opened Wrappers
  import opened AutoMode
  import opened Supervisor
  import opened Workspace
  import opened TurnStore
  import opened AutoHost

  /** Where a host is in the protocol. A host that is not in the table holds nothing. */
  datatype Host =
    | Holding(turn: Turn)
    | Checked(turn: Turn)
    | Begun(attempt: Attempt, turn: Turn)
    | Answered(attempt: Attempt, turn: Turn, outcome: Result<Outcome, Error>)
  {
    predicate MidTurn() { Begun? || Answered? }
  }

  /** The stored rows, the hosts, and what has happened so far, by checkpoint sequence: attempts
      recorded, turns started, turns in which the Provider was called, and turns committed; and the
      number of manual resolutions. */
  datatype Net = Net(
    rows: Rows, hosts: map<nat, Host>, begun: seq<nat>, called: seq<nat>, asked: seq<nat>, committed: seq<nat>,
    resolutions: nat)

  datatype Event =
    | RecoverBy(host: nat, goal: Goal, disk: Disk, nowMs: nat)
    | ResumeBy(host: nat, nowMs: nat)
    | CopyTurn(host: nat, other: nat)
    | PreflightBy(host: nat, disk: Disk, nowMs: nat)
    | BeginBy(host: nat, id: nat, fingerprint: string, nowMs: nat)
    | CallBy(host: nat, env: Env, input: StepInput)
    | FinishBy(host: nat, nowMs: nat, stored: bool)
    | ControlBy(host: nat, control: ControlRequest, nowMs: nat)
    | Crash(host: nat)
    | Restart(nowMs: nat)
    | ResolveAttempt(resolution: Resolution)

  function Without(hosts: map<nat, Host>, host: nat): map<nat, Host> { hosts - {host} }

  /** A host goes on with a turn, or ends with an error and keeps nothing. */
  function GoOn(net: Net, host: nat, rows: Rows, next: Option<Host>): Net {
    net.(rows := rows, hosts := if next.Some? then net.hosts[host := next.value] else Without(net.hosts, host))
  }

  function HeldBy(net: Net, host: nat): Option<Turn> {
    if host in net.hosts && net.hosts[host].Holding? then Some(net.hosts[host].turn) else None
  }

  /** The supervised turn on the turn's own session and task. */
  function Supervised(env: Env, t: Turn, input: StepInput): (World, Result<Outcome, Error>) {
    Advance(env, World(t.session, t.task, [], []), input)
  }

  function Recovering(h: Digest, net: Net, host: nat, goal: Goal, disk: Disk, nowMs: nat): Net {
    if host in net.hosts then net else
    var (rows, r) := Recover(h, net.rows, goal, disk, nowMs);
    GoOn(net, host, rows, if r.Success? then Some(Holding(r.value)) else None)
  }

  function Resuming(net: Net, host: nat, nowMs: nat): Net {
    var t := HeldBy(net, host);
    if t.None? then net else
    var (rows, r) := ResumeTurn(net.rows, t.value, nowMs);
    GoOn(net, host, rows, if r.Success? then Some(Holding(r.value)) else None)
  }

  function Copying(net: Net, host: nat, other: nat): Net {
    var t := HeldBy(net, host);
    if t.None? || other in net.hosts then net else net.(hosts := net.hosts[other := Holding(t.value)])
  }

  function Preflighting(h: Digest, net: Net, host: nat, disk: Disk, nowMs: nat): Net {
    var t := HeldBy(net, host);
    if t.None? then net else
    var (rows, r) := PreflightWorkspace(h, net.rows, t.value, disk, nowMs);
    GoOn(net, host, rows, if r.Success? && r.value.TurnReady? then Some(Checked(r.value.turn)) else None)
  }

  function Beginning(net: Net, host: nat, id: nat, fingerprint: string, nowMs: nat): Net {
    if host !in net.hosts || !net.hosts[host].Checked? then net else
    var t := net.hosts[host].turn;
    var (rows, r) := BeginTurn(net.rows, t, fingerprint, id, nowMs);
    if r.Failure? then GoOn(net, host, rows, None)
    else GoOn(net, host, rows, Some(Begun(r.value, t))).(begun := net.begun + [r.value.sequence])
  }

  function Calling(net: Net, host: nat, env: Env, input: StepInput): Net {
    if host !in net.hosts || !net.hosts[host].Begun? then net else
    var Begun(attempt, t) := net.hosts[host];
    var (w, outcome) := Supervised(env, t, input);
    GoOn(net, host, net.rows, Some(Answered(attempt, t.(session := w.session, task := w.task), outcome)))
      .(called := net.called + [attempt.sequence],
        asked := if w.requests != [] then net.asked + [attempt.sequence] else net.asked)
  }

  function Finishing(net: Net, host: nat, nowMs: nat, stored: bool): Net {
    if host !in net.hosts || !net.hosts[host].Answered? then net else
    var Answered(attempt, t, outcome) := net.hosts[host];
    if outcome.Failure? then GoOn(net, host, MarkIndeterminate(net.rows, attempt, nowMs).0, None) else
    var (rows, r) := CommitOutcome(net.rows, attempt, t, outcome.value, nowMs, stored);
    if r.Failure? then GoOn(net, host, rows, None)
    else GoOn(net, host, rows, Some(Holding(r.value.turn))).(committed := net.committed + [attempt.sequence])
  }

  function Controlling(net: Net, host: nat, control: ControlRequest, nowMs: nat): Net {
    var t := HeldBy(net, host);
    if t.None? then net else
    var (rows, r) := ControlTurn(net.rows, t.value, control, nowMs);
    GoOn(net, host, rows, if r.Success? then Some(Holding(r.value)) else None)
  }

  function Resolving(net: Net, r: Resolution): Net {
    var (rows, done) := Resolve(net.rows, r);
    if done.Success? then net.(rows := rows, resolutions := net.resolutions + 1) else net
  }

  function Step(h: Digest, net: Net, e: Event): Net {
    match e
    case RecoverBy(host, goal, disk, nowMs) => Recovering(h, net, host, goal, disk, nowMs)
    case ResumeBy(host, nowMs) => Resuming(net, host, nowMs)
    case CopyTurn(host, other) => Copying(net, host, other)
    case PreflightBy(host, disk, nowMs) => Preflighting(h, net, host, disk, nowMs)
    case BeginBy(host, id, fingerprint, nowMs) => Beginning(net, host, id, fingerprint, nowMs)
    case CallBy(host, env, input) => Calling(net, host, env, input)
    case FinishBy(host, nowMs, stored) => Finishing(net, host, nowMs, stored)
    case ControlBy(host, control, nowMs) => Controlling(net, host, control, nowMs)
    case Crash(host) => net.(hosts := Without(net.hosts, host))
    case Restart(nowMs) => net.(rows := PauseAfterRestart(net.rows, nowMs).0)
    case ResolveAttempt(r) => Resolving(net, r)
  }

  function Run(h: Digest, net: Net, events: seq<Event>): Net
    decreases events
  {
    if events == [] then net else Run(h, Step(h, net, events[0]), events[1..])
  }

  /** A session as it is created: paused, nothing attempted, the first workspace snapshot is the one
      its policy is bound to. */
  ghost predicate Created(h: Digest, rows: Rows) {
    && ValidSession(rows.session) && rows.session.status == Paused
    && ValidCheckpoint(rows.checkpoint)
    && Coupled(rows.session, rows.checkpoint.task.status)
    && rows.attempt == None
    && |rows.workspaces| == 1 && Canonical(h, rows.workspaces[0].snapshot)
    && rows.workspaces[0].snapshot.revision == 1
    && rows.session.policy.workspaceRevision == rows.workspaces[0].snapshot.fingerprint
  }

  function Start(rows: Rows): Net { Net(rows, map[], [], [], [], [], 0) }
}
