/** Two concrete runs of a small durable session: a duplicated turn that overtakes an attempt for good, and
    a host that survives a resolution and calls the Provider behind another host's open attempt. */
module DurableExamples {
  import opened Wrappers
  import opened Text
  import opened Provider
  import opened Authorization
  import opened AutoMode
  import Tasks = AgentTasks
  import opened Supervisor
  import opened ToolTurns
  import SupervisorTurns
  import SupervisorRuns
  import SupervisorExamples
  import Compaction
  import opened Workspace
  import opened TurnStore
  import opened AutoHost
  import opened DurableTurns
  import DS = DurableSafety
  import DO = DurableOvertaking

  // ---- A small session ----

  function EmptySnapshot(h: Digest): Snapshot {
    Snapshot(SNAPSHOT_SPEC, 1, None, h(Manifest(1, None, [])), [], 0)
  }

  function SmallPolicy(h: Digest): AutoMode.Policy {
    AutoMode.Policy(1, 1, Budget(1, 0, 1, 1, 1, 0), Public, {}, EmptySnapshot(h).fingerprint)
  }

  function SmallSession(h: Digest, status: Status, reason: Option<PauseReason>): Session {
    Session(SESSION_SPEC, 0, 0, 1, SmallPolicy(h), PolicySha256(SmallPolicy(h)), status, reason, NO_USAGE, 0, 0)
  }

  function SmallTask(status: Tasks.TaskStatus): Tasks.Task {
    Tasks.Task(Tasks.TASK_SPEC, 0, 0, "a", "b", status, Budget(1, 0, 1, 1, 1, 0), Tasks.TaskUsage(0, 0, 0, 0, 0), 0, 0)
  }

  function SmallCheckpoint(h: Digest, sequence: nat, status: Tasks.TaskStatus): Checkpoint {
    Checkpoint(CHECKPOINT_SPEC, 0, 0, 1, sequence, SmallTask(status), "m", [], EmptySnapshot(h).fingerprint,
               PolicySha256(SmallPolicy(h)), 0, 0)
  }

  function SmallRows(h: Digest, session: Session, sequence: nat, status: Tasks.TaskStatus): Rows {
    Rows(session, SmallCheckpoint(h, sequence, status), None, [StoredWorkspace(0, "/", EmptySnapshot(h))])
  }

  /** The session over an empty workspace, paused and running. */
  function PausedAt(h: Digest, sequence: nat, reason: PauseReason): Rows {
    SmallRows(h, SmallSession(h, Paused, Some(reason)), sequence, Tasks.Paused)
  }

  function RunningAt(h: Digest, sequence: nat): Rows {
    SmallRows(h, SmallSession(h, Running, None), sequence, Tasks.Running)
  }

  const GOAL := Goal(0, true, 0, 1)

  function RunningTurn(h: Digest, sequence: nat): Turn {
    Turn(SmallSession(h, Running, None), GOAL, SmallTask(Tasks.Running), sequence, 0, "m", [], EmptySnapshot(h))
  }

  function PausedTurn(h: Digest, sequence: nat, reason: PauseReason): Turn {
    Turn(SmallSession(h, Paused, Some(reason)), GOAL, SmallTask(Tasks.Paused), sequence, 0, "m", [], EmptySnapshot(h))
  }

  function AttemptAt(sequence: nat): Attempt { Attempt(0, 0, sequence, 0, "f", Active, 0, 0) }

  const EMPTY_DISK := Disk("/", Some([]), Some([]))

  /** The digest of the empty workspace is a text a policy can be bound to. */
  ghost predicate Usable(h: Digest) { ValidText(h(Manifest(1, None, [])), MAX_BINDING_BYTES) }

  lemma OneByte(s: string)
    requires |s| == 1
    ensures 1 <= Bytes(s) <= 4
  {
    assert Bytes(s[1..]) == 0;
  }

  lemma SmallPartsValid(h: Digest, sequence: nat, status: Tasks.TaskStatus, reason: PauseReason)
    requires Usable(h) && sequence != 0 && status in {Tasks.Paused, Tasks.Running}
    ensures ValidCheckpoint(SmallCheckpoint(h, sequence, status))
    ensures ValidSession(SmallSession(h, Paused, Some(reason))) && ValidSession(SmallSession(h, Running, None))
    ensures ValidText("f", MAX_FINGERPRINT_BYTES) && ValidText("a", MAX_ACTOR_BYTES)
  {
    OneByte("a");
    OneByte("b");
    OneByte("m");
    OneByte("f");
    assert !Whitespace("m"[0]) && !Whitespace("f"[0]) && !Whitespace("a"[0]);
  }

  lemma SmallWorkspace(h: Digest)
    ensures ScanFiles(h, Some([]), 1, None, 0) == Some(EmptySnapshot(h)) && Canonical(h, EmptySnapshot(h))
  {
  }

  lemma SmallCreated(h: Digest)
    requires Usable(h)
    ensures Created(h, PausedAt(h, 1, UserRequested))
  {
    hide ValidCheckpoint, ValidSession, ValidText, Canonical;
    SmallPartsValid(h, 1, Tasks.Paused, UserRequested);
    SmallWorkspace(h);
  }

  // ---- What the services do to it ----

  lemma SmallRecovery(h: Digest, sequence: nat, reason: PauseReason)
    ensures Recover(h, PausedAt(h, sequence, reason), GOAL, EMPTY_DISK, 0)
            == (PausedAt(h, sequence, reason), Success(PausedTurn(h, sequence, reason)))
  {
    hide ScanFiles;
    SmallWorkspace(h);
  }

  lemma SmallResume(h: Digest, sequence: nat, reason: PauseReason)
    requires Usable(h)
    ensures ResumeTurn(PausedAt(h, sequence, reason), PausedTurn(h, sequence, reason), 0)
            == (RunningAt(h, sequence + 1), Success(RunningTurn(h, sequence + 1)))
  {
    hide ValidCheckpoint, ValidSession, ValidText;
    SmallPartsValid(h, sequence + 1, Tasks.Running, reason);
  }

  lemma SmallPreflight(h: Digest, sequence: nat)
    ensures PreflightWorkspace(h, RunningAt(h, sequence), RunningTurn(h, sequence), EMPTY_DISK, 0)
            == (RunningAt(h, sequence), Success(TurnReady(RunningTurn(h, sequence))))
  {
    hide ScanFiles, CommitDriftOf;
    SmallWorkspace(h);
  }

  lemma SmallBegin(h: Digest, sequence: nat)
    requires Usable(h) && sequence != 0
    ensures BeginTurn(RunningAt(h, sequence), RunningTurn(h, sequence), "f", 0, 0)
            == (RunningAt(h, sequence).(attempt := Some(AttemptAt(sequence))), Success(AttemptAt(sequence)))
  {
    SmallPartsValid(h, sequence, Tasks.Running, Restarted);
    hide ValidText, ValidCheckpoint, ValidSession;
  }

  lemma SmallControl(h: Digest, sequence: nat)
    requires Usable(h)
    ensures ControlTurn(RunningAt(h, sequence).(attempt := Some(AttemptAt(sequence))), RunningTurn(h, sequence),
                        PauseRequest, 0).1.Success?
  {
    hide ValidCheckpoint, ValidSession, ValidText;
    SmallPartsValid(h, sequence + 1, Tasks.Paused, UserRequested);
    var c := CheckpointOf(Controlled(RunningTurn(h, sequence), PauseRequest, 0).value, EmptySnapshot(h).fingerprint, 0);
    assert c == Some(SmallCheckpoint(h, sequence + 1, Tasks.Paused));
  }

  // ---- A host takes the session and begins a turn ----

  lemma {:induction false} RunSplit(h: Digest, net: Net, a: seq<Event>, b: seq<Event>)
    ensures Run(h, net, a + b) == Run(h, Run(h, net, a), b)
    decreases a
  {
    hide Step;
    if a == [] {
      assert a + b == b;
    } else {
      assert (a + b)[1..] == a[1..] + b;
      RunSplit(h, Step(h, net, a[0]), a[1..], b);
    }
  }

  lemma RunOne(h: Digest, net: Net, e: Event)
    ensures Run(h, net, [e]) == Step(h, net, e)
  {
    hide Step;
    assert [e][1..] == [];
  }

  lemma RunTwo(h: Digest, net: Net, first: Event, second: Event)
    ensures Run(h, net, [first, second]) == Step(h, Step(h, net, first), second)
  {
    hide Step, Run;
    assert [first, second] == [first] + [second];
    RunSplit(h, net, [first], [second]);
    RunOne(h, net, first);
    RunOne(h, Step(h, net, first), second);
  }

  function Taking(host: nat): seq<Event> { [RecoverBy(host, GOAL, EMPTY_DISK, 0), ResumeBy(host, 0)] }

  function Entering(host: nat): seq<Event> { [PreflightBy(host, EMPTY_DISK, 0), BeginBy(host, 0, "f", 0)] }

  lemma TakingRun(h: Digest, net: Net, host: nat, sequence: nat, reason: PauseReason)
    requires Usable(h) && net.rows == PausedAt(h, sequence, reason) && host !in net.hosts
    ensures Run(h, net, Taking(host)) == net.(rows := RunningAt(h, sequence + 1),
                                              hosts := net.hosts[host := Holding(RunningTurn(h, sequence + 1))])
  {
    hide Run, Recover, ResumeTurn, Usable, PausedAt, RunningAt, PausedTurn, RunningTurn;
    SmallRecovery(h, sequence, reason);
    SmallResume(h, sequence, reason);
    RunTwo(h, net, Taking(host)[0], Taking(host)[1]);
    var held := Holding(PausedTurn(h, sequence, reason));
    var next := Holding(RunningTurn(h, sequence + 1));
    assert net.hosts[host := held][host := next] == net.hosts[host := next];
  }

  lemma EnteringRun(h: Digest, net: Net, host: nat, sequence: nat)
    requires Usable(h) && sequence != 0 && net.rows == RunningAt(h, sequence)
    requires host in net.hosts && net.hosts[host] == Holding(RunningTurn(h, sequence))
    ensures Run(h, net, Entering(host))
            == net.(rows := RunningAt(h, sequence).(attempt := Some(AttemptAt(sequence))),
                    hosts := net.hosts[host := Begun(AttemptAt(sequence), RunningTurn(h, sequence))],
                    begun := net.begun + [sequence])
  {
    hide Run, PreflightWorkspace, BeginTurn, Usable, RunningAt, RunningTurn;
    SmallPreflight(h, sequence);
    SmallBegin(h, sequence);
    RunTwo(h, net, Entering(host)[0], Entering(host)[1]);
    var checked := Checked(RunningTurn(h, sequence));
    var next := Begun(AttemptAt(sequence), RunningTurn(h, sequence));
    assert net.hosts[host := checked][host := next] == net.hosts[host := next];
  }

  // ---- A duplicated running turn ----

  /** One host recovers, resumes and hands a copy of its running turn to a second one; the first begins
      its turn, and the second pauses the session. */
  function DuplicatedRun(): seq<Event> {
    Taking(0) + ([CopyTurn(0, 1)] + (Entering(0) + [ControlBy(1, PauseRequest, 0)]))
  }

  lemma DuplicatedControl(h: Digest, net: Net)
    requires Usable(h) && net.rows == RunningAt(h, 2).(attempt := Some(AttemptAt(2)))
    requires 1 in net.hosts && net.hosts[1] == Holding(RunningTurn(h, 2))
    ensures DS.Overtaken(Controlling(net, 1, PauseRequest, 0).rows)
  {
    hide ControlTurn, Usable;
    SmallControl(h, 2);
    DS.ControlRows(net.rows, RunningTurn(h, 2), PauseRequest, 0);
  }

  lemma DuplicatedRunEnds(h: Digest)
    requires Usable(h)
    ensures DS.Overtaken(Run(h, Start(PausedAt(h, 1, UserRequested)), DuplicatedRun()).rows)
  {
    hide Run, Usable, RunningAt, RunningTurn, PausedAt, Controlling, DS.Overtaken;
    var n0 := Start(PausedAt(h, 1, UserRequested));
    var n1 := Run(h, n0, Taking(0));
    var n2 := Copying(n1, 0, 1);
    var n3 := Run(h, n2, Entering(0));
    TakingRun(h, n0, 0, 1, UserRequested);
    RunOne(h, n1, CopyTurn(0, 1));
    EnteringRun(h, n2, 0, 2);
    RunOne(h, n3, ControlBy(1, PauseRequest, 0));
    RunSplit(h, n0, Taking(0), [CopyTurn(0, 1)] + (Entering(0) + [ControlBy(1, PauseRequest, 0)]));
    RunSplit(h, n1, [CopyTurn(0, 1)], Entering(0) + [ControlBy(1, PauseRequest, 0)]);
    RunSplit(h, n2, Entering(0), [ControlBy(1, PauseRequest, 0)]);
    DuplicatedControl(h, n3);
  }

  /** Once a running turn is duplicated, an attempt can be overtaken: from a session as it is created, this
      run ends with an attempt that no resolution and no later run ever removes. */
  lemma DuplicatedTurnOvertakes(h: Digest, later: seq<Event>)
    requires Usable(h)
    ensures var start := Start(PausedAt(h, 1, UserRequested));
            && Created(h, start.rows) && !DO.SingleHanded(h, start, DuplicatedRun())
            && var end := Run(h, start, DuplicatedRun());
               && DS.Overtaken(end.rows)
               && Run(h, end, later).rows.attempt.Some? && Run(h, end, later).begun == end.begun
  {
    hide Run, Usable, PausedAt, DuplicatedRun, DO.SingleHanded;
    SmallCreated(h);
    hide Created;
    DuplicatedRunEnds(h);
    var start := Start(PausedAt(h, 1, UserRequested));
    if DO.SingleHanded(h, start, DuplicatedRun()) {
      DO.AttemptsAreNotOvertaken(h, start.rows, DuplicatedRun());
    }
    DS.OvertakenAttemptStays(h, Run(h, start, DuplicatedRun()), later);
  }

  // ---- A host that survives a resolution ----

  const RESOLUTION := Resolution(0, 2, "f", ConfirmedNotExecuted, "a", None, 0)

  /** A restart pauses the session under a turn, another host finds and marks its attempt, and it is
      resolved as not executed. */
  function Settling(): seq<Event> {
    [Restart(0)] + ([RecoverBy(1, GOAL, EMPTY_DISK, 0)] + [ResolveAttempt(RESOLUTION)])
  }

  /** The first host begins a turn and hangs; behind the resolution the second begins one and crashes. */
  function SurvivorRun(): seq<Event> {
    Taking(0) + (Entering(0) + (Settling() + (Taking(1) + (Entering(1) + [Crash(1)]))))
  }

  lemma SmallRestart(h: Digest)
    requires Usable(h)
    ensures var rows := RunningAt(h, 2).(attempt := Some(AttemptAt(2)));
            PauseAfterRestart(rows, 0) == (rows.(session := SmallSession(h, Paused, Some(Restarted))), Success(()))
  {
    SmallPartsValid(h, 2, Tasks.Running, Restarted);
    hide ValidSession, ValidCheckpoint;
  }

  lemma SmallMark(h: Digest)
    ensures var rows := RunningAt(h, 2).(session := SmallSession(h, Paused, Some(Restarted)));
            Recover(h, rows.(attempt := Some(AttemptAt(2))), GOAL, EMPTY_DISK, 0)
            == (rows.(attempt := Some(AttemptAt(2).(status := Indeterminate))), Failure(IndeterminateTurnAttempt))
  {
    hide Restored;
  }

  lemma SmallResolve(h: Digest)
    requires Usable(h)
    ensures var rows := RunningAt(h, 2).(session := SmallSession(h, Paused, Some(Restarted)));
            Resolve(rows.(attempt := Some(AttemptAt(2).(status := Indeterminate))), RESOLUTION)
            == (PausedAt(h, 3, Restarted), Success(()))
  {
    SmallPartsValid(h, 3, Tasks.Paused, Restarted);
    hide ValidSession, ValidCheckpoint, ValidText;
  }

  lemma SettlingRun(h: Digest, net: Net)
    requires Usable(h) && 1 !in net.hosts && net.rows == RunningAt(h, 2).(attempt := Some(AttemptAt(2)))
    ensures Run(h, net, Settling()) == net.(rows := PausedAt(h, 3, Restarted), resolutions := net.resolutions + 1)
  {
    hide Run, Usable, RunningAt, PausedAt, Recover, Resolve, PauseAfterRestart;
    SmallRestart(h);
    SmallMark(h);
    SmallResolve(h);
    var n1 := Step(h, net, Restart(0));
    var n2 := Step(h, n1, RecoverBy(1, GOAL, EMPTY_DISK, 0));
    assert n1.hosts - {1} == n1.hosts;
    RunOne(h, net, Restart(0));
    RunOne(h, n1, RecoverBy(1, GOAL, EMPTY_DISK, 0));
    RunOne(h, n2, ResolveAttempt(RESOLUTION));
    RunSplit(h, net, [Restart(0)], [RecoverBy(1, GOAL, EMPTY_DISK, 0)] + [ResolveAttempt(RESOLUTION)]);
    RunSplit(h, n1, [RecoverBy(1, GOAL, EMPTY_DISK, 0)], [ResolveAttempt(RESOLUTION)]);
  }

  /** Where the survivor's run ends: the second host's attempt is open, the first host has begun before. */
  function SurvivedNet(h: Digest): Net {
    Net(RunningAt(h, 4).(attempt := Some(AttemptAt(4))), map[0 := Begun(AttemptAt(2), RunningTurn(h, 2))],
        [2, 4], [], [], [], 1)
  }

  lemma SurvivorRunEnds(h: Digest)
    requires Usable(h)
    ensures Run(h, Start(PausedAt(h, 1, UserRequested)), SurvivorRun()) == SurvivedNet(h)
  {
    hide Run, Usable, RunningAt, RunningTurn, PausedAt, Settling;
    var n0 := Start(PausedAt(h, 1, UserRequested));
    var n1 := Run(h, n0, Taking(0));
    var n2 := Run(h, n1, Entering(0));
    var n3 := Run(h, n2, Settling());
    var n4 := Run(h, n3, Taking(1));
    var n5 := Run(h, n4, Entering(1));
    var r4 := Entering(1) + [Crash(1)];
    var r3 := Taking(1) + r4;
    RunSplit(h, n0, Taking(0), Entering(0) + (Settling() + r3));
    RunSplit(h, n1, Entering(0), Settling() + r3);
    RunSplit(h, n2, Settling(), r3);
    RunSplit(h, n3, Taking(1), r4);
    RunSplit(h, n4, Entering(1), [Crash(1)]);
    RunOne(h, n5, Crash(1));
    SurvivorStages(h, n0, n1, n2, n3, n4, n5);
    assert n5.hosts - {1} == SurvivedNet(h).hosts;
  }

  lemma SurvivorStages(h: Digest, n0: Net, n1: Net, n2: Net, n3: Net, n4: Net, n5: Net)
    requires Usable(h) && n0 == Start(PausedAt(h, 1, UserRequested))
    requires n1 == Run(h, n0, Taking(0)) && n2 == Run(h, n1, Entering(0)) && n3 == Run(h, n2, Settling())
    requires n4 == Run(h, n3, Taking(1)) && n5 == Run(h, n4, Entering(1))
    ensures n5 == SurvivedNet(h).(hosts := SurvivedNet(h).hosts[1 := Begun(AttemptAt(4), RunningTurn(h, 4))])
  {
    hide Run, Usable, RunningAt, RunningTurn, PausedAt, Settling;
    TakingRun(h, n0, 0, 1, UserRequested);
    EnteringRun(h, n1, 0, 2);
    SettlingRun(h, n2);
    TakingRun(h, n3, 1, 3, Restarted);
    EnteringRun(h, n4, 1, 4);
    var first, holding := Begun(AttemptAt(2), RunningTurn(h, 2)), Holding(RunningTurn(h, 4));
    var last := Begun(AttemptAt(4), RunningTurn(h, 4));
    assert n2.hosts == map[0 := first];
    assert n5.hosts == map[0 := first, 1 := last];
  }

  /** The supervised turn of the surviving host calls the Provider. */
  lemma SurvivorCalls(h: Digest)
    requires Usable(h)
    ensures Supervised(SupervisorExamples.ASKING, RunningTurn(h, 2), SupervisorExamples.INPUT).0.requests != []
  {
    var env, input := SupervisorExamples.ASKING, SupervisorExamples.INPUT;
    var w := World(RunningTurn(h, 2).session, RunningTurn(h, 2).task, [], []);
    SurvivorProceeds(h);
    SupervisorExamples.SmallPartsValid(0, 0);
    hide EvaluateStep, Compaction.RequestAccepted, SmallSession, AdvanceBatch, SupervisorTurns.Registered;
    SurvivorStep(h, w);
    var (session, _) := EvaluateStep(w.session, CycleRequest(w.session, Public), None, Some("b"), Some("m"), 0);
    var (w2, r) := ProviderStep(env, w.(session := session), input);
    if r.Success? && r.value.StepToolCalls? {
      SupervisorRuns.AdvanceBatchNeverInactive(env, w2, r.value.response, r.value.calls, "m", 0);
    }
  }

  lemma SurvivorProceeds(h: Digest)
    requires Usable(h)
    ensures MaxClassification(MessageClasses(SupervisorExamples.INPUT.messages)) == Public
    ensures var s := SmallSession(h, Running, None);
            EvaluateStep(s, CycleRequest(s, Public), None, Some("b"), Some("m"), 0).1 == Success(Proceed)
  {
    SmallPartsValid(h, 1, Tasks.Running, Restarted);
    SupervisorExamples.CycleProceeds(0);
    hide ValidPolicy, MaxClassification, MessageClasses;
  }

  lemma SurvivorStep(h: Digest, w: World)
    requires w.task == SmallTask(Tasks.Running)
    requires Compaction.RequestAccepted("b", "m", SupervisorExamples.INPUT.messages, ["t"], 1)
    ensures forall session :: ProviderStep(SupervisorExamples.ASKING, w.(session := session),
                                           SupervisorExamples.INPUT).0.requests != []
  {
    hide Compaction.RequestAccepted, ValidResponse, PlanCalls;
  }

  lemma SurvivedFacts(h: Digest)
    requires Usable(h)
    ensures SupervisorTurns.Registered(SupervisorExamples.ASKING)
    ensures var net := SurvivedNet(h);
            var called := Step(h, net, CallBy(0, SupervisorExamples.ASKING, SupervisorExamples.INPUT));
            && DS.Abandoned(net) && !DS.NobodyMidTurn(net)
            && called.resolutions == net.resolutions && called.asked == net.asked + [2]
  {
    hide Usable, RunningAt, RunningTurn, Supervised;
    SurvivorCalls(h);
    assert SurvivedNet(h).hosts[0].MidTurn();
  }

  /** Behind a resolution the host of an attempt being gone is not enough: the attempt on record is
      abandoned, and a host whose own attempt was resolved long ago still calls the Provider. */
  lemma SurvivorStillCalls(h: Digest)
    requires Usable(h)
    ensures var start := Start(PausedAt(h, 1, UserRequested));
            var net := Run(h, start, SurvivorRun());
            var called := Step(h, net, CallBy(0, SupervisorExamples.ASKING, SupervisorExamples.INPUT));
            && Created(h, start.rows) && DS.Abandoned(net) && !DS.NobodyMidTurn(net)
            && SupervisorTurns.Registered(SupervisorExamples.ASKING)
            && called.resolutions == net.resolutions && called.asked == net.asked + [2]
  {
    SmallCreated(h);
    hide Run, Step, Usable, PausedAt, SurvivorRun, SurvivedNet, Created, DS.Abandoned, DS.NobodyMidTurn;
    hide SupervisorTurns.Registered;
    SurvivorRunEnds(h);
    SurvivedFacts(h);
  }
}
