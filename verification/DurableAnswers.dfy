/** No durable host wastes an answer on an inactive task: recovery, resume and preflight move session and
    task together, so every turn that begins is one of a running session with a running task. */
module DurableAnswers {
  import opened Wrappers
  import opened AutoMode
  import Tasks = AgentTasks
  import Supervisor
  import SupervisorRuns
  import opened Workspace
  import opened TurnStore
  import opened AutoHost
  import opened DurableTurns
  import DS = DurableSafety

  const INACTIVE := Supervisor.TaskFailed(Tasks.TaskNotActive)

  /** Session and task of a turn about to be executed are running, and no executed turn has failed
      because its task was not active. */
  ghost predicate Active(host: Host) {
    match host
    case Holding(_) => true
    case Checked(t) => t.session.status == Running && t.task.status == Tasks.Running
    case Begun(_, t) => t.session.status == Running && t.task.status == Tasks.Running
    case Answered(_, _, outcome) => outcome != Failure(INACTIVE)
  }

  ghost predicate AllActive(net: Net) {
    forall a :: a in net.hosts ==> Active(net.hosts[a])
  }

  /** A turn on a running task never wastes its answer. */
  lemma ActiveTurnWastesNothing(env: Supervisor.Env, t: Turn, input: Supervisor.StepInput)
    requires t.task.status == Tasks.Running
    ensures Supervised(env, t, input).1 != Failure(INACTIVE)
  {
    hide Supervisor.Advance, SupervisorRuns.AnswersWell;
    SupervisorRuns.WastedCallIff(env, Supervisor.World(t.session, t.task, [], []), input);
  }

  lemma ActiveStep(h: Digest, net: Net, e: Event)
    requires AllActive(net)
    ensures AllActive(Step(h, net, e))
  {
    hide Recover, ResumeTurn, PreflightWorkspace, ControlTurn, Resolve, PauseAfterRestart, BeginTurn, Supervised,
         CommitOutcome, MarkIndeterminate;
    match e {
      case PreflightBy(host, disk, nowMs) =>
        if HeldBy(net, host).Some? { DS.PreflightRows(h, net.rows, HeldBy(net, host).value, disk, nowMs); }
      case CallBy(host, env, input) =>
        if host in net.hosts && net.hosts[host].Begun? {
          assert Active(net.hosts[host]);
          ActiveTurnWastesNothing(env, net.hosts[host].turn, input);
        }
      case _ =>
    }
  }

  lemma {:induction false} ActiveRun(h: Digest, net: Net, events: seq<Event>)
    requires AllActive(net)
    ensures AllActive(Run(h, net, events))
    decreases events
  {
    hide AllActive, Step;
    if events != [] {
      ActiveStep(h, net, events[0]);
      ActiveRun(h, Step(h, net, events[0]), events[1..]);
    }
  }

  /** Over every run, whatever the hosts do: no host's turn has ended because its task was not active, and
      none that has begun can. */
  lemma NoAnswerWasted(h: Digest, rows: Rows, events: seq<Event>, host: nat, env: Supervisor.Env,
                       input: Supervisor.StepInput)
    requires host in Run(h, Start(rows), events).hosts
    ensures var at := Run(h, Start(rows), events).hosts[host];
            && (at.Answered? ==> at.outcome != Failure(INACTIVE))
            && (at.Begun? ==> Supervised(env, at.turn, input).1 != Failure(INACTIVE))
  {
    hide Run, Supervised;
    ActiveRun(h, Start(rows), events);
    var at := Run(h, Start(rows), events).hosts[host];
    assert Active(at);
    if at.Begun? { ActiveTurnWastesNothing(env, at.turn, input); }
  }
}
