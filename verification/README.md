# Nimora agent runtime: a Dafny model

Nimora's Rust crates plan, run and record work that an assistant does on its own: they compose
capabilities into plans, keep a conversation with a language-model Provider within bounds, supervise
tool calls under budgets and grants, keep an unattended session durable over crashes, run automations
with compensation, and track a workspace by chained snapshots. The correctness of these parts shows
only over whole runs and across several files. This project models them in Dafny and proves what they
promise, on all inputs, over all runs and interleavings.

`dafny verify dfyconfig.toml` checks everything.

## How it is organised

| part | files |
|---|---|
| capability planner | `Capabilities`, `Composition`, `StateKeys`, `RouteFacts`, `RouteMeaning`, `SubsetWeight`, `CompositionSearch`, `Planner`, `PlannerVerdicts`, `PlanMeaning`, `PlannerLimits` |
| message protocol, compaction, context cache, tool turns | `Provider`, `ProtocolMeaning`, `ProtocolUnits`, `Compaction`, `ContextCaches`, `ToolTurns` |
| supervised Auto Mode turns | `Authorization`, `AutoMode`, `AgentTasks`, `Tools`, `Supervisor`, `SupervisorSafety`, `SupervisorTurns`, `SupervisorRuns`, `TurnDialogue`, `SupervisorExamples`, `TurnSupervisors` |
| durable turn protocol | `TurnStore`, `TurnDatabase`, `AutoHost`, `DurableEffects`, `AutoHostServices`, `AutoHostLoop`, `DurableTurns`, `DurableSafety`, `DurableHistory`, `DurableFinality`, `DurableCoupling`, `DurableOvertaking`, `DurableAnswers`, `DurableProgress`, `DurableExamples` |
| automation saga | `Automation`, `AutomationSaga`, `AutomationEngine` |
| workspace snapshots | `Workspace`, `WorkspaceDiff` |
| shared | `Wrappers`, `MachineNumbers`, `Text`, `Ordering`, `Sorting`, `FiniteSets` |

Code that changes state step by step is modelled by classes and methods with loops
(`ContextCache`, `ProviderToolTurn`, `AutoModeSession`, `AgentTask`, `AgentCoordinator`,
`AutoModeTurnSupervisor`, `Database`, `AutoModeHost`, the automation engine, the planner's search);
each such method is proved equal to, or sound for, a specification on values, and the lemmas are
about that specification. The small methods of `AutoModeSession`, `AgentTask` and `Database` say in
their own contracts when they succeed, what they change and what stays; what these steps amount to
is stated by lemmas, which the table names. The durable protocol is a transition system over any
number of hosts (`DurableTurns.Step`), and one host execution is proved to be a sequence of its steps.

Conventions: identifiers (UUIDs) are numbers; clocks, disk contents, the Provider, the tool backend,
the automation backend and the host's risk evaluator are arbitrary parameters, the latter four as
functions of everything that was asked of them before; JSON values are known by their encoded text;
digests that only serve as identities are taken to be injective, either as data constructors or, for
workspace snapshots, as an arbitrary function whose injectivity is stated where a proof needs it.
Text lengths are UTF-8 byte lengths, and machine widths appear where the code adds with checks or
saturation.

## What was found

- The planner cuts paths at eight steps, and the cut can hide routes. Call the cost of the cheapest
  affordable route that makes progress in more than eight steps the depth limit. Of all admissible routes below it, a resolved plan is the cheapest and an unresolved one the
  best partial, unless 2048 expansions were used up (`Planner.PlanSemanticComposition`); so a resolved plan is the cheapest of all unless a
  cheaper route exceeds eight steps (`PlannerVerdicts.ResolvedIsCheapest`). A caller can tell from the
  answer, if it costs at most nine times the least contract cost, or from a budget of at most eight.
  By the number of usable contracts: every request that some route serves can be resolved iff there are
  at most eight (`PlannerLimits.CompleteIffAtMostEight`), and resolved plans are the cheapest iff there
  are at most nine (`PlannerLimits.OptimalIffAtMostNine`). From ten on there is a request that the
  planner does resolve, at a cost of at least 50, although a route of cost 9 serves it
  (`PlannerLimits.EveryAnswerIsDear`). The source's comment promises the lowest-cost path
  (`crates/creator-composition/src/lib.rs:182`).
- Charging a finished task after its deadline relabels it as out of budget, so a succeeded task can
  stop being succeeded (`AgentTasks.TerminalStatusKeptIffInTime`). A charge beyond a limit leaves a
  task whose usage does not validate any more (`AgentTasks.StepChargeIff`).
- `provider_step` calls the Provider before it looks at the task's status. A turn ends with "task not
  active" exactly when the Provider was called, answered well and in time, and the task was not
  pending, planning or running (`SupervisorRuns.WastedCallIff`). A user of the supervisor library can
  get there: a turn that pauses for confirmation leaves its task waiting, and if only the session is
  resumed the next turn calls the Provider and throws the answer away
  (`SupervisorExamples.WastedCallHappens`). The durable host cannot: it commits such a pause with the
  task paused, resumes both, and starts a turn only when both run
  (`crates/agent-auto-host/src/lib.rs:685-691`, `:906-909`, `:947-951`), so in no run does any of its
  turns end that way (`DurableAnswers.NoAnswerWasted`).
- A Provider response with two calls of the same identifier passes response validation, but its batch
  can never continue (`SupervisorTurns.RunBatchEffect`). If the budget lasts, both calls reach the
  backend before recording the second result fails (`SupervisorTurns.TurnEffect` in general,
  `SupervisorExamples.DuplicateCallsAreDispatched` for a concrete response). A turn that reuses an
  identifier of the conversation can never be checkpointed (`ToolTurns.AppendIffFresh`).
- `recover` names planning tasks among those it can pause, but the task machine has no such
  transition. A session stored with a planning task, which is how the desktop creates unattended
  sessions (`apps/desktop/src-tauri/src/unattended_auto_mode.rs:485-510`), is never started in any
  run (`DurableEffects.RecoversIff`, `DurableFinality.PlanningSessionNeverStarts`).
- Once the host of an open attempt is gone, nobody calls the Provider any more, in every run without a
  manual resolution (`DurableSafety.OpenAttemptBlocks`, `DurableSafety.CrashedTurnBlocks`). Behind an
  earlier resolution that takes more: a host whose own attempt was resolved while it hung still calls
  the Provider, although the attempt on record is another one whose host is gone
  (`DurableExamples.SurvivorStillCalls`). There nobody may be in mid-turn
  (`DurableSafety.LeftOpenBlocks`).
- Host control does not look at the attempt row. The store's comment says that control happens at a
  yielded boundary, where no attempt is open
  (`crates/persistence-sqlite/src/auto_mode_commit_store.rs:293-297`), and no caller in the repository
  clones a recovered turn. Under that discipline the protocol is sound: while no running turn is
  duplicated, no commit overtakes an attempt in any run (`DurableOvertaking.AttemptsAreNotOvertaken`),
  and an attempt of unknown outcome can always be resolved by hand. Without it, it can be resolved iff
  its sequence is still the stored one (`DurableOvertaking.AttemptsResolvableIff`); the turn type can be
  cloned, and with one copied running turn a run from a created session ends with an attempt that no
  resolution, recovery or commit ever removes (`DurableExamples.DuplicatedTurnOvertakes`).

## Model

| member | source | states |
|---|---|---|
| Composition.ValidGraphContracts | crates/creator-composition/src/lib.rs:268-276 | a graph that passes validation lists 1 to the maximum number of valid contracts with distinct capability identifiers |
| Composition.AscendingGraphIsValid | crates/creator-composition/src/lib.rs:125-148 | valid contracts listed in ascending order of identifier are accepted as they stand, with the digest of their content |
| PlanMeaning.GraphAcceptedIff | crates/creator-composition/src/lib.rs:268-276 | exactly which graphs are accepted: 1 to 256 valid contracts with distinct identifiers, in any order, with the digest of the same contracts in ascending order |
| PlanMeaning.RequestAcceptedIff | crates/creator-composition/src/lib.rs:278-297 | exactly which requests are accepted: 1 to 32 outputs, at most 32 inputs and preconditions, all of them identifiers, and a budget |
| Capabilities.ContractAcceptedIff | crates/capability-contract/src/lib.rs:86-147 | exactly which contracts are accepted: their lists are strictly ascending as a whole, of identifiers and of distinct data classes, and sizes and cost are within their limits |
| Capabilities.ValidIdIff | crates/capability-contract/src/lib.rs:127-138 | the identifiers are exactly the texts of at most 128 characters that join enough well formed segments by dots |
| Composition.EmptyDifference | crates/creator-composition/src/lib.rs:299-325 | the ascending list of missing outputs is empty exactly when every required output is available |
| StateKeys.JoinInjective | crates/creator-composition/src/lib.rs:331-333 | lists of non-empty texts without the separator are recovered from their joined text |
| StateKeys.StateKeyInjective | crates/creator-composition/src/lib.rs:331-333 | two sets of valid semantic types with the same state key are the same set |
| Capabilities.ValidIdCharacters | crates/capability-contract/src/lib.rs:127-138 | a valid identifier is non-empty and holds only identifier characters and dots, so never the key separator |
| RouteFacts.AvailableIsPool | crates/creator-composition/src/lib.rs:241-242 | what a route makes available depends only on the set of contracts it uses |
| RouteMeaning.AdmissibleIff | crates/creator-composition/src/lib.rs:217-236 | a route is admissible iff every step is a contract of the graph whose preconditions are satisfied, whose data classes and effect stay within the maxima (spelled out class by class and effect by effect), which works offline if that is asked for, and whose needs are inputs or outputs of earlier steps |
| RouteMeaning.ProgressiveIff | crates/creator-composition/src/lib.rs:243-246 | a route makes progress iff every step produces something that is neither an input nor produced by an earlier step |
| RouteMeaning.CostIsSum | crates/creator-composition/src/lib.rs:237-242 | the cost of a route is the sum of the costs of its contracts |
| RouteFacts.ProgressiveLength | crates/creator-composition/src/lib.rs:217-246 | a route whose every step adds something never repeats a contract |
| RouteFacts.FewContractsAreShallow | crates/creator-composition/src/lib.rs:213-215 | with at most eight usable contracts no progressing route is longer than the depth cut |
| SubsetWeight.WeightBound | crates/creator-composition/src/lib.rs:203-259 | over any family of subsets of n elements the unused elements number at most n times 2^(n-1) in total: the bound behind the number of frontier pushes |
| CompositionSearch.KeyOrder | crates/creator-composition/src/lib.rs:327-329 | ordering frontier states by cost, path length and path is a total preorder |
| CompositionSearch.KeyLessIff | crates/creator-composition/src/lib.rs:327-329 | cheaper states come first, of equally cheap ones those with the shorter path, then those whose path is smaller at its first difference |
| CompositionSearch.Consider | crates/creator-composition/src/lib.rs:217-257 | one contract: either nothing changes because a filter, the budget, lack of progress or a known cheaper way excludes it, or its child joins the frontier as the best known way to its set; the keyed table keeps mirroring one on the sets themselves |
| CompositionSearch.Expand | crates/creator-composition/src/lib.rs:216-258 | one expansion offers every contract once, only improves known costs, and adds at most one child per contract not yet on the path |
| Planner.FrontierSeparates | crates/creator-composition/src/lib.rs:203-259 | uniform-cost invariant in spite of exact-set dedup, stale entries and the depth cut: a route below the depth limit has been followed to its end by expanded states, or a frontier state at most as dear lies on the way |
| Planner.PoppedIsCurrent | crates/creator-composition/src/lib.rs:204-212 | a popped set is known at no more than its cost, and at exactly its cost unless it was expanded before |
| Planner.PoppedGoalIsCheapest | crates/creator-composition/src/lib.rs:207-209 | a popped state that covers the required outputs is at most as dear as every admissible route below the depth limit that reaches them |
| Planner.ExhaustedSearch | crates/creator-composition/src/lib.rs:260-265 | an empty frontier means that no route below the depth limit reaches the outputs, that none covers more of them than the returned partial plan and none as many for less |
| Planner.DeepStateIsStuck | crates/creator-composition/src/lib.rs:213-215 | below the depth limit, the cost of the cheapest affordable progressing route longer than the cut, a state at the cut has nothing left to gain |
| Planner.UsedContractAddsNothing | crates/creator-composition/src/lib.rs:217 | a contract already on the path makes nothing new available, so skipping it loses no route |
| Planner.ReexpansionAddsNothing | crates/creator-composition/src/lib.rs:247-250 | expanding a set again through a stale frontier entry pushes nothing |
| Planner.ExpansionTotal | crates/creator-composition/src/lib.rs:203-206 | on every graph expansions and waiting states together number at most 1 + n times 2^(n-1) for n usable contracts |
| Planner.ExpansionStates | crates/creator-composition/src/lib.rs:203-206 | expansions number at most 1 + m times the number of sets that can be expanded within the cut, if no such set has more than m ways on |
| Planner.GenuinePlanIsSound | crates/creator-composition/src/lib.rs:299-325 | a plan built from a searched state names a real affordable route of at most eight distinct capabilities, with exact cost and an exact split of the required outputs |
| Planner.PlanSemanticComposition | crates/creator-composition/src/lib.rs:187-266 | the search loop fails exactly for an invalid graph or request; on every other every returned plan is sound and names only contracts that pass the filters of the request, a resolved plan is the cheapest of all routes below the depth limit, an unresolved one, unless the expansion cut fired, is the best partial below it and no first step suffices, and the expansions are bounded |
| PlanMeaning.PlanIsExecutable | crates/creator-composition/src/lib.rs:187-325 | behind every delivered plan is a written-out route: contracts of the graph that pass the filters, each with its needs met by inputs and earlier outputs and adding something, costs that add up to the total within the budget, and the required outputs divided into those provided and those not |
| PlanMeaning.PlannedContractsPass | crates/creator-composition/src/lib.rs:217-236 | the contract behind every name on the path satisfies preconditions, data class maximum, effect maximum and offline condition of the request, with classes and effects enumerated |
| PlanMeaning.ExecutableRouteServes | crates/creator-composition/src/lib.rs:217-258 | conversely, contracts that pass the filters, follow each other and cover the outputs within the budget serve the request |
| PlanMeaning.ExecutableRouteResolves | crates/creator-composition/src/lib.rs:213-258 | and if they are at most eight, some plan resolves it |
| PlanMeaning.OneContractResolves | crates/creator-composition/src/lib.rs:217-258 | one contract that passes the filters, needs only inputs, stays within the budget and covers the outputs makes the request resolvable, and the planner resolves it unless it stops at 2048 expansions |
| PlanMeaning.CheapestOfExecutable | crates/creator-composition/src/lib.rs:182-209 | a cheapest plan is no dearer than any written-out route that provides all required outputs |
| PlannerVerdicts.ResolvedIsCheapest | crates/creator-composition/src/lib.rs:187-266 | answer by answer: a resolved plan is the cheapest of all admissible routes of any length unless a cheaper route makes progress in more than eight steps |
| PlannerVerdicts.ShallowVerdict | crates/creator-composition/src/lib.rs:187-266 | where no affordable progressing route exceeds the depth cut, a resolved plan is the cheapest, and an unresolved one is exhaustive if the expansion cut did not fire |
| PlannerVerdicts.CheapPlansAreCheapest | crates/creator-composition/src/lib.rs:213-215 | a resolved plan that costs at most nine times the least cost of a usable contract is the cheapest, in particular every plan of cost nine or less |
| PlannerVerdicts.SmallBudgetsAreShallow | crates/creator-composition/src/lib.rs:213-215 | within a budget of eight the depth cut cannot bite |
| PlannerVerdicts.NineContractsVerdict | crates/creator-composition/src/lib.rs:187-266 | with at most nine usable contracts every resolved plan is the cheapest, although routes may be cut |
| PlannerVerdicts.FewContractsVerdict | crates/creator-composition/src/lib.rs:18-19 | with at most eight usable contracts at most 1025 states are expanded, a resolved plan is the cheapest of all admissible routes of any length, and an unresolved one is the best partial |
| PlannerVerdicts.EightContractsSuffice | crates/creator-composition/src/lib.rs:213-215 | with at most eight usable contracts every request that some affordable route serves is resolved by some plan within the cut |
| PlannerLimits.NineStepsAreHidden | crates/creator-composition/src/lib.rs:213-215 | for every number from nine to 256 a valid graph with that many usable contracts and a served request that no plan within the cut resolves |
| PlannerLimits.CompleteIffAtMostEight | crates/creator-composition/src/lib.rs:213-215 | exact bound: among graphs with n usable contracts one hides a route that serves a request iff n is at least nine |
| PlannerLimits.OptimalIffAtMostNine | crates/creator-composition/src/lib.rs:187-266 | exact bound: among graphs with n usable contracts the promise leaves room for a resolved plan that is not the cheapest iff n is at least ten |
| PlannerLimits.EveryAnswerIsDear | crates/creator-composition/src/lib.rs:187-266 | for ten to 256 contracts a request that every answer of the planner resolves, at a cost of at least 50, although a route of cost 9 serves it |
| Provider.ValidateMessageProtocol | crates/agent-runtime/src/provider.rs:326-381 | the loops over messages and calls accept exactly the conversations in which calls and results pair up |
| ProtocolMeaning.AcceptedIffWellPaired | crates/agent-runtime/src/provider.rs:326-381 | the two-table scan accepts a conversation iff no call identifier is used twice, no call is answered twice, every result answers an earlier call to the same tool and every call is answered |
| ProtocolUnits.CutUnits | crates/agent-runtime/src/context_management.rs:253-282 | the index loop cuts a conversation into units as the recursive definition does, or refuses it |
| ProtocolUnits.UnitsPartition | crates/agent-runtime/src/context_management.rs:253-282 | units concatenate back to the conversation, and each is one message or a calling message with one result message per call |
| ProtocolUnits.UnitsUnique | crates/agent-runtime/src/context_management.rs:253-282 | there is no other way to cut a conversation into units of that shape |
| ProtocolUnits.UnitsOfAccepted | crates/agent-runtime/src/context_management.rs:253-282 | pigeonhole: in an accepted conversation each unit answers exactly its own calls, is well paired by itself, and shares no call identifier with another unit |
| ProtocolUnits.ClosedIffAccepted | crates/agent-runtime/src/provider.rs:326-381 | a conversation is accepted iff its scan ends with exactly the asked calls answered |
| ProtocolUnits.PlainThenUnits | crates/agent-runtime/src/context_management.rs:204-219 | plain messages in front of closed units with distinct identifiers are accepted |
| ProtocolUnits.SelectionAccepted | crates/agent-runtime/src/context_management.rs:189-249 | any selection of whole units, in any order, behind the hoisted system messages and further plain messages is accepted again |
| Compaction.SelectRecent | crates/agent-runtime/src/context_management.rs:190-202 | the backward loop selects the most recent non-system units, as many as the policy retains or as there are |
| Compaction.FittingCandidateAccepted | crates/agent-runtime/src/context_management.rs:204-219 | whatever fits the compaction policy also passes the request constructor, so the check inside the loop never decides |
| Compaction.SmallerFits | crates/agent-runtime/src/context_management.rs:203-248 | if a run of recent units fits, so does every shorter one, so dropping from the front finds the longest |
| Compaction.Compact | crates/agent-runtime/src/context_management.rs:143-249 | exact: the first error in the code's order for a bad anchor, policy or source; otherwise all system messages, the anchor with the digest of the source, and the longest recent run of at most the retained number of units that fits both bounds; source digest, Provider, model, time, workspace, plan revision and reasoning are those of the arguments, the key is over just the content, and every source message is counted as retained or dropped; `InsufficientBudget` iff system messages and anchor alone do not fit |
| Compaction.AnchorUsableIff | crates/agent-runtime/src/context_management.rs:27-59 | exactly which anchors are usable: nothing blank, a plan revision, at most 256 items and 64 KiB of text all together |
| Compaction.RequestAcceptedIff | crates/agent-runtime/src/provider.rs:238-283 | a request is accepted iff names, sizes and output limit are in order, its system messages are trusted, and its conversation pairs calls with results by the offered tools |
| Compaction.SourceUsableIff | crates/agent-runtime/src/context_management.rs:156-189 | a source is usable iff it is an accepted request that can be divided into units |
| ContextCaches.RecentRunsNest | crates/agent-runtime/src/context_management.rs:429-441 | of two most-recently-used runs of a cache one contains the other |
| ContextCaches.LongestRecentRunUnique | crates/agent-runtime/src/context_management.rs:429-441 | the longest most-recently-used run within both bounds is determined by the entries |
| ContextCaches.NewestStays | crates/agent-runtime/src/context_management.rs:371-400 | an entry just inserted that fits by itself belongs to the kept run |
| ContextCaches.LastEvictedSpoils | crates/agent-runtime/src/context_management.rs:429-441 | putting back the last evicted entry would break a bound for every longer run |
| ContextCaches.ContextCache.Create | crates/agent-runtime/src/context_management.rs:350-364 | a cache is created, empty, exactly for bounds within the limits |
| ContextCaches.ContextCache.Insert | crates/agent-runtime/src/context_management.rs:371-400 | refused exactly for invalid, expired or oversized values, without change; otherwise the byte count stays exact, both bounds hold, and below clock saturation the new entry is present and the longest recent run that fits is kept |
| ContextCaches.ContextCache.Get | crates/agent-runtime/src/context_management.rs:405-419 | an unexpired hit is the value last inserted under the key and becomes the most recent; an expired entry is removed; nothing else changes |
| ContextCaches.ContextCache.Invalidate | crates/agent-runtime/src/context_management.rs:421-427 | removes exactly the key, says whether it was there, and keeps the byte count exact |
| ContextCaches.ContextCache.Evict | crates/agent-runtime/src/context_management.rs:429-441 | evicts to within both bounds and keeps the longest most-recently-used run that fits |
| ToolTurns.ProviderToolTurn.Start | crates/agent-runtime/src/coordinator.rs:30-40 | a turn starts exactly for a response that finished with tool calls and has some |
| ToolTurns.ResponseIff | crates/agent-runtime/src/provider.rs:582-622 | exactly which answers are accepted for a request with the given identity, tools and output limit |
| ToolTurns.ProviderToolTurn.RecordResult | crates/agent-runtime/src/coordinator.rs:47-64 | a result is recorded only for a call of the turn, to the same tool, not yet answered; otherwise nothing changes |
| ToolTurns.ProviderToolTurn.ContinuationMessages | crates/agent-runtime/src/coordinator.rs:76-90 | the loop over the calls gives the calling message and the results in call order, or reports an incomplete turn |
| ToolTurns.RecordAllMeaning | crates/agent-runtime/src/coordinator.rs:47-64 | a list of results goes through iff each answers a call of the turn and none answers twice |
| ToolTurns.RecordingOrder | crates/agent-runtime/src/coordinator.rs:47-90 | recording the same results in another order gives the same turn, so the same continuation |
| ToolTurns.CompleteTurnIsDistinct | crates/agent-runtime/src/coordinator.rs:67-90 | pigeonhole: a turn with as many results as calls has distinct call identifiers, each answered |
| ToolTurns.ContinuationIsOneUnit | crates/agent-runtime/src/coordinator.rs:76-90 | a complete turn continues the conversation with exactly one protocol unit that answers its own calls and nothing else |
| ToolTurns.AppendIffFresh | crates/agent-auto-host/src/lib.rs:673-679 | appending such a unit keeps an accepted conversation accepted iff its call identifiers are new |
| ToolTurns.TurnsKeepConversation | crates/agent-auto-host/src/lib.rs:673-679 | over any number of turns the checkpointed conversation stays accepted iff no turn reuses an identifier, and it is cut into units at the turn boundaries |
| ToolTurns.PrefixRejected | crates/agent-runtime/src/checkpoint.rs:92-95 | a unit that reuses an identifier spoils the conversation whatever follows |
| Authorization.LessSensitiveStaysAuthorized | crates/agent-runtime/src/authorization.rs:139-171 | an authorization for some data is one for less sensitive data |
| Authorization.AuthorizeIff | crates/agent-runtime/src/authorization.rs:139-171 | exactly when a grant authorizes, asks, or refuses for which reason: validity, revocation, expiry, binding, the three allowlists, the data classes spelled out, the network, and the approval policy |
| Authorization.GrantIff | crates/agent-runtime/src/authorization.rs:97-131 | exactly which grants are valid, with roots and domains spelled out and lifetime, revocation and sandbox told consistently |
| Authorization.FingerprintIff | crates/agent-runtime/src/authorization.rs:185-189 | a workspace fingerprint is the prefix and 64 hexadecimal digits |
| AutoMode.EvaluateKeepsSession | crates/agent-runtime/src/auto_mode.rs:214-253 | evaluating a step keeps a session valid and within its budgets, changes only status, pause reason, ledger and time, adds exactly the projected usage when it proceeds, leaves the ledger when it pauses, and never overflows |
| AutoMode.ProceedsIff | crates/agent-runtime/src/auto_mode.rs:214-253 | exactly when a step proceeds, whatever the order of the guards: bindings unchanged, data and tool within the policy, a grant for what needs confirmation, and every exact sum within its limit |
| AutoMode.StepPausesIff | crates/agent-runtime/src/auto_mode.rs:214-253 | exactly when a step pauses a valid running session for each reason: plan, files, scope, what the grant answers when one is needed, and the budget |
| AutoMode.SessionIff | crates/agent-runtime/src/auto_mode.rs:348-362 | exactly which sessions are valid: among other things every counter is within the policy |
| AutoMode.TransitionsKeepSession | crates/agent-runtime/src/auto_mode.rs:260-341 | pause, resume, cancel and complete keep a session valid |
| AutoMode.ResumeUndoesPause | crates/agent-runtime/src/auto_mode.rs:260-298 | a pause is undone by a resume with the session's own bindings at a later time, and by no other binding; everything but the time is as before |
| AgentTasks.TerminalStatusKeptIffInTime | crates/agent-runtime/src/lib.rs:276-294 | an accounting call keeps which terminal status a task has iff the deadline has not passed |
| AgentTasks.TaskIff | crates/agent-runtime/src/lib.rs:118-215 | exactly which tasks are valid: budget within the limits of the runtime, usage within the budget |
| AgentTasks.SucceededTaskRelabelled | crates/agent-runtime/src/lib.rs:276-294 | a valid succeeded task that one charge after its deadline turns into an exhausted one |
| AgentTasks.StepChargeIff | crates/agent-runtime/src/lib.rs:241-255 | charging a valid task for a step succeeds iff it is active, in time and every exact sum is within its limit (or the limit is where counting saturates), and charges exactly that; a charge beyond a limit stops the task and leaves it invalid |
| AgentTasks.CallChargeIff | crates/agent-runtime/src/lib.rs:262-267 | the same for one tool call |
| Tools.FingerprintBinds | crates/agent-runtime/src/lib.rs:718-727 | although its parts are run together without lengths, an invocation fingerprint fixes invocation, task, trace, tool, risk and arguments |
| Tools.Dispatch | crates/agent-runtime/src/lib.rs:650-684 | the backend is reached exactly once and only when nothing is refused; a refusal reaches it not at all |
| TurnDialogue.AdmitIff | crates/agent-runtime/src/lib.rs:624-642 | admission succeeds iff the tool is registered, at the greater of its own and the evaluated risk, and asks for confirmation iff the effect is not read-only or either risk is medium or more |
| TurnDialogue.DispatchesIff | crates/agent-runtime/src/lib.rs:650-684 | nothing is refused iff the tool is registered with a timeout between 1 and 300000 ms and an invocation that needs confirmation comes with an approval of itself at its effective risk |
| SupervisorSafety.PlanCallsMeaning | crates/agent-runtime/src/coordinator.rs:196-210 | the planned calls are the response's calls one by one: each invocation has the next identifier of the source, the correlation of the task and the tool and arguments of its call, and is admitted as recorded; planning fails only for a tool that is not registered |
| SupervisorSafety.ClearedIsAuthorized | crates/agent-runtime/src/auto_execution.rs:138-174 | passing preflight with a call that needs confirmation forces a grant that authorizes it at its real classification |
| SupervisorSafety.ExecutionGuardPasses | crates/agent-runtime/src/auto_execution.rs:188-207 | whatever preflight cleared passes every guard again at execution; only the budget can still stop it |
| SupervisorSafety.ApprovalCovers | crates/agent-runtime/src/auto_execution.rs:242-271 | a cleared call that needs confirmation always gets an approval bound to it, so dispatch never reports a missing or stale approval |
| SupervisorSafety.ExecuteEffect | crates/agent-runtime/src/coordinator.rs:252-257 | a backend call is made only after it was charged to the task, within the task's limit |
| SupervisorSafety.RunOneEffect | crates/agent-runtime/src/auto_execution.rs:177-236 | a call of a cleared batch runs, pauses the turn for the budget with nothing dispatched, or fails tolerably; a backend call is one unit in both ledgers |
| SupervisorSafety.RunOneRecords | crates/agent-runtime/src/auto_execution.rs:223-235 | a completed call leaves exactly its result; recording is refused only for a repeated or foreign call identifier |
| SupervisorTurns.PreflightMeaning | crates/agent-runtime/src/auto_execution.rs:137-174 | preflight of a running session never breaks and never names the budget; it clears a batch iff it clears every call |
| SupervisorTurns.RunBatchEffect | crates/agent-runtime/src/auto_execution.rs:176-239 | an executing batch dispatches its calls in order up to where it stops; it stops only for the budget or tolerably, and continues only after dispatching all of them, with distinct identifiers and a complete continuation; if recording fails, the call just dispatched repeats the identifier of an earlier one |
| SupervisorTurns.AdvanceBatchEffect | crates/agent-runtime/src/auto_execution.rs:128-240 | all or nothing: an uncleared call hands the whole batch back with zero dispatches and a reason other than the budget |
| SupervisorTurns.ProviderStepEffect | crates/agent-runtime/src/coordinator.rs:161-223 | a Provider step makes at most one call, keeps session, tools and tool ledger, and hands over a workable task with matching planned calls, or completes the task |
| SupervisorTurns.TurnEffect | crates/agent-runtime/src/auto_execution.rs:78-126 | a whole turn: unexpected confirmation and missing descriptor are unreachable, a pause after a dispatch is for the budget, a failure after a dispatch is tolerable, a session error changes nothing, a failed recording comes after both calls of one identifier were dispatched, and validity, bindings and both ledgers are kept |
| SupervisorTurns.ContinuedTurnIsOneUnit | crates/agent-runtime/src/auto_execution.rs:237-239 | what a continuing turn adds is one well-paired protocol unit with one result per dispatched call |
| TurnDialogue.ClearedIff | crates/agent-runtime/src/auto_execution.rs:137-174 | a planned call is cleared iff the policy lists its tool and admits each of its data classes and, if it is more than reading or risky in either eye, a grant that stands covers tool, Provider, model and data without further questions |
| TurnDialogue.DispatchedCallsAreSanctioned | crates/agent-runtime/src/auto_execution.rs:78-240 | in whichever way a turn ends, what it dispatched are the first calls of the Provider's answer to this turn's request, in order, with their own arguments, each of them sanctioned in that sense |
| TurnDialogue.ContinuingTurn | crates/agent-runtime/src/auto_execution.rs:78-240 | a continuing turn from outside: the request is this turn's, the answer is the Provider's, every call of it is dispatched, the conversation gains the Provider's message and the backend's own answers in call order, and both ledgers are charged one cycle, one step, the reported tokens and cost, and one tool call each |
| TurnDialogue.CompletedTurn | crates/agent-runtime/src/coordinator.rs:161-195 | a completed turn dispatches nothing and is charged for its answer alone |
| TurnDialogue.ProviderAskedIff | crates/agent-runtime/src/auto_execution.rs:84-112 | exactly when a turn calls the Provider and with what: a valid running session, every message of a class that the policy admits, one more cycle within both limits, a pending task in time, request and Provider in order |
| SupervisorRuns.StepKeeps | crates/agent-runtime/src/auto_mode.rs:214-341 | every turn and every call on session or task keeps the session valid, its bindings, and the payment of all calls |
| SupervisorRuns.RunBudgets | crates/agent-runtime/src/auto_mode.rs:421-436 | over any run Provider calls stay within the session's cycles and those within both limits; backend calls stay within both ledgers and both limits |
| SupervisorRuns.TerminalSessionIsSilent | crates/agent-runtime/src/auto_mode.rs:214-253 | a finished session makes no further Provider or tool call in any run |
| SupervisorRuns.TerminalTaskIsSilent | crates/agent-runtime/src/coordinator.rs:231-258 | behind a terminal task no tool is called in any run |
| SupervisorRuns.WastedCallIff | crates/agent-runtime/src/coordinator.rs:161-189 | a turn ends because the task is not active iff the Provider was called, answered validly and in time, and the task was not pending, planning or running |
| DurableAnswers.NoAnswerWasted | crates/agent-auto-host/src/lib.rs:941-951 | in every run of the durable protocol no host's turn has ended because its task was not active, and none that has begun can |
| SupervisorExamples.WastedCallHappens | crates/agent-runtime/src/coordinator.rs:161-189 | three calls of the library on a valid session and task: a turn that pauses for confirmation, a resume of the session alone, and a second Provider call whose valid answer is thrown away |
| SupervisorExamples.DuplicateCallsAreDispatched | crates/agent-runtime/src/auto_execution.rs:176-239 | a valid response with two calls of one identifier, both of which reach the backend before the turn fails |
| TurnSupervisors.ProviderRegistry.Complete | crates/agent-runtime/src/provider.rs:504-534 | one checked Provider call: refused before it is made, or made exactly once with its answer validated |
| TurnSupervisors.AgentCoordinator.PlanToolCalls | crates/agent-runtime/src/coordinator.rs:196-210 | the loop plans the calls in order, with identifiers, tools and arguments as they came, or stops at the first that is not admitted |
| TurnSupervisors.AgentCoordinator.ProviderStep | crates/agent-runtime/src/coordinator.rs:161-223 | on the task and Provider objects the step ends as specified, for every environment with this registry and Provider |
| TurnSupervisors.AgentCoordinator.ToolStep | crates/agent-runtime/src/coordinator.rs:231-258 | on the task and backend objects the tool step ends as specified |
| TurnSupervisors.AutoModeTurnSupervisor.PreflightBatch | crates/agent-runtime/src/auto_execution.rs:137-174 | the preflight loop evaluates on copies and leaves the session alone |
| TurnSupervisors.AutoModeTurnSupervisor.RunCall | crates/agent-runtime/src/auto_execution.rs:177-236 | one call on session, task, backend and tool turn ends as specified |
| TurnSupervisors.AutoModeTurnSupervisor.AdvanceToolBatch | crates/agent-runtime/src/auto_execution.rs:128-240 | the two loops over the batch end as specified |
| TurnSupervisors.AutoModeTurnSupervisor.Advance | crates/agent-runtime/src/auto_execution.rs:78-126 | the whole turn on the objects ends in the specified world with the specified outcome |
| TurnStore.TransactionKeepsCoupling | crates/persistence-sqlite/src/auto_mode_commit_store.rs:31-373 | whatever a transaction is given, the stored statuses stay coupled; only a restart leaves a running task behind a paused session; the checkpoint changes only with its sequence, by one, and finished sessions stay |
| TurnStore.ResolveKeepsCoupling | crates/persistence-sqlite/src/auto_mode_attempt_resolution_store.rs:76-148 | a manual resolution changes everything or nothing, keeps the statuses coupled, raises the sequence by one and never touches a finished session |
| TurnStore.SecondCommitLoses | crates/persistence-sqlite/src/auto_mode_commit_store.rs:31-373 | of two writers prepared for the same sequence at most one commits, in whichever order and whatever they write: the second leaves the store as the first left it |
| TurnStore.RestartStopsWriters | crates/persistence-sqlite/src/auto_mode_store.rs:201-238 | once a restart has paused a session, a surviving host's begin, turn, drift and control are refused; only a resume, a mark or a resolution changes the store |
| TurnStore.AttemptCommitsOnce | crates/persistence-sqlite/src/auto_mode_commit_store.rs:201-291 | a turn commits only with its active attempt, which it takes away, so never twice, and never behind a mark |
| TurnStore.CheckpointIff | crates/agent-runtime/src/checkpoint.rs:69-112 | exactly which checkpoints are valid: among other things the conversation pairs calls with results |
| DurableEffects.BeginsIff | crates/persistence-sqlite/src/auto_mode_turn_attempt_store.rs:51-110 | exactly when an attempt is recorded, and what it records |
| DurableEffects.MarksIff | crates/persistence-sqlite/src/auto_mode_turn_attempt_store.rs:171-193 | exactly when an attempt is marked as being of unknown outcome; nothing else changes |
| DurableEffects.DriftCommitsIff | crates/persistence-sqlite/src/auto_mode_commit_store.rs:106-194 | the drift transaction, whatever it is given, goes through exactly for a canonical successor of the last snapshot and a drift pause of the stored running session, and then stores just these |
| DurableEffects.RestartsIff | crates/persistence-sqlite/src/auto_mode_store.rs:201-238 | a restart pauses exactly a valid running session and leaves checkpoint, attempt and snapshots |
| DurableEffects.TakesBackIff | crates/persistence-sqlite/src/auto_mode_attempt_resolution_store.rs:76-148 | exactly when a resolution takes an attempt back, and the pause that it stores |
| DurableEffects.AcceptsIff | crates/persistence-sqlite/src/auto_mode_attempt_resolution_store.rs:76-148 | exactly when a resolution accepts what an attempt may have done, and the cancellation that it stores |
| AutoHostServices.AutoModeHost.RecoverTurn | crates/agent-auto-host/src/lib.rs:796-879 | refuses whenever an attempt is recorded, marking an active one; otherwise restores or refuses without change |
| AutoHostServices.AutoModeHost.CommitResumed | crates/agent-auto-host/src/lib.rs:888-934 | resumes session and task in place and commits both, or changes nothing stored |
| AutoHostServices.AutoModeHost.Preflight | crates/agent-auto-host/src/lib.rs:941-1024 | an unchanged workspace lets the turn go on untouched; a changed one is committed as a pause for the changed workspace with the next sequence and its successor snapshot; nothing else is ever stored |
| AutoHostServices.AutoModeHost.BeginAttemptFor | crates/agent-auto-host/src/lib.rs:618-639 | records an attempt for a running turn, or changes nothing |
| AutoHostServices.AutoModeHost.SettleOutcome | crates/agent-auto-host/src/lib.rs:671-708 | the turn's session, task and messages after an outcome, or nothing when they do not fit it |
| AutoHostServices.AutoModeHost.CommitTurnOutcome | crates/agent-auto-host/src/lib.rs:659-752 | commits the settled turn, or, when the transaction is refused, marks its attempt indeterminate |
| AutoHostServices.AutoModeHost.Control | crates/agent-auto-host/src/lib.rs:531-589 | commits a pause for the user or a cancellation of a running turn, or changes nothing stored |
| DurableEffects.ResumesIff | crates/agent-auto-host/src/lib.rs:888-934 | exactly when a resume goes through, and every field that it stores and hands back |
| DurableEffects.ReadyIff | crates/agent-auto-host/src/lib.rs:946-967 | exactly when a preflight lets a turn go on: it runs and the files are those of the last stored snapshot |
| DurableEffects.DriftsIff | crates/agent-auto-host/src/lib.rs:969-1018 | exactly when a preflight ends in a drift pause, in terms of the stored rows, the scans and the clock, and every field that it stores: session and task paused for the changed workspace, sequence and revision raised by one, the successor chained to its parent |
| DurableEffects.PausesIff | crates/agent-auto-host/src/lib.rs:531-589 | exactly when a pause by the user goes through, and every field that it stores |
| DurableEffects.CancelsIff | crates/agent-auto-host/src/lib.rs:531-589 | exactly when a cancellation goes through, in time or not, and every field that it stores |
| DurableEffects.ContinueCommitsIff | crates/agent-auto-host/src/lib.rs:659-752 | exactly when a continuing turn is committed, and every field that it stores |
| DurableEffects.PauseCommitsIff | crates/agent-auto-host/src/lib.rs:659-752 | the same for a paused turn |
| DurableEffects.CompletionCommitsIff | crates/agent-auto-host/src/lib.rs:659-752 | the same for a completed turn, whose answer becomes the last message |
| DurableEffects.RefusedTurn | crates/agent-auto-host/src/lib.rs:727-745 | a turn that cannot be stored leaves session, checkpoint and snapshots, and marks its active attempt if it got as far as the transaction |
| DurableProgress.RunKeepsInStep | crates/agent-auto-host/src/lib.rs:531-1024 | in every run whoever holds the stored turn holds exactly what is stored: session, task, model, messages, bindings and the fingerprint of the last snapshot |
| DurableProgress.StoredTurnIsServed | crates/agent-auto-host/src/lib.rs:531-1024 | in every reachable state, for whichever host holds the stored turn while the clock goes on: it can be cancelled; it can be paused iff its time budget has not run out; a drift is committed iff, besides, the files changed and can be scanned; a paused one can be resumed iff its goal is active and its time budget has not run out |
| AutoHostServices.AutoModeHost.Execute | crates/agent-auto-host/src/lib.rs:204-276 | one turn end to end: drift and failures before the attempt reach neither Provider nor tools, a failed step quarantines the attempt, a successful one is committed |
| AutoHostLoop.RunLoop | crates/agent-auto-host/src/lib.rs:375-459 | the bounded loop rejects a bad bound without effect and otherwise ends as the recursion over executions does |
| AutoHostLoop.ExecutionCommitsOnce | crates/agent-auto-host/src/lib.rs:204-276 | an execution that reports success has raised the stored sequence by exactly one, from the sequence it started with |
| AutoHostLoop.LoopCountsCommits | crates/agent-auto-host/src/lib.rs:375-459 | a batch without error has raised the stored sequence by exactly the turns it reports, at most as many as allowed, and exactly that many when it yields |
| AutoHostLoop.ExecutionReports | crates/agent-auto-host/src/lib.rs:204-276 | a successful execution reports what it has stored: a drift pause, without any call, or the committed turn as running, paused or completed |
| AutoHostLoop.ExecutionAsksOnce | crates/agent-auto-host/src/lib.rs:224-260 | an execution asks the Provider at most once, for the turn in hand with its prepared messages |
| AutoHostLoop.LoopReports | crates/agent-auto-host/src/lib.rs:375-459 | a batch that stops, or yields after at least one turn, reports what is stored |
| AutoHostLoop.ExecutionIsProtocolSteps | crates/agent-auto-host/src/lib.rs:204-276 | an execution leaves in the store and in its host's hands what its steps in the many-host protocol leave |
| DurableSafety.BeginRows | crates/agent-auto-host/src/lib.rs:618-639 | an attempt is recorded only where none is, at the stored sequence of a running session, and nothing else changes |
| DurableSafety.FinishRows | crates/agent-auto-host/src/lib.rs:727-752 | a commit succeeds only on the stored sequence with its attempt there, which it closes; a refused one leaves checkpoint and session alone |
| DurableSafety.AccountStep | crates/agent-auto-host/src/lib.rs:204-276 | every step of every host keeps the account: attempts and turns belong to distinct sequences, the current sequence has an attempt exactly while its row is there, hosts in mid-turn work on distinct uncommitted attempts |
| DurableSafety.AtMostOneTurnPerSequence | crates/agent-auto-host/src/lib.rs:618-648 | over every interleaving of hosts, crashes, restarts, controls and resolutions at most one attempt is recorded and at most one turn started per checkpoint sequence, and every started turn has a recorded attempt |
| DurableSafety.OpenAttemptBlocks | crates/agent-auto-host/src/lib.rs:808-814 | over every run from a store without an attempt: once no host works on the recorded attempt any more, no attempt is recorded and no Provider called by anyone in any later run without a manual resolution |
| DurableSafety.MidTurnOwnsAttempt | crates/agent-auto-host/src/lib.rs:618-648 | without a manual resolution a host in mid-turn works on exactly the recorded attempt, so there is at most one |
| DurableSafety.CrashedTurnBlocks | crates/agent-auto-host/src/lib.rs:808-814 | in particular after the crash of a host in mid-turn, without a manual resolution |
| DurableSafety.LeftOpenBlocks | crates/agent-auto-host/src/lib.rs:808-814 | and behind earlier resolutions as long as none is added, if nobody at all is in mid-turn |
| DurableExamples.SurvivorStillCalls | crates/persistence-sqlite/src/auto_mode_attempt_resolution_store.rs:76-148 | a concrete run from a created session in which, behind a resolution, the recorded attempt is abandoned and another host still calls the Provider |
| DurableSafety.OvertakenAttemptStays | crates/persistence-sqlite/src/auto_mode_attempt_resolution_store.rs:84-109 | an attempt that a commit has overtaken stays recorded in every run, resolutions included, and no later attempt is recorded |
| DurableHistory.CommitAppends | crates/agent-auto-host/src/lib.rs:659-752 | a committed turn appends exactly what its outcome says to exactly the stored conversation and stores the turn's own ledger; a refused commit keeps both |
| DurableHistory.StepRemembers | crates/agent-auto-host/src/lib.rs:796-1024 | in every step each host holds an older version or exactly what is stored, and an answered turn has paid for its Provider call |
| DurableHistory.HistoryGrows | crates/agent-auto-host/src/lib.rs:531-1024 | over every run no stored message is lost, changed or reordered, the ledger never goes back, and session bindings and task identity are kept |
| DurableHistory.ProviderCallsBounded | crates/agent-auto-host/src/lib.rs:204-276 | all hosts together, over all crashes, call the Provider at most as often as the stored cycles, themselves within both limits, plus once per manual resolution and once for an open attempt |
| DurableFinality.ChainKept | crates/persistence-sqlite/src/auto_mode_commit_store.rs:106-194 | in every run the stored snapshots are canonical, numbered and chained from the one the policy is bound to |
| DurableEffects.RecoversIff | crates/agent-auto-host/src/lib.rs:796-879 | exactly when a stored session can be recovered, what is then handed back, and that a refused recovery changes nothing but the mark on an active attempt; a planning task never can be recovered |
| DurableFinality.RecoveredFilesUnchanged | crates/agent-auto-host/src/lib.rs:825-836 | with collision-free digests a recovery succeeds only if the files on disk are those of the stored snapshot and no drift was ever stored |
| DurableFinality.FrozenForever | crates/agent-auto-host/src/lib.rs:531-1024 | a finished or drifted session whose other holders are behind stays as stored in every run, and no attempt is recorded for it |
| DurableFinality.DriftIsFinal | crates/agent-auto-host/src/lib.rs:969-1024 | once a drift is committed, no run changes the stored session and no recovery succeeds, whatever the files become |
| DurableFinality.CancelIsFinal | crates/agent-auto-host/src/lib.rs:531-589 | once a cancellation is committed, no run changes the stored session |
| DurableFinality.CompletionIsFinal | crates/agent-auto-host/src/lib.rs:693-707 | once a completion is committed, no run changes the stored session |
| DurableFinality.PlanningSessionNeverStarts | crates/agent-auto-host/src/lib.rs:860-866 | a session stored with a planning task stays as created in every run, and no host ever holds it |
| DurableCoupling.StepIsTransaction | crates/agent-auto-host/src/lib.rs:531-1024 | every step of every host changes the store by one transaction or not at all |
| DurableCoupling.StatusesStayCoupled | crates/agent-auto-host/src/lib.rs:531-1024 | in every run the stored statuses of session and task fit together, and a running task lies behind a paused session only if a restart paused it |
| DurableCoupling.CreatedSessionsAreSound | apps/desktop/src-tauri/src/unattended_auto_mode.rs:470-519 | a newly created session satisfies every invariant of the protocol, and so does each of its reachable states |
| DurableOvertaking.SoleStep | crates/agent-auto-host/src/lib.rs:204-589 | without a duplicated running turn every step keeps: a running session has one current holder, an attempt is at the stored sequence, and its current holder is in mid-turn |
| DurableOvertaking.AttemptsAreNotOvertaken | crates/persistence-sqlite/src/auto_mode_commit_store.rs:293-373 | over every run in which no running turn is duplicated, a recorded attempt is at the stored sequence |
| DurableOvertaking.ResolvableIffNotOvertaken | crates/persistence-sqlite/src/auto_mode_attempt_resolution_store.rs:76-148 | an attempt of unknown outcome is removed by some resolution iff its sequence is the stored one |
| DurableOvertaking.AttemptsResolvableIff | crates/persistence-sqlite/src/auto_mode_attempt_resolution_store.rs:76-148 | in every reachable state of a created session, and always if no running turn was duplicated |
| DurableExamples.DuplicatedTurnOvertakes | crates/agent-auto-host/src/lib.rs:531-589 | a concrete run from a created session in which a copied running turn is paused by one host during the turn of another, after which the attempt stays recorded in every later run |
| Automation.Validate | crates/automation-runtime/src/lib.rs:185-235 | the loops with the set of seen identifiers report the definition, condition or action error, in that order, exactly when there is one |
| Automation.ValidationIff | crates/automation-runtime/src/lib.rs:185-235 | exactly which automations are accepted |
| Automation.DottedIdIff | crates/automation-runtime/src/lib.rs:453-466 | command identifiers and event types are three or more segments with dots between them |
| Automation.VersionIff | crates/automation-runtime/src/lib.rs:345-353 | versions are three numerals without leading zeros |
| Automation.PointerIff | crates/automation-runtime/src/lib.rs:468-481 | pointers are empty or a slash before each of their parts, in which every tilde is an escape |
| AutomationSaga.ActionAttempts | crates/automation-runtime/src/lib.rs:355-395 | an action that is not safe to retry is attempted exactly once, any other one to three times, again only after transient failures and always after a transient failure before the third; the last answer decides, and the recorded error is the last one |
| AutomationSaga.UndoMeaning | crates/automation-runtime/src/lib.rs:397-438 | compensation calls exactly the compensations of the succeeded actions, the latest first; each step records its own outcome, and completeness means all of them succeeded |
| AutomationSaga.RunFromSaga | crates/automation-runtime/src/lib.rs:311-342 | the actions from any point on keep steps aligned with actions and end as a saga |
| AutomationSaga.RunIsSaga | crates/automation-runtime/src/lib.rs:257-342 | a live triggered run leaves the attempts of its actions in order and, only after a failure and only under the compensating policy, the reverse compensations of what succeeded; the status says which; it is interrupted exactly where a poll finds it cancelled or out of time, and then compensates nothing; every other run calls nothing and says why |
| AutomationSaga.SagaCalls | crates/automation-runtime/src/lib.rs:321-395 | every call of a run is one of its actions or of its compensations, for this run and event, with the declared command, arguments, risk and idempotency key |
| AutomationSaga.RepeatedCallsAreKeyed | crates/automation-runtime/src/lib.rs:216-222 | in a valid automation an action whose call was made more than once carries an idempotency key |
| AutomationEngine.ExecuteAction | crates/automation-runtime/src/lib.rs:355-395 | the attempt loop on the backend ends as specified: once for an action that is not safe to retry, up to three times for any other, and the calls made are just these |
| AutomationEngine.Compensate | crates/automation-runtime/src/lib.rs:397-438 | the reverse loop over actions and steps ends as specified |
| AutomationEngine.RunActions | crates/automation-runtime/src/lib.rs:311-342 | the loop over the actions, polling its control before each, ends as specified |
| AutomationEngine.RunWithId | crates/automation-runtime/src/lib.rs:257-342 | a run on backend and control, from admission to its final status, ends as specified |
| Workspace.BuildSnapshot | crates/agent-runtime/src/workspace.rs:72-103 | the sorting constructor succeeds iff revision, size, parent, every file and the distinctness of paths are right, reports errors in the code's order, and holds exactly the given files in strict path order under the digest of its own content |
| Workspace.FileIff | crates/agent-runtime/src/workspace.rs:44-53 | exactly which tracked files are valid |
| Workspace.RelativePathIff | crates/agent-runtime/src/workspace.rs:211-221 | relative paths are proper names with slashes between them: no empty name, no way upwards, no backslash and no control character |
| Workspace.OrderIrrelevant | crates/agent-runtime/src/workspace.rs:72-103 | the order in which the files were found makes no difference to the snapshot or to the error |
| Workspace.ValidIffCanonical | crates/agent-runtime/src/workspace.rs:110-124 | a snapshot validates iff its files are valid and in strict path order and its fingerprint is that of its content |
| Workspace.BuiltValidates | crates/agent-runtime/src/workspace.rs:72-124 | whatever is built validates |
| WorkspaceDiff.DiffSucceedsIff | crates/agent-runtime/src/workspace.rs:131-176 | a difference is computed iff both snapshots are canonical and the second is a later successor of the first, names the versions and fingerprints of both, and is a version conflict iff both are canonical |
| WorkspaceDiff.DiffIsExactPatch | crates/agent-runtime/src/workspace.rs:131-176 | applying the changes to the earlier files gives exactly the later ones, and applying the inverted changes gives exactly the earlier ones back |
| WorkspaceDiff.DiffIsOnlyPatch | crates/agent-runtime/src/workspace.rs:131-176 | changes are in strict path order, no other such patch leads from the earlier to the later files, and there are none iff the file lists are equal |

## Left out

- Planner.PlanSemanticComposition: beyond the depth limit nothing is claimed of an answer; the source's unconditional lowest-cost promise is false there, and the exact numbers of usable contracts up to which it holds are given.
- AutoHostServices.AutoModeHost.Execute: the persistent context cache in front of the compactor is an arbitrary preparation function; a fresh compaction and a cache hit under the same key are not told apart.
- AutomationEngine.RunWithId: is stated for a control that has not been polled before; what the control answers is arbitrary.
- DurableEffects.RecoversIff: the rows of a session are taken to exist together; a crash between their creations is not modelled.
- TurnStore.TransactionKeepsCoupling: one session's rows; sequences and times are not cut at the 64-bit limits of the database columns, and constraints across sessions are not modelled.
- The command line's session-only update and the unused single-row replacements of checkpoints and snapshots, which bypass the paired commits.
- Goals and plans beyond the bindings that resume and recover compare.
- `AutoModeSession::start`, `ToolRegistry::register`, `plan_exact_capabilities` and catalog snapshots: easy members.
- Reasoning mappings attached to Provider requests, and offline and cancellation flags, which are part of the arbitrary Provider side.
- The text of error messages and of the `reason` field of automation runs.
- After the cache clock saturates, which of several entries with the same time is evicted first.
- Index overflow while cutting units, which needs conversations longer than the validated maximum.
- Process spawning, HTTP, sidecars, Provider adapters, file scanning, Git inspection, asset installation, the command line and the desktop interface.
- JSON encoding, SHA-256, UUID generation and clocks, which appear as parameters or as injective constructions.
