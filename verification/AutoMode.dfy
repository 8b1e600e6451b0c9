/** Auto Mode sessions: a bounded policy, a usage ledger and the decision about each proposed step. */
module AutoMode {
  import opened Wrappers
  import opened Text
  import opened MachineNumbers
  import opened Ordering
  import opened Provider
  import opened Authorization

  const SESSION_SPEC := "nimora.auto-mode-session/1"
  const MAX_AUTO_CYCLES := 256
  const MAX_AUTO_TOOLS := 128

  datatype Status = Running | Paused | Completed | Cancelled

  datatype PauseReason =
    ConfirmationRequired | BudgetExhausted | GoalChanged | WorkspaceChanged | ProviderUnavailable | Restarted
    | UnsafeEffect | UserRequested

  datatype Risk = Safe | Low | Medium | High | Critical {
    function Rank(): nat {
      match this case Safe => 0 case Low => 1 case Medium => 2 case High => 3 case Critical => 4
    }
  }

  datatype Effect = ReadOnly | ReversibleWrite | IrreversibleWrite | ExternalSideEffect

  datatype Policy = Policy(
    maxCycles: nat,
    maxConcurrency: nat,
    budget: Budget,
    maximumDataClassification: DataClassification,
    toolAllowlist: set<string>,
    workspaceRevision: string)

  /** A policy's fingerprint is the policy: the digest of its encoding is taken to be injective. */
  datatype PolicyDigest = PolicySha256(policy: Policy) | ForeignDigest(text: string)

  datatype Ledger = Ledger(
    cycles: nat, toolCalls: nat, elapsedMs: nat, inputTokens: nat, outputTokens: nat, costMicrounits: nat)

  const NO_USAGE := Ledger(0, 0, 0, 0, 0, 0)

  datatype Session = Session(
    spec: string,
    id: nat,
    goalId: nat,
    planRevision: nat,
    policy: Policy,
    policyFingerprint: PolicyDigest,
    status: Status,
    pauseReason: Option<PauseReason>,
    usage: Ledger,
    createdAtMs: nat,
    updatedAtMs: nat)

  datatype StepRequest = StepRequest(
    goalId: nat,
    planRevision: nat,
    workspaceRevision: string,
    toolId: Option<string>,
    risk: Risk,
    effect: Effect,
    dataClassification: DataClassification,
    projected: Ledger)

  datatype StepDecision = Proceed | Pause(reason: PauseReason)

  datatype AutoModeError = InvalidPolicy | InvalidSession | InvalidTransition | ResumeBindingChanged | UsageOverflow

  predicate ValidPolicy(p: Policy) {
    && 0 < p.maxCycles <= MAX_AUTO_CYCLES
    && 0 < p.maxConcurrency <= 16
    && |p.toolAllowlist| <= MAX_AUTO_TOOLS
    && !Blank(p.workspaceRevision) && Bytes(p.workspaceRevision) <= 256
    && p.budget.maxSteps != 0
    && p.budget.maxToolCalls <= p.budget.maxSteps
    && p.budget.maxElapsedMs != 0
  }

  /** `add_usage`: every counter is added with an overflow check. */
  function AddUsage(a: Ledger, b: Ledger): Option<Ledger> {
    var cycles := CheckedAdd(a.cycles, b.cycles, U32_MAX);
    var toolCalls := CheckedAdd(a.toolCalls, b.toolCalls, U32_MAX);
    var elapsed := CheckedAdd(a.elapsedMs, b.elapsedMs, U64_MAX);
    var input := CheckedAdd(a.inputTokens, b.inputTokens, U64_MAX);
    var output := CheckedAdd(a.outputTokens, b.outputTokens, U64_MAX);
    var cost := CheckedAdd(a.costMicrounits, b.costMicrounits, U64_MAX);
    if cycles.None? || toolCalls.None? || elapsed.None? || input.None? || output.None? || cost.None? then None
    else Some(Ledger(cycles.value, toolCalls.value, elapsed.value, input.value, output.value, cost.value))
  }

  predicate ExceedsBudget(p: Policy, current: Ledger, projected: Ledger) {
    var sum := AddUsage(current, projected);
    || sum.None?
    || sum.value.cycles > p.maxCycles
    || sum.value.cycles > p.budget.maxSteps
    || sum.value.toolCalls > p.budget.maxToolCalls
    || sum.value.elapsedMs > p.budget.maxElapsedMs
    || sum.value.inputTokens > p.budget.maxInputTokens
    || sum.value.outputTokens > p.budget.maxOutputTokens
    || sum.value.costMicrounits > p.budget.maxCostMicrounits
  }

  /** `AutoModeSession::validate`, beyond its policy. */
  predicate ValidBody(s: Session) {
    && s.spec == SESSION_SPEC
    && s.planRevision != 0
    && s.policyFingerprint == PolicySha256(s.policy)
    && s.updatedAtMs >= s.createdAtMs
    && (s.status == Paused <==> s.pauseReason.Some?)
    && !ExceedsBudget(s.policy, NO_USAGE, s.usage)
  }

  predicate ValidSession(s: Session) { ValidPolicy(s.policy) && ValidBody(s) }

  predicate RequiresConfirmation(risk: Risk, effect: Effect) {
    risk.Rank() >= Medium.Rank() || effect != ReadOnly
  }

  function FirstOf(preferred: Option<string>, allowlist: set<string>): Option<string> {
    if preferred.Some? then preferred else if allowlist == {} then None else Some(Least(allowlist))
  }

  function GrantQuestion(r: StepRequest, toolId: string, providerId: string, model: string, nowMs: nat): GrantRequest {
    GrantRequest(r.goalId, r.planRevision, r.workspaceRevision, toolId, providerId, model, r.dataClassification, false,
                 nowMs)
  }

  /** `grant_confirmation_reason`: why a step that needs confirmation must pause, if it must. */
  function GrantConfirmationReason(grant: Option<Grant>, r: StepRequest, providerId: Option<string>,
                                   model: Option<string>,
                                   nowMs: nat): Option<PauseReason>
  {
    if grant.None? || r.toolId.None? then Some(ConfirmationRequired) else
    var g := grant.value;
    var provider := FirstOf(providerId, g.providerAllowlist);
    var chosenModel := FirstOf(model, g.modelAllowlist);
    if provider.None? || chosenModel.None? then Some(ConfirmationRequired) else
    match Authorize(g, GrantQuestion(r, r.toolId.value, provider.value, chosenModel.value, nowMs))
    case Success(Authorized) => None
    case Success(ApprovalRequired) => Some(ConfirmationRequired)
    case Failure(OutOfScope) => Some(UnsafeEffect)
    case Failure(BindingChanged) =>
      Some(if g.goalId != r.goalId || g.planRevision != r.planRevision then GoalChanged else WorkspaceChanged)
    case Failure(_) => Some(ConfirmationRequired)
  }

  /** The guards in order, before the budget. */
  function GuardReason(s: Session, r: StepRequest, grant: Option<Grant>, providerId: Option<string>,
                       model: Option<string>,
                       nowMs: nat): Option<PauseReason>
  {
    if r.goalId != s.goalId || r.planRevision != s.planRevision then Some(GoalChanged)
    else if r.workspaceRevision != s.policy.workspaceRevision then Some(WorkspaceChanged)
    else if r.dataClassification.Rank() > s.policy.maximumDataClassification.Rank()
            || (r.toolId.Some? && r.toolId.value !in s.policy.toolAllowlist) then Some(UnsafeEffect)
    else if RequiresConfirmation(r.risk, r.effect) then GrantConfirmationReason(grant, r, providerId, model, nowMs)
    else None
  }

  function StepReason(s: Session, r: StepRequest, grant: Option<Grant>, providerId: Option<string>,
                      model: Option<string>,
                      nowMs: nat): Option<PauseReason>
  {
    var guard := GuardReason(s, r, grant, providerId, model, nowMs);
    if guard.None? && ExceedsBudget(s.policy, s.usage, r.projected) then Some(BudgetExhausted) else guard
  }

  function PauseSession(s: Session, reason: PauseReason, nowMs: nat): Result<Session, AutoModeError> {
    if s.status != Running || nowMs < s.updatedAtMs then Failure(InvalidTransition)
    else Success(s.(status := Paused, pauseReason := Some(reason), updatedAtMs := nowMs))
  }

  /** `evaluate_step_with_grant`: the session afterwards and the decision. */
  function EvaluateStep(s: Session, r: StepRequest, grant: Option<Grant>, providerId: Option<string>,
                        model: Option<string>,
                        nowMs: nat): (Session, Result<StepDecision, AutoModeError>)
  {
    if !ValidPolicy(s.policy) then (s, Failure(InvalidPolicy))
    else if !ValidBody(s) then (s, Failure(InvalidSession))
    else if s.status != Running || nowMs < s.updatedAtMs then (s, Failure(InvalidTransition))
    else
      var reason := StepReason(s, r, grant, providerId, model, nowMs);
      if reason.Some? then
        (s.(status := Paused, pauseReason := reason, updatedAtMs := nowMs), Success(Pause(reason.value)))
      else
        var usage := AddUsage(s.usage, r.projected);
        if usage.None? then (s, Failure(UsageOverflow))
        else (s.(usage := usage.value, updatedAtMs := nowMs), Success(Proceed))
  }

  /** The goal, plan, workspace and policy a resume is checked against. */
  datatype ResumeBinding = ResumeBinding(
    goalActive: bool, goalId: nat, planGoalId: nat, planRevision: nat, workspaceRevision: string,
    policyFingerprint: PolicyDigest)

  function ResumeSession(s: Session, b: ResumeBinding, nowMs: nat): Result<Session, AutoModeError> {
    if s.status != Paused || !b.goalActive || b.goalId != s.goalId || b.planGoalId != s.goalId
       || b.planRevision != s.planRevision || b.workspaceRevision != s.policy.workspaceRevision
       || b.policyFingerprint != s.policyFingerprint || nowMs < s.updatedAtMs
    then Failure(ResumeBindingChanged)
    else Success(s.(status := Running, pauseReason := None, updatedAtMs := nowMs))
  }

  function CancelSession(s: Session, nowMs: nat): Result<Session, AutoModeError> {
    if s.status in {Completed, Cancelled} || nowMs < s.updatedAtMs then Failure(InvalidTransition)
    else Success(s.(status := Cancelled, pauseReason := None, updatedAtMs := nowMs))
  }

  function CompleteSession(s: Session, nowMs: nat): Result<Session, AutoModeError> {
    if s.status != Running || nowMs < s.updatedAtMs then Failure(InvalidTransition)
    else Success(s.(status := Completed, pauseReason := None, updatedAtMs := nowMs))
  }

  // ---- What is accepted ----

  /** Policies within the limits of the runtime. */
  lemma PolicyIff(p: Policy)
    ensures ValidPolicy(p) <==>
              && 1 <= p.maxCycles <= 256 && 1 <= p.maxConcurrency <= 16 && |p.toolAllowlist| <= 128
              && !Blank(p.workspaceRevision) && Bytes(p.workspaceRevision) <= 256
              && p.budget.maxSteps >= 1 && p.budget.maxToolCalls <= p.budget.maxSteps && p.budget.maxElapsedMs >= 1
  {
    hide Blank, Bytes;
  }

  /** Sessions of a valid policy that carry its digest, are paused exactly with a reason, and have used no
      more of any counter than the policy allows. */
  lemma SessionIff(s: Session)
    requires MachineLimits(s.policy)
    ensures ValidSession(s) <==>
              && ValidPolicy(s.policy) && s.spec == "nimora.auto-mode-session/1" && s.planRevision >= 1
              && s.policyFingerprint == PolicySha256(s.policy) && s.createdAtMs <= s.updatedAtMs
              && (s.status == Paused <==> s.pauseReason != None)
              && s.usage.cycles <= s.policy.maxCycles && s.usage.cycles <= s.policy.budget.maxSteps
              && s.usage.toolCalls <= s.policy.budget.maxToolCalls
              && s.usage.elapsedMs <= s.policy.budget.maxElapsedMs
              && s.usage.inputTokens <= s.policy.budget.maxInputTokens
              && s.usage.outputTokens <= s.policy.budget.maxOutputTokens
              && s.usage.costMicrounits <= s.policy.budget.maxCostMicrounits
  {
    if ValidPolicy(s.policy) { WithinBudgetIff(s.policy, NO_USAGE, s.usage); }
    hide ValidPolicy, ExceedsBudget;
  }

  // ---- What every transition keeps ----

  /** A valid session that proceeds stays within every budget, and the overflow error cannot occur. */
  lemma EvaluateKeepsSession(s: Session, r: StepRequest, grant: Option<Grant>, providerId: Option<string>,
                             model: Option<string>, nowMs: nat)
    ensures var (t, d) := EvaluateStep(s, r, grant, providerId, model, nowMs);
            && d != Failure(UsageOverflow)
            && (ValidSession(s) ==> ValidSession(t))
            && (d.Success? ==>
                  && ValidSession(s) && ValidSession(t) && s.status == Running
                  && s.updatedAtMs <= t.updatedAtMs == nowMs)
            && (d.Failure? ==> t == s)
            && (d == Success(Proceed) ==> t.status == Running && AddUsage(s.usage, r.projected) == Some(t.usage))
            && (d.Success? && d.value.Pause? ==>
                     t.status == Paused && t.pauseReason == Some(d.value.reason) && t.usage == s.usage)
            && t == s.(status := t.status, pauseReason := t.pauseReason, usage := t.usage, updatedAtMs := t.updatedAtMs)
  {
  }

  lemma TransitionsKeepSession(s: Session, reason: PauseReason, b: ResumeBinding, nowMs: nat)
    requires ValidSession(s)
    ensures PauseSession(s, reason, nowMs).Success? ==> ValidSession(PauseSession(s, reason, nowMs).value)
    ensures ResumeSession(s, b, nowMs).Success? ==> ValidSession(ResumeSession(s, b, nowMs).value)
    ensures CancelSession(s, nowMs).Success? ==> ValidSession(CancelSession(s, nowMs).value)
    ensures CompleteSession(s, nowMs).Success? ==> ValidSession(CompleteSession(s, nowMs).value)
  {
    hide ValidPolicy, ExceedsBudget;
  }

  /** What the grant, if one is needed at all, says about the step. */
  ghost predicate Permits(grant: Option<Grant>, r: StepRequest, providerId: Option<string>, model: Option<string>,
                          nowMs: nat) {
    RequiresConfirmation(r.risk, r.effect) ==>
      && grant.Some? && r.toolId.Some?
      && var provider := FirstOf(providerId, grant.value.providerAllowlist);
         var chosenModel := FirstOf(model, grant.value.modelAllowlist);
         && provider.Some? && chosenModel.Some?
         && Authorize(grant.value, GrantQuestion(r, r.toolId.value, provider.value, chosenModel.value, nowMs))
           == Success(Authorized)
  }

  /** No counter exceeds its limit once the projected usage is added. */
  predicate WithinBudget(p: Policy, u: Ledger, v: Ledger) {
    && u.cycles + v.cycles <= p.maxCycles && u.cycles + v.cycles <= p.budget.maxSteps
    && u.toolCalls + v.toolCalls <= p.budget.maxToolCalls && u.elapsedMs + v.elapsedMs <= p.budget.maxElapsedMs
    && u.inputTokens + v.inputTokens <= p.budget.maxInputTokens
    && u.outputTokens + v.outputTokens <= p.budget.maxOutputTokens
    && u.costMicrounits + v.costMicrounits <= p.budget.maxCostMicrounits
  }

  /** The limits are machine numbers. */
  predicate MachineLimits(p: Policy) {
    && p.budget.maxToolCalls <= U32_MAX && p.budget.maxElapsedMs <= U64_MAX && p.budget.maxInputTokens <= U64_MAX
    && p.budget.maxOutputTokens <= U64_MAX && p.budget.maxCostMicrounits <= U64_MAX
  }

  /** Exactly when a step proceeds, whatever the order of the guards: bindings unchanged, data and tool
      within the policy, a grant for what needs one, and every sum within its limit, overflow included. */
  lemma ProceedsIff(s: Session, r: StepRequest, grant: Option<Grant>, providerId: Option<string>, model: Option<string>,
                    nowMs: nat)
    requires MachineLimits(s.policy)
    ensures EvaluateStep(s, r, grant, providerId, model, nowMs).1 == Success(Proceed) <==>
              && ValidSession(s) && s.status == Running && s.updatedAtMs <= nowMs
              && r.goalId == s.goalId && r.planRevision == s.planRevision
              && r.workspaceRevision == s.policy.workspaceRevision
              && r.dataClassification.Rank() <= s.policy.maximumDataClassification.Rank()
              && (r.toolId.Some? ==> r.toolId.value in s.policy.toolAllowlist)
              && Permits(grant, r, providerId, model, nowMs)
              && WithinBudget(s.policy, s.usage, r.projected)
  {
    hide Authorize, FirstOf, GrantQuestion;
    if ValidPolicy(s.policy) { WithinBudgetIff(s.policy, s.usage, r.projected); }
    hide ExceedsBudget, WithinBudget;
  }

  /** What the grant says to the step, if it can be asked at all. */
  ghost function GrantAnswer(grant: Option<Grant>, r: StepRequest, providerId: Option<string>, model: Option<string>,
                             nowMs: nat): Option<Result<Decision, AuthorizationError>> {
    if grant.None? || r.toolId.None? then None else
    var g := grant.value;
    var provider := if providerId.Some? || g.providerAllowlist == {} then providerId
                    else Some(Least(g.providerAllowlist));
    var chosen := if model.Some? || g.modelAllowlist == {} then model else Some(Least(g.modelAllowlist));
    if provider.None? || chosen.None? then None
    else Some(Authorize(g, GrantRequest(r.goalId, r.planRevision, r.workspaceRevision, r.toolId.value, provider.value,
                                        chosen.value, r.dataClassification, false, nowMs)))
  }

  /** Exactly when a step pauses a valid running session, and for which reason. */
  lemma StepPausesIff(s: Session, r: StepRequest, grant: Option<Grant>, providerId: Option<string>,
                      model: Option<string>, nowMs: nat, reason: PauseReason)
    requires MachineLimits(s.policy) && ValidSession(s) && s.status == Running && s.updatedAtMs <= nowMs
    ensures var answer := GrantAnswer(grant, r, providerId, model, nowMs);
            var samePlan := r.goalId == s.goalId && r.planRevision == s.planRevision;
            var sameFiles := r.workspaceRevision == s.policy.workspaceRevision;
            var inScope := && NoMoreSensitive(r.dataClassification, s.policy.maximumDataClassification)
                           && (r.toolId.Some? ==> r.toolId.value in s.policy.toolAllowlist);
            var asks := r.risk.Medium? || r.risk.High? || r.risk.Critical? || !r.effect.ReadOnly?;
            var allowed := answer == Some(Success(Authorized));
            var outOfScope := answer == Some(Failure(OutOfScope));
            var rebound := answer == Some(Failure(BindingChanged));
            var refused := samePlan && sameFiles && inScope && asks;
            var otherPlan := && grant.Some?
                             && (grant.value.goalId != r.goalId || grant.value.planRevision != r.planRevision);
            EvaluateStep(s, r, grant, providerId, model, nowMs).1 == Success(Pause(reason)) <==>
              match reason
              case GoalChanged => !samePlan || (refused && rebound && otherPlan)
              case WorkspaceChanged =>
                samePlan && (!sameFiles || (refused && rebound && !otherPlan))
              case UnsafeEffect =>
                samePlan && sameFiles && (!inScope || (refused && outOfScope))
              case ConfirmationRequired =>
                refused && !allowed && !outOfScope && !rebound
              case BudgetExhausted =>
                && samePlan && sameFiles && inScope && (asks ==> allowed)
                && !WithinBudget(s.policy, s.usage, r.projected)
              case _ => false
  {
    RankOrder(r.dataClassification, s.policy.maximumDataClassification);
    WithinBudgetIff(s.policy, s.usage, r.projected);
    GrantReasonIs(grant, r, providerId, model, nowMs);
    assert RequiresConfirmation(r.risk, r.effect)
           <==> r.risk.Medium? || r.risk.High? || r.risk.Critical? || !r.effect.ReadOnly?;
    PausesForReason(s, r, grant, providerId, model, nowMs);
    hide ExceedsBudget, WithinBudget, ValidPolicy, ValidBody, GrantConfirmationReason, GrantAnswer,
         RequiresConfirmation, NoMoreSensitive, EvaluateStep;
  }

  lemma PausesForReason(s: Session, r: StepRequest, grant: Option<Grant>, providerId: Option<string>,
                        model: Option<string>, nowMs: nat)
    requires ValidSession(s) && s.status == Running && s.updatedAtMs <= nowMs
    ensures var reason := StepReason(s, r, grant, providerId, model, nowMs);
            EvaluateStep(s, r, grant, providerId, model, nowMs).1
            == Success(if reason.Some? then Pause(reason.value) else Proceed)
  {
    hide GuardReason, ValidPolicy, ValidBody;
  }

  lemma GrantReasonIs(grant: Option<Grant>, r: StepRequest, providerId: Option<string>, model: Option<string>,
                      nowMs: nat)
    ensures var answer := GrantAnswer(grant, r, providerId, model, nowMs);
            var otherPlan := && grant.Some?
                             && (grant.value.goalId != r.goalId || grant.value.planRevision != r.planRevision);
            GrantConfirmationReason(grant, r, providerId, model, nowMs)
            == if answer == Some(Success(Authorized)) then None
               else if answer == Some(Failure(OutOfScope)) then Some(UnsafeEffect)
               else if answer == Some(Failure(BindingChanged)) then
                 Some(if otherPlan then GoalChanged else WorkspaceChanged)
               else Some(ConfirmationRequired)
  {
    hide Authorize;
  }

  lemma WithinBudgetIff(p: Policy, u: Ledger, v: Ledger)
    requires MachineLimits(p) && ValidPolicy(p)
    ensures ExceedsBudget(p, u, v) <==> !WithinBudget(p, u, v)
  {
  }

  /** A pause is undone by a resume with the session's own bindings, and by no other; everything but the
      time is as before. */
  lemma ResumeUndoesPause(s: Session, reason: PauseReason, pausedMs: nat, b: ResumeBinding, resumedMs: nat)
    requires PauseSession(s, reason, pausedMs).Success? && ValidSession(s)
    ensures var resumed := ResumeSession(PauseSession(s, reason, pausedMs).value, b, resumedMs);
            && (resumed.Success? ==> resumed.value == s.(updatedAtMs := resumedMs))
            && (resumed.Success? <==>
                  && b == ResumeBinding(true, s.goalId, s.goalId, s.planRevision, s.policy.workspaceRevision,
                                        s.policyFingerprint)
                  && pausedMs <= resumedMs)
  {
    hide ValidPolicy, ExceedsBudget;
  }

  /** A transition was taken, or refused without changing the session. */
  ghost predicate Took(before: Session, after: Session, next: Result<Session, AutoModeError>, r: Result<(),
                       AutoModeError>) {
    if next.Success? then r == Success(()) && after == next.value else r == Failure(next.error) && after == before
  }

  /** A session in memory: what it is bound to is fixed, and its methods change the rest in place. */
  class AutoModeSession {
    const spec: string
    const id: nat
    const goalId: nat
    const planRevision: nat
    const policy: Policy
    const policyFingerprint: PolicyDigest
    const createdAtMs: nat
    var status: Status
    var pauseReason: Option<PauseReason>
    var usage: Ledger
    var updatedAtMs: nat

    constructor (s: Session)
      ensures State() == s
    {
      spec, id, goalId, planRevision := s.spec, s.id, s.goalId, s.planRevision;
      policy, policyFingerprint, createdAtMs := s.policy, s.policyFingerprint, s.createdAtMs;
      status, pauseReason, usage, updatedAtMs := s.status, s.pauseReason, s.usage, s.updatedAtMs;
    }

    function State(): Session
      reads this
    {
      Session(spec, id, goalId, planRevision, policy, policyFingerprint, status, pauseReason, usage, createdAtMs,
              updatedAtMs)
    }

    method EvaluateStepWithGrant(r: StepRequest, grant: Option<Grant>, providerId: Option<string>,
                                 model: Option<string>, nowMs: nat)
      returns (d: Result<StepDecision, AutoModeError>)
      modifies this
      ensures d.Success? <==> old(ValidSession(State()) && status == Running && updatedAtMs <= nowMs)
      ensures d.Failure? ==> State() == old(State())
      ensures d == Success(Proceed) ==>
                && AddUsage(old(usage), r.projected) == Some(usage) && updatedAtMs == nowMs
                && State() == old(State()).(usage := usage, updatedAtMs := nowMs)
      ensures d.Success? && d.value.Pause? ==>
                State() == old(State()).(status := Paused, pauseReason := Some(d.value.reason), updatedAtMs := nowMs)
      ensures (State(), d) == EvaluateStep(old(State()), r, grant, providerId, model, nowMs)
    {
      hide ValidPolicy, GrantConfirmationReason, RequiresConfirmation, Authorize;
      if !ValidPolicy(policy) { return Failure(InvalidPolicy); }
      if !ValidBody(State()) { return Failure(InvalidSession); }
      if status != Running || nowMs < updatedAtMs { return Failure(InvalidTransition); }
      var reason: Option<PauseReason> := None;
      if r.goalId != goalId || r.planRevision != planRevision {
        reason := Some(GoalChanged);
      } else if r.workspaceRevision != policy.workspaceRevision {
        reason := Some(WorkspaceChanged);
      } else if r.dataClassification.Rank() > policy.maximumDataClassification.Rank()
                || (r.toolId.Some? && r.toolId.value !in policy.toolAllowlist) {
        reason := Some(UnsafeEffect);
      } else if RequiresConfirmation(r.risk, r.effect) {
        reason := GrantConfirmationReason(grant, r, providerId, model, nowMs);
      }
      if reason.None? && ExceedsBudget(policy, usage, r.projected) {
        reason := Some(BudgetExhausted);
      }
      if reason.Some? {
        var paused := PauseFor(reason.value, nowMs);
        assert paused.Success?;
        return Success(Pause(reason.value));
      }
      var sum := AddUsage(usage, r.projected);
      assert sum.Some?;
      usage := sum.value;
      updatedAtMs := nowMs;
      return Success(Proceed);
    }

    method PauseFor(reason: PauseReason, nowMs: nat) returns (r: Result<(), AutoModeError>)
      modifies this
      ensures r.Success? <==> old(status == Running && updatedAtMs <= nowMs)
      ensures State() == if r.Success? then old(State()).(status := Paused, pauseReason := Some(reason),
                                                          updatedAtMs := nowMs)
                         else old(State())
      ensures Took(old(State()), State(), PauseSession(old(State()), reason, nowMs), r)
    {
      if status != Running || nowMs < updatedAtMs { return Failure(InvalidTransition); }
      status := Paused;
      pauseReason := Some(reason);
      updatedAtMs := nowMs;
      return Success(());
    }

    method Resume(b: ResumeBinding, nowMs: nat) returns (r: Result<(), AutoModeError>)
      modifies this
      ensures r.Success? <==>
                && b == ResumeBinding(true, goalId, goalId, planRevision, policy.workspaceRevision, policyFingerprint)
                && old(status == Paused && updatedAtMs <= nowMs)
      ensures State() == if r.Success? then old(State()).(status := Running, pauseReason := None, updatedAtMs := nowMs)
                         else old(State())
      ensures Took(old(State()), State(), ResumeSession(old(State()), b, nowMs), r)
    {
      if status != Paused || !b.goalActive || b.goalId != goalId || b.planGoalId != goalId
         || b.planRevision != planRevision || b.workspaceRevision != policy.workspaceRevision
         || b.policyFingerprint != policyFingerprint || nowMs < updatedAtMs
      {
        return Failure(ResumeBindingChanged);
      }
      status := Running;
      pauseReason := None;
      updatedAtMs := nowMs;
      return Success(());
    }

    method Cancel(nowMs: nat) returns (r: Result<(), AutoModeError>)
      modifies this
      ensures r.Success? <==> old((status == Running || status == Paused) && updatedAtMs <= nowMs)
      ensures State() == if r.Success? then old(State()).(status := Cancelled, pauseReason := None,
                                                          updatedAtMs := nowMs)
                         else old(State())
      ensures Took(old(State()), State(), CancelSession(old(State()), nowMs), r)
    {
      if status in {Completed, Cancelled} || nowMs < updatedAtMs { return Failure(InvalidTransition); }
      status := Cancelled;
      pauseReason := None;
      updatedAtMs := nowMs;
      return Success(());
    }

    method Complete(nowMs: nat) returns (r: Result<(), AutoModeError>)
      modifies this
      ensures r.Success? <==> old(status == Running && updatedAtMs <= nowMs)
      ensures State() == if r.Success? then old(State()).(status := Completed, pauseReason := None,
                                                          updatedAtMs := nowMs)
                         else old(State())
      ensures Took(old(State()), State(), CompleteSession(old(State()), nowMs), r)
    {
      if status != Running || nowMs < updatedAtMs { return Failure(InvalidTransition); }
      status := Completed;
      pauseReason := None;
      updatedAtMs := nowMs;
      return Success(());
    }
  }
}
