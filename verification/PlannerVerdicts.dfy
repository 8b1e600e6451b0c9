/** What the planner's promise amounts to: when a resolved plan is the cheapest and an unresolved one
    means that nothing reaches the outputs. */
module PlannerVerdicts {
  import opened Ordering
  import opened Capabilities
  import opened FiniteSets
  import opened Composition
  import opened SubsetWeight
  import opened RouteFacts
  import opened Planner

  // ---- Answer by answer ----

  /** Answer by answer: a resolved plan is the cheapest of all admissible routes unless a cheaper route
      keeps making progress beyond the depth cut. */
  lemma ResolvedIsCheapest(graph: Graph, request: Request, plan: Plan)
    requires Delivered(graph, request, plan) && plan.fullyResolved && ShallowBelow(graph, request, plan.totalCostUnits)
    ensures Cheapest(graph, request, plan)
  {
    hide ShallowBelow, SoundPlan, BoundedByStates;
    LimitAbove(graph, request, plan);
  }

  lemma LimitAbove(graph: Graph, request: Request, plan: Plan)
    requires SoundPlan(graph, request, plan) && ShallowBelow(graph, request, plan.totalCostUnits)
    ensures plan.totalCostUnits <= DepthLimit(graph, request)
  {
    hide ShallowBelow;
    var route :| PlanFollows(graph, request, plan, route);
  }

  /** Where no affordable progressing route exceeds the depth cut, the answer is the cheapest or, if
      the expansion cut did not fire, exhaustive. */
  lemma ShallowVerdict(graph: Graph, request: Request, plan: Plan)
    requires Delivered(graph, request, plan) && Shallow(graph, request)
    ensures plan.fullyResolved ==> Cheapest(graph, request, plan)
    ensures !plan.fullyResolved && plan.expandedStates < MAX_EXPANDED_STATES ==> Exhaustive(graph, request, plan)
  {
    hide ShallowBelow, BoundedByStates;
    assert DepthLimit(graph, request) == request.maximumCostUnits + 1;
    if plan.fullyResolved {
      var route :| PlanFollows(graph, request, plan, route);
      assert plan.totalCostUnits <= request.maximumCostUnits;
    }
  }

  lemma FewContractsVerdict(graph: Graph, request: Request, plan: Plan)
    requires Delivered(graph, request, plan) && |Usable(graph, request)| <= MAX_GRAPH_DEPTH
    ensures plan.expandedStates <= 1025
    ensures if plan.fullyResolved then Cheapest(graph, request, plan) else Exhaustive(graph, request, plan)
  {
    FewContractsAreShallow(graph, request);
    SmallTotals(|Usable(graph, request)|);
    hide Shallow;
    ShallowVerdict(graph, request, plan);
  }

  // ---- Cheap plans and small budgets ----

  lemma {:induction false} LongRoutesAreDear(graph: Graph, request: Request, route: seq<Contract>, least: nat)
    requires Admissible(graph, request, route) && forall c :: c in Usable(graph, request) ==> c.costUnits >= least
    ensures Cost(route) >= least * |route|
  {
    if route != [] {
      var before, c := route[..|route| - 1], route[|route| - 1];
      LongRoutesAreDear(graph, request, before, least);
      assert c in Usable(graph, request);
      assert least * |route| == least * |before| + least;
    }
  }

  /** Nothing cheaper than nine of the cheapest steps is cut. */
  lemma ShallowBelowNineSteps(graph: Graph, request: Request, least: nat)
    requires forall c :: c in Usable(graph, request) ==> c.costUnits >= least
    ensures ShallowBelow(graph, request, 9 * least)
  {
    forall route | Admissible(graph, request, route) && Cost(route) < 9 * least ensures |route| <= MAX_GRAPH_DEPTH {
      LongRoutesAreDear(graph, request, route, least);
      if |route| >= 9 { NineTimes(least, |route|); }
    }
  }

  lemma NineTimes(least: nat, n: nat)
    requires n >= 9
    ensures least * n >= 9 * least
  {
  }

  /** A test on the answer: a resolved plan that costs no more than nine times what every usable contract
      costs at least is the cheapest; contracts cost at least one, so every plan of cost nine is. */
  lemma CheapPlansAreCheapest(graph: Graph, request: Request, plan: Plan, least: nat)
    requires Delivered(graph, request, plan) && plan.fullyResolved && GoodContracts(graph)
    requires least <= 1 || forall c :: c in Usable(graph, request) ==> c.costUnits >= least
    requires plan.totalCostUnits <= 9 * least
    ensures Cheapest(graph, request, plan)
  {
    forall c | c in Usable(graph, request) ensures c.costUnits >= least {
      assert ValidContract(c);
    }
    ShallowBelowNineSteps(graph, request, least);
    assert ShallowBelow(graph, request, plan.totalCostUnits);
    hide ShallowBelow;
    ResolvedIsCheapest(graph, request, plan);
  }

  /** A test on the request: the depth cut cannot bite within a budget of eight. */
  lemma SmallBudgetsAreShallow(graph: Graph, request: Request)
    requires GoodContracts(graph) && request.maximumCostUnits <= 8
    ensures Shallow(graph, request)
  {
    forall c | c in Usable(graph, request) ensures c.costUnits >= 1 {
      assert ValidContract(c);
    }
    ShallowBelowNineSteps(graph, request, 1);
  }

  // ---- By the number of usable contracts: optimality ----

  ghost function SumCost(contracts: set<Contract>): nat
    decreases |contracts|
  {
    if contracts == {} then 0 else
    var c :| c in contracts;
    c.costUnits + SumCost(contracts - {c})
  }

  lemma {:induction false} SumRemove(contracts: set<Contract>, c: Contract)
    requires c in contracts
    ensures SumCost(contracts) == c.costUnits + SumCost(contracts - {c})
    decreases |contracts|
  {
    var d :| d in contracts && SumCost(contracts) == d.costUnits + SumCost(contracts - {d});
    if d != c {
      SumRemove(contracts - {d}, c);
      SumRemove(contracts - {c}, d);
      assert contracts - {d} - {c} == contracts - {c} - {d};
    }
  }

  lemma {:induction false} SumMonotone(a: set<Contract>, b: set<Contract>)
    requires a <= b
    ensures SumCost(a) <= SumCost(b)
    decreases |b|
  {
    if a != b {
      var c :| c in b && c !in a;
      SumRemove(b, c);
      SumMonotone(a, b - {c});
    }
  }

  /** A route without repetitions costs what its contracts cost together. */
  lemma {:induction false} ProgressiveCost(inputs: set<string>, route: seq<Contract>)
    requires Progressive(inputs, route)
    ensures Cost(route) == SumCost(Used(route))
  {
    if route == [] {
      assert Used(route) == {};
    } else {
      var before, c := route[..|route| - 1], route[|route| - 1];
      ProgressiveCost(inputs, before);
      AvailableIsPool(inputs, before);
      assert c !in Used(before);
      assert Used(route) == Used(before) + {c};
      SumRemove(Used(route), c);
      assert Used(route) - {c} == Used(before);
    }
  }

  /** A progressing route beyond the cut takes all of nine contracts, and no plan costs more than that. */
  lemma NineStepsAreDear(graph: Graph, request: Request, plan: Plan, planned: seq<Contract>, route: seq<Contract>)
    requires PlanFollows(graph, request, plan, planned) && |Usable(graph, request)| <= 9
    requires Admissible(graph, request, route) && Progressive(request.availableInputs, route) && |route| >= 9
    ensures plan.totalCostUnits <= Cost(route)
  {
    AdmissibleIsUsable(graph, request, route);
    AdmissibleIsUsable(graph, request, planned);
    ProgressiveLength(request.availableInputs, route);
    SubsetCount(Used(route), Usable(graph, request));
    ProgressiveCost(request.availableInputs, route);
    ProgressiveCost(request.availableInputs, planned);
    SumMonotone(Used(planned), Used(route));
  }

  /** With at most nine usable contracts every resolved plan is the cheapest, although routes may be cut. */
  lemma NineContractsVerdict(graph: Graph, request: Request, plan: Plan)
    requires Delivered(graph, request, plan) && plan.fullyResolved && |Usable(graph, request)| <= 9
    ensures Cheapest(graph, request, plan)
  {
    hide CheapestBelow, BoundedByStates;
    var planned :| PlanFollows(graph, request, plan, planned);
    forall route |
      && Admissible(graph, request, route) && Progressive(request.availableInputs, route)
      && Cost(route) < plan.totalCostUnits
      ensures |route| <= MAX_GRAPH_DEPTH
    {
      if |route| >= 9 { NineStepsAreDear(graph, request, plan, planned, route); }
    }
    hide Delivered;
    ResolvedIsCheapest(graph, request, plan);
  }

  // ---- By the number of usable contracts: completeness ----

  /** Some affordable admissible route, of any length, reaches the outputs. */
  ghost predicate Served(graph: Graph, request: Request) {
    exists route :: Admissible(graph, request, route) && Cost(route) <= request.maximumCostUnits
                    && Reaches(request, route)
  }

  /** Some plan the planner could return resolves the request. */
  ghost predicate Resolvable(graph: Graph, request: Request) {
    exists plan :: SoundPlan(graph, request, plan) && plan.fullyResolved
  }

  /** Leaving out the steps that add nothing. */
  lemma {:induction false} Progressing(graph: Graph, request: Request,
                                       route: seq<Contract>) returns (shorter: seq<Contract>)
    requires Admissible(graph, request, route)
    ensures Admissible(graph, request, shorter) && Progressive(request.availableInputs, shorter)
    ensures Cost(shorter) <= Cost(route) && |shorter| <= |route|
    ensures AvailableAfter(request.availableInputs, shorter) == AvailableAfter(request.availableInputs, route)
  {
    if route == [] {
      shorter := [];
    } else {
      var before, c := route[..|route| - 1], route[|route| - 1];
      shorter := Progressing(graph, request, before);
      if !(Outputs(c) <= AvailableAfter(request.availableInputs, shorter)) {
        Extend(graph, request, shorter, c);
        shorter := shorter + [c];
      }
    }
  }

  lemma {:induction false} ProgressiveDistinct(inputs: set<string>, route: seq<Contract>, i: nat, j: nat)
    requires Progressive(inputs, route) && i < j < |route|
    ensures route[i] != route[j]
  {
    var before, c := route[..|route| - 1], route[|route| - 1];
    if j < |route| - 1 {
      ProgressiveDistinct(inputs, before, i, j);
    } else {
      AvailableIsPool(inputs, before);
      assert before[i] in Used(before);
    }
  }

  /** A progressing route within the cut is a plan. */
  lemma ShortRouteResolves(graph: Graph, request: Request, route: seq<Contract>)
    requires GoodContracts(graph) && Admissible(graph, request, route) && Progressive(request.availableInputs, route)
    requires Cost(route) <= request.maximumCostUnits && Reaches(request, route) && |route| <= MAX_GRAPH_DEPTH
    ensures Resolvable(graph, request)
  {
    var available := AvailableAfter(request.availableInputs, route);
    var plan := Plan(SEMANTIC_PLAN_SPEC, graph.digest, Names(route), Ascending(request.requiredOutputs * available),
                     Ascending(request.requiredOutputs - available), Cost(route), true, 0);
    EmptyDifference(request.requiredOutputs, available);
    AdmissibleIsUsable(graph, request, route);
    forall i, j | 0 <= i < j < |route| ensures Names(route)[i] != Names(route)[j] {
      ProgressiveDistinct(request.availableInputs, route, i, j);
      assert route[i] in Used(route) && route[j] in Used(route);
      if route[i].capabilityId == route[j].capabilityId { SameId(graph, route[i], route[j]); }
    }
    assert PlanFollows(graph, request, plan, route);
    assert SoundPlan(graph, request, plan);
  }

  /** With at most eight usable contracts every served request can be resolved. */
  lemma EightContractsSuffice(graph: Graph, request: Request)
    requires GoodContracts(graph) && |Usable(graph, request)| <= MAX_GRAPH_DEPTH && Served(graph, request)
    ensures Resolvable(graph, request)
  {
    var route :| Admissible(graph, request, route) && Cost(route) <= request.maximumCostUnits
                 && Reaches(request, route);
    var shorter := Progressing(graph, request, route);
    FewContractsAreShallow(graph, request);
    ShortRouteResolves(graph, request, shorter);
  }
}
