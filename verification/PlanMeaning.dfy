/** What plans mean in terms of contracts and semantic types alone, which contracts are sure to be used, and
    which graphs and requests are answered at all. */
module PlanMeaning {
  import opened Ordering
  import opened Capabilities
  import opened Composition
  import opened RouteMeaning
  import opened Planner
  import opened PlannerVerdicts
  import Sorting

  // ---- Plans ----

  /** What a delivered plan amounts to: behind its path is a route of the graph's contracts, each of which
      passes the request's filters, needs only what is there by then and adds something; the costs add
      up to the total within the budget; and the outputs are divided into those that the route provides
      and those that it does not. */
  lemma PlanIsExecutable(graph: Graph, request: Request, plan: Plan) returns (route: seq<Contract>)
    requires Delivered(graph, request, plan)
    ensures |route| == |plan.capabilityPath| <= 8
    ensures forall i :: 0 <= i < |route| ==> route[i].capabilityId == plan.capabilityPath[i]
    ensures forall i :: 0 <= i < |route| ==> route[i] in graph.contracts && PassesFilters(request, route[i])
    ensures forall i, item :: 0 <= i < |route| && item in route[i].needs ==>
              Provided(request.availableInputs, route, i, item)
    ensures forall i :: 0 <= i < |route| ==> Adds(request.availableInputs, route, i)
    ensures plan.totalCostUnits == Sum(route) <= request.maximumCostUnits
    ensures OutputsReported(request, plan, route)
    ensures plan.spec == "nimora.capability-semantic-plan/1" && plan.graphDigest == graph.digest
  {
    hide CheapestBelow, ExhaustiveBelow, BoundedByStates, NoFirstStepSuffices, DepthLimit, PlanFollows, PassesFilters,
         Adds, Provided, OutputsReported;
    route :| PlanFollows(graph, request, plan, route);
    FollowedRoute(graph, request, plan, route);
  }

  /** The contract that the graph lists under a name of the path satisfies the request's conditions. */
  lemma PlannedContractsPass(graph: Graph, request: Request, plan: Plan, c: Contract)
    requires ValidGraph(graph) && Delivered(graph, request, plan)
    requires c in graph.contracts && c.capabilityId in plan.capabilityPath
    ensures forall item :: item in c.preconditions ==> item in request.satisfiedPreconditions
    ensures request.maximumDataClass.Public? ==> forall d :: d in c.dataClasses ==> d.Public?
    ensures request.maximumDataClass.Internal? ==> forall d :: d in c.dataClasses ==> d.Public? || d.Internal?
    ensures request.maximumDataClass.Personal? ==> Sensitive !in c.dataClasses
    ensures request.maximumEffect.ReadOnly? ==> c.effect.ReadOnly?
    ensures request.maximumEffect.ReversibleWrite? ==> c.effect.ReadOnly? || c.effect.ReversibleWrite?
    ensures request.maximumEffect.IrreversibleWrite? ==> !c.effect.ExternalSideEffect?
    ensures request.offlineOnly ==> c.offlineAvailable
  {
    hide Delivered, ValidGraph;
    ValidGraphContracts(graph);
    NamedContractsPass(graph, request, plan);
  }

  // ---- Conversely: what is sure to be used ----

  /** Whoever can write down contracts that pass the filters, follow each other and cover the outputs
      within the budget has a request that is served. */
  lemma ExecutableRouteServes(graph: Graph, request: Request, route: seq<Contract>)
    requires Executable(graph, request, route) && Sum(route) <= request.maximumCostUnits
    requires forall item :: item in request.requiredOutputs ==>
                              Provided(request.availableInputs, route, |route|, item)
    ensures Served(graph, request)
  {
    AdmissibleIff(graph, request, route);
    CostIsSum(route);
    AvailableAtEnd(request.availableInputs, route);
    assert Reaches(request, route);
  }

  /** With at most eight contracts, some plan resolves it. */
  lemma ExecutableRouteResolves(graph: Graph, request: Request, route: seq<Contract>)
    requires ValidGraph(graph) && Executable(graph, request, route) && |route| <= 8
    requires Sum(route) <= request.maximumCostUnits
    requires forall item :: item in request.requiredOutputs ==>
                              Provided(request.availableInputs, route, |route|, item)
    ensures Resolvable(graph, request)
  {
    AdmissibleIff(graph, request, route);
    CostIsSum(route);
    AvailableAtEnd(request.availableInputs, route);
    ValidGraphContracts(graph);
    var shorter := Progressing(graph, request, route);
    hide Admissible, Progressive, AvailableAfter;
    ShortRouteResolves(graph, request, shorter);
  }

  /** One contract that passes the filters, needs only inputs, stays within the budget and covers the
      outputs resolves the request; and the planner finds such a plan unless it stops at 2048 expansions. */
  lemma OneContractResolves(graph: Graph, request: Request, c: Contract, plan: Plan)
    requires ValidGraph(graph) && c in graph.contracts
    requires forall item :: item in c.preconditions ==> item in request.satisfiedPreconditions
    requires forall d :: d in c.dataClasses ==> WithinClass(d, request.maximumDataClass)
    requires WithinEffect(c.effect, request.maximumEffect)
    requires request.offlineOnly ==> c.offlineAvailable
    requires forall item :: item in c.needs ==> item in request.availableInputs
    requires c.costUnits <= request.maximumCostUnits
    requires forall item :: item in request.requiredOutputs ==> item in request.availableInputs || item in c.produces
    ensures Resolvable(graph, request)
    ensures Delivered(graph, request, plan) && plan.expandedStates < 2048 ==> plan.fullyResolved
  {
    OneStep(graph, request, c);
    PermittedIff(request, c);
    assert request.requiredOutputs <= request.availableInputs + Outputs(c);
    hide ValidGraph, Resolvable, SoundPlan, Executable, Provided, CheapestBelow, ExhaustiveBelow, BoundedByStates,
         DepthLimit, PassesFilters, Permitted;
    ExecutableRouteResolves(graph, request, [c]);
  }

  lemma OneStep(graph: Graph, request: Request, c: Contract)
    requires c in graph.contracts && PassesFilters(request, c)
    requires forall item :: item in c.needs ==> item in request.availableInputs
    ensures Executable(graph, request, [c]) && Sum([c]) == c.costUnits
    ensures forall item :: item in request.availableInputs || item in c.produces ==>
              Provided(request.availableInputs, [c], 1, item)
  {
    hide PassesFilters;
    assert Sum([c]) == c.costUnits + Sum([]);
    assert [c][0] == c;
  }

  // ---- Optimality over written-out routes ----

  /** A plan that is the cheapest is no dearer than any contracts that can be executed one after the other
      and provide all required outputs. */
  lemma CheapestOfExecutable(graph: Graph, request: Request, plan: Plan, route: seq<Contract>)
    requires Cheapest(graph, request, plan) && Executable(graph, request, route)
    requires forall item :: item in request.requiredOutputs ==>
                              Provided(request.availableInputs, route, |route|, item)
    ensures plan.totalCostUnits <= Sum(route)
  {
    AdmissibleIff(graph, request, route);
    CostIsSum(route);
    AvailableAtEnd(request.availableInputs, route);
    assert Reaches(request, route);
  }

  // ---- What the planner answers at all ----

  /** A graph is accepted exactly if it lists 1 to 256 valid contracts with distinct identifiers, in any
      order, and carries the digest of the same contracts in ascending order of identifier. */
  lemma GraphAcceptedIff(graph: Graph, sorted: seq<Contract>)
    requires multiset(sorted) == multiset(graph.contracts)
    requires forall i, j :: 0 <= i < j < |sorted| ==> AtMost(sorted[i].capabilityId, sorted[j].capabilityId)
    ensures ValidGraph(graph) <==>
              && graph.spec == "nimora.capability-composition-graph/1"
              && 1 <= |graph.contracts| <= 256
              && (forall c :: c in graph.contracts ==> ValidContract(c))
              && (forall i, j :: 0 <= i < j < |graph.contracts| ==>
                    graph.contracts[i].capabilityId != graph.contracts[j].capabilityId)
              && graph.digest == Sha256(sorted)
  {
    hide ValidContract;
    var s := graph.contracts;
    var own := Sorting.Sort(IdAtMost, s);
    IdOrder();
    Sorting.SortSorted(IdAtMost, s);
    Sorting.SameElements(s, own);
    if ValidGraph(graph) { ValidGraphContracts(graph); }
    if forall i, j :: 0 <= i < j < |s| ==> s[i].capabilityId != s[j].capabilityId {
      SameArrangement(s, own, sorted);
      Sorting.DistinctRearranged((c: Contract) => c.capabilityId, s, own);
    }
  }

  /** Contracts with distinct identifiers have one arrangement in order of identifier. */
  lemma SameArrangement(s: seq<Contract>, a: seq<Contract>, b: seq<Contract>)
    requires forall i, j :: 0 <= i < j < |s| ==> s[i].capabilityId != s[j].capabilityId
    requires multiset(a) == multiset(s) && multiset(b) == multiset(s)
    requires Sorting.Sorted(IdAtMost, a)
    requires forall i, j :: 0 <= i < j < |b| ==> AtMost(b[i].capabilityId, b[j].capabilityId)
    ensures a == b
  {
    IdOrder();
    Sorting.SameElements(s, a);
    forall x, y | x in a && y in a && IdAtMost(x, y) && IdAtMost(y, x) ensures x == y {
      if x.capabilityId != y.capabilityId { LessAsymmetric(x.capabilityId, y.capabilityId); }
      var i :| 0 <= i < |s| && s[i] == x;
      var j :| 0 <= j < |s| && s[j] == y;
    }
    Sorting.SortedUnique(IdAtMost, a, b);
  }

  /** A request is accepted exactly if it asks for 1 to 32 outputs, names at most 32 inputs and 32
      preconditions, all of them identifiers of at least two segments, and has a budget. */
  lemma RequestAcceptedIff(request: Request)
    ensures ValidRequest(request) <==>
              && 1 <= |request.requiredOutputs| <= 32
              && |request.availableInputs| <= 32 && |request.satisfiedPreconditions| <= 32
              && (forall item ::
                    (item in request.requiredOutputs || item in request.availableInputs
                     || item in request.satisfiedPreconditions) ==> ValidNamespacedId(item, 2))
              && request.maximumCostUnits >= 1
  {
    hide ValidNamespacedId;
    assert request.requiredOutputs != {} ==> |request.requiredOutputs| >= 1;
    assert forall item :: item in request.availableInputs + request.requiredOutputs
             <==> item in request.availableInputs || item in request.requiredOutputs;
  }
}
