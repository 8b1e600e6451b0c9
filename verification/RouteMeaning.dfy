/** What routes mean in terms of contracts and semantic types alone: which contracts they may use, in which
    order, and what they make available. */
module RouteMeaning {
  import opened Ordering
  import opened Capabilities
  import opened Composition

  /** `item` is an input or an output of one of the first `n` steps. */
  predicate Provided(inputs: set<string>, route: seq<Contract>, n: nat, item: string)
    requires n <= |route|
  {
    item in inputs || exists j :: 0 <= j < n && item in route[j].produces
  }

  predicate WithinClass(d: DataClass, maximum: DataClass) {
    match maximum
    case Public => d.Public?
    case Internal => d.Public? || d.Internal?
    case Personal => !d.Sensitive?
    case Sensitive => true
  }

  predicate WithinEffect(effect: Effect, maximum: Effect) {
    match maximum
    case ReadOnly => effect.ReadOnly?
    case ReversibleWrite => effect.ReadOnly? || effect.ReversibleWrite?
    case IrreversibleWrite => !effect.ExternalSideEffect?
    case ExternalSideEffect => true
  }

  /** The contract may be used for the request: its preconditions hold, its data and its effect stay
      within the request's maxima, and it works offline if that is asked for. */
  ghost predicate PassesFilters(request: Request, c: Contract) {
    && (forall item :: item in c.preconditions ==> item in request.satisfiedPreconditions)
    && (forall d :: d in c.dataClasses ==> WithinClass(d, request.maximumDataClass))
    && WithinEffect(c.effect, request.maximumEffect)
    && (request.offlineOnly ==> c.offlineAvailable)
  }

  /** Every step is a contract of the graph that passes the filters and needs only inputs and outputs of
      earlier steps. */
  ghost predicate Executable(graph: Graph, request: Request, route: seq<Contract>) {
    forall i :: 0 <= i < |route| ==>
      && route[i] in graph.contracts
      && PassesFilters(request, route[i])
      && forall item :: item in route[i].needs ==> Provided(request.availableInputs, route, i, item)
  }

  /** Every step produces something that is neither an input nor produced earlier. */
  ghost predicate AddsEachTime(inputs: set<string>, route: seq<Contract>) {
    forall i :: 0 <= i < |route| ==> Adds(inputs, route, i)
  }

  ghost predicate Adds(inputs: set<string>, route: seq<Contract>, i: nat)
    requires i < |route|
  {
    exists item :: item in route[i].produces && !Provided(inputs, route, i, item)
  }

  function Sum(route: seq<Contract>): nat {
    if route == [] then 0 else route[0].costUnits + Sum(route[1..])
  }

  // ---- Routes ----

  lemma PermittedIff(request: Request, c: Contract)
    ensures Permitted(request, c) <==> PassesFilters(request, c)
  {
    assert forall d: DataClass, m: DataClass :: WithinClass(d, m) <==> d.Rank() <= m.Rank();
  }

  lemma {:induction false} AvailableIff(inputs: set<string>, route: seq<Contract>, n: nat, item: string)
    requires n <= |route|
    ensures item in AvailableAfter(inputs, route[..n]) <==> Provided(inputs, route, n, item)
  {
    if n > 0 {
      assert route[..n][..n - 1] == route[..n - 1];
      AvailableIff(inputs, route, n - 1, item);
    }
  }

  lemma AvailableAtEnd(inputs: set<string>, route: seq<Contract>)
    ensures forall item :: item in AvailableAfter(inputs, route) <==> Provided(inputs, route, |route|, item)
  {
    assert route[..|route|] == route;
    forall item ensures item in AvailableAfter(inputs, route) <==> Provided(inputs, route, |route|, item) {
      AvailableIff(inputs, route, |route|, item);
    }
  }

  lemma NeedsIff(inputs: set<string>, route: seq<Contract>, n: nat, c: Contract)
    requires n <= |route|
    ensures NeedsMet(c, AvailableAfter(inputs, route[..n]))
            <==> forall item :: item in c.needs ==> Provided(inputs, route, n, item)
  {
    forall item ensures item in AvailableAfter(inputs, route[..n]) <==> Provided(inputs, route, n, item) {
      AvailableIff(inputs, route, n, item);
    }
  }

  lemma AddsIff(inputs: set<string>, route: seq<Contract>, n: nat, c: Contract)
    requires n < |route| && c == route[n]
    ensures !(Outputs(c) <= AvailableAfter(inputs, route[..n])) <==> Adds(inputs, route, n)
  {
    forall item ensures item in AvailableAfter(inputs, route[..n]) <==> Provided(inputs, route, n, item) {
      AvailableIff(inputs, route, n, item);
    }
    assert forall item :: item in Outputs(c) <==> item in c.produces;
  }

  /** The earlier steps of a route have what they need iff they have it in the route. */
  lemma ProvidedBefore(inputs: set<string>, route: seq<Contract>, i: nat, item: string)
    requires i < |route|
    ensures Provided(inputs, route[..|route| - 1], i, item) <==> Provided(inputs, route, i, item)
  {
  }

  /** A route is admissible iff it can be executed step by step. */
  lemma {:induction false} AdmissibleIff(graph: Graph, request: Request, route: seq<Contract>)
    ensures Admissible(graph, request, route) <==> Executable(graph, request, route)
  {
    if route != [] {
      var before, c := route[..|route| - 1], route[|route| - 1];
      AdmissibleIff(graph, request, before);
      PermittedIff(request, c);
      NeedsIff(request.availableInputs, route, |route| - 1, c);
      forall i, item | 0 <= i < |before|
        ensures Provided(request.availableInputs, before, i, item)
                <==> Provided(request.availableInputs, route, i, item)
      {
        ProvidedBefore(request.availableInputs, route, i, item);
      }
      hide Permitted, PassesFilters, Provided, NeedsMet, AvailableAfter;
      assert forall i :: 0 <= i < |before| ==> before[i] == route[i];
    }
  }

  lemma {:induction false} ProgressiveIff(inputs: set<string>, route: seq<Contract>)
    ensures Progressive(inputs, route) <==> AddsEachTime(inputs, route)
  {
    if route != [] {
      var before, c := route[..|route| - 1], route[|route| - 1];
      ProgressiveIff(inputs, before);
      AddsIff(inputs, route, |route| - 1, c);
      forall i | 0 <= i < |before| ensures Adds(inputs, before, i) <==> Adds(inputs, route, i) {
        assert forall item :: Provided(inputs, before, i, item) <==> Provided(inputs, route, i, item);
      }
    }
  }

  lemma {:induction false} SumOfLast(route: seq<Contract>)
    requires route != []
    ensures Sum(route) == Sum(route[..|route| - 1]) + route[|route| - 1].costUnits
  {
    if |route| > 1 {
      SumOfLast(route[1..]);
      assert route[1..][..|route| - 2] == route[..|route| - 1][1..];
    }
  }

  lemma {:induction false} CostIsSum(route: seq<Contract>)
    ensures Cost(route) == Sum(route)
  {
    if route != [] {
      CostIsSum(route[..|route| - 1]);
      SumOfLast(route);
    }
  }

  // ---- The route behind a plan ----

  /** The required outputs are divided into those that the route provides and those that it does not, each
      listed in ascending order, and the plan is fully resolved iff the route provides them all. */
  ghost predicate OutputsReported(request: Request, plan: Plan, route: seq<Contract>) {
    && (forall item :: item in plan.availableOutputs <==>
          item in request.requiredOutputs && Provided(request.availableInputs, route, |route|, item))
    && (forall item :: item in plan.missingOutputs <==>
          item in request.requiredOutputs && !Provided(request.availableInputs, route, |route|, item))
    && StrictlyAscending(plan.availableOutputs) && StrictlyAscending(plan.missingOutputs)
    && (plan.fullyResolved <==>
          forall item :: item in request.requiredOutputs ==>
                           Provided(request.availableInputs, route, |route|, item))
  }

  lemma Reported(request: Request, plan: Plan, route: seq<Contract>)
    requires var available := AvailableAfter(request.availableInputs, route);
             && plan.availableOutputs == Ascending(request.requiredOutputs * available)
             && plan.missingOutputs == Ascending(request.requiredOutputs - available)
    requires plan.fullyResolved <==> plan.missingOutputs == []
    ensures OutputsReported(request, plan, route)
  {
    hide AvailableAfter, Provided;
    AvailableAtEnd(request.availableInputs, route);
    var available := AvailableAfter(request.availableInputs, route);
    AscendingSorted(request.requiredOutputs * available);
    AscendingSorted(request.requiredOutputs - available);
    EmptyDifference(request.requiredOutputs, available);
  }

  /** The route that a plan follows, written out. */
  lemma FollowedRoute(graph: Graph, request: Request, plan: Plan, route: seq<Contract>)
    requires PlanFollows(graph, request, plan, route) && (plan.fullyResolved <==> plan.missingOutputs == [])
    ensures |route| == |plan.capabilityPath|
    ensures forall i :: 0 <= i < |route| ==> route[i].capabilityId == plan.capabilityPath[i]
    ensures Executable(graph, request, route) && AddsEachTime(request.availableInputs, route)
    ensures plan.totalCostUnits == Sum(route) <= request.maximumCostUnits
    ensures OutputsReported(request, plan, route)
  {
    hide Admissible, Progressive, Executable, AddsEachTime, OutputsReported, AvailableAfter, Cost, Sum;
    AdmissibleIff(graph, request, route);
    ProgressiveIff(request.availableInputs, route);
    CostIsSum(route);
    Reported(request, plan, route);
  }
}
