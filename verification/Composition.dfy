/** Composition graphs, requests, plans and the reference notion of a capability route. */
module Composition {
  import opened Wrappers
  import opened Ordering
  import opened Capabilities
  import opened MachineNumbers
  import Sorting

  const COMPOSITION_GRAPH_SPEC := "nimora.capability-composition-graph/1"
  const SEMANTIC_PLAN_SPEC := "nimora.capability-semantic-plan/1"
  const MAX_CAPABILITIES := 256
  const MAX_GRAPH_DEPTH := 8
  const MAX_EXPANDED_STATES := 2048
  const MAX_SEMANTIC_REQUEST_ITEMS := 32

  /** A digest is the content it was computed from: SHA-256 over canonical JSON is taken to be
      injective. `Unrelated` stands for any text that is the digest of no contract list. */
  datatype Digest = Sha256(contracts: seq<Contract>) | Unrelated(text: string)

  datatype CompositionError = InvalidGraph | InvalidRequest

  datatype Graph = Graph(spec: string, digest: Digest, contracts: seq<Contract>)

  datatype Request = Request(
    availableInputs: set<string>,
    requiredOutputs: set<string>,
    satisfiedPreconditions: set<string>,
    maximumDataClass: DataClass,
    maximumEffect: Effect,
    maximumCostUnits: u32,
    offlineOnly: bool)

  datatype Plan = Plan(
    spec: string,
    graphDigest: Digest,
    capabilityPath: seq<string>,
    availableOutputs: seq<string>,
    missingOutputs: seq<string>,
    totalCostUnits: u32,
    fullyResolved: bool,
    expandedStates: nat)

  predicate IdAtMost(left: Contract, right: Contract) {
    AtMost(left.capabilityId, right.capabilityId)
  }

  predicate AdjacentDuplicate(contracts: seq<Contract>) {
    exists i, j :: 0 <= i < |contracts| && 0 <= j < |contracts| && j == i + 1
                   && contracts[i].capabilityId == contracts[j].capabilityId
  }

  /** `CapabilityCompositionGraph::new`. */
  function BuildGraph(contracts: seq<Contract>): (r: Result<Graph, CompositionError>) {
    var sorted := Sorting.Sort(IdAtMost, contracts);
    if sorted == [] || |sorted| > MAX_CAPABILITIES
       || AdjacentDuplicate(sorted)
       || (exists i :: 0 <= i < |sorted| && !ValidContract(sorted[i]))
    then Failure(InvalidGraph)
    else Success(Graph(COMPOSITION_GRAPH_SPEC, Sha256(sorted), sorted))
  }

  /** `validate_graph`: the graph is rebuilt and only the digests are compared. */
  predicate ValidGraph(graph: Graph) {
    && graph.spec == COMPOSITION_GRAPH_SPEC
    && BuildGraph(graph.contracts).Success?
    && BuildGraph(graph.contracts).value.digest == graph.digest
  }

  predicate ValidRequest(request: Request) {
    && request.requiredOutputs != {}
    && |request.availableInputs| <= MAX_SEMANTIC_REQUEST_ITEMS
    && |request.requiredOutputs| <= MAX_SEMANTIC_REQUEST_ITEMS
    && |request.satisfiedPreconditions| <= MAX_SEMANTIC_REQUEST_ITEMS
    && request.maximumCostUnits != 0
    && (forall item :: item in request.availableInputs + request.requiredOutputs ==> ValidSemanticTypeId(item))
    && (forall item :: item in request.satisfiedPreconditions ==> ValidPreconditionId(item))
  }

  lemma IdOrder()
    ensures Sorting.TotalPreorder(IdAtMost)
  {
    forall a: Contract, b: Contract ensures IdAtMost(a, b) || IdAtMost(b, a) {
      LessTotal(a.capabilityId, b.capabilityId);
    }
    forall a: Contract, b: Contract, c: Contract | IdAtMost(a, b) && IdAtMost(b, c) ensures IdAtMost(a, c) {
      if Less(a.capabilityId, b.capabilityId) && Less(b.capabilityId, c.capabilityId) {
        LessTransitive(a.capabilityId, b.capabilityId, c.capabilityId);
      }
    }
  }

  lemma {:induction false} StrictlySortedOnce(s: seq<Contract>, i: nat, j: nat)
    requires Sorting.Sorted(IdAtMost, s)
    requires !AdjacentDuplicate(s)
    requires i < j < |s|
    ensures s[i].capabilityId != s[j].capabilityId
  {
    var first, next, last := s[i].capabilityId, s[i + 1].capabilityId, s[j].capabilityId;
    assert IdAtMost(s[i], s[i + 1]);
    if next != last {
      assert IdAtMost(s[i + 1], s[j]);
      LessTransitive(first, next, last);
    }
    LessAsymmetric(first, last);
  }

  /** What validation guarantees about the contracts in the order the graph lists them. */
  ghost predicate Distinct(contracts: seq<Contract>) {
    forall i, j :: 0 <= i < j < |contracts| ==> contracts[i].capabilityId != contracts[j].capabilityId
  }

  lemma ValidGraphContracts(graph: Graph)
    requires ValidGraph(graph)
    ensures Distinct(graph.contracts)
    ensures forall c :: c in graph.contracts ==> ValidContract(c)
    ensures 1 <= |graph.contracts| <= MAX_CAPABILITIES
  {
    var s := graph.contracts;
    var sorted := Sorting.Sort(IdAtMost, s);
    IdOrder();
    Sorting.SortSorted(IdAtMost, s);
    Sorting.SameElements(s, sorted);
    forall i, j | 0 <= i < j < |sorted| ensures sorted[i].capabilityId != sorted[j].capabilityId {
      StrictlySortedOnce(sorted, i, j);
    }
    Sorting.DistinctRearranged((c: Contract) => c.capabilityId, sorted, s);
    forall c | c in s ensures ValidContract(c) {
      assert c in sorted;
    }
  }

  /** Contracts listed in strictly ascending order are accepted as they stand. */
  lemma AscendingGraphIsValid(contracts: seq<Contract>)
    requires 1 <= |contracts| <= MAX_CAPABILITIES
    requires forall i :: 0 <= i < |contracts| ==> ValidContract(contracts[i])
    requires forall i, j :: 0 <= i < j < |contracts| ==> Less(contracts[i].capabilityId, contracts[j].capabilityId)
    ensures ValidGraph(Graph(COMPOSITION_GRAPH_SPEC, Sha256(contracts), contracts))
  {
    forall i, j | 0 <= i < j < |contracts| ensures contracts[i].capabilityId != contracts[j].capabilityId {
      LessAsymmetric(contracts[i].capabilityId, contracts[j].capabilityId);
    }
    Sorting.SortFixed(IdAtMost, contracts);
  }

  /** The request's filters, which do not depend on how far a route has come. */
  predicate Permitted(request: Request, c: Contract) {
    && (forall item :: item in c.preconditions ==> item in request.satisfiedPreconditions)
    && (forall d :: d in c.dataClasses ==> d.Rank() <= request.maximumDataClass.Rank())
    && c.effect.Rank() <= request.maximumEffect.Rank()
    && (request.offlineOnly ==> c.offlineAvailable)
  }

  function Outputs(c: Contract): set<string> { set x | x in c.produces }

  predicate NeedsMet(c: Contract, available: set<string>) {
    forall item :: item in c.needs ==> item in available
  }

  // ---- Routes: the reference notion, free of any search bookkeeping ----

  ghost function AvailableAfter(inputs: set<string>, route: seq<Contract>): set<string> {
    if route == [] then inputs
    else AvailableAfter(inputs, route[..|route| - 1]) + Outputs(route[|route| - 1])
  }

  ghost function Cost(route: seq<Contract>): nat {
    if route == [] then 0 else Cost(route[..|route| - 1]) + route[|route| - 1].costUnits
  }

  /** Every step is a permitted contract of the graph whose needs are met when it is taken.
      Any length is allowed, and so are repeated contracts. */
  ghost predicate Admissible(graph: Graph, request: Request, route: seq<Contract>) {
    route != [] ==>
      var before, c := route[..|route| - 1], route[|route| - 1];
      && Admissible(graph, request, before)
      && c in graph.contracts
      && Permitted(request, c)
      && NeedsMet(c, AvailableAfter(request.availableInputs, before))
  }

  /** Every step makes something new available. */
  ghost predicate Progressive(inputs: set<string>, route: seq<Contract>) {
    route != [] ==>
      var before, c := route[..|route| - 1], route[|route| - 1];
      Progressive(inputs, before) && !(Outputs(c) <= AvailableAfter(inputs, before))
  }

  ghost predicate Reaches(request: Request, route: seq<Contract>) {
    request.requiredOutputs <= AvailableAfter(request.availableInputs, route)
  }

  function Names(route: seq<Contract>): (r: seq<string>)
    ensures |r| == |route| && forall i :: 0 <= i < |r| ==> r[i] == route[i].capabilityId
  {
    seq(|route|, i requires 0 <= i < |route| => route[i].capabilityId)
  }

  /** No affordable route that costs less than `limit` and keeps making progress is longer than the
      depth cut. */
  ghost predicate ShallowBelow(graph: Graph, request: Request, limit: nat) {
    forall route ::
      (&& Admissible(graph, request, route)
       && Progressive(request.availableInputs, route)
       && Cost(route) <= request.maximumCostUnits
       && Cost(route) < limit)
      ==> |route| <= MAX_GRAPH_DEPTH
  }

  /** No affordable route that keeps making progress is longer than the depth cut. */
  ghost predicate Shallow(graph: Graph, request: Request) { ShallowBelow(graph, request, request.maximumCostUnits + 1) }

  ghost function GreatestShallow(graph: Graph, request: Request, n: nat): (limit: nat)
    ensures limit <= n && ShallowBelow(graph, request, limit)
    ensures forall m: nat :: m <= n && ShallowBelow(graph, request, m) ==> m <= limit
  {
    if n == 0 || ShallowBelow(graph, request, n) then n else GreatestShallow(graph, request, n - 1)
  }

  /** The cost up to which the depth cut hides nothing: that of the cheapest affordable route that
      makes progress in more steps than the cut allows, or just beyond the budget if there is none. */
  ghost function DepthLimit(graph: Graph, request: Request): nat {
    GreatestShallow(graph, request, request.maximumCostUnits + 1)
  }

  ghost function Usable(graph: Graph, request: Request): set<Contract> {
    set c | c in graph.contracts && Permitted(request, c)
  }

  /** The contracts that add something to what is available. */
  ghost function Steps(graph: Graph, request: Request, available: set<string>): set<Contract> {
    set c | c in Usable(graph, request) && NeedsMet(c, available) && !(Outputs(c) <= available)
  }

  function Covered(available: set<string>, request: Request): nat {
    |available * request.requiredOutputs|
  }

  // ---- What a plan promises ----

  ghost predicate PlanFollows(graph: Graph, request: Request, plan: Plan, route: seq<Contract>) {
    var available := AvailableAfter(request.availableInputs, route);
    && Names(route) == plan.capabilityPath
    && Admissible(graph, request, route)
    && Progressive(request.availableInputs, route)
    && plan.totalCostUnits == Cost(route) <= request.maximumCostUnits
    && plan.availableOutputs == Ascending(request.requiredOutputs * available)
    && plan.missingOutputs == Ascending(request.requiredOutputs - available)
  }

  /** The plan names a real, affordable route of at most eight distinct capabilities and reports
      exactly what that route makes available and what it leaves missing. */
  ghost predicate SoundPlan(graph: Graph, request: Request, plan: Plan) {
    && plan.spec == SEMANTIC_PLAN_SPEC
    && plan.graphDigest == graph.digest
    && |plan.capabilityPath| <= MAX_GRAPH_DEPTH
    && (forall i, j :: 0 <= i < j < |plan.capabilityPath| ==> plan.capabilityPath[i] != plan.capabilityPath[j])
    && (plan.fullyResolved <==> plan.missingOutputs == [])
    && exists route :: PlanFollows(graph, request, plan, route)
  }

  /** No admissible route, however long, reaches every required output more cheaply. */
  ghost predicate Cheapest(graph: Graph, request: Request, plan: Plan) {
    forall route :: Admissible(graph, request, route) && Reaches(request, route)
      ==> plan.totalCostUnits <= Cost(route)
  }

  /** No admissible route below `limit` reaches every required output more cheaply. */
  ghost predicate CheapestBelow(graph: Graph, request: Request, plan: Plan, limit: nat) {
    forall route :: Admissible(graph, request, route) && Reaches(request, route) && Cost(route) < limit
      ==> plan.totalCostUnits <= Cost(route)
  }

  /** No route below `limit` reaches every required output, none covers more of them than the plan
      does, and none covers as many for less. */
  ghost predicate ExhaustiveBelow(graph: Graph, request: Request, plan: Plan, limit: nat) {
    forall route :: Admissible(graph, request, route) && Cost(route) < limit ==>
      && !Reaches(request, route)
      && var reached := Covered(AvailableAfter(request.availableInputs, route), request);
         reached < |plan.availableOutputs|
         || (reached == |plan.availableOutputs| && plan.totalCostUnits <= Cost(route))
  }

  /** The same for every affordable route. */
  ghost predicate Exhaustive(graph: Graph, request: Request, plan: Plan) {
    ExhaustiveBelow(graph, request, plan, request.maximumCostUnits + 1)
  }

  lemma EmptyDifference(required: set<string>, available: set<string>)
    ensures Ascending(required - available) == [] <==> required <= available
  {
    assert |Ascending(required - available)| == |required - available|;
    if required <= available { assert required - available == {}; }
    if required - available == {} {
      forall x | x in required ensures x in available { assert x in available || x in required - available; }
    }
  }
}
