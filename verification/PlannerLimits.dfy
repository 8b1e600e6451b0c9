/** Where the depth cut bites: a chain of nine unit-cost steps from `t.0` to `t.9`, with or without a
    shortcut that goes there directly for 50, among any number of contracts that add nothing. */
module PlannerLimits {
  import opened Ordering
  import opened Capabilities
  import opened FiniteSets
  import opened MachineNumbers
  import opened Text
  import opened Composition
  import opened RouteFacts
  import opened SubsetWeight
  import opened Planner
  import opened PlannerVerdicts

  const MARKS := "0123456789d"
  const LETTERS := "abcdefghijklmnop"

  function TypeId(i: nat): string
    requires i <= 9
  {
    "t." + [MARKS[i]]
  }

  /** Step `i` of the chain for `1 <= i <= 9`; step 10 is the shortcut. */
  function Link(i: nat): Contract
    requires 1 <= i <= 10
  {
    Contract(CONTRACT_SPEC, "c.c." + [MARKS[i]],
             [TypeId(if i == 10 then 0 else i - 1)], [TypeId(if i == 10 then 9 else i)],
             [], [], ReadOnly, if i == 10 then 50 else 1, true)
  }

  function PadMark(k: nat): string
    requires k < 256
  {
    [LETTERS[k / 16], LETTERS[k % 16]]
  }

  /** A contract that only offers what is there from the start. */
  function Pad(k: nat): Contract
    requires k < 256
  {
    Contract(CONTRACT_SPEC, "p.p." + PadMark(k), [], [TypeId(0)], [], [], ReadOnly, 1, true)
  }

  datatype Shape = Shape(shortcut: bool, padding: nat) {
    function Links(): nat { if shortcut then 10 else 9 }
    function Size(): nat { Links() + padding }
  }

  function ContractsOf(shape: Shape): (r: seq<Contract>)
    requires shape.Size() <= 256
    ensures |r| == shape.Size()
    ensures forall k :: 0 <= k < |r| ==> r[k] == if k < shape.Links() then Link(k + 1) else Pad(k - shape.Links())
  {
    seq(shape.Size(),
        k requires 0 <= k < shape.Size() => if k < shape.Links() then Link(k + 1) else Pad(k - shape.Links()))
  }

  function DeepGraph(shape: Shape): Graph
    requires shape.Size() <= 256
  {
    Graph(COMPOSITION_GRAPH_SPEC, Sha256(ContractsOf(shape)), ContractsOf(shape))
  }

  function DeepRequest(budget: u32): Request {
    Request({TypeId(0)}, {TypeId(9)}, {}, Sensitive, ExternalSideEffect, budget, false)
  }

  // ---- Graph and request are valid ----

  lemma {:induction false} LessBehind(p: string, a: string, b: string)
    requires Less(a, b)
    ensures Less(p + a, p + b)
  {
    if p == [] {
      assert p + a == a && p + b == b;
    } else {
      assert (p + a)[1..] == p[1..] + a && (p + b)[1..] == p[1..] + b;
      LessBehind(p[1..], a, b);
    }
  }

  lemma PadsAscend(j: nat, k: nat)
    requires j < k < 256
    ensures Less(Pad(j).capabilityId, Pad(k).capabilityId)
  {
    assert j / 16 < k / 16 || (j / 16 == k / 16 && j % 16 < k % 16);
    assert forall i, l :: 0 <= i < l < 16 ==> LETTERS[i] < LETTERS[l];
    assert PadMark(j)[1..] == [LETTERS[j % 16]] && PadMark(k)[1..] == [LETTERS[k % 16]];
    assert Less(PadMark(j), PadMark(k));
    LessBehind("p.p.", PadMark(j), PadMark(k));
  }

  lemma LinksAscend(i: nat, j: nat)
    requires 1 <= i < j <= 10
    ensures Less(Link(i).capabilityId, Link(j).capabilityId)
  {
    assert Less([MARKS[i]], [MARKS[j]]);
    LessBehind("c.c.", [MARKS[i]], [MARKS[j]]);
  }

  lemma ContractsAscend(shape: Shape, i: nat, j: nat)
    requires shape.Size() <= 256 && i < j < shape.Size()
    ensures Less(ContractsOf(shape)[i].capabilityId, ContractsOf(shape)[j].capabilityId)
  {
    if j < shape.Links() {
      LinksAscend(i + 1, j + 1);
    } else if i >= shape.Links() {
      PadsAscend(i - shape.Links(), j - shape.Links());
    }
  }

  lemma {:induction false} SplitSegment(s: string)
    requires '.' !in s
    ensures Split(s, '.') == [s]
  {
    if s != "" {
      SplitSegment(s[1..]);
      assert [s[0]] + s[1..] == s;
    }
  }

  lemma SplitBehind(segment: char, rest: string)
    requires segment != '.'
    ensures Split([segment, '.'] + rest, '.') == [[segment]] + Split(rest, '.')
  {
    var id := [segment, '.'] + rest;
    assert id[1..] == ['.'] + rest && id[1..][1..] == rest;
    assert Split(id[1..], '.') == [""] + Split(rest, '.');
    assert [segment] + "" == [segment];
  }

  lemma MarkedIdsValid(letter: char, mark: string)
    requires SegmentCharacter(letter) && ValidSegment(mark) && |mark| <= 2
    ensures ValidNamespacedId([letter, '.'] + mark, 2) && ValidNamespacedId([letter, '.', letter, '.'] + mark, 3)
  {
    SplitSegment(mark);
    SplitBehind(letter, mark);
    SplitBehind(letter, [letter, '.'] + mark);
    assert [letter, '.', letter, '.'] + mark == [letter, '.'] + ([letter, '.'] + mark);
  }

  lemma TypesValid(i: nat)
    requires i <= 9
    ensures ValidSemanticTypeId(TypeId(i))
  {
    MarkedIdsValid('t', [MARKS[i]]);
    assert "t." + [MARKS[i]] == ['t', '.'] + [MARKS[i]];
  }

  lemma LinkValid(i: nat)
    requires 1 <= i <= 10
    ensures ValidContract(Link(i))
  {
    MarkedIdsValid('c', [MARKS[i]]);
    assert "c.c." + [MARKS[i]] == ['c', '.', 'c', '.'] + [MARKS[i]];
    TypesValid(if i == 10 then 0 else i - 1);
    TypesValid(if i == 10 then 9 else i);
  }

  lemma PadValid(k: nat)
    requires k < 256
    ensures ValidContract(Pad(k))
  {
    MarkedIdsValid('p', PadMark(k));
    assert "p.p." + PadMark(k) == ['p', '.', 'p', '.'] + PadMark(k);
    TypesValid(0);
  }

  lemma DeepGraphIsValid(shape: Shape)
    requires shape.Size() <= 256
    ensures ValidGraph(DeepGraph(shape)) && GoodContracts(DeepGraph(shape))
  {
    hide ValidContract, Less, Link, Pad, ValidGraph;
    forall k | 0 <= k < shape.Size() ensures ValidContract(ContractsOf(shape)[k]) {
      if k < shape.Links() { LinkValid(k + 1); } else { PadValid(k - shape.Links()); }
    }
    forall i, j | 0 <= i < j < shape.Size()
      ensures Less(ContractsOf(shape)[i].capabilityId, ContractsOf(shape)[j].capabilityId)
    {
      ContractsAscend(shape, i, j);
    }
    AscendingGraphIsValid(ContractsOf(shape));
    ValidGraphContracts(DeepGraph(shape));
  }

  lemma DeepRequestIsValid(budget: u32)
    requires budget > 0
    ensures ValidRequest(DeepRequest(budget))
  {
    hide ValidNamespacedId, TypeId;
    TypesValid(0);
    TypesValid(9);
    assert forall item :: item in {TypeId(0)} + {TypeId(9)} ==> item == TypeId(0) || item == TypeId(9);
  }

  lemma {:induction false} DistinctCount(contracts: seq<Contract>)
    requires Distinct(contracts)
    ensures |Used(contracts)| == |contracts|
  {
    if contracts != [] {
      var before, c := contracts[..|contracts| - 1], contracts[|contracts| - 1];
      DistinctCount(before);
      assert c !in before;
      assert Used(contracts) == Used(before) + {c};
    }
  }

  /** Every contract of the graph is usable. */
  lemma AllUsable(shape: Shape, budget: u32)
    requires shape.Size() <= 256
    ensures |Usable(DeepGraph(shape), DeepRequest(budget))| == shape.Size()
  {
    DeepGraphIsValid(shape);
    DistinctCount(ContractsOf(shape));
    forall c | c in ContractsOf(shape) ensures Permitted(DeepRequest(budget), c) {}
    assert Usable(DeepGraph(shape), DeepRequest(budget)) == Used(ContractsOf(shape));
  }

  // ---- The chain reaches the output, and nothing but the shortcut does it in fewer steps ----

  /** The first `n` steps of the chain, in order. */
  function Chain(n: nat): seq<Contract>
    requires n <= 9
  {
    if n == 0 then [] else Chain(n - 1) + [Link(n)]
  }

  lemma TypeIdsDiffer(i: nat, j: nat)
    requires i <= 9 && j <= 9 && i != j
    ensures TypeId(i) != TypeId(j)
  {
    assert TypeId(i)[2] == MARKS[i] && TypeId(j)[2] == MARKS[j];
  }

  /** What is available after the first `k` steps. */
  function Types(k: nat): set<string>
    requires k <= 9
  {
    set i | 0 <= i <= k :: TypeId(i)
  }

  lemma {:induction false} ChainRuns(shape: Shape, n: nat, budget: u32)
    requires shape.Size() <= 256 && n <= 9
    ensures Admissible(DeepGraph(shape), DeepRequest(budget), Chain(n)) && Progressive({TypeId(0)}, Chain(n))
    ensures AvailableAfter({TypeId(0)}, Chain(n)) == Types(n)
    ensures Cost(Chain(n)) == n == |Chain(n)|
  {
    if n == 0 {
      assert Types(0) == {TypeId(0)};
    } else {
      hide TypeId, Types, Admissible, Progressive, AvailableAfter, Cost;
      ChainRuns(shape, n - 1, budget);
      assert ContractsOf(shape)[n - 1] == Link(n);
      NextType(n);
      LinkStep(n, Types(n - 1), budget);
      Extend(DeepGraph(shape), DeepRequest(budget), Chain(n - 1), Link(n));
    }
  }

  lemma LinkStep(n: nat, available: set<string>, budget: u32)
    requires 1 <= n <= 9 && TypeId(n - 1) in available && TypeId(n) !in available
    ensures Permitted(DeepRequest(budget), Link(n)) && NeedsMet(Link(n), available)
    ensures Outputs(Link(n)) == {TypeId(n)} && !(Outputs(Link(n)) <= available)
  {
    hide TypeId;
    assert TypeId(n) in Link(n).produces;
  }

  lemma NextType(n: nat)
    requires 1 <= n <= 9
    ensures TypeId(n - 1) in Types(n - 1) && TypeId(n) !in Types(n - 1) && Types(n) == Types(n - 1) + {TypeId(n)}
  {
    hide TypeId;
    forall i | 0 <= i < n ensures TypeId(i) != TypeId(n) { TypeIdsDiffer(i, n); }
  }

  lemma {:induction false} NeedsStayAvailable(graph: Graph, request: Request, route: seq<Contract>, c: Contract)
    requires Admissible(graph, request, route) && c in route
    ensures c in graph.contracts && NeedsMet(c, AvailableAfter(request.availableInputs, route))
  {
    var before, last := route[..|route| - 1], route[|route| - 1];
    assert route == before + [last];
    if c != last {
      NeedsStayAvailable(graph, request, before, c);
    }
  }

  lemma ProducerOf(shape: Shape, c: Contract, k: nat)
    requires shape.Size() <= 256 && 1 <= k <= 9 && c in ContractsOf(shape) && c != Link(10) && TypeId(k) in c.produces
    ensures c == Link(k) && c.needs == [TypeId(k - 1)]
  {
    hide TypeId, PadMark;
    var j :| 0 <= j < shape.Size() && ContractsOf(shape)[j] == c;
    if j >= shape.Links() {
      TypeIdsDiffer(0, k);
    } else if j + 1 != k {
      TypeIdsDiffer(j + 1, k);
    }
  }

  lemma StepBack(shape: Shape, route: seq<Contract>, budget: u32, k: nat)
    requires shape.Size() <= 256 && 1 <= k <= 9
    requires Admissible(DeepGraph(shape), DeepRequest(budget), route) && Link(10) !in route
    requires TypeId(k) in AvailableAfter({TypeId(0)}, route)
    ensures Link(k) in route && TypeId(k - 1) in AvailableAfter({TypeId(0)}, route)
  {
    hide Admissible, AvailableAfter, Link, ContractsOf, TypeId;
    AvailableIsPool({TypeId(0)}, route);
    TypeIdsDiffer(k, 0);
    var c :| c in Used(route) && TypeId(k) in c.produces;
    NeedsStayAvailable(DeepGraph(shape), DeepRequest(budget), route, c);
    ProducerOf(shape, c, k);
    assert TypeId(k - 1) in c.needs;
  }

  /** Without the shortcut, reaching `t.k` takes every one of the first `k` steps. */
  lemma {:induction false} NeedsWholeChain(shape: Shape, route: seq<Contract>, budget: u32, k: nat)
    requires shape.Size() <= 256 && k <= 9
    requires Admissible(DeepGraph(shape), DeepRequest(budget), route) && Link(10) !in route
    requires TypeId(k) in AvailableAfter({TypeId(0)}, route)
    ensures forall i :: 1 <= i <= k ==> Link(i) in route
  {
    if k > 0 {
      hide Admissible, AvailableAfter, Link, ContractsOf, TypeId;
      StepBack(shape, route, budget, k);
      NeedsWholeChain(shape, route, budget, k - 1);
    }
  }

  lemma {:induction false} ChainIsNineContracts(route: seq<Contract>, n: nat)
    requires n <= 9 && forall i :: 1 <= i <= n ==> Link(i) in route
    ensures |Used(route) * Used(Chain(n))| == n
  {
    var both := Used(route) * Used(Chain(n));
    if n == 0 {
      assert both == {};
    } else {
      ChainIsNineContracts(route, n - 1);
      assert both == Used(route) * Used(Chain(n - 1)) + {Link(n)};
      ChainStopsBefore(n - 1, n);
    }
  }

  lemma {:induction false} ChainStopsBefore(n: nat, k: nat)
    requires n < k <= 9
    ensures Link(k) !in Chain(n)
  {
    if n > 0 {
      ChainStopsBefore(n - 1, k);
      assert Link(n).capabilityId[4] != Link(k).capabilityId[4];
    }
  }

  lemma {:induction false} UsedAtMostLength(route: seq<Contract>)
    ensures |Used(route)| <= |route|
  {
    if route != [] {
      UsedAtMostLength(route[1..]);
      assert Used(route) == Used(route[1..]) + {route[0]};
    }
  }

  /** A route that reaches `t.9` has taken the shortcut or at least nine steps. */
  lemma ShortcutOrNineSteps(shape: Shape, budget: u32, route: seq<Contract>)
    requires shape.Size() <= 256
    requires Admissible(DeepGraph(shape), DeepRequest(budget), route) && Reaches(DeepRequest(budget), route)
    ensures Link(10) in route || |route| >= 9
  {
    assert TypeId(9) in {TypeId(9)};
    if Link(10) !in route {
      NeedsWholeChain(shape, route, budget, 9);
      ChainIsNineContracts(route, 9);
      UsedAtMostLength(route);
      SubsetCount(Used(route) * Used(Chain(9)), Used(route));
    }
  }

  lemma {:induction false} CostCoversEach(route: seq<Contract>, c: Contract)
    requires c in route
    ensures Cost(route) >= c.costUnits
  {
    var before, last := route[..|route| - 1], route[|route| - 1];
    assert route == before + [last];
    if c != last {
      CostCoversEach(before, c);
    }
  }

  /** A sound plan that resolves the request has taken the shortcut. */
  lemma ResolvedTakesShortcut(shape: Shape, budget: u32, plan: Plan)
    requires shape.Size() <= 256 && SoundPlan(DeepGraph(shape), DeepRequest(budget), plan) && plan.fullyResolved
    ensures shape.shortcut && plan.totalCostUnits >= 50
  {
    var route :| PlanFollows(DeepGraph(shape), DeepRequest(budget), plan, route);
    var available := AvailableAfter({TypeId(0)}, route);
    EmptyDifference({TypeId(9)}, available);
    ShortcutOrNineSteps(shape, budget, route);
    NeedsStayAvailable(DeepGraph(shape), DeepRequest(budget), route, Link(10));
    CostCoversEach(route, Link(10));
    if !shape.shortcut { NoShortcut(shape); }
  }

  lemma NoShortcut(shape: Shape)
    requires shape.Size() <= 256 && !shape.shortcut
    ensures Link(10) !in ContractsOf(shape)
  {
    hide TypeId, PadMark;
    forall k | 0 <= k < shape.Size() ensures ContractsOf(shape)[k].costUnits == 1 {}
  }

  lemma ChainServes(shape: Shape, budget: u32)
    requires shape.Size() <= 256
    ensures Admissible(DeepGraph(shape), DeepRequest(budget), Chain(9)) && Reaches(DeepRequest(budget), Chain(9))
    ensures Cost(Chain(9)) == 9
  {
    ChainRuns(shape, 9, budget);
    assert TypeId(9) in Types(9);
  }

  // ---- Completeness: exactly up to eight usable contracts ----

  /** A valid graph with `n` usable contracts and a valid request that an affordable route serves and
      no plan the planner could return resolves. */
  ghost predicate HidesRoute(graph: Graph, request: Request, n: nat) {
    && ValidGraph(graph) && ValidRequest(request) && |Usable(graph, request)| == n
    && Served(graph, request) && !Resolvable(graph, request)
  }

  lemma NineStepsAreHidden(padding: nat)
    requires padding <= 247
    ensures HidesRoute(DeepGraph(Shape(false, padding)), DeepRequest(20), 9 + padding)
  {
    var shape := Shape(false, padding);
    DeepGraphIsValid(shape);
    DeepRequestIsValid(20);
    AllUsable(shape, 20);
    ChainServes(shape, 20);
    hide ValidGraph, ValidRequest, SoundPlan, ContractsOf, Usable;
    forall plan | SoundPlan(DeepGraph(shape), DeepRequest(20), plan) && plan.fullyResolved ensures false {
      ResolvedTakesShortcut(shape, 20, plan);
    }
  }

  /** The planner's graphs have up to 256 contracts. With eight usable ones or fewer every served
      request can be resolved; from nine on some served requests cannot, whatever plan is returned. */
  lemma CompleteIffAtMostEight(n: nat)
    requires n <= MAX_CAPABILITIES
    ensures (exists graph, request :: HidesRoute(graph, request, n)) <==> n >= 9
  {
    hide ValidGraph, ValidRequest, Served, Resolvable, Usable, DeepGraph;
    if n >= 9 {
      NineStepsAreHidden(n - 9);
    } else {
      forall graph, request | HidesRoute(graph, request, n) ensures false {
        ValidGraphContracts(graph);
        EightContractsSuffice(graph, request);
      }
    }
  }

  // ---- Optimality: exactly up to nine usable contracts ----

  /** A valid graph with `n` usable contracts and a valid request for which the planner's promise allows
      a resolved plan that is not the cheapest. */
  ghost predicate MayMisprice(graph: Graph, request: Request, n: nat) {
    && ValidGraph(graph) && ValidRequest(request) && |Usable(graph, request)| == n
    && exists plan :: Delivered(graph, request, plan) && plan.fullyResolved && !Cheapest(graph, request, plan)
  }

  function ShortcutPlan(shape: Shape): Plan
    requires shape.Size() <= 256
  {
    Plan(SEMANTIC_PLAN_SPEC, DeepGraph(shape).digest, [Link(10).capabilityId],
         Ascending({TypeId(9)} * {TypeId(0), TypeId(9)}), Ascending({TypeId(9)} - {TypeId(0), TypeId(9)}), 50, true, 1)
  }

  lemma ShortcutIsSound(shape: Shape)
    requires shape.Size() <= 256 && shape.shortcut
    ensures SoundPlan(DeepGraph(shape), DeepRequest(100), ShortcutPlan(shape))
  {
    hide TypeId, ContractsOf, Ascending;
    var graph, request, route := DeepGraph(shape), DeepRequest(100), [Link(10)];
    assert ContractsOf(shape)[9] == Link(10);
    Extend(graph, request, [], Link(10));
    assert [] + [Link(10)] == route;
    assert Outputs(Link(10)) == {TypeId(9)} by { assert TypeId(9) in Link(10).produces; }
    TypeIdsDiffer(0, 9);
    assert AvailableAfter({TypeId(0)}, route) == {TypeId(0), TypeId(9)};
    EmptyDifference({TypeId(9)}, {TypeId(0), TypeId(9)});
    assert Names(route) == [Link(10).capabilityId];
    assert PlanFollows(graph, request, ShortcutPlan(shape), route);
  }

  /** Routes below the depth limit, which the chain sets at nine, do not reach the output. */
  lemma NothingBelowLimit(shape: Shape, route: seq<Contract>)
    requires shape.Size() <= 256
    requires Admissible(DeepGraph(shape), DeepRequest(100), route) && Reaches(DeepRequest(100), route)
    ensures Cost(route) >= DepthLimit(DeepGraph(shape), DeepRequest(100))
  {
    var graph, request := DeepGraph(shape), DeepRequest(100);
    ChainRuns(shape, 9, 100);
    assert DepthLimit(graph, request) <= 9 by {
      assert ShallowBelow(graph, request, DepthLimit(graph, request));
    }
    ShortcutOrNineSteps(shape, 100, route);
    if Link(10) in route {
      CostCoversEach(route, Link(10));
    } else {
      DeepGraphIsValid(shape);
      forall c | c in Usable(graph, request) ensures c.costUnits >= 1 { assert ValidContract(c); }
      LongRoutesAreDear(graph, request, route, 1);
    }
  }

  lemma ShortcutBelowLimit(shape: Shape)
    requires shape.Size() <= 256
    ensures CheapestBelow(DeepGraph(shape), DeepRequest(100), ShortcutPlan(shape),
                          DepthLimit(DeepGraph(shape), DeepRequest(100)))
  {
    var graph, request := DeepGraph(shape), DeepRequest(100);
    hide DepthLimit, DeepGraph, DeepRequest, Admissible, Reaches, Cost;
    forall route | Admissible(graph, request, route) && Reaches(request, route)
      ensures Cost(route) >= DepthLimit(graph, request)
    {
      NothingBelowLimit(shape, route);
    }
  }

  lemma ShortcutIsDelivered(shape: Shape)
    requires shape.Size() <= 256 && shape.shortcut
    ensures Delivered(DeepGraph(shape), DeepRequest(100), ShortcutPlan(shape))
  {
    ShortcutIsSound(shape);
    ShortcutBelowLimit(shape);
    assert ShortcutPlan(shape).fullyResolved && ShortcutPlan(shape).expandedStates == 1;
    FirstAnswerDelivered(DeepGraph(shape), DeepRequest(100), ShortcutPlan(shape));
  }

  /** An answer found at once is within all bounds. */
  lemma FirstAnswerDelivered(graph: Graph, request: Request, plan: Plan)
    requires SoundPlan(graph, request, plan) && plan.fullyResolved && plan.expandedStates == 1
    requires CheapestBelow(graph, request, plan, DepthLimit(graph, request))
    ensures Delivered(graph, request, plan)
  {
    hide SoundPlan, CheapestBelow, DepthLimit, Usable, Pow2, FewSteps, HoldsExpandable;
    ProductAtLeastZero(|Usable(graph, request)|, Pow2(|Usable(graph, request)|));
    forall family, m: nat | HoldsExpandable(graph, request, family) && FewSteps(graph, request, m)
      ensures 1 <= 1 + m * |family|
    {
      ProductAtLeastZero(m, |family|);
    }
  }

  lemma ProductAtLeastZero(m: nat, n: nat)
    ensures m * n >= 0
  {
  }

  lemma ShortcutIsMispriced(padding: nat)
    requires padding <= 246
    ensures MayMisprice(DeepGraph(Shape(true, padding)), DeepRequest(100), 10 + padding)
  {
    var shape := Shape(true, padding);
    DeepGraphIsValid(shape);
    DeepRequestIsValid(100);
    AllUsable(shape, 100);
    ShortcutIsDelivered(shape);
    hide ValidGraph, ValidRequest, Delivered, DeepGraph, DeepRequest, Usable, Admissible, Reaches;
    ChainServes(shape, 100);
    assert !Cheapest(DeepGraph(shape), DeepRequest(100), ShortcutPlan(shape));
  }

  /** With nine usable contracts or fewer a resolved plan is the cheapest of all admissible routes; from
      ten on it need not be. */
  lemma OptimalIffAtMostNine(n: nat)
    requires n <= MAX_CAPABILITIES
    ensures (exists graph, request :: MayMisprice(graph, request, n)) <==> n >= 10
  {
    hide ValidGraph, ValidRequest, Delivered, Cheapest, Usable, DeepGraph;
    if n >= 10 {
      ShortcutIsMispriced(n - 10);
    } else {
      forall graph, request | MayMisprice(graph, request, n) ensures false {
        var plan :| Delivered(graph, request, plan) && plan.fullyResolved && !Cheapest(graph, request, plan);
        NineContractsVerdict(graph, request, plan);
      }
    }
  }

  // ---- What the planner answers ----

  /** Before `t.9` is reached, what is available is what the first steps of the chain give. */
  lemma {:induction false} ReachedTypes(shape: Shape, route: seq<Contract>) returns (k: nat)
    requires shape.Size() <= 256 && Admissible(DeepGraph(shape), DeepRequest(100), route)
    requires TypeId(9) !in AvailableAfter({TypeId(0)}, route)
    ensures k <= 8 && AvailableAfter({TypeId(0)}, route) == Types(k)
  {
    if route == [] {
      assert Types(0) == {TypeId(0)};
      k := 0;
    } else {
      var before, c := route[..|route| - 1], route[|route| - 1];
      k := ReachedTypes(shape, before);
      k := TypesStep(shape, k, c);
    }
  }

  /** A step from the first `k` types stays there, reaches the next or takes the shortcut. */
  lemma TypesStep(shape: Shape, k: nat, c: Contract) returns (next: nat)
    requires shape.Size() <= 256 && k <= 8 && c in ContractsOf(shape) && NeedsMet(c, Types(k))
    requires TypeId(9) !in Types(k) + Outputs(c)
    ensures next <= 8 && Types(k) + Outputs(c) == Types(next)
    ensures !(Outputs(c) <= Types(k)) ==> c == Link(k + 1)
  {
    var j :| 0 <= j < shape.Size() && ContractsOf(shape)[j] == c;
    hide ContractsOf, TypeId;
    if j >= shape.Links() {
      assert Outputs(c) == {TypeId(0)} && TypeId(0) in Types(k);
      next := k;
    } else {
      assert c.produces[0] in c.produces;
      assert j != 9;
      assert Outputs(c) == {TypeId(j + 1)} && TypeId(j) in c.needs;
      InTypes(j, k);
      if j == k { NextType(k + 1); } else { assert TypeId(j + 1) in Types(k); }
      next := if j == k then k + 1 else k;
    }
  }

  lemma InTypes(j: nat, k: nat)
    requires j <= 9 && k <= 9
    ensures TypeId(j) in Types(k) <==> j <= k
  {
    hide TypeId;
    forall i | 0 <= i <= k && i != j ensures TypeId(i) != TypeId(j) { TypeIdsDiffer(i, j); }
  }

  /** The sets the search can expand: nine at most, with at most two ways on from each. */
  ghost function ChainSets(n: nat): (r: set<set<string>>)
    requires n <= 8
    ensures |r| <= n + 1 && forall k :: 0 <= k <= n ==> Types(k) in r
  {
    if n == 0 then {Types(0)} else ChainSets(n - 1) + {Types(n)}
  }

  lemma ExpandableIsChain(shape: Shape, s: set<string>) returns (k: nat)
    requires shape.Size() <= 256 && Expandable(DeepGraph(shape), DeepRequest(100), s)
    ensures k <= 8 && s == Types(k)
  {
    hide TypeId, ContractsOf, Types, AvailableAfter, Admissible;
    var route :| Admissible(DeepGraph(shape), DeepRequest(100), route) && AvailableAfter({TypeId(0)}, route) == s;
    k := ReachedTypes(shape, route);
  }

  lemma TwoStepsOn(shape: Shape, k: nat)
    requires shape.Size() <= 256 && k <= 8
    ensures |Steps(DeepGraph(shape), DeepRequest(100), Types(k))| <= 2
  {
    hide TypeId, ContractsOf, Types, Permitted, Link, Pad;
    var steps := Steps(DeepGraph(shape), DeepRequest(100), Types(k));
    forall c | c in steps ensures c == Link(k + 1) || c == Link(10) { StepIsLink(shape, k, c); }
    SubsetCount(steps, {Link(k + 1), Link(10)});
  }

  lemma StepIsLink(shape: Shape, k: nat, c: Contract)
    requires shape.Size() <= 256 && k <= 8 && c in ContractsOf(shape) && NeedsMet(c, Types(k))
    requires !(Outputs(c) <= Types(k))
    ensures c == Link(k + 1) || c == Link(10)
  {
    hide TypeId, ContractsOf, Types;
    InTypes(9, k);
    if TypeId(9) in Outputs(c) {
      if c != Link(10) {
        ProducerOf(shape, c, 9);
        InTypes(8, k);
      }
    } else {
      var _ := TypesStep(shape, k, c);
    }
  }

  lemma FewExpansions(shape: Shape, plan: Plan)
    requires shape.Size() <= 256 && Delivered(DeepGraph(shape), DeepRequest(100), plan)
    ensures plan.expandedStates <= 19
  {
    var graph, request := DeepGraph(shape), DeepRequest(100);
    hide DeepGraph, DeepRequest, Types, Steps, Expandable, SoundPlan, CheapestBelow, ExhaustiveBelow, DepthLimit,
         Usable, Pow2;
    forall s | Expandable(graph, request, s) ensures s in ChainSets(8) && |Steps(graph, request, s)| <= 2 {
      var k := ExpandableIsChain(shape, s);
      TwoStepsOn(shape, k);
    }
    assert HoldsExpandable(graph, request, ChainSets(8)) && FewSteps(graph, request, 2);
  }

  /** The planner resolves this request, but every answer it may give costs at least 50, although a route
      of cost 9 serves the request. */
  lemma EveryAnswerIsDear(padding: nat, plan: Plan)
    requires padding <= 246 && Delivered(DeepGraph(Shape(true, padding)), DeepRequest(100), plan)
    ensures plan.fullyResolved && plan.totalCostUnits >= 50
    ensures Served(DeepGraph(Shape(true, padding)), DeepRequest(100).(maximumCostUnits := 9))
    ensures !Cheapest(DeepGraph(Shape(true, padding)), DeepRequest(100), plan)
  {
    var shape := Shape(true, padding);
    FewExpansions(shape, plan);
    ShortcutSuffices(shape);
    ChainServes(shape, 100);
    ChainServes(shape, 9);
    hide BoundedByStates, CheapestBelow, ExhaustiveBelow, DepthLimit, ContractsOf, NoFirstStepSuffices, SoundPlan,
         Usable, Admissible;
    ResolvedTakesShortcut(shape, 100, plan);
    assert DeepRequest(100).(maximumCostUnits := 9) == DeepRequest(9);
  }

  lemma ShortcutSuffices(shape: Shape)
    requires shape.Size() <= 256 && shape.shortcut
    ensures !NoFirstStepSuffices(DeepGraph(shape), DeepRequest(100))
  {
    assert ContractsOf(shape)[9] == Link(10);
    hide ContractsOf, TypeId;
    assert TypeId(9) in Link(10).produces && TypeId(9) in Outputs(Link(10));
  }
}
