/** The planner's uniform-cost search over growing sets of semantic types. */
module CompositionSearch {
  import opened Ordering
  import opened Capabilities
  import opened FiniteSets
  import opened MachineNumbers
  import opened Composition
  import opened StateKeys
  import opened RouteFacts
  import Sorting

  datatype SearchState = SearchState(available: set<string>, path: seq<string>, cost: u32)

  /** Comparison of search keys: cost, then path length, then the path itself. */
  predicate KeyLess(a: SearchState, b: SearchState) {
    || a.cost < b.cost
    || (a.cost == b.cost && (|a.path| < |b.path| || (|a.path| == |b.path| && PathLess(a.path, b.path))))
  }

  predicate KeyAtMost(a: SearchState, b: SearchState) { !KeyLess(b, a) }

  lemma KeyOrder()
    ensures Sorting.TotalPreorder(KeyAtMost)
  {
    forall a: SearchState, b: SearchState ensures KeyAtMost(a, b) || KeyAtMost(b, a) {
      if PathLess(a.path, b.path) && PathLess(b.path, a.path) {
        PathLessTransitive(a.path, b.path, a.path);
        PathLessIrreflexive(a.path);
      }
    }
    forall a: SearchState, b: SearchState, c: SearchState | KeyAtMost(a, b) && KeyAtMost(b, c) ensures KeyAtMost(a, c) {
      if KeyLess(c, a) && a.cost == b.cost && b.cost == c.cost && |a.path| == |b.path| && |b.path| == |c.path| {
        PathLessTotal(a.path, b.path);
        PathLessTotal(b.path, c.path);
        if a.path != b.path && b.path != c.path {
          PathLessTransitive(a.path, b.path, c.path);
          PathLessTransitive(a.path, c.path, a.path);
        }
        PathLessIrreflexive(a.path);
      }
    }
  }

  /** Cheaper states come first, of equally cheap ones those with the shorter path, and then those whose
      path is smaller at its first difference. */
  lemma KeyLessIff(a: SearchState, b: SearchState)
    ensures KeyLess(a, b) <==>
              || a.cost < b.cost
              || (a.cost == b.cost && |a.path| < |b.path|)
              || (a.cost == b.cost && |a.path| == |b.path| && exists k :: FirstPathSmallerAt(a.path, b.path, k))
  {
    PathLessIff(a.path, b.path);
  }

  predicate BetterPartial(candidate: SearchState, current: SearchState, request: Request) {
    || Covered(candidate.available, request) > Covered(current.available, request)
    || (Covered(candidate.available, request) == Covered(current.available, request) && KeyLess(candidate, current))
  }

  function BuildPlan(graph: Graph, request: Request, state: SearchState, expandedStates: nat): Plan {
    var missing := Ascending(request.requiredOutputs - state.available);
    Plan(SEMANTIC_PLAN_SPEC, graph.digest, state.path,
         Ascending(request.requiredOutputs * state.available),
         missing, state.cost, missing == [], expandedStates)
  }

  // ---- What a search state stands for ----

  ghost predicate Follows(graph: Graph, request: Request, state: SearchState, route: seq<Contract>) {
    && Names(route) == state.path
    && Admissible(graph, request, route)
    && Progressive(request.availableInputs, route)
    && AvailableAfter(request.availableInputs, route) == state.available
    && Cost(route) == state.cost <= request.maximumCostUnits
  }

  ghost predicate Genuine(graph: Graph, request: Request, state: SearchState) {
    && |state.path| <= MAX_GRAPH_DEPTH
    && (forall i, j :: 0 <= i < j < |state.path| ==> state.path[i] != state.path[j])
    && exists route :: Follows(graph, request, state, route)
  }

  /** The contracts an expansion of `state` may turn into children. */
  ghost predicate Offers(graph: Graph, request: Request, state: SearchState, c: Contract) {
    && c in graph.contracts
    && c.capabilityId !in state.path
    && NeedsMet(c, state.available)
    && Permitted(request, c)
    && state.cost + c.costUnits <= request.maximumCostUnits
    && !(Outputs(c) <= state.available)
  }

  ghost function Child(graph: Graph, request: Request, state: SearchState, c: Contract): SearchState
    requires Offers(graph, request, state, c)
  {
    SearchState(state.available + Outputs(c), state.path + [c.capabilityId], state.cost + c.costUnits)
  }

  /** Contracts an expansion has not used yet: the most children it can have. */
  ghost function Unused(graph: Graph, request: Request, state: SearchState): set<Contract> {
    set c | c in Usable(graph, request) && c.capabilityId !in state.path
  }

  /** The keyed map agrees with a map on the sets themselves. */
  ghost predicate Mirrors(visited: map<string, u32>, seen: map<set<string>, u32>) {
    && (forall s :: s in seen ==> SemanticTypes(s) && StateKey(s) in visited && visited[StateKey(s)] == seen[s])
    && (forall k :: k in visited ==> exists s :: s in seen && StateKey(s) == k)
  }

  lemma MirrorLookup(visited: map<string, u32>, seen: map<set<string>, u32>, available: set<string>)
    requires Mirrors(visited, seen) && SemanticTypes(available)
    ensures StateKey(available) in visited <==> available in seen
    ensures available in seen ==> visited[StateKey(available)] == seen[available]
  {
    if StateKey(available) in visited {
      var s :| s in seen && StateKey(s) == StateKey(available);
      StateKeyInjective(s, available);
    }
  }

  lemma MirrorRecord(visited: map<string, u32>, seen: map<set<string>, u32>, available: set<string>, cost: u32)
    requires Mirrors(visited, seen) && SemanticTypes(available)
    ensures Mirrors(visited[StateKey(available) := cost], seen[available := cost])
  {
    hide StateKey, SemanticTypes;
    var visited', seen' := visited[StateKey(available) := cost], seen[available := cost];
    forall s | s in seen'
      ensures SemanticTypes(s) && StateKey(s) in visited' && visited'[StateKey(s)] == seen'[s]
    {
      if s != available && StateKey(s) == StateKey(available) {
        StateKeyInjective(s, available);
      }
    }
    forall k | k in visited' ensures exists s :: s in seen' && StateKey(s) == k {
      if k != StateKey(available) {
        var s :| s in seen && StateKey(s) == k;
        assert s in seen';
      } else {
        assert available in seen';
      }
    }
  }

  // ---- One expansion ----

  ghost predicate NewChild(graph: Graph, request: Request, state: SearchState,
                           seen: map<set<string>, u32>, seen': map<set<string>, u32>, child: SearchState)
  {
    && (exists c :: Offers(graph, request, state, c) && child == Child(graph, request, state, c))
    && (child.available in seen ==> child.cost < seen[child.available])
    && child.available in seen' && seen'[child.available] <= child.cost
  }

  /** Best known costs only improve, and every improvement is a state added to the frontier. */
  ghost predicate Improved(start: nat, seen: map<set<string>, u32>, frontier': seq<SearchState>, seen': map<set<string>,
                           u32>) {
    && (forall s :: s in seen ==> s in seen' && seen'[s] <= seen[s])
    && (forall s :: s in seen' ==>
          || (s in seen && seen'[s] == seen[s])
          || exists k :: start <= k < |frontier'| && frontier'[k].available == s && frontier'[k].cost == seen'[s])
  }

  ghost predicate AllNew(graph: Graph, request: Request, state: SearchState, start: nat,
                         seen: map<set<string>, u32>, frontier': seq<SearchState>, seen': map<set<string>, u32>)
  {
    forall k :: start <= k < |frontier'| ==> NewChild(graph, request, state, seen, seen', frontier'[k])
  }

  /** The child through `c`, if there is one, is known at no more than its cost. */
  ghost predicate Settled(graph: Graph, request: Request, state: SearchState, seen: map<set<string>, u32>,
                          c: Contract) {
    Offers(graph, request, state, c) ==>
      var available := state.available + Outputs(c);
      available in seen && seen[available] <= state.cost + c.costUnits
  }

  /** What expanding `state` does to the frontier and to the best known costs, once the first `n`
      contracts have been considered. */
  ghost predicate Expanded(graph: Graph, request: Request, state: SearchState, n: nat,
                           frontier: seq<SearchState>, seen: map<set<string>, u32>,
                           frontier': seq<SearchState>, seen': map<set<string>, u32>)
    requires n <= |graph.contracts|
  {
    && |frontier| <= |frontier'| && frontier'[..|frontier|] == frontier
    && Improved(|frontier|, seen, frontier', seen')
    && AllNew(graph, request, state, |frontier|, seen, frontier', seen')
    && forall i :: 0 <= i < n ==> Settled(graph, request, state, seen', graph.contracts[i])
  }

  lemma ImprovedByOne(start: nat, seen: map<set<string>, u32>, before: seq<SearchState>, known: map<set<string>, u32>,
                      child: SearchState)
    requires start <= |before| && Improved(start, seen, before, known)
    requires child.available in known ==> child.cost < known[child.available]
    ensures Improved(start, seen, before + [child], known[child.available := child.cost])
  {
    var after, seen' := before + [child], known[child.available := child.cost];
    forall s | s in seen'
      ensures || (s in seen && seen'[s] == seen[s])
              || exists k :: start <= k < |after| && after[k].available == s && after[k].cost == seen'[s]
    {
      if s == child.available {
        assert after[|before|] == child;
      } else if !(s in seen && seen'[s] == seen[s]) {
        var k :| start <= k < |before| && before[k].available == s && before[k].cost == known[s];
        assert after[k] == before[k];
      }
    }
  }

  lemma NewByOne(graph: Graph, request: Request, state: SearchState, start: nat, c: Contract,
                 seen: map<set<string>, u32>, before: seq<SearchState>, known: map<set<string>, u32>)
    requires start <= |before| && AllNew(graph, request, state, start, seen, before, known)
    requires Improved(start, seen, before, known)
    requires Offers(graph, request, state, c)
    requires var child := Child(graph, request, state, c);
             child.available in known ==> child.cost < known[child.available]
    ensures var child := Child(graph, request, state, c);
            AllNew(graph, request, state, start, seen, before + [child], known[child.available := child.cost])
  {
    var child := Child(graph, request, state, c);
    var after, seen' := before + [child], known[child.available := child.cost];
    forall k | start <= k < |after| ensures NewChild(graph, request, state, seen, seen', after[k]) {
      if k < |before| {
        assert after[k] == before[k];
        assert NewChild(graph, request, state, seen, known, before[k]);
      } else {
        assert after[k] == child;
      }
    }
  }

  lemma ChildRecorded(graph: Graph, request: Request, state: SearchState, i: nat,
                      frontier: seq<SearchState>, seen: map<set<string>, u32>,
                      before: seq<SearchState>, known: map<set<string>, u32>)
    requires i < |graph.contracts|
    requires Expanded(graph, request, state, i, frontier, seen, before, known)
    requires Offers(graph, request, state, graph.contracts[i])
    requires var child := Child(graph, request, state, graph.contracts[i]);
             child.available in known ==> child.cost < known[child.available]
    ensures var child := Child(graph, request, state, graph.contracts[i]);
            Expanded(graph, request, state, i + 1, frontier, seen, before + [child],
                     known[child.available := child.cost])
  {
    var child := Child(graph, request, state, graph.contracts[i]);
    var seen' := known[child.available := child.cost];
    ImprovedByOne(|frontier|, seen, before, known, child);
    NewByOne(graph, request, state, |frontier|, graph.contracts[i], seen, before, known);
    forall j | 0 <= j < i + 1 ensures Settled(graph, request, state, seen', graph.contracts[j]) {
      assert j < i ==> Settled(graph, request, state, known, graph.contracts[j]);
    }
  }

  lemma NothingRecorded(graph: Graph, request: Request, state: SearchState, i: nat,
                        frontier: seq<SearchState>, seen: map<set<string>, u32>,
                        before: seq<SearchState>, known: map<set<string>, u32>)
    requires i < |graph.contracts|
    requires Expanded(graph, request, state, i, frontier, seen, before, known)
    requires Settled(graph, request, state, known, graph.contracts[i])
    ensures Expanded(graph, request, state, i + 1, frontier, seen, before, known)
  {
  }

  lemma OutputsAreTypes(c: Contract)
    requires ValidContract(c)
    ensures SemanticTypes(Outputs(c))
  {
    forall item | item in Outputs(c) ensures ValidSemanticTypeId(item) {
      var i :| 0 <= i < |c.produces| && c.produces[i] == item;
    }
  }

  /** Either the contract changes nothing, or its child is recorded as the best way known to its set. */
  ghost predicate Considered(graph: Graph, request: Request, state: SearchState, c: Contract,
                             before: seq<SearchState>, known: map<set<string>, u32>,
                             after: seq<SearchState>, seen': map<set<string>, u32>)
  {
    if Settled(graph, request, state, known, c) then
      after == before && seen' == known
    else
      && Offers(graph, request, state, c)
      && var child := Child(graph, request, state, c);
      && (child.available in known ==> child.cost < known[child.available])
      && after == before + [child] && seen' == known[child.available := child.cost]
  }

  /** The body of the loop over the graph's contracts. */
  method Consider(graph: Graph, request: Request, state: SearchState, i: nat, visited: map<string, u32>,
                  frontier: seq<SearchState>, ghost known: map<set<string>, u32>)
    returns (visited': map<string, u32>, frontier': seq<SearchState>, ghost seen': map<set<string>, u32>)
    requires i < |graph.contracts| && ValidContract(graph.contracts[i])
    requires SemanticTypes(state.available)
    requires Mirrors(visited, known)
    ensures Mirrors(visited', seen')
    ensures Considered(graph, request, state, graph.contracts[i], frontier, known, frontier', seen')
  {
    hide Mirrors, StateKey;
    visited', frontier', seen' := visited, frontier, known;
    var contract := graph.contracts[i];
    if contract.capabilityId in state.path
       || !NeedsMet(contract, state.available)
       || !Permitted(request, contract)
    {
      return;
    }
    var sum := CheckedAdd(state.cost, contract.costUnits, U32_MAX);
    if sum.None? || sum.value > request.maximumCostUnits {
      return;
    }
    var cost := sum.value;
    var available := state.available + Outputs(contract);
    if available == state.available {
      assert Outputs(contract) <= state.available;
      return;
    }
    assert Offers(graph, request, state, contract);
    OutputsAreTypes(contract);
    assert SemanticTypes(available);
    MirrorLookup(visited, known, available);
    var key := StateKey(available);
    if key in visited && visited[key] <= cost {
      assert Settled(graph, request, state, known, contract);
      return;
    }
    assert !Settled(graph, request, state, known, contract);
    var path := state.path + [contract.capabilityId];
    var child := SearchState(available, path, cost);
    assert child == Child(graph, request, state, contract);
    visited' := visited[key := cost];
    seen' := known[child.available := child.cost];
    frontier' := frontier + [child];
    assert Considered(graph, request, state, contract, frontier, known, frontier', seen');
    MirrorRecord(visited, known, available, cost);
  }

  /** The loop over the graph's contracts. */
  method Expand(graph: Graph, request: Request, state: SearchState, visited: map<string, u32>,
                frontier: seq<SearchState>, ghost seen: map<set<string>, u32>)
    returns (visited': map<string, u32>, frontier': seq<SearchState>, ghost seen': map<set<string>, u32>)
    requires Distinct(graph.contracts) && forall c :: c in graph.contracts ==> ValidContract(c)
    requires SemanticTypes(state.available)
    requires Mirrors(visited, seen)
    ensures Mirrors(visited', seen')
    ensures Expanded(graph, request, state, |graph.contracts|, frontier, seen, frontier', seen')
    ensures |frontier'| - |frontier| <= |Unused(graph, request, state)|
    ensures |frontier'| - |frontier| <= |Steps(graph, request, state.available)|
  {
    visited', frontier', seen' := visited, frontier, seen;
    ghost var tried: set<Contract> := {};
    for i := 0 to |graph.contracts|
      invariant Mirrors(visited', seen')
      invariant Expanded(graph, request, state, i, frontier, seen, frontier', seen')
      invariant tried <= OfferedUpTo(graph, request, state, i) && |frontier'| - |frontier| == |tried|
    {
      ghost var before, known := frontier', seen';
      visited', frontier', seen' := Consider(graph, request, state, i, visited', frontier', seen');
      ExpandedOne(graph, request, state, i, frontier, seen, before, known, frontier', seen');
      tried := TriedOne(graph, request, state, i, before, known, frontier', seen', tried);
    }
    OfferedCounts(graph, request, state, tried);
  }

  ghost function OfferedUpTo(graph: Graph, request: Request, state: SearchState, n: nat): set<Contract>
    requires n <= |graph.contracts|
  {
    set c | c in graph.contracts[..n] && Offers(graph, request, state, c)
  }

  lemma OfferedCounts(graph: Graph, request: Request, state: SearchState, tried: set<Contract>)
    requires tried <= OfferedUpTo(graph, request, state, |graph.contracts|)
    ensures |tried| <= |Unused(graph, request, state)| && |tried| <= |Steps(graph, request, state.available)|
  {
    hide Permitted, NeedsMet;
    SubsetCount(tried, Unused(graph, request, state));
    SubsetCount(tried, Steps(graph, request, state.available));
  }

  lemma ExpandedOne(graph: Graph, request: Request, state: SearchState, i: nat,
                    frontier: seq<SearchState>, seen: map<set<string>, u32>,
                    before: seq<SearchState>, known: map<set<string>, u32>,
                    after: seq<SearchState>, seen': map<set<string>, u32>)
    requires i < |graph.contracts| && Expanded(graph, request, state, i, frontier, seen, before, known)
    requires Considered(graph, request, state, graph.contracts[i], before, known, after, seen')
    ensures Expanded(graph, request, state, i + 1, frontier, seen, after, seen')
  {
    hide Expanded, Offers;
    if Settled(graph, request, state, known, graph.contracts[i]) {
      NothingRecorded(graph, request, state, i, frontier, seen, before, known);
    } else {
      ChildRecorded(graph, request, state, i, frontier, seen, before, known);
    }
  }

  /** Every child comes from another contract. */
  lemma TriedOne(graph: Graph, request: Request, state: SearchState, i: nat,
                 before: seq<SearchState>, known: map<set<string>, u32>,
                 after: seq<SearchState>, seen': map<set<string>, u32>, tried: set<Contract>)
    returns (tried': set<Contract>)
    requires Distinct(graph.contracts) && i < |graph.contracts|
    requires Considered(graph, request, state, graph.contracts[i], before, known, after, seen')
    requires tried <= OfferedUpTo(graph, request, state, i)
    ensures tried' <= OfferedUpTo(graph, request, state, i + 1)
    ensures |after| - |before| == |tried'| - |tried|
  {
    hide Offers;
    var c := graph.contracts[i];
    assert graph.contracts[..i + 1] == graph.contracts[..i] + [c];
    if Settled(graph, request, state, known, c) {
      tried' := tried;
    } else {
      forall k | 0 <= k < i ensures graph.contracts[..i][k] != c {}
      tried' := tried + {c};
    }
  }
}
