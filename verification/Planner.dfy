/** The planner itself, and what its search keeps from one expansion to the next. */
module Planner {
  import opened Wrappers
  import opened Capabilities
  import opened MachineNumbers
  import opened Composition
  import opened StateKeys
  import opened SubsetWeight
  import opened RouteFacts
  import opened RouteMeaning
  import opened CompositionSearch
  import opened FiniteSets
  import Sorting

  // ---- The search invariant ----

  ghost predicate GoodContracts(graph: Graph) {
    Distinct(graph.contracts) && forall c :: c in graph.contracts ==> ValidContract(c)
  }

  /** Frontier entries are real, known, and no cheaper than anything popped so far. */
  ghost predicate FrontierSound(graph: Graph, request: Request, frontier: seq<SearchState>,
                                seen: map<set<string>, u32>, last: nat)
  {
    forall i :: 0 <= i < |frontier| ==>
      && Genuine(graph, request, frontier[i])
      && frontier[i].available in seen
      && seen[frontier[i].available] <= frontier[i].cost
      && last <= frontier[i].cost
  }

  /** `best` covers more than `available`, or as much at no more than `cost`. */
  ghost predicate BestCovers(request: Request, best: SearchState, available: set<string>, cost: nat) {
    || Covered(available, request) < Covered(best.available, request)
    || (Covered(available, request) == Covered(best.available, request) && best.cost <= cost)
  }

  /** Expanded sets are final: known at no more than the last popped cost, and not goals. */
  ghost predicate DoneSound(request: Request, best: SearchState, seen: map<set<string>, u32>,
                            done: set<set<string>>, last: nat)
  {
    forall s :: s in done ==>
      && s in seen && seen[s] <= last
      && !(request.requiredOutputs <= s)
      && BestCovers(request, best, s, seen[s])
  }

  ghost predicate Waiting(frontier: seq<SearchState>, available: set<string>, cost: nat) {
    exists i :: 0 <= i < |frontier| && frontier[i].available == available && frontier[i].cost == cost
  }

  /** Every known set has been expanded or waits in the frontier at its best known cost. */
  ghost predicate Tracked(frontier: seq<SearchState>, seen: map<set<string>, u32>, done: set<set<string>>) {
    forall s :: s in seen && s !in done ==> Waiting(frontier, s, seen[s])
  }

  /** From `s`, held at `cost`, the contract leads below `limit` nowhere that is not known as cheaply. */
  ghost predicate RelaxedBy(request: Request, seen: map<set<string>, u32>, s: set<string>, cost: nat, c: Contract,
                            limit: nat) {
    Permitted(request, c) && NeedsMet(c, s) && cost + c.costUnits < limit ==>
      s + Outputs(c) in seen && seen[s + Outputs(c)] <= cost + c.costUnits
  }

  ghost predicate Relaxed(graph: Graph, request: Request, seen: map<set<string>, u32>, done: set<set<string>>) {
    forall s, c :: s in done && s in seen && c in graph.contracts ==>
      RelaxedBy(request, seen, s, seen[s], c, DepthLimit(graph, request))
  }

  ghost predicate Search(graph: Graph, request: Request, frontier: seq<SearchState>, best: SearchState,
                         seen: map<set<string>, u32>, done: set<set<string>>, last: nat)
  {
    && GoodContracts(graph)
    && FrontierSound(graph, request, frontier, seen, last)
    && Genuine(graph, request, best)
    && DoneSound(request, best, seen, done, last)
    && Tracked(frontier, seen, done)
    && request.availableInputs in seen && seen[request.availableInputs] == 0
    && Relaxed(graph, request, seen, done)
  }

  // ---- Optimality and completeness from the invariant ----

  ghost predicate AtMostInFrontier(frontier: seq<SearchState>, cost: nat) {
    exists i :: 0 <= i < |frontier| && frontier[i].cost <= cost
  }

  /** The frontier separates: a route below the depth limit has either been followed to its end by
      expanded sets at no more than its cost, or some frontier entry is still no dearer than it. */
  lemma {:induction false} FrontierSeparates(graph: Graph, request: Request, frontier: seq<SearchState>,
                                             best: SearchState,
                                             seen: map<set<string>, u32>, done: set<set<string>>, last: nat,
                                             route: seq<Contract>)
    requires Search(graph, request, frontier, best, seen, done, last)
    requires Admissible(graph, request, route) && Cost(route) < DepthLimit(graph, request)
    ensures var s := AvailableAfter(request.availableInputs, route);
            AtMostInFrontier(frontier, Cost(route)) || (s in done && s in seen && seen[s] <= Cost(route))
    decreases |route|
  {
    var s := AvailableAfter(request.availableInputs, route);
    if route != [] {
      var before, c := route[..|route| - 1], route[|route| - 1];
      var r := AvailableAfter(request.availableInputs, before);
      FrontierSeparates(graph, request, frontier, best, seen, done, last, before);
      if !AtMostInFrontier(frontier, Cost(before)) {
        assert RelaxedBy(request, seen, r, seen[r], c, DepthLimit(graph, request));
        assert s == r + Outputs(c);
      }
    }
    if s in seen && s !in done {
      assert Waiting(frontier, s, seen[s]);
    }
  }

  lemma PoppedGoalIsCheapest(graph: Graph, request: Request, frontier: seq<SearchState>, best: SearchState,
                             seen: map<set<string>, u32>, done: set<set<string>>, last: nat, expandedStates: nat)
    requires Search(graph, request, frontier, best, seen, done, last)
    requires frontier != [] && Sorting.Sorted(KeyAtMost, frontier)
    ensures CheapestBelow(graph, request, BuildPlan(graph, request, frontier[0], expandedStates),
                          DepthLimit(graph, request))
  {
    forall route | Admissible(graph, request, route) && Reaches(request, route)
                   && Cost(route) < DepthLimit(graph, request)
      ensures frontier[0].cost <= Cost(route)
    {
      FrontierSeparates(graph, request, frontier, best, seen, done, last, route);
      var i :| 0 <= i < |frontier| && frontier[i].cost <= Cost(route);
      assert i == 0 || KeyAtMost(frontier[0], frontier[i]);
    }
  }

  lemma ExhaustedSearch(graph: Graph, request: Request, best: SearchState,
                        seen: map<set<string>, u32>, done: set<set<string>>, last: nat, expandedStates: nat)
    requires Search(graph, request, [], best, seen, done, last)
    ensures ExhaustiveBelow(graph, request, BuildPlan(graph, request, best, expandedStates), DepthLimit(graph, request))
  {
    var plan := BuildPlan(graph, request, best, expandedStates);
    forall route | Admissible(graph, request, route) && Cost(route) < DepthLimit(graph, request)
      ensures !Reaches(request, route)
      ensures var reached := Covered(AvailableAfter(request.availableInputs, route), request);
              reached < |plan.availableOutputs|
              || (reached == |plan.availableOutputs| && plan.totalCostUnits <= Cost(route))
    {
      FrontierSeparates(graph, request, [], best, seen, done, last, route);
      assert request.requiredOutputs * best.available == best.available * request.requiredOutputs;
      assert BestCovers(request, best, AvailableAfter(request.availableInputs, route),
                        seen[AvailableAfter(request.availableInputs, route)]);
    }
  }

  // ---- One iteration ----

  lemma PoppedIsCurrent(graph: Graph, request: Request, frontier: seq<SearchState>, best: SearchState,
                        seen: map<set<string>, u32>, done: set<set<string>>, last: nat)
    requires Search(graph, request, frontier, best, seen, done, last)
    requires frontier != [] && Sorting.Sorted(KeyAtMost, frontier)
    ensures frontier[0].available in seen && seen[frontier[0].available] <= frontier[0].cost
    ensures frontier[0].available !in done ==> seen[frontier[0].available] == frontier[0].cost
  {
    var f := frontier[0];
    if f.available !in done {
      assert Waiting(frontier, f.available, seen[f.available]);
      var i :| 0 <= i < |frontier| && frontier[i].available == f.available && frontier[i].cost == seen[f.available];
      assert i == 0 || KeyAtMost(f, frontier[i]);
    }
  }

  /** Below the depth limit a state at the depth cut has nothing left to gain. */
  lemma DeepStateIsStuck(graph: Graph, request: Request, state: SearchState, c: Contract)
    requires Genuine(graph, request, state) && |state.path| >= MAX_GRAPH_DEPTH
    requires c in graph.contracts && Permitted(request, c) && NeedsMet(c, state.available)
    requires state.cost + c.costUnits < DepthLimit(graph, request)
    ensures Outputs(c) <= state.available
  {
    hide ShallowBelow, DepthLimit;
    var route :| Follows(graph, request, state, route);
    Extend(graph, request, route, c);
    ShallowBound(graph, request, route + [c]);
  }

  lemma ShallowBound(graph: Graph, request: Request, route: seq<Contract>)
    requires Admissible(graph, request, route) && Cost(route) < DepthLimit(graph, request)
    ensures Progressive(request.availableInputs, route) ==> |route| <= MAX_GRAPH_DEPTH
  {
    assert ShallowBelow(graph, request, DepthLimit(graph, request));
  }

  /** A contract already on the path has nothing left to add. */
  lemma UsedContractAddsNothing(graph: Graph, request: Request, state: SearchState, c: Contract)
    requires GoodContracts(graph) && Genuine(graph, request, state)
    requires c in graph.contracts && c.capabilityId in state.path
    ensures Outputs(c) <= state.available
  {
    var route :| Follows(graph, request, state, route);
    var i :| 0 <= i < |state.path| && state.path[i] == c.capabilityId;
    AdmissibleIsUsable(graph, request, route);
    assert route[i] in Used(route);
    SameId(graph, route[i], c);
    AvailableIsPool(request.availableInputs, route);
  }

  lemma SameId(graph: Graph, a: Contract, b: Contract)
    requires Distinct(graph.contracts) && a in graph.contracts && b in graph.contracts
    requires a.capabilityId == b.capabilityId
    ensures a == b
  {
    var i :| 0 <= i < |graph.contracts| && graph.contracts[i] == a;
    var j :| 0 <= j < |graph.contracts| && graph.contracts[j] == b;
    assert i == j || i < j || j < i;
  }

  /** The best partial state after a popped state has been compared with it. */
  function Best(request: Request, candidate: SearchState, current: SearchState): SearchState {
    if BetterPartial(candidate, current, request) then candidate else current
  }

  lemma BestKeepsCovering(request: Request, candidate: SearchState, current: SearchState, s: set<string>, cost: nat)
    ensures BestCovers(request, current, s, cost) ==> BestCovers(request, Best(request, candidate, current), s, cost)
    ensures BestCovers(request, Best(request, candidate, current), candidate.available, candidate.cost)
  {
  }

  lemma DoneGrows(request: Request, f: SearchState, best: SearchState, seen: map<set<string>, u32>,
                  seen': map<set<string>, u32>, done: set<set<string>>, last: nat)
    requires DoneSound(request, best, seen, done, last) && last <= f.cost
    requires f.available in seen && seen[f.available] <= f.cost
    requires f.available !in done ==> seen[f.available] == f.cost
    requires !(request.requiredOutputs <= f.available)
    requires forall s :: s in done + {f.available} ==> s in seen' && s in seen && seen'[s] == seen[s]
    ensures DoneSound(request, Best(request, f, best), seen', done + {f.available}, f.cost)
  {
    forall s | s in done + {f.available}
      ensures s in seen' && seen'[s] <= f.cost && !(request.requiredOutputs <= s)
      ensures BestCovers(request, Best(request, f, best), s, seen'[s])
    {
      BestKeepsCovering(request, f, best, s, seen'[s]);
      assert s in done || s == f.available;
    }
  }

  lemma DoneStays(request: Request, best: SearchState, seen: map<set<string>, u32>, done: set<set<string>>, last: nat)
    requires DoneSound(request, best, seen, done, last)
    ensures forall s :: s in done ==> s in seen
  {
  }

  lemma StillTracked(frontier: seq<SearchState>, frontier': seq<SearchState>, seen: map<set<string>, u32>,
                     seen': map<set<string>, u32>, done: set<set<string>>)
    requires frontier != [] && Tracked(frontier, seen, done)
    requires |frontier| - 1 <= |frontier'| && frontier'[..|frontier| - 1] == frontier[1..]
    requires Improved(|frontier| - 1, seen, frontier', seen')
    ensures Tracked(frontier', seen', done + {frontier[0].available})
  {
    forall s | s in seen' && s !in done + {frontier[0].available}
      ensures Waiting(frontier', s, seen'[s])
    {
      if s in seen && seen'[s] == seen[s] {
        assert Waiting(frontier, s, seen[s]);
        var i :| 0 <= i < |frontier| && frontier[i].available == s && frontier[i].cost == seen[s];
        assert frontier'[i - 1] == frontier[1..][i - 1];
      }
    }
  }

  /** The depth cut: nothing new, and the popped set counts as expanded. */
  lemma CutStep(graph: Graph, request: Request, frontier: seq<SearchState>, best: SearchState,
                seen: map<set<string>, u32>, done: set<set<string>>, last: nat)
    requires Search(graph, request, frontier, best, seen, done, last)
    requires frontier != [] && Sorting.Sorted(KeyAtMost, frontier)
    requires !(request.requiredOutputs <= frontier[0].available)
    requires |frontier[0].path| >= MAX_GRAPH_DEPTH
    ensures var f := frontier[0];
            Search(graph, request, frontier[1..], Best(request, f, best), seen, done + {f.available}, f.cost)
  {
    hide DepthLimit, Genuine, Relaxed, DoneSound;
    var f := frontier[0];
    PoppedIsCurrent(graph, request, frontier, best, seen, done, last);
    DoneStays(request, best, seen, done, last);
    DoneGrows(request, f, best, seen, seen, done, last);
    StillTracked(frontier, frontier[1..], seen, seen, done);
    RestSound(graph, request, frontier, seen, last);
    CutRelaxed(graph, request, f, seen, done);
  }

  lemma CutRelaxed(graph: Graph, request: Request, f: SearchState, seen: map<set<string>, u32>, done: set<set<string>>)
    requires Genuine(graph, request, f) && |f.path| >= MAX_GRAPH_DEPTH
    requires Relaxed(graph, request, seen, done)
    requires f.available !in done && f.available in seen ==> seen[f.available] == f.cost
    ensures Relaxed(graph, request, seen, done + {f.available})
  {
    hide DepthLimit, Genuine, Permitted, NeedsMet;
    var limit := DepthLimit(graph, request);
    forall s, c | s in done + {f.available} && s in seen && c in graph.contracts
      ensures RelaxedBy(request, seen, s, seen[s], c, limit)
    {
      if s !in done && Permitted(request, c) && NeedsMet(c, s) && seen[s] + c.costUnits < limit {
        DeepStateIsStuck(graph, request, f, c);
        assert s + Outputs(c) == s;
      }
    }
  }

  lemma RestSound(graph: Graph, request: Request, frontier: seq<SearchState>, seen: map<set<string>, u32>, last: nat)
    requires frontier != [] && Sorting.Sorted(KeyAtMost, frontier)
    requires FrontierSound(graph, request, frontier, seen, last)
    ensures FrontierSound(graph, request, frontier[1..], seen, frontier[0].cost)
  {
    forall i | 0 <= i < |frontier[1..]| ensures frontier[0].cost <= frontier[1..][i].cost {
      assert KeyAtMost(frontier[0], frontier[i + 1]);
    }
  }

  lemma ChildIsGenuine(graph: Graph, request: Request, state: SearchState, c: Contract)
    requires Genuine(graph, request, state) && |state.path| < MAX_GRAPH_DEPTH
    requires Offers(graph, request, state, c)
    ensures Genuine(graph, request, Child(graph, request, state, c))
  {
    hide Admissible, Progressive, Permitted, NeedsMet, Names, Cost, AvailableAfter;
    var route :| Follows(graph, request, state, route);
    Extend(graph, request, route, c);
    assert Follows(graph, request, Child(graph, request, state, c), route + [c]);
  }

  lemma NewChildDearer(graph: Graph, request: Request, f: SearchState, seen: map<set<string>, u32>,
                       seen': map<set<string>, u32>, child: SearchState)
    requires GoodContracts(graph) && NewChild(graph, request, f, seen, seen', child)
    ensures f.cost < child.cost && (child.available in seen ==> child.cost < seen[child.available])
  {
    hide NeedsMet, Permitted;
    var c :| Offers(graph, request, f, c) && child == Child(graph, request, f, c);
    assert ValidContract(c);
  }

  /** Sets already expanded keep their known cost: everything new is dearer. */
  lemma DoneUnchanged(graph: Graph, request: Request, f: SearchState, start: nat, best: SearchState,
                      seen: map<set<string>, u32>, frontier': seq<SearchState>, seen': map<set<string>, u32>,
                      done: set<set<string>>, last: nat)
    requires GoodContracts(graph)
    requires DoneSound(request, best, seen, done, last) && last <= f.cost
    requires f.available in seen && seen[f.available] <= f.cost
    requires Improved(start, seen, frontier', seen')
    requires AllNew(graph, request, f, start, seen, frontier', seen')
    ensures forall s :: s in done + {f.available} ==> s in seen && s in seen' && seen'[s] == seen[s]
  {
    hide NewChild, BestCovers, GoodContracts;
    forall k | start <= k < |frontier'|
      ensures f.cost < frontier'[k].cost
      ensures frontier'[k].available in seen ==> frontier'[k].cost < seen[frontier'[k].available]
    {
      NewChildDearer(graph, request, f, seen, seen', frontier'[k]);
    }
    forall s | s in done + {f.available} ensures s in seen && s in seen' && seen'[s] == seen[s] {
      assert s in seen && seen[s] <= f.cost;
    }
  }

  lemma NewFrontierSound(graph: Graph, request: Request, f: SearchState, rest: seq<SearchState>,
                         seen: map<set<string>, u32>, frontier': seq<SearchState>, seen': map<set<string>, u32>)
    requires Genuine(graph, request, f) && |f.path| < MAX_GRAPH_DEPTH
    requires FrontierSound(graph, request, rest, seen, f.cost)
    requires |rest| <= |frontier'| && frontier'[..|rest|] == rest
    requires Improved(|rest|, seen, frontier', seen')
    requires AllNew(graph, request, f, |rest|, seen, frontier', seen')
    ensures FrontierSound(graph, request, frontier', seen', f.cost)
  {
    forall i | 0 <= i < |frontier'|
      ensures Genuine(graph, request, frontier'[i]) && frontier'[i].available in seen'
      ensures seen'[frontier'[i].available] <= frontier'[i].cost && f.cost <= frontier'[i].cost
    {
      if i < |rest| {
        assert frontier'[i] == rest[i];
      } else {
        assert NewChild(graph, request, f, seen, seen', frontier'[i]);
        var c :| Offers(graph, request, f, c) && frontier'[i] == Child(graph, request, f, c);
        ChildIsGenuine(graph, request, f, c);
      }
    }
  }

  lemma NewlyRelaxed(graph: Graph, request: Request, f: SearchState, seen: map<set<string>, u32>, c: Contract,
                     limit: nat)
    requires GoodContracts(graph) && Genuine(graph, request, f) && limit <= request.maximumCostUnits + 1
    requires c in graph.contracts && Settled(graph, request, f, seen, c)
    requires f.available in seen && seen[f.available] <= f.cost
    ensures RelaxedBy(request, seen, f.available, f.cost, c, limit)
  {
    if Outputs(c) <= f.available {
      assert f.available + Outputs(c) == f.available;
    } else if c.capabilityId in f.path {
      UsedContractAddsNothing(graph, request, f, c);
    }
  }

  lemma StillRelaxed(graph: Graph, request: Request, f: SearchState, seen: map<set<string>, u32>, start: nat,
                     frontier': seq<SearchState>, seen': map<set<string>, u32>, done: set<set<string>>)
    requires GoodContracts(graph) && Genuine(graph, request, f)
    requires Relaxed(graph, request, seen, done)
    requires forall s :: s in done + {f.available} ==> s in seen && s in seen' && seen'[s] == seen[s]
    requires f.available !in done ==> seen[f.available] == f.cost
    requires Improved(start, seen, frontier', seen')
    requires forall i :: 0 <= i < |graph.contracts| ==> Settled(graph, request, f, seen', graph.contracts[i])
    ensures Relaxed(graph, request, seen', done + {f.available})
  {
    hide DepthLimit;
    var limit := DepthLimit(graph, request);
    forall s, c | s in done + {f.available} && s in seen' && c in graph.contracts
      ensures RelaxedBy(request, seen', s, seen'[s], c, limit)
    {
      if s in done {
        assert RelaxedBy(request, seen, s, seen[s], c, limit);
      } else {
        var i :| 0 <= i < |graph.contracts| && graph.contracts[i] == c;
        DepthLimitAffordable(graph, request);
        NewlyRelaxed(graph, request, f, seen', c, limit);
      }
    }
  }

  lemma DepthLimitAffordable(graph: Graph, request: Request)
    ensures DepthLimit(graph, request) <= request.maximumCostUnits + 1
  {
  }

  lemma ExpandStep(graph: Graph, request: Request, frontier: seq<SearchState>, best: SearchState,
                   seen: map<set<string>, u32>, done: set<set<string>>, last: nat,
                   frontier': seq<SearchState>, seen': map<set<string>, u32>)
    requires Search(graph, request, frontier, best, seen, done, last)
    requires frontier != [] && Sorting.Sorted(KeyAtMost, frontier)
    requires !(request.requiredOutputs <= frontier[0].available)
    requires |frontier[0].path| < MAX_GRAPH_DEPTH
    requires Expanded(graph, request, frontier[0], |graph.contracts|, frontier[1..], seen, frontier', seen')
    ensures var f := frontier[0];
            Search(graph, request, frontier', Best(request, f, best), seen', done + {f.available}, f.cost)
  {
    hide DepthLimit, Genuine, Relaxed, DoneSound, AllNew, Improved;
    var f := frontier[0];
    PoppedIsCurrent(graph, request, frontier, best, seen, done, last);
    DoneUnchanged(graph, request, f, |frontier| - 1, best, seen, frontier', seen', done, last);
    DoneGrows(request, f, best, seen, seen', done, last);
    StillTracked(frontier, frontier', seen, seen', done);
    RestSound(graph, request, frontier, seen, last);
    NewFrontierSound(graph, request, f, frontier[1..], seen, frontier', seen');
    StillRelaxed(graph, request, f, seen, |frontier| - 1, frontier', seen', done);
  }

  // ---- How many expansions there can be ----

  /** The sets that may be expanded within the depth cut. */
  ghost predicate Expandable(graph: Graph, request: Request, s: set<string>) {
    && !(request.requiredOutputs <= s)
    && exists route :: Admissible(graph, request, route) && Progressive(request.availableInputs, route)
                       && |route| < MAX_GRAPH_DEPTH && AvailableAfter(request.availableInputs, route) == s
  }

  /** The sets expanded within the depth cut, with the cost they were first expanded at: every
      affordable way on from there is known as cheaply. */
  ghost predicate Entered(graph: Graph, request: Request, seen: map<set<string>, u32>, entered: map<set<string>, nat>,
                          last: nat) {
    && (forall s :: s in entered ==> entered[s] <= last && Expandable(graph, request, s))
    && forall s, c :: s in entered && c in graph.contracts ==>
         RelaxedBy(request, seen, s, entered[s], c, request.maximumCostUnits + 1)
  }

  /** Every state put on the frontier is a child of the first expansion of some set, and distinct sets
      use distinct sets of contracts. */
  ghost predicate Counted(graph: Graph, request: Request, frontierLength: nat, expandedStates: nat,
                          firsts: set<set<Contract>>, entered: map<set<string>, nat>)
  {
    && WithinWeight(graph, request, frontierLength + expandedStates, firsts, entered)
    && WithinStates(graph, request, frontierLength + expandedStates, entered)
  }

  ghost predicate WithinWeight(graph: Graph, request: Request, total: nat, firsts: set<set<Contract>>,
                               entered: map<set<string>, nat>) {
    && (forall u :: u in firsts ==> u <= Usable(graph, request) && Pool(request.availableInputs, u) in entered)
    && total <= 1 + Weight(firsts, Usable(graph, request))
  }

  ghost predicate WithinStates(graph: Graph, request: Request, total: nat, entered: map<set<string>, nat>) {
    forall m: nat :: FewStepsFrom(graph, request, entered.Keys, m) ==> total <= 1 + m * |entered|
  }

  ghost predicate FewStepsFrom(graph: Graph, request: Request, sets: set<set<string>>, m: nat) {
    forall s :: s in sets ==> |Steps(graph, request, s)| <= m
  }

  /** Expanding a set again adds nothing. */
  lemma ReexpansionAddsNothing(graph: Graph, request: Request, f: SearchState, start: nat, seen: map<set<string>, u32>,
                               frontier': seq<SearchState>, seen': map<set<string>, u32>, entered: map<set<string>,
                               nat>, last: nat)
    requires Entered(graph, request, seen, entered, last) && last <= f.cost
    requires f.available in entered
    requires AllNew(graph, request, f, start, seen, frontier', seen')
    ensures |frontier'| <= start
  {
    if start < |frontier'| {
      EnteredHasNoNewChild(graph, request, f, seen, seen', entered, last, frontier'[start]);
    }
  }

  lemma EnteredHasNoNewChild(graph: Graph, request: Request, f: SearchState, seen: map<set<string>, u32>,
                            seen': map<set<string>, u32>, entered: map<set<string>, nat>, last: nat, child: SearchState)
    requires Entered(graph, request, seen, entered, last) && last <= f.cost
    requires f.available in entered
    ensures !NewChild(graph, request, f, seen, seen', child)
  {
    hide Expandable;
    forall c | Offers(graph, request, f, c) && child == Child(graph, request, f, c)
      ensures child.available in seen && seen[child.available] <= child.cost
    {
      assert RelaxedBy(request, seen, f.available, entered[f.available], c, request.maximumCostUnits + 1);
    }
  }

  /** What is known only improves, so what was entered stays so. */
  lemma StillEntered(graph: Graph, request: Request, start: nat, seen: map<set<string>, u32>,
                     frontier': seq<SearchState>,
                    seen': map<set<string>, u32>, entered: map<set<string>, nat>, last: nat, later: nat)
    requires Entered(graph, request, seen, entered, last) && last <= later
    requires Improved(start, seen, frontier', seen')
    ensures Entered(graph, request, seen', entered, later)
  {
    hide Expandable;
    forall s, c | s in entered && c in graph.contracts
      ensures RelaxedBy(request, seen', s, entered[s], c, request.maximumCostUnits + 1)
    {
      assert RelaxedBy(request, seen, s, entered[s], c, request.maximumCostUnits + 1);
    }
  }

  lemma ExpandableState(graph: Graph, request: Request, f: SearchState)
    requires Genuine(graph, request, f) && |f.path| < MAX_GRAPH_DEPTH && !(request.requiredOutputs <= f.available)
    ensures Expandable(graph, request, f.available)
  {
    hide Admissible, Progressive, AvailableAfter, Cost;
    var route :| Follows(graph, request, f, route);
    assert |route| == |f.path|;
  }

  lemma NewlyEntered(graph: Graph, request: Request, f: SearchState, seen: map<set<string>, u32>,
                     entered: map<set<string>, nat>, last: nat)
    requires GoodContracts(graph) && Genuine(graph, request, f) && |f.path| < MAX_GRAPH_DEPTH
    requires !(request.requiredOutputs <= f.available)
    requires Entered(graph, request, seen, entered, last) && last <= f.cost
    requires f.available in seen && seen[f.available] <= f.cost
    requires forall i :: 0 <= i < |graph.contracts| ==> Settled(graph, request, f, seen, graph.contracts[i])
    ensures Entered(graph, request, seen, entered[f.available := f.cost], f.cost)
  {
    hide Expandable, Genuine, Settled, RelaxedBy, GoodContracts;
    var entered' := entered[f.available := f.cost];
    ExpandableState(graph, request, f);
    forall s, c | s in entered' && c in graph.contracts
      ensures RelaxedBy(request, seen, s, entered'[s], c, request.maximumCostUnits + 1)
    {
      if s == f.available {
        var i :| 0 <= i < |graph.contracts| && graph.contracts[i] == c;
        NewlyRelaxed(graph, request, f, seen, c, request.maximumCostUnits + 1);
      }
    }
  }

  /** The contracts a state has used are those its expansion leaves out. */
  lemma FirstExpansion(graph: Graph, request: Request, f: SearchState) returns (used: set<Contract>)
    requires GoodContracts(graph) && Genuine(graph, request, f)
    ensures used <= Usable(graph, request)
    ensures Pool(request.availableInputs, used) == f.available
    ensures Usable(graph, request) - used == Unused(graph, request, f)
  {
    var route :| Follows(graph, request, f, route);
    used := Used(route);
    AdmissibleIsUsable(graph, request, route);
    AvailableIsPool(request.availableInputs, route);
    UsedByName(graph, request, route);
  }

  lemma UsedByName(graph: Graph, request: Request, route: seq<Contract>)
    requires Distinct(graph.contracts) && Used(route) <= Usable(graph, request)
    ensures forall c :: c in Usable(graph, request) ==> (c in Used(route) <==> c.capabilityId in Names(route))
  {
    forall c | c in Usable(graph, request) ensures c in Used(route) <==> c.capabilityId in Names(route) {
      if c in Used(route) {
        var i :| 0 <= i < |route| && route[i] == c;
        assert Names(route)[i] == c.capabilityId;
      }
      if c.capabilityId in Names(route) {
        var i :| 0 <= i < |route| && Names(route)[i] == c.capabilityId;
        assert route[i] in Used(route);
        SameId(graph, route[i], c);
      }
    }
  }

  lemma WeighFirst(graph: Graph, request: Request, f: SearchState, total: nat, firsts: set<set<Contract>>,
                   entered: map<set<string>, nat>)
    returns (firsts': set<set<Contract>>)
    requires GoodContracts(graph) && Genuine(graph, request, f) && f.available !in entered
    requires WithinWeight(graph, request, total, firsts, entered)
    ensures WithinWeight(graph, request, total + |Unused(graph, request, f)|, firsts', entered[f.available := f.cost])
  {
    var used := FirstExpansion(graph, request, f);
    firsts' := firsts + {used};
    AddedWeight(graph, request, f, total, firsts, entered, used);
  }

  lemma AddedWeight(graph: Graph, request: Request, f: SearchState, total: nat, firsts: set<set<Contract>>,
                    entered: map<set<string>, nat>, used: set<Contract>)
    requires f.available !in entered && WithinWeight(graph, request, total, firsts, entered)
    requires used <= Usable(graph, request) && Pool(request.availableInputs, used) == f.available
    requires Usable(graph, request) - used == Unused(graph, request, f)
    ensures WithinWeight(graph, request, total + |Unused(graph, request, f)|, firsts + {used},
                         entered[f.available := f.cost])
  {
    hide Usable, Unused, Pool, Weight;
    assert used !in firsts;
    WeightAdd(firsts, Usable(graph, request), used);
  }

  lemma StatesFirst(graph: Graph, request: Request, f: SearchState, total: nat, entered: map<set<string>, nat>)
    requires f.available !in entered && WithinStates(graph, request, total, entered)
    ensures WithinStates(graph, request, total + |Steps(graph, request, f.available)|, entered[f.available := f.cost])
  {
    hide Steps;
    var entered' := entered[f.available := f.cost];
    OneMore(entered, f.available, f.cost);
    forall m: nat | FewStepsFrom(graph, request, entered'.Keys, m)
      ensures total + |Steps(graph, request, f.available)| <= 1 + m * |entered'|
    {
      assert FewStepsFrom(graph, request, entered.Keys, m);
      assert f.available in entered'.Keys;
      TimesOneMore(m, |entered|, |entered'|);
    }
  }

  lemma CountFirst(graph: Graph, request: Request, f: SearchState, waiting: nat, length: nat, expandedStates: nat,
                   firsts: set<set<Contract>>, entered: map<set<string>, nat>) returns (firsts': set<set<Contract>>)
    requires GoodContracts(graph) && Genuine(graph, request, f) && f.available !in entered
    requires length <= waiting + |Unused(graph, request, f)| && length <= waiting + |Steps(graph, request, f.available)|
    requires Counted(graph, request, waiting + 1, expandedStates, firsts, entered)
    ensures Counted(graph, request, length, expandedStates + 1, firsts', entered[f.available := f.cost])
  {
    hide Genuine, GoodContracts, Usable, Unused, Pool, Weight, Steps, FewStepsFrom;
    firsts' := WeighFirst(graph, request, f, waiting + 1 + expandedStates, firsts, entered);
    StatesFirst(graph, request, f, waiting + 1 + expandedStates, entered);
  }

  lemma OneMore(entered: map<set<string>, nat>, s: set<string>, cost: nat)
    requires s !in entered
    ensures |entered[s := cost]| == |entered| + 1
  {
    assert entered[s := cost].Keys == entered.Keys + {s};
  }

  lemma TimesOneMore(n: nat, k: nat, m: nat)
    requires m == k + 1
    ensures n * m == n * k + n
  {
  }

  /** The first expansion of a set counts with its unused contracts, any other not at all. */
  lemma CountStep(graph: Graph, request: Request, f: SearchState, waiting: nat, seen: map<set<string>, u32>, last: nat,
                  frontier': seq<SearchState>, seen': map<set<string>, u32>,
                  expandedStates: nat, firsts: set<set<Contract>>, entered: map<set<string>, nat>)
    returns (firsts': set<set<Contract>>, entered': map<set<string>, nat>)
    requires GoodContracts(graph) && Genuine(graph, request, f) && |f.path| < MAX_GRAPH_DEPTH
    requires !(request.requiredOutputs <= f.available)
    requires Entered(graph, request, seen, entered, last) && last <= f.cost
    requires f.available in seen && seen[f.available] <= f.cost
    requires waiting <= |frontier'| && Improved(waiting, seen, frontier', seen')
    requires AllNew(graph, request, f, waiting, seen, frontier', seen')
    requires forall i :: 0 <= i < |graph.contracts| ==> Settled(graph, request, f, seen', graph.contracts[i])
    requires |frontier'| <= waiting + |Unused(graph, request, f)|
    requires |frontier'| <= waiting + |Steps(graph, request, f.available)|
    requires Counted(graph, request, waiting + 1, expandedStates, firsts, entered)
    ensures Counted(graph, request, |frontier'|, expandedStates + 1, firsts', entered')
    ensures Entered(graph, request, seen', entered', f.cost)
    ensures entered' == if f.available in entered then entered else entered[f.available := f.cost]
  {
    hide Entered, Genuine, GoodContracts, Settled, NewChild, Unused, Usable;
    StillEntered(graph, request, waiting, seen, frontier', seen', entered, last, f.cost);
    assert f.available in seen' && seen'[f.available] <= f.cost;
    if f.available in entered {
      ReexpansionAddsNothing(graph, request, f, waiting, seen, frontier', seen', entered, last);
      hide Pool, Weight;
      firsts', entered' := firsts, entered;
    } else {
      hide Counted;
      NewlyEntered(graph, request, f, seen', entered, f.cost);
      entered' := entered[f.available := f.cost];
      firsts' := CountFirst(graph, request, f, waiting, |frontier'|, expandedStates, firsts, entered);
    }
  }

  lemma ExpansionTotal(graph: Graph, request: Request, frontierLength: nat, expandedStates: nat,
                       firsts: set<set<Contract>>, entered: map<set<string>, nat>)
    requires Counted(graph, request, frontierLength, expandedStates, firsts, entered)
    ensures 2 * (frontierLength + expandedStates) <= 2 + |Usable(graph, request)| * Pow2(|Usable(graph, request)|)
  {
    WeightBound(firsts, Usable(graph, request));
  }

  ghost predicate HoldsExpandable(graph: Graph, request: Request, family: set<set<string>>) {
    forall s :: Expandable(graph, request, s) ==> s in family
  }

  /** No expandable set has more than `m` ways on. */
  ghost predicate FewSteps(graph: Graph, request: Request, m: nat) {
    forall s :: Expandable(graph, request, s) ==> |Steps(graph, request, s)| <= m
  }

  /** Any family that holds all expandable sets, with the number of ways on from each, bounds the
      expansions. */
  ghost predicate BoundedByStates(graph: Graph, request: Request, expandedStates: nat) {
    forall family, m: nat :: HoldsExpandable(graph, request, family) && FewSteps(graph, request, m) ==>
      expandedStates <= 1 + m * |family|
  }

  lemma ExpansionStates(graph: Graph, request: Request, seen: map<set<string>, u32>, last: nat, frontierLength: nat,
                        expandedStates: nat,
                        firsts: set<set<Contract>>, entered: map<set<string>, nat>)
    requires Counted(graph, request, frontierLength, expandedStates, firsts, entered)
    requires Entered(graph, request, seen, entered, last)
    ensures BoundedByStates(graph, request, frontierLength + expandedStates)
  {
    hide Expandable, WithinWeight, Steps;
    forall family, m: nat | HoldsExpandable(graph, request, family) && FewSteps(graph, request, m)
      ensures frontierLength + expandedStates <= 1 + m * |family|
    {
      assert FewStepsFrom(graph, request, entered.Keys, m);
      SubsetCount(entered.Keys, family);
      TimesAtMost(m, |entered.Keys|, |family|);
    }
  }

  lemma TimesAtMost(n: nat, a: nat, b: nat)
    requires a <= b
    ensures n * a <= n * b
  {
  }

  // ---- The planner ----

  lemma GenuinePlanIsSound(graph: Graph, request: Request, state: SearchState, expandedStates: nat)
    requires Genuine(graph, request, state)
    ensures SoundPlan(graph, request, BuildPlan(graph, request, state, expandedStates))
    ensures BuildPlan(graph, request, state, expandedStates).fullyResolved
            <==> request.requiredOutputs <= state.available
  {
    var plan := BuildPlan(graph, request, state, expandedStates);
    var route :| Follows(graph, request, state, route);
    assert PlanFollows(graph, request, plan, route);
    EmptyDifference(request.requiredOutputs, state.available);
  }

  /** No single affordable contract covers the required outputs. */
  ghost predicate NoFirstStepSuffices(graph: Graph, request: Request) {
    forall c ::
      (&& c in graph.contracts && Permitted(request, c)
       && NeedsMet(c, request.availableInputs) && c.costUnits <= request.maximumCostUnits)
      ==> !(request.requiredOutputs <= request.availableInputs + Outputs(c))
  }

  /** The planner's promise on every graph: the plan is sound; among all admissible routes below the
      depth limit a resolved plan is the cheapest, and an unresolved one, unless the expansion cut
      fired, is the best partial; and the number of expansions is bounded in two ways. */
  ghost predicate Delivered(graph: Graph, request: Request, plan: Plan) {
    && SoundPlan(graph, request, plan)
    && (plan.fullyResolved ==> CheapestBelow(graph, request, plan, DepthLimit(graph, request)))
    && (!plan.fullyResolved && plan.expandedStates < MAX_EXPANDED_STATES ==>
          ExhaustiveBelow(graph, request, plan, DepthLimit(graph, request)) && NoFirstStepSuffices(graph, request))
    && 2 * plan.expandedStates <= 2 + |Usable(graph, request)| * Pow2(|Usable(graph, request)|)
    && BoundedByStates(graph, request, plan.expandedStates)
  }

  /** Everything the planner's loop keeps. */
  ghost predicate LoopKeeps(graph: Graph, request: Request, frontier: seq<SearchState>, bestPartial: SearchState,
                            expandedStates: nat, visited: map<string, u32>, g: SearchHistory)
  {
    && Mirrors(visited, g.seen)
    && Search(graph, request, frontier, bestPartial, g.seen, g.done, g.last)
    && Entered(graph, request, g.seen, g.entered, g.last)
    && Counted(graph, request, |frontier|, expandedStates, g.firsts, g.entered)
    && StartEntered(request, frontier, bestPartial, expandedStates, g)
  }

  /** The first state expanded is the one that the search starts from. */
  ghost predicate StartEntered(request: Request, frontier: seq<SearchState>, bestPartial: SearchState,
                               expandedStates: nat, g: SearchHistory) {
    if expandedStates == 0 then
      bestPartial == SearchState(request.availableInputs, [], 0) && frontier == [bestPartial] && g.entered == map[]
    else
      bestPartial.available in g.done && request.availableInputs in g.entered && g.entered[request.availableInputs] == 0
  }

  datatype SearchHistory = SearchHistory(
    seen: map<set<string>, u32>, done: set<set<string>>, last: nat, firsts: set<set<Contract>>,
    entered: map<set<string>, nat>)

  lemma InitialLoop(graph: Graph, request: Request, initial: SearchState)
    requires GoodContracts(graph) && ValidRequest(request)
    requires initial == SearchState(request.availableInputs, [], 0)
    ensures LoopKeeps(graph, request, [initial], initial, 0, map[StateKey(initial.available) := 0],
                      SearchHistory(map[initial.available := 0], {}, 0, {}, map[]))
  {
    hide Mirrors, Search, Counted, Entered, GoodContracts, ValidSemanticTypeId, StateKey;
    InitialSearch(graph, request, initial);
    NothingCounted(graph, request, map[initial.available := 0]);
    InitialMirrors(initial.available);
  }

  lemma InitialMirrors(available: set<string>)
    requires SemanticTypes(available)
    ensures Mirrors(map[StateKey(available) := 0], map[available := 0])
  {
    assert available in map[available := 0 as u32];
  }

  lemma InitialSearch(graph: Graph, request: Request, initial: SearchState)
    requires GoodContracts(graph)
    requires initial == SearchState(request.availableInputs, [], 0)
    ensures Search(graph, request, [initial], initial, map[initial.available := 0], {}, 0)
  {
    hide GoodContracts, DepthLimit, RelaxedBy;
    assert [initial][0] == initial;
    assert Genuine(graph, request, initial) by { assert Follows(graph, request, initial, []); }
    assert Waiting([initial], initial.available, 0);
  }

  lemma NothingCounted(graph: Graph, request: Request, seen: map<set<string>, u32>)
    ensures Counted(graph, request, 1, 0, {}, map[]) && Entered(graph, request, seen, map[], 0)
  {
    hide Usable, Pool;
  }

  lemma LoopStep(graph: Graph, request: Request, frontier: seq<SearchState>, best: SearchState, expandedStates: nat,
                 visited: map<string, u32>, g: SearchHistory,
                 frontier': seq<SearchState>, visited': map<string, u32>, seen': map<set<string>, u32>)
    returns (g': SearchHistory)
    requires LoopKeeps(graph, request, frontier, best, expandedStates, visited, g)
    requires frontier != [] && Sorting.Sorted(KeyAtMost, frontier)
    requires !(request.requiredOutputs <= frontier[0].available)
    requires Mirrors(visited', seen')
    requires if |frontier[0].path| >= MAX_GRAPH_DEPTH then frontier' == frontier[1..] && seen' == g.seen
             else && Expanded(graph, request, frontier[0], |graph.contracts|, frontier[1..], g.seen, frontier', seen')
                  && |frontier'| - (|frontier| - 1) <= |Unused(graph, request, frontier[0])|
                  && |frontier'| - (|frontier| - 1) <= |Steps(graph, request, frontier[0].available)|
    ensures LoopKeeps(graph, request, frontier', Best(request, frontier[0], best), expandedStates + 1, visited', g')
    ensures g'.seen == seen'
  {
    PoppedFacts(graph, request, frontier, best, g);
    hide Search, Counted, Mirrors, Entered, Expanded, Genuine, GoodContracts, Unused, StartEntered, BetterPartial,
         KeyAtMost;
    var f := frontier[0];
    if |f.path| >= MAX_GRAPH_DEPTH {
      CutStep(graph, request, frontier, best, g.seen, g.done, g.last);
      g' := SearchHistory(seen', g.done + {f.available}, f.cost, g.firsts, g.entered);
      CutCount(graph, request, frontier, expandedStates, g, f.cost);
    } else {
      ExpandStep(graph, request, frontier, best, g.seen, g.done, g.last, frontier', seen');
      var firsts, entered := ExpandCount(graph, request, frontier, expandedStates, g, frontier', seen');
      g' := SearchHistory(seen', g.done + {f.available}, f.cost, firsts, entered);
    }
    StartStays(request, frontier, best, expandedStates, g, frontier', g');
  }

  lemma StartStays(request: Request, frontier: seq<SearchState>, best: SearchState, expandedStates: nat,
                   g: SearchHistory,
                   frontier': seq<SearchState>, g': SearchHistory)
    requires frontier != [] && StartEntered(request, frontier, best, expandedStates, g)
    requires var f := frontier[0];
             && g'.done == g.done + {f.available}
             && g'.entered == if |f.path| >= MAX_GRAPH_DEPTH || f.available in g.entered then g.entered
                              else g.entered[f.available := f.cost]
    ensures StartEntered(request, frontier', Best(request, frontier[0], best), expandedStates + 1, g')
  {
  }

  lemma PoppedFacts(graph: Graph, request: Request, frontier: seq<SearchState>, best: SearchState, g: SearchHistory)
    requires Search(graph, request, frontier, best, g.seen, g.done, g.last) && frontier != []
    ensures GoodContracts(graph) && Genuine(graph, request, frontier[0])
    ensures frontier[0].available in g.seen && g.seen[frontier[0].available] <= frontier[0].cost
    ensures g.last <= frontier[0].cost
    ensures best.available in g.done ==> Best(request, frontier[0], best).available in g.done + {frontier[0].available}
  {
  }

  lemma CutCount(graph: Graph, request: Request, frontier: seq<SearchState>, expandedStates: nat, g: SearchHistory,
                 later: nat)
    requires frontier != [] && Entered(graph, request, g.seen, g.entered, g.last) && g.last <= later
    requires Counted(graph, request, |frontier|, expandedStates, g.firsts, g.entered)
    ensures Entered(graph, request, g.seen, g.entered, later)
    ensures Counted(graph, request, |frontier[1..]|, expandedStates + 1, g.firsts, g.entered)
  {
    hide Expandable, RelaxedBy;
  }

  lemma ExpandCount(graph: Graph, request: Request, frontier: seq<SearchState>, expandedStates: nat, g: SearchHistory,
                    frontier': seq<SearchState>, seen': map<set<string>, u32>)
    returns (firsts': set<set<Contract>>, entered': map<set<string>, nat>)
    requires frontier != [] && GoodContracts(graph) && Genuine(graph, request, frontier[0])
    requires |frontier[0].path| < MAX_GRAPH_DEPTH
    requires !(request.requiredOutputs <= frontier[0].available)
    requires frontier[0].available in g.seen && g.seen[frontier[0].available] <= frontier[0].cost
    requires g.last <= frontier[0].cost
    requires Entered(graph, request, g.seen, g.entered, g.last)
    requires Counted(graph, request, |frontier|, expandedStates, g.firsts, g.entered)
    requires Expanded(graph, request, frontier[0], |graph.contracts|, frontier[1..], g.seen, frontier', seen')
    requires |frontier'| - (|frontier| - 1) <= |Unused(graph, request, frontier[0])|
    requires |frontier'| - (|frontier| - 1) <= |Steps(graph, request, frontier[0].available)|
    ensures Entered(graph, request, seen', entered', frontier[0].cost)
    ensures Counted(graph, request, |frontier'|, expandedStates + 1, firsts', entered')
    ensures entered' == if frontier[0].available in g.entered then g.entered
                        else g.entered[frontier[0].available := frontier[0].cost]
  {
    hide Entered, Counted, Improved, AllNew, Settled, Genuine;
    firsts',
    entered' := CountStep(graph, request, frontier[0], |frontier| - 1, g.seen, g.last, frontier', seen', expandedStates,
                                  g.firsts, g.entered);
  }

  lemma GoalReached(graph: Graph, request: Request, frontier: seq<SearchState>, best: SearchState, expandedStates: nat,
                    visited: map<string, u32>, g: SearchHistory)
    requires LoopKeeps(graph, request, frontier, best, expandedStates, visited, g)
    requires frontier != [] && Sorting.Sorted(KeyAtMost, frontier)
    requires request.requiredOutputs <= frontier[0].available
    ensures Delivered(graph, request, BuildPlan(graph, request, frontier[0], expandedStates + 1))
  {
    PoppedFacts(graph, request, frontier, best, g);
    GenuinePlanIsSound(graph, request, frontier[0], expandedStates + 1);
    PoppedGoalIsCheapest(graph, request, frontier, best, g.seen, g.done, g.last, expandedStates + 1);
    hide CheapestBelow, Counted, Search, Entered, Mirrors, SoundPlan, DepthLimit;
    ExpansionTotal(graph, request, |frontier|, expandedStates, g.firsts, g.entered);
    ExpansionStates(graph, request, g.seen, g.last, |frontier|, expandedStates, g.firsts, g.entered);
    FewerBounded(graph, request, |frontier| + expandedStates, expandedStates + 1);
  }

  lemma FewerBounded(graph: Graph, request: Request, more: nat, fewer: nat)
    requires BoundedByStates(graph, request, more) && fewer <= more
    ensures BoundedByStates(graph, request, fewer)
  {
  }

  lemma SearchEnded(graph: Graph, request: Request, frontier: seq<SearchState>, best: SearchState, expandedStates: nat,
                    visited: map<string, u32>, g: SearchHistory)
    requires LoopKeeps(graph, request, frontier, best, expandedStates, visited, g)
    requires frontier == [] || expandedStates >= MAX_EXPANDED_STATES
    ensures Delivered(graph, request, BuildPlan(graph, request, best, expandedStates))
  {
    if frontier == [] {
      ExhaustedSearch(graph, request, best, g.seen, g.done, g.last, expandedStates);
      StartExhausted(graph, request, best, expandedStates, g);
    }
    assert Genuine(graph, request, best);
    hide ExhaustiveBelow, CheapestBelow, NoFirstStepSuffices, Counted, Entered, Mirrors, SoundPlan, DepthLimit;
    GenuinePlanIsSound(graph, request, best, expandedStates);
    BestIsNoGoal(graph, request, frontier, best, expandedStates, g);
    hide Search;
    ExpansionTotal(graph, request, |frontier|, expandedStates, g.firsts, g.entered);
    ExpansionStates(graph, request, g.seen, g.last, |frontier|, expandedStates, g.firsts, g.entered);
    FewerBounded(graph, request, |frontier| + expandedStates, expandedStates);
  }

  lemma BestIsNoGoal(graph: Graph, request: Request, frontier: seq<SearchState>, best: SearchState, expandedStates: nat,
                     g: SearchHistory)
    requires Search(graph, request, frontier, best, g.seen, g.done, g.last)
    requires StartEntered(request, frontier, best, expandedStates, g)
    requires expandedStates > 0
    ensures !(request.requiredOutputs <= best.available)
  {
    hide Genuine, Relaxed, Tracked;
  }

  lemma StartExhausted(graph: Graph, request: Request, best: SearchState, expandedStates: nat, g: SearchHistory)
    requires Search(graph, request, [], best, g.seen, g.done, g.last)
    requires StartEntered(request, [], best, expandedStates, g)
    requires Entered(graph, request, g.seen, g.entered, g.last)
    ensures NoFirstStepSuffices(graph, request)
  {
    hide Genuine, Relaxed, Expandable;
    forall c | c in graph.contracts && Permitted(request, c) && NeedsMet(c, request.availableInputs)
               && c.costUnits <= request.maximumCostUnits
      ensures !(request.requiredOutputs <= request.availableInputs + Outputs(c))
    {
      assert RelaxedBy(request, g.seen, request.availableInputs, 0, c, request.maximumCostUnits + 1);
      var s := request.availableInputs + Outputs(c);
      assert s !in g.done ==> Waiting([], s, g.seen[s]);
    }
  }

  /** The contracts behind the names of a delivered plan pass the request's filters. */
  lemma NamedContractsPass(graph: Graph, request: Request, plan: Plan)
    requires GoodContracts(graph) && Delivered(graph, request, plan)
    ensures |plan.capabilityPath| <= 8
    ensures forall c :: c in graph.contracts && c.capabilityId in plan.capabilityPath ==> PassesFilters(request, c)
  {
    hide CheapestBelow, ExhaustiveBelow, BoundedByStates, NoFirstStepSuffices, DepthLimit, PlanFollows, PassesFilters;
    var route :| PlanFollows(graph, request, plan, route);
    FollowedRoute(graph, request, plan, route);
    forall c | c in graph.contracts && c.capabilityId in plan.capabilityPath ensures PassesFilters(request, c) {
      var i :| 0 <= i < |plan.capabilityPath| && plan.capabilityPath[i] == c.capabilityId;
      SameId(graph, route[i], c);
    }
  }

  lemma PlanCounts(graph: Graph, request: Request, state: SearchState, expandedStates: nat)
    ensures BuildPlan(graph, request, state, expandedStates).expandedStates == expandedStates
  {
  }

  method PlanSemanticComposition(graph: Graph, request: Request) returns (r: Result<Plan, CompositionError>)
    ensures r.Success? <==> ValidGraph(graph) && ValidRequest(request)
    ensures r.Failure? ==> r.error == if ValidGraph(graph) then InvalidRequest else InvalidGraph
    ensures r.Success? ==> Delivered(graph, request, r.value)
    ensures r.Success? ==> forall c :: c in graph.contracts && c.capabilityId in r.value.capabilityPath ==>
              PassesFilters(request, c)
    ensures r.Success? ==> |r.value.capabilityPath| <= 8 && r.value.expandedStates <= 2048
  {
    hide LoopKeeps, Mirrors, Delivered, Expanded, BetterPartial, ValidGraph, ValidRequest, StateKey, BuildPlan,
         PassesFilters;
    if !ValidGraph(graph) { return Failure(InvalidGraph); }
    if !ValidRequest(request) { return Failure(InvalidRequest); }
    ValidGraphContracts(graph);
    var initial := SearchState(request.availableInputs, [], 0);
    var frontier, bestPartial := [initial], initial;
    var visited: map<string, u32> := map[StateKey(initial.available) := 0];
    var expandedStates := 0;
    ghost var g := SearchHistory(map[initial.available := 0], {}, 0, {}, map[]);
    InitialLoop(graph, request, initial);
    while frontier != [] && expandedStates < MAX_EXPANDED_STATES
      invariant LoopKeeps(graph, request, frontier, bestPartial, expandedStates, visited, g)
      invariant expandedStates <= 2048
      decreases MAX_EXPANDED_STATES - expandedStates
    {
      SortedFrontier(graph, request, frontier, bestPartial, expandedStates, visited, g);
      frontier := Sorting.Sort(KeyAtMost, frontier);
      ghost var sorted, best, visited0 := frontier, bestPartial, visited;
      var state := frontier[0];
      frontier := frontier[1..];
      expandedStates := expandedStates + 1;
      if request.requiredOutputs <= state.available {
        GoalReached(graph, request, sorted, best, expandedStates - 1, visited, g);
        NamedContractsPass(graph, request, BuildPlan(graph, request, state, expandedStates));
        PlanCounts(graph, request, state, expandedStates);
        return Success(BuildPlan(graph, request, state, expandedStates));
      }
      if BetterPartial(state, bestPartial, request) {
        bestPartial := state;
      }
      ghost var seen := g.seen;
      if |state.path| < MAX_GRAPH_DEPTH {
        PoppedIsTyped(graph, request, sorted, best, expandedStates - 1, visited, g);
        visited, frontier, seen := Expand(graph, request, state, visited, frontier, seen);
      }
      g := LoopStep(graph, request, sorted, best, expandedStates - 1, visited0, g, frontier, visited, seen);
    }
    SearchEnded(graph, request, frontier, bestPartial, expandedStates, visited, g);
    NamedContractsPass(graph, request, BuildPlan(graph, request, bestPartial, expandedStates));
    PlanCounts(graph, request, bestPartial, expandedStates);
    return Success(BuildPlan(graph, request, bestPartial, expandedStates));
  }

  lemma PoppedIsTyped(graph: Graph, request: Request, frontier: seq<SearchState>, best: SearchState,
                      expandedStates: nat,
                      visited: map<string, u32>, g: SearchHistory)
    requires LoopKeeps(graph, request, frontier, best, expandedStates, visited, g) && frontier != []
    ensures GoodContracts(graph) && SemanticTypes(frontier[0].available)
    ensures Mirrors(visited, g.seen)
  {
  }

  /** Sorting the frontier changes neither its states nor the invariant. */
  lemma SortedFrontier(graph: Graph, request: Request, frontier: seq<SearchState>, best: SearchState,
                       expandedStates: nat, visited: map<string, u32>, g: SearchHistory)
    requires LoopKeeps(graph, request, frontier, best, expandedStates, visited, g)
    ensures var sorted := Sorting.Sort(KeyAtMost, frontier);
            && LoopKeeps(graph, request, sorted, best, expandedStates, visited, g)
            && Sorting.Sorted(KeyAtMost, sorted)
            && |sorted| == |frontier|
  {
    var sorted := Sorting.Sort(KeyAtMost, frontier);
    KeyOrder();
    Sorting.SortSorted(KeyAtMost, frontier);
    Sorting.SameElements(sorted, frontier);
    SortedSearch(graph, request, frontier, sorted, best, g);
    if frontier == [best] {
      assert sorted[0] in frontier;
    }
  }

  lemma SortedSearch(graph: Graph, request: Request, frontier: seq<SearchState>, sorted: seq<SearchState>,
                     best: SearchState, g: SearchHistory)
    requires Search(graph, request, frontier, best, g.seen, g.done, g.last)
    requires forall x :: x in sorted <==> x in frontier
    ensures Search(graph, request, sorted, best, g.seen, g.done, g.last)
  {
    forall i | 0 <= i < |sorted|
      ensures Genuine(graph, request, sorted[i]) && sorted[i].available in g.seen
      ensures g.seen[sorted[i].available] <= sorted[i].cost && g.last <= sorted[i].cost
    {
      assert sorted[i] in frontier;
    }
    forall s | s in g.seen && s !in g.done ensures Waiting(sorted, s, g.seen[s]) {
      assert Waiting(frontier, s, g.seen[s]);
      var i :| 0 <= i < |frontier| && frontier[i].available == s && frontier[i].cost == g.seen[s];
      assert frontier[i] in sorted;
    }
  }
}
