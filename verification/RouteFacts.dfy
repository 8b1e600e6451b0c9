/** Facts about routes on their own: what they make available, which contracts they use. */
module RouteFacts {
  import opened Capabilities
  import opened FiniteSets
  import opened Composition
  import opened Ordering

  lemma {:induction false} PathLessIrreflexive(a: seq<string>)
    ensures !PathLess(a, a)
    decreases |a|
  {
    if a != [] {
      PathLessIrreflexive(a[1..]);
      if Less(a[0], a[0]) { LessAsymmetric(a[0], a[0]); }
    }
  }

  /** A route's contracts as a set. */
  ghost function Used(route: seq<Contract>): set<Contract> {
    set c | c in route
  }

  ghost function Pool(inputs: set<string>, used: set<Contract>): set<string> {
    inputs + set c, x | c in used && x in c.produces :: x
  }

  /** What a route makes available depends only on which contracts it uses. */
  lemma {:induction false} AvailableIsPool(inputs: set<string>, route: seq<Contract>)
    ensures AvailableAfter(inputs, route) == Pool(inputs, Used(route))
  {
    if route != [] {
      var before, c := route[..|route| - 1], route[|route| - 1];
      AvailableIsPool(inputs, before);
      assert Used(route) == Used(before) + {c};
    }
  }

  lemma {:induction false} AdmissibleIsUsable(graph: Graph, request: Request, route: seq<Contract>)
    requires Admissible(graph, request, route)
    ensures Used(route) <= Usable(graph, request)
  {
    if route != [] {
      var before, c := route[..|route| - 1], route[|route| - 1];
      AdmissibleIsUsable(graph, request, before);
      assert Used(route) == Used(before) + {c};
    }
  }

  /** A route that keeps making progress never repeats a contract. */
  lemma {:induction false} ProgressiveLength(inputs: set<string>, route: seq<Contract>)
    requires Progressive(inputs, route)
    ensures |Used(route)| == |route|
  {
    if route != [] {
      var before, c := route[..|route| - 1], route[|route| - 1];
      ProgressiveLength(inputs, before);
      AvailableIsPool(inputs, before);
      assert Used(route) == Used(before) + {c};
    }
  }

  /** At most eight usable contracts make every request shallow. */
  lemma FewContractsAreShallow(graph: Graph, request: Request)
    requires |Usable(graph, request)| <= MAX_GRAPH_DEPTH
    ensures Shallow(graph, request)
  {
    forall route |
      Admissible(graph, request, route) && Progressive(request.availableInputs, route)
      ensures |route| <= MAX_GRAPH_DEPTH
    {
      AdmissibleIsUsable(graph, request, route);
      ProgressiveLength(request.availableInputs, route);
      SubsetCount(Used(route), Usable(graph, request));
    }
  }

  lemma Extend(graph: Graph, request: Request, route: seq<Contract>, c: Contract)
    requires Admissible(graph, request, route) && c in graph.contracts && Permitted(request, c)
    requires NeedsMet(c, AvailableAfter(request.availableInputs, route))
    ensures Admissible(graph, request, route + [c])
    ensures AvailableAfter(request.availableInputs, route + [c]) == AvailableAfter(request.availableInputs, route)
            + Outputs(c)
    ensures Cost(route + [c]) == Cost(route) + c.costUnits
    ensures Names(route + [c]) == Names(route) + [c.capabilityId]
    ensures Progressive(request.availableInputs, route)
            && !(Outputs(c) <= AvailableAfter(request.availableInputs, route))
            ==> Progressive(request.availableInputs, route + [c])
  {
    assert (route + [c])[..|route|] == route;
  }
}
