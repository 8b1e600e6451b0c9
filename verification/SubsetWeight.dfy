/** Counting over families of subsets: how many children all expansions together can have. */
module SubsetWeight {

  function Pow2(n: nat): nat {
    if n == 0 then 1 else 2 * Pow2(n - 1)
  }

  /** The members of `family` that do not use `x`. */
  ghost function Without<T>(family: set<set<T>>, x: T): set<set<T>> {
    set used | used in family && x !in used
  }

  /** The members of `family` that use `x`, with `x` taken out. */
  ghost function Reduced<T>(family: set<set<T>>, x: T): set<set<T>> {
    set used | used in family && x in used :: used - {x}
  }

  /** Sum over the family of how many elements of the universe each member leaves unused. */
  ghost function Weight<T>(family: set<set<T>>, universe: set<T>): nat
    requires forall used :: used in family ==> used <= universe
    decreases |family|
  {
    if family == {} then 0 else
    var used :| used in family;
    |universe - used| + Weight(family - {used}, universe)
  }

  lemma {:induction false} WeightRemove<T>(family: set<set<T>>, universe: set<T>, used: set<T>)
    requires forall u :: u in family ==> u <= universe
    requires used in family
    ensures Weight(family, universe) == |universe - used| + Weight(family - {used}, universe)
    decreases |family|
  {
    var picked :| picked in family
                  && Weight(family, universe) == |universe - picked| + Weight(family - {picked}, universe);
    if picked != used {
      WeightRemove(family - {picked}, universe, used);
      WeightRemove(family - {used}, universe, picked);
      assert family - {picked} - {used} == family - {used} - {picked};
    }
  }

  lemma WeightAdd<T>(family: set<set<T>>, universe: set<T>, used: set<T>)
    requires forall u :: u in family ==> u <= universe
    requires used !in family && used <= universe
    ensures Weight(family + {used}, universe) == |universe - used| + Weight(family, universe)
  {
    WeightRemove(family + {used}, universe, used);
    assert family + {used} - {used} == family;
  }

  ghost predicate Splits<T>(family: set<set<T>>, universe: set<T>, x: T)
    requires forall u :: u in family ==> u <= universe
  {
    var without, reduced, smaller := Without(family, x), Reduced(family, x), universe - {x};
    && (forall u :: u in without ==> u <= smaller)
    && (forall u :: u in reduced ==> u <= smaller)
    && |family| == |without| + |reduced|
    && Weight(family, universe) == Weight(without, smaller) + |without| + Weight(reduced, smaller)
  }

  lemma SplitWithout<T>(rest: set<set<T>>, universe: set<T>, x: T, used: set<T>)
    requires x in universe && used <= universe && used !in rest && x !in used
    requires forall u :: u in rest ==> u <= universe
    requires Splits(rest, universe, x)
    ensures Splits(rest + {used}, universe, x)
  {
    var family, smaller := rest + {used}, universe - {x};
    WeightAdd(rest, universe, used);
    assert Reduced(family, x) == Reduced(rest, x);
    assert Without(family, x) == Without(rest, x) + {used};
    WeightAdd(Without(rest, x), smaller, used);
    assert universe - used == (smaller - used) + {x};
  }

  lemma ReducedIsNew<T>(rest: set<set<T>>, x: T, used: set<T>)
    requires x in used && used !in rest
    ensures used - {x} !in Reduced(rest, x)
    ensures Without(rest + {used}, x) == Without(rest, x)
    ensures Reduced(rest + {used}, x) == Reduced(rest, x) + {used - {x}}
  {
    assert used == (used - {x}) + {x};
    forall u | u in rest && x in u ensures u - {x} != used - {x} {
      assert u == (u - {x}) + {x};
    }
  }

  lemma SplitReduced<T>(rest: set<set<T>>, universe: set<T>, x: T, used: set<T>)
    requires x in used && used <= universe && used !in rest
    requires forall u :: u in rest ==> u <= universe
    requires Splits(rest, universe, x)
    ensures Splits(rest + {used}, universe, x)
  {
    hide Without, Reduced;
    var family, smaller, less := rest + {used}, universe - {x}, used - {x};
    ReducedIsNew(rest, x, used);
    WeightAdd(rest, universe, used);
    WeightAdd(Reduced(rest, x), smaller, less);
    assert smaller - less == universe - used;
    OneMore(Reduced(rest, x), smaller, less);
  }

  lemma OneMore<T>(family: set<set<T>>, universe: set<T>, used: set<T>)
    requires used <= universe && used !in family
    requires forall u :: u in family ==> u <= universe
    ensures |family + {used}| == |family| + 1
    ensures forall u :: u in family + {used} ==> u <= universe
  {
  }

  /** Splitting a family on one element of the universe. */
  lemma {:induction false} WeightSplit<T>(family: set<set<T>>, universe: set<T>, x: T)
    requires x in universe
    requires forall u :: u in family ==> u <= universe
    ensures Splits(family, universe, x)
    decreases |family|
  {
    if family == {} {
      assert Without(family, x) == {} && Reduced(family, x) == {};
    } else {
      var used :| used in family;
      var rest := family - {used};
      WeightSplit(rest, universe, x);
      assert family == rest + {used};
      if x in used { SplitReduced(rest, universe, x, used); } else { SplitWithout(rest, universe, x, used); }
    }
  }

  lemma {:induction false} CountBound<T>(family: set<set<T>>, universe: set<T>)
    requires forall u :: u in family ==> u <= universe
    ensures |family| <= Pow2(|universe|)
    decreases |universe|
  {
    if universe == {} {
      forall u | u in family ensures u == {} {}
      assert family <= {{}};
      AtMostOne(family, {});
    } else {
      var x :| x in universe;
      WeightSplit(family, universe, x);
      CountBound(Without(family, x), universe - {x});
      CountBound(Reduced(family, x), universe - {x});
    }
  }

  lemma AtMostOne<T>(s: set<T>, x: T)
    requires s <= {x}
    ensures |s| <= 1
  {
    if s != {} { assert s == {x}; }
  }

  /** Over all subsets of `n` elements the unused elements number n * 2^(n-1) in total. */
  lemma {:induction false} WeightBound<T>(family: set<set<T>>, universe: set<T>)
    requires forall u :: u in family ==> u <= universe
    ensures 2 * Weight(family, universe) <= |universe| * Pow2(|universe|)
    decreases |universe|
  {
    if universe == {} {
      ZeroWeight(family);
    } else {
      var x :| x in universe;
      var n := |universe| - 1;
      assert |universe - {x}| == n;
      WeightSplit(family, universe, x);
      WeightBound(Without(family, x), universe - {x});
      WeightBound(Reduced(family, x), universe - {x});
      CountBound(Without(family, x), universe - {x});
      Doubling(n, Pow2(n), Weight(Without(family, x), universe - {x}), |Without(family, x)|,
               Weight(Reduced(family, x), universe - {x}));
    }
  }

  lemma Doubling(n: nat, power: nat, without: nat, count: nat, reduced: nat)
    requires 2 * without <= n * power && count <= power && 2 * reduced <= n * power
    ensures 2 * (without + count + reduced) <= (n + 1) * (2 * power)
  {
    assert (n + 1) * (2 * power) == n * power + n * power + 2 * power;
  }

  lemma {:induction false} ZeroWeight<T>(family: set<set<T>>)
    requires forall u :: u in family ==> u <= {}
    ensures Weight(family, {}) == 0
    decreases |family|
  {
    if family != {} {
      var used :| used in family;
      WeightRemove(family, {}, used);
      ZeroWeight(family - {used});
    }
  }

  /** With at most eight elements the total stays far below the planner's expansion cut. */
  lemma {:induction false} SmallTotals(n: nat)
    requires n <= 8
    ensures n * Pow2(n) <= 2048
  {
    if n < 8 {
      PowersGrow(n);
    } else {
      assert Pow2(8) == 256;
    }
  }

  lemma PowersGrow(n: nat)
    requires n < 8
    ensures Pow2(n) <= 128
  {
    assert Pow2(0) == 1 && Pow2(1) == 2 && Pow2(2) == 4 && Pow2(3) == 8;
    assert Pow2(4) == 16 && Pow2(5) == 32 && Pow2(6) == 64 && Pow2(7) == 128;
  }
}
