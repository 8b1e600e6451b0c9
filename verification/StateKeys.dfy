/** The planner's state key: available types in order, joined by a separator no identifier contains. */
module StateKeys {
  import opened Ordering
  import opened Capabilities

  const SEPARATOR: char := '\U{1f}'

  function Join(parts: seq<string>): string {
    if parts == [] then ""
    else if |parts| == 1 then parts[0]
    else parts[0] + [SEPARATOR] + Join(parts[1..])
  }

  function StateKey(available: set<string>): string {
    Join(Ascending(available))
  }

  ghost predicate Separable(parts: seq<string>) {
    forall i :: 0 <= i < |parts| ==> parts[i] != "" && SEPARATOR !in parts[i]
  }

  /** How the joined text looks around the end of its first part. */
  lemma JoinFirst(parts: seq<string>)
    requires parts != [] && Separable(parts)
    ensures |Join(parts)| >= |parts[0]| > 0
    ensures Join(parts)[..|parts[0]|] == parts[0]
    ensures |parts| == 1 ==> |Join(parts)| == |parts[0]|
    ensures |parts| > 1 ==> |Join(parts)| > |parts[0]| && Join(parts)[|parts[0]|] == SEPARATOR
                            && Join(parts)[|parts[0]| + 1..] == Join(parts[1..])
  {
  }

  lemma FirstNotShorter(a: seq<string>, b: seq<string>)
    requires a != [] && b != [] && Separable(a) && Separable(b) && Join(a) == Join(b)
    ensures |a[0]| >= |b[0]|
  {
    JoinFirst(a);
    JoinFirst(b);
    forall k | 0 <= k < |b[0]| ensures Join(b)[k] != SEPARATOR {
      assert Join(b)[k] == b[0][k] && b[0][k] in b[0];
    }
  }

  lemma {:induction false} JoinInjective(a: seq<string>, b: seq<string>)
    requires Separable(a) && Separable(b) && Join(a) == Join(b)
    ensures a == b
  {
    if a == [] {
      if b != [] { JoinFirst(b); }
    } else if b == [] {
      JoinFirst(a);
    } else {
      FirstNotShorter(a, b);
      FirstNotShorter(b, a);
      JoinFirst(a);
      JoinFirst(b);
      if |a| > 1 {
        JoinInjective(a[1..], b[1..]);
        assert a == [a[0]] + a[1..] && b == [b[0]] + b[1..];
      }
    }
  }

  ghost predicate SemanticTypes(available: set<string>) {
    forall item :: item in available ==> ValidSemanticTypeId(item)
  }

  lemma ValidIdsSeparable(available: set<string>)
    requires SemanticTypes(available)
    ensures Separable(Ascending(available))
  {
    var parts := Ascending(available);
    forall i | 0 <= i < |parts| ensures parts[i] != "" && SEPARATOR !in parts[i] {
      assert parts[i] in available;
      ValidIdCharacters(parts[i], 2);
    }
  }

  /** Distinct sets of valid semantic types never share a key. */
  lemma StateKeyInjective(a: set<string>, b: set<string>)
    requires SemanticTypes(a) && SemanticTypes(b)
    requires StateKey(a) == StateKey(b)
    ensures a == b
  {
    ValidIdsSeparable(a);
    ValidIdsSeparable(b);
    JoinInjective(Ascending(a), Ascending(b));
    assert forall x :: x in a <==> x in Ascending(a);
    assert forall x :: x in b <==> x in Ascending(b);
  }
}
