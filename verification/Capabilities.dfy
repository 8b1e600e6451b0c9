/** Semantic capability contracts and the identifier grammar they are validated against. */
module Capabilities {
  import opened MachineNumbers
  import opened Ordering
  import opened Text

  const CONTRACT_SPEC := "nimora.capability-semantic-contract/1"
  const MAX_SEMANTIC_TYPES := 32
  const MAX_PRECONDITIONS := 32
  const MAX_COST_UNITS := 1_000_000

  datatype DataClass = Public | Internal | Personal | Sensitive {
    function Rank(): nat {
      match this case Public => 0 case Internal => 1 case Personal => 2 case Sensitive => 3
    }
  }

  datatype Effect = ReadOnly | ReversibleWrite | IrreversibleWrite | ExternalSideEffect {
    function Rank(): nat {
      match this
      case ReadOnly => 0 case ReversibleWrite => 1 case IrreversibleWrite => 2 case ExternalSideEffect => 3
    }
  }

  datatype Contract = Contract(
    spec: string,
    capabilityId: string,
    needs: seq<string>,
    produces: seq<string>,
    preconditions: seq<string>,
    dataClasses: seq<DataClass>,
    effect: Effect,
    costUnits: u32,
    offlineAvailable: bool)

  predicate SegmentCharacter(c: char) {
    'a' <= c <= 'z' || '0' <= c <= '9' || c == '-'
  }

  predicate ValidSegment(segment: string) {
    segment != "" && |segment| <= 48 && forall i :: 0 <= i < |segment| ==> SegmentCharacter(segment[i])
  }

  predicate ValidNamespacedId(value: string, minimumSegments: nat) {
    && value != ""
    && |value| <= 128
    && |Split(value, '.')| >= minimumSegments
    && forall i :: 0 <= i < |Split(value, '.')| ==> ValidSegment(Split(value, '.')[i])
  }

  predicate ValidCapabilityId(value: string) { ValidNamespacedId(value, 3) }

  predicate ValidSemanticTypeId(value: string) { ValidNamespacedId(value, 2) }

  predicate ValidPreconditionId(value: string) { ValidNamespacedId(value, 2) }

  predicate CanonicalIds(values: seq<string>) {
    && (forall i :: 0 <= i < |values| ==> ValidNamespacedId(values[i], 2))
    && (forall i :: 0 <= i < |values| - 1 ==> Less(values[i], values[i + 1]))
  }

  predicate CanonicalClasses(values: seq<DataClass>) {
    forall i :: 0 <= i < |values| - 1 ==> values[i].Rank() < values[i + 1].Rank()
  }

  predicate ValidContract(c: Contract) {
    && c.spec == CONTRACT_SPEC
    && ValidCapabilityId(c.capabilityId)
    && c.produces != []
    && |c.needs| <= MAX_SEMANTIC_TYPES
    && |c.produces| <= MAX_SEMANTIC_TYPES
    && |c.preconditions| <= MAX_PRECONDITIONS
    && CanonicalIds(c.needs)
    && CanonicalIds(c.produces)
    && CanonicalIds(c.preconditions)
    && CanonicalClasses(c.dataClasses)
    && 0 < c.costUnits <= MAX_COST_UNITS
  }

  /** Every character of a string is the separator or belongs to one of its segments. */
  lemma {:induction false} CharacterOfSegment(value: string, separator: char, i: nat)
    requires i < |value| && value[i] != separator
    ensures exists k, j :: 0 <= k < |Split(value, separator)| && 0 <= j < |Split(value, separator)[k]| &&
                           Split(value, separator)[k][j] == value[i]
  {
    var r := Split(value, separator);
    var rest := Split(value[1..], separator);
    if i == 0 {
      assert r[0][0] == value[0];
    } else {
      CharacterOfSegment(value[1..], separator, i - 1);
      var k, j :| 0 <= k < |rest| && 0 <= j < |rest[k]| && rest[k][j] == value[1..][i - 1];
      if value[0] == separator {
        assert r[k + 1][j] == value[i];
      } else if k == 0 {
        assert r[0][j + 1] == value[i];
      } else {
        assert r[k][j] == value[i];
      }
    }
  }

  /** Valid identifiers are non-empty and use only identifier characters and dots. */
  lemma ValidIdCharacters(value: string, minimumSegments: nat)
    requires ValidNamespacedId(value, minimumSegments)
    ensures value != ""
    ensures forall i :: 0 <= i < |value| ==> value[i] == '.' || SegmentCharacter(value[i])
  {
    forall i | 0 <= i < |value| && value[i] != '.' ensures SegmentCharacter(value[i]) {
      CharacterOfSegment(value, '.', i);
      var k, j :| 0 <= k < |Split(value, '.')| && 0 <= j < |Split(value, '.')[k]| &&
                  Split(value, '.')[k][j] == value[i];
      assert ValidSegment(Split(value, '.')[k]);
    }
  }

  predicate SegmentShape(segment: string) {
    1 <= |segment| <= 48 && forall c :: c in segment ==> 'a' <= c <= 'z' || '0' <= c <= '9' || c == '-'
  }

  /** The identifiers are exactly the texts of at most 128 characters that consist of enough well formed
      segments with dots between them. */
  lemma ValidIdIff(value: string, minimumSegments: nat)
    ensures ValidNamespacedId(value, minimumSegments) <==>
              && |value| <= 128
              && exists parts :: |parts| >= minimumSegments && parts != [] && value == Joined(parts, '.')
                                 && forall i :: 0 <= i < |parts| ==> SegmentShape(parts[i])
  {
    forall segment: string ensures ValidSegment(segment) <==> SegmentShape(segment) {
      SegmentIff(segment);
    }
    hide ValidSegment, SegmentShape;
    SplitJoined(value, '.');
    if ValidNamespacedId(value, minimumSegments) {
      var parts := Split(value, '.');
      assert forall i :: 0 <= i < |parts| ==> SegmentShape(parts[i]);
    }
    forall parts: seq<string> | parts != [] && value == Joined(parts, '.')
                                && forall i :: 0 <= i < |parts| ==> SegmentShape(parts[i])
      ensures parts == Split(value, '.') && value != ""
    {
      forall i | 0 <= i < |parts| ensures '.' !in parts[i] && parts[i] != "" { SegmentHasNoDot(parts[i]); }
      JoinedSplit(parts, '.');
    }
  }

  lemma SegmentIff(segment: string)
    ensures ValidSegment(segment) <==> SegmentShape(segment)
  {
    if SegmentShape(segment) {
      forall i | 0 <= i < |segment| ensures SegmentCharacter(segment[i]) { assert segment[i] in segment; }
    }
  }

  lemma SegmentHasNoDot(segment: string)
    requires SegmentShape(segment)
    ensures '.' !in segment && segment != ""
  {
  }

  predicate LessSensitive(a: DataClass, b: DataClass) {
    match b
    case Public => false
    case Internal => a.Public?
    case Personal => a.Public? || a.Internal?
    case Sensitive => !a.Sensitive?
  }

  /** Exactly the contracts that are accepted: every list in strictly ascending order, and so free of
      repetitions. */
  lemma ContractAcceptedIff(c: Contract)
    ensures ValidContract(c) <==>
              && c.spec == "nimora.capability-semantic-contract/1" && ValidNamespacedId(c.capabilityId, 3)
              && |c.needs| <= 32 && 1 <= |c.produces| <= 32 && |c.preconditions| <= 32
              && (forall item :: item in c.needs + c.produces + c.preconditions ==> ValidNamespacedId(item, 2))
              && StrictlyAscending(c.needs) && StrictlyAscending(c.produces) && StrictlyAscending(c.preconditions)
              && (forall i, j :: 0 <= i < j < |c.dataClasses| ==> LessSensitive(c.dataClasses[i], c.dataClasses[j]))
              && 1 <= c.costUnits <= 1_000_000
  {
    AscendingIff(c.needs);
    AscendingIff(c.produces);
    AscendingIff(c.preconditions);
    ClassesAscendingIff(c.dataClasses);
    hide ValidNamespacedId, CanonicalClasses, StrictlyAscending, LessSensitive;
    assert forall item :: item in c.needs + c.produces + c.preconditions
             <==> item in c.needs || item in c.produces || item in c.preconditions;
  }

  lemma AscendingIff(values: seq<string>)
    ensures CanonicalIds(values)
            <==> (forall item :: item in values ==> ValidNamespacedId(item, 2)) && StrictlyAscending(values)
  {
    hide ValidNamespacedId, Less;
    if CanonicalIds(values) {
      forall i, j | 0 <= i < j < |values| ensures Less(values[i], values[j]) { StepsAscend(values, i, j); }
    }
    if forall item :: item in values ==> ValidNamespacedId(item, 2) {
      forall i | 0 <= i < |values| ensures ValidNamespacedId(values[i], 2) { assert values[i] in values; }
    }
  }

  lemma {:induction false} StepsAscend(values: seq<string>, i: nat, j: nat)
    requires forall k :: 0 <= k < |values| - 1 ==> Less(values[k], values[k + 1])
    requires i < j < |values|
    ensures Less(values[i], values[j])
    decreases j
  {
    if i + 1 < j {
      StepsAscend(values, i, j - 1);
      LessTransitive(values[i], values[j - 1], values[j]);
    }
  }

  lemma ClassesAscendingIff(values: seq<DataClass>)
    ensures CanonicalClasses(values)
            <==> forall i, j :: 0 <= i < j < |values| ==> LessSensitive(values[i], values[j])
  {
    assert forall a: DataClass, b: DataClass :: LessSensitive(a, b) <==> a.Rank() < b.Rank();
    if CanonicalClasses(values) {
      forall i, j | 0 <= i < j < |values| ensures LessSensitive(values[i], values[j]) { ClassesAscend(values, i, j); }
    }
    if forall i, j :: 0 <= i < j < |values| ==> LessSensitive(values[i], values[j]) {
      forall i | 0 <= i < |values| - 1 ensures values[i].Rank() < values[i + 1].Rank() {
        assert LessSensitive(values[i], values[i + 1]);
      }
    }
  }

  lemma {:induction false} ClassesAscend(values: seq<DataClass>, i: nat, j: nat)
    requires CanonicalClasses(values) && i < j < |values|
    ensures values[i].Rank() < values[j].Rank()
    decreases j
  {
    if i + 1 < j {
      ClassesAscend(values, i, j - 1);
      assert values[j - 1].Rank() < values[j - 1 + 1].Rank();
    }
  }
}
