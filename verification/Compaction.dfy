/** Context compaction: mandatory messages first, then the longest recent run of whole units that fits. */
module Compaction {
  import opened Wrappers
  import opened Text
  import opened MachineNumbers
  import opened Provider
  import opened ProtocolMeaning
  import opened ProtocolUnits

  const MAX_ANCHOR_TEXT_BYTES := 64 * 1024
  const MAX_ANCHOR_ITEMS := 256
  const COMPACTED_SPEC := "nimora.compacted-context/1"

  datatype ReasoningMapping = ReasoningMapping(encoded: string)

  datatype Anchor = Anchor(
    goal: string,
    constraints: seq<string>,
    pendingSteps: seq<string>,
    evidence: seq<string>,
    workspaceFingerprint: string,
    planRevision: nat,
    reasoning: Option<ReasoningMapping>)

  datatype Policy = Policy(maxMessages: nat, maxContentBytes: nat, retainRecentUnits: nat)

  /** A digest of a conversation is the conversation itself: SHA-256 is taken to be injective. */
  datatype SourceDigest = SourceSha256(messages: seq<Message>) | MalformedDigest(text: string)

  datatype CacheKey =
    | KeySha256(providerId: string, model: string, workspaceFingerprint: string, planRevision: nat,
                reasoning: Option<ReasoningMapping>, messages: seq<Message>)
    | OtherKey(text: string)

  datatype Error = InvalidAnchor | InvalidPolicy | InvalidSourceProtocol | InsufficientBudget

  datatype CompactedContext = CompactedContext(
    spec: string,
    cacheKey: CacheKey,
    sourceDigest: SourceDigest,
    providerId: string,
    model: string,
    workspaceFingerprint: string,
    planRevision: nat,
    reasoning: Option<ReasoningMapping>,
    messages: seq<Message>,
    sourceMessageCount: nat,
    retainedMessageCount: nat,
    droppedMessageCount: nat,
    createdAtMs: nat)
  {
    /** `CompactedContext::validate`. */
    predicate Valid() {
      && spec == COMPACTED_SPEC
      && cacheKey == KeySha256(providerId, model, workspaceFingerprint, planRevision, reasoning, messages)
      && sourceDigest.SourceSha256?
      && |messages| == retainedMessageCount
      && sourceMessageCount == SaturatingAdd(droppedMessageCount, SaturatingSub(retainedMessageCount, 1), USIZE_MAX)
    }
  }

  function TotalBytes(items: seq<string>): nat {
    if items == [] then 0 else Bytes(items[0]) + TotalBytes(items[1..])
  }

  /** The sum of content lengths, unbounded: a sum that overflows the machine word is refused, like any
      other beyond the limits it is compared with. */
  function ContentBytes(messages: seq<Message>): nat {
    if messages == [] then 0 else Bytes(messages[0].content) + ContentBytes(messages[1..])
  }

  predicate ValidAnchor(anchor: Anchor) {
    var items := anchor.constraints + anchor.pendingSteps + anchor.evidence;
    && !Blank(anchor.goal)
    && !Blank(anchor.workspaceFingerprint)
    && anchor.planRevision != 0
    && |items| <= MAX_ANCHOR_ITEMS
    && Bytes(anchor.goal) + Bytes(anchor.workspaceFingerprint) + TotalBytes(items) <= MAX_ANCHOR_TEXT_BYTES
    && forall i :: 0 <= i < |items| ==> !Blank(items[i])
  }

  predicate ValidPolicy(policy: Policy) {
    && 2 <= policy.maxMessages <= 256
    && 1024 <= policy.maxContentBytes <= 256 * 1024
    && 0 < policy.retainRecentUnits <= 128
  }

  function ToolIds(tools: seq<string>): Option<set<string>> { Some(set t | t in tools) }

  /** `ProviderRequest::new`, as far as it accepts or rejects. */
  predicate RequestAccepted(providerId: string, model: string, messages: seq<Message>, tools: seq<string>,
                            maxOutputTokens: nat) {
    && ValidPrincipal(providerId) && ValidPrincipal(model)
    && messages != [] && |messages| <= MAX_MESSAGES
    && |tools| <= MAX_PROVIDER_TOOL_CALLS
    && maxOutputTokens != 0
    && ContentBytes(messages) <= MAX_MESSAGE_BYTES
    && (forall i :: 0 <= i < |messages| ==> messages[i].role == System ==> messages[i].trusted)
    && Accepted(messages, ToolIds(tools))
  }

  predicate WithinPolicy(messages: seq<Message>, policy: Policy) {
    |messages| <= policy.maxMessages && ContentBytes(messages) <= policy.maxContentBytes
  }

  // ---- What is accepted ----

  function Concatenated(items: seq<string>): string {
    if items == [] then "" else items[0] + Concatenated(items[1..])
  }

  lemma {:induction false} TotalIsConcatenated(items: seq<string>)
    ensures TotalBytes(items) == Bytes(Concatenated(items))
  {
    if items != [] {
      TotalIsConcatenated(items[1..]);
      BytesJoin(items[0], Concatenated(items[1..]));
    } else {
      assert Bytes("") == 0;
    }
  }

  /** An anchor is usable exactly if nothing in it is blank, it has a plan revision, and all its items
      together are at most 256 and all its text is at most 64 KiB. */
  lemma AnchorUsableIff(anchor: Anchor)
    ensures var items := anchor.constraints + anchor.pendingSteps + anchor.evidence;
            ValidAnchor(anchor) <==>
              && anchor.planRevision >= 1
              && !Blank(anchor.goal) && !Blank(anchor.workspaceFingerprint)
              && (forall item :: item in items ==> !Blank(item))
              && |anchor.constraints| + |anchor.pendingSteps| + |anchor.evidence| <= 256
              && Bytes(anchor.goal + anchor.workspaceFingerprint + Concatenated(items)) <= 65_536
  {
    hide Blank;
    var items := anchor.constraints + anchor.pendingSteps + anchor.evidence;
    TotalIsConcatenated(items);
    BytesJoin(anchor.goal, anchor.workspaceFingerprint);
    BytesJoin(anchor.goal + anchor.workspaceFingerprint, Concatenated(items));
    if forall item :: item in items ==> !Blank(item) {
      forall i | 0 <= i < |items| ensures !Blank(items[i]) { assert items[i] in items; }
    }
  }

  lemma PolicyUsableIff(policy: Policy)
    ensures ValidPolicy(policy) <==>
              && 2 <= policy.maxMessages <= 256 && 1024 <= policy.maxContentBytes <= 262_144
              && 1 <= policy.retainRecentUnits <= 128
  {
  }

  /** A request is accepted exactly if its names, sizes and system messages are in order and its conversation
      pairs its calls with their results, by the tools that it offers. */
  lemma RequestAcceptedIff(providerId: string, model: string, messages: seq<Message>, tools: seq<string>,
                           maxOutputTokens: nat)
    ensures RequestAccepted(providerId, model, messages, tools, maxOutputTokens) <==>
              && ValidPrincipal(providerId) && ValidPrincipal(model) && |tools| <= 32 && maxOutputTokens >= 1
              && 1 <= |messages| <= 256 && ContentBytes(messages) <= 262_144
              && (forall m :: m in messages && m.role == System ==> m.trusted)
              && WellPaired(messages, Some(set t | t in tools))
  {
    hide Accepted, ValidPrincipal, ContentBytes, WellPaired;
    AcceptedIffWellPaired(messages, ToolIds(tools));
    if forall m :: m in messages && m.role == System ==> m.trusted {
      forall i | 0 <= i < |messages| && messages[i].role == System ensures messages[i].trusted {
        assert messages[i] in messages;
      }
    }
  }

  /** A source is usable exactly if it is an accepted request that consists of units. */
  lemma SourceUsableIff(providerId: string, model: string, source: seq<Message>, tools: seq<string>)
    ensures SourceUsable(providerId, model, source, tools) <==>
              && RequestAccepted(providerId, model, source, tools, 1)
              && exists units :: Flatten(units) == source && forall u :: u in units ==> UnitShape(u)
  {
    hide Units, RequestAccepted, UnitShape;
    if Units(source).Some? { UnitsPartition(source); }
    forall units | Flatten(units) == source && forall u :: u in units ==> UnitShape(u) ensures Units(source).Some? {
      UnitsUnique(units);
    }
  }

  /** A context validates exactly if its key and its counts fit its own content. */
  lemma ContextValidIff(c: CompactedContext)
    requires c.droppedMessageCount + c.retainedMessageCount <= USIZE_MAX
    ensures c.Valid() <==>
              && c.spec == "nimora.compacted-context/1" && c.sourceDigest.SourceSha256?
              && c.cacheKey == KeySha256(c.providerId, c.model, c.workspaceFingerprint, c.planRevision, c.reasoning,
                                         c.messages)
              && c.retainedMessageCount == |c.messages|
              && (|c.messages| >= 1 ==> c.sourceMessageCount + 1 == c.droppedMessageCount + |c.messages|)
              && (|c.messages| == 0 ==> c.sourceMessageCount == c.droppedMessageCount)
  {
  }

  // ---- What compaction keeps ----

  /** Units are never empty, so only the role of the first message decides. */
  predicate SystemUnit(unit: seq<Message>) { unit != [] && unit[0].role == System }

  function NonSystem(units: seq<seq<Message>>): seq<seq<Message>> {
    if units == [] then []
    else if SystemUnit(units[0]) then NonSystem(units[1..])
    else [units[0]] + NonSystem(units[1..])
  }

  function Last<T>(s: seq<T>, k: nat): seq<T>
    requires k <= |s|
  {
    s[|s| - k..]
  }

  function Min(a: nat, b: nat): nat { if a <= b then a else b }

  /** System messages, the anchor, and the last `k` non-system units. */
  function Candidate(source: seq<Message>, anchorMessage: Message, units: seq<seq<Message>>, k: nat): seq<Message>
    requires k <= |units|
  {
    SystemMessages(source) + [anchorMessage] + Flatten(Last(units, k))
  }

  function AnchorMessage(encode: (Anchor, SourceDigest) -> string, anchor: Anchor, source: seq<Message>): Message {
    TextMessage(System, encode(anchor, SourceSha256(source)), Internal, true)
  }

  predicate SourceUsable(providerId: string, model: string, source: seq<Message>, tools: seq<string>) {
    RequestAccepted(providerId, model, source, tools, 1) && Units(source).Some?
  }

  /** The longest run of recent units, at most `retainRecentUnits` of them, that fits the policy. */
  ghost predicate LongestFit(source: seq<Message>, anchorMessage: Message, units: seq<seq<Message>>, policy: Policy,
                             k: nat) {
    && k <= Min(policy.retainRecentUnits, |units|)
    && WithinPolicy(Candidate(source, anchorMessage, units, k), policy)
    && forall j :: k < j <= Min(policy.retainRecentUnits, |units|) ==>
         !WithinPolicy(Candidate(source, anchorMessage, units, j), policy)
  }

  // ---- Why a candidate that fits is always a valid request ----

  lemma {:induction false} ContentJoin(a: seq<Message>, b: seq<Message>)
    ensures ContentBytes(a + b) == ContentBytes(a) + ContentBytes(b)
  {
    if a == [] {
      assert a + b == b;
    } else {
      assert (a + b)[1..] == a[1..] + b;
      ContentJoin(a[1..], b);
    }
  }

  lemma {:induction false} NonSystemUnits(units: seq<seq<Message>>, allowed: Option<set<string>>)
    requires forall u :: u in units ==> UnitShape(u)
    requires AllClosed(units, allowed)
    ensures AllClosed(NonSystem(units), allowed)
    ensures forall u :: u in NonSystem(units) <==> u in units && !SystemUnit(u)
    ensures |SystemMessages(Flatten(units))| + |Flatten(NonSystem(units))| == |Flatten(units)|
  {
    if units != [] {
      var u, rest := units[0], units[1..];
      assert units == [u] + rest;
      assert u in units && UnitShape(u);
      TailClosed(units, allowed);
      NonSystemUnits(rest, allowed);
      SystemJoin(u, Flatten(rest));
      UnitSystemMessages(u);
      if !SystemUnit(u) {
        assert NonSystem(units) == [u] + NonSystem(rest);
        PrefixClosed(u, NonSystem(rest), units, allowed);
      }
    }
  }

  /** Putting the first unit in front of closed units picked from the rest keeps them closed. */
  lemma PrefixClosed(u: seq<Message>, picked: seq<seq<Message>>, units: seq<seq<Message>>, allowed: Option<set<string>>)
    requires units != [] && u == units[0] && AllClosed(units, allowed) && AllClosed(picked, allowed)
    requires forall p :: p in picked ==> p in units[1..]
    ensures AllClosed([u] + picked, allowed)
  {
    var kept := [u] + picked;
    forall i | 0 <= i < |kept| ensures Closed(kept[i], allowed) {
      if i > 0 { assert kept[i] == picked[i - 1]; }
    }
    forall i, j | 0 <= i < j < |kept| ensures Ids(kept[i], allowed) !! Ids(kept[j], allowed) {
      assert kept[j] == picked[j - 1] && kept[j] in units[1..];
      if i > 0 {
        assert kept[i] == picked[i - 1];
      } else {
        var m :| 0 <= m < |units[1..]| && units[1..][m] == kept[j];
        assert units[1..][m] == units[m + 1];
      }
    }
  }

  lemma TailClosed(units: seq<seq<Message>>, allowed: Option<set<string>>)
    requires units != [] && AllClosed(units, allowed)
    ensures AllClosed(units[1..], allowed)
  {
    var rest := units[1..];
    forall i | 0 <= i < |rest| ensures Closed(rest[i], allowed) { assert rest[i] == units[i + 1]; }
    forall i, j | 0 <= i < j < |rest| ensures Ids(rest[i], allowed) !! Ids(rest[j], allowed) {
      assert rest[i] == units[i + 1] && rest[j] == units[j + 1];
    }
  }

  lemma {:induction false} SystemJoin(a: seq<Message>, b: seq<Message>)
    ensures SystemMessages(a + b) == SystemMessages(a) + SystemMessages(b)
  {
    if a == [] {
      assert a + b == b;
    } else {
      assert (a + b)[1..] == a[1..] + b;
      SystemJoin(a[1..], b);
    }
  }

  lemma {:induction false} NoSystemMessages(messages: seq<Message>)
    requires forall i :: 0 <= i < |messages| ==> messages[i].role != System
    ensures SystemMessages(messages) == []
  {
    if messages != [] { NoSystemMessages(messages[1..]); }
  }

  lemma UnitSystemMessages(unit: seq<Message>)
    requires UnitShape(unit)
    ensures SystemMessages(unit) == if unit[0].role == System then unit else []
  {
    if unit[0].role == System {
      assert unit == [unit[0]] && unit[1..] == [];
    } else {
      NoSystemMessages(unit);
    }
  }

  lemma LastClosed(units: seq<seq<Message>>, k: nat, allowed: Option<set<string>>)
    requires k <= |units| && AllClosed(units, allowed)
    ensures AllClosed(Last(units, k), allowed)
  {
    var kept, d := Last(units, k), |units| - k;
    forall i | 0 <= i < |kept| ensures Closed(kept[i], allowed) { assert kept[i] == units[d + i]; }
    forall i, j | 0 <= i < j < |kept| ensures Ids(kept[i], allowed) !! Ids(kept[j], allowed) {
      assert kept[i] == units[d + i] && kept[j] == units[d + j];
    }
  }

  /** The units that may be kept, with everything known about them. */
  ghost predicate Keepable(source: seq<Message>, units: seq<seq<Message>>, allowed: Option<set<string>>) {
    && (forall u :: u in units ==> UnitShape(u) && !SystemUnit(u))
    && AllClosed(units, allowed)
    && |SystemMessages(source)| + |Flatten(units)| == |source|
  }

  lemma UsableUnits(providerId: string, model: string, source: seq<Message>, tools: seq<string>)
    requires SourceUsable(providerId, model, source, tools)
    ensures Keepable(source, NonSystem(Units(source).value), ToolIds(tools))
  {
    UnitsOfAccepted(source, ToolIds(tools));
    assert forall u :: u in Units(source).value ==> UnitShape(u);
    NonSystemUnits(Units(source).value, ToolIds(tools));
  }

  /** Whatever fits the policy passes the request constructor: its own check never decides. */
  lemma FittingCandidateAccepted(providerId: string, model: string, source: seq<Message>, tools: seq<string>,
                                 anchorMessage: Message, units: seq<seq<Message>>, policy: Policy, k: nat)
    requires ValidPolicy(policy) && RequestAccepted(providerId, model, source, tools, 1)
    requires Keepable(source, units, ToolIds(tools)) && k <= |units|
    requires Plain(anchorMessage) && anchorMessage.trusted
    requires WithinPolicy(Candidate(source, anchorMessage, units, k), policy)
    ensures RequestAccepted(providerId, model, Candidate(source, anchorMessage, units, k), tools, 1)
  {
    var allowed := ToolIds(tools);
    var kept := Last(units, k);
    LastClosed(units, k, allowed);
    SystemMessagesPlain(source, allowed);
    SystemMessagesFrom(source);
    PlainThenUnits(SystemMessages(source) + [anchorMessage], kept, allowed);
    NoSystemInside(kept);
    var messages := Candidate(source, anchorMessage, units, k);
    forall i | 0 <= i < |messages| && messages[i].role == System ensures messages[i].trusted {
      var m := messages[i];
      assert m in SystemMessages(source) || m == anchorMessage || m in Flatten(kept);
      if m in SystemMessages(source) {
        var j :| 0 <= j < |source| && source[j] == m;
      }
    }
  }

  lemma {:induction false} NoSystemInside(units: seq<seq<Message>>)
    requires forall u :: u in units ==> UnitShape(u) && !SystemUnit(u)
    ensures forall m :: m in Flatten(units) ==> m.role != System
  {
    if units != [] {
      var u := units[0];
      assert units == [u] + units[1..] && u in units;
      NoSystemInside(units[1..]);
      forall m | m in u ensures m.role != System {
        var k :| 0 <= k < |u| && u[k] == m;
      }
    }
  }

  /** Keeping one unit fewer never makes a candidate larger. */
  lemma {:induction false} SmallerFits(source: seq<Message>, anchorMessage: Message, units: seq<seq<Message>>,
                                       policy: Policy, j: nat, k: nat)
    requires j <= k <= |units|
    requires WithinPolicy(Candidate(source, anchorMessage, units, k), policy)
    ensures WithinPolicy(Candidate(source, anchorMessage, units, j), policy)
    decreases k - j
  {
    if j < k {
      var base, more, less := SystemMessages(source) + [anchorMessage], Last(units, k), Last(units, k - 1);
      assert more[1..] == less;
      ContentJoin(base, Flatten(more));
      ContentJoin(base, Flatten(less));
      ContentJoin(more[0], Flatten(less));
      SmallerFits(source, anchorMessage, units, policy, j, k - 1);
    }
  }

  lemma LastLength(units: seq<seq<Message>>, k: nat)
    requires k <= |units|
    ensures |Flatten(Last(units, k))| <= |Flatten(units)|
  {
    FlattenJoin(units[..|units| - k], Last(units, k));
    assert units[..|units| - k] + Last(units, k) == units;
  }

  // ---- The compactor ----

  function BuildContext(providerId: string, model: string, source: seq<Message>, anchor: Anchor, messages: seq<Message>,
                        createdAtMs: nat): CompactedContext
  {
    CompactedContext(
      COMPACTED_SPEC,
      KeySha256(providerId, model, anchor.workspaceFingerprint, anchor.planRevision, anchor.reasoning, messages),
      SourceSha256(source), providerId, model, anchor.workspaceFingerprint, anchor.planRevision, anchor.reasoning,
      messages, |source|, |messages|, SaturatingSub(|source|, SaturatingSub(|messages|, 1)), createdAtMs)
  }

  /** The messages fit both bounds of the policy. */
  ghost predicate Fits(messages: seq<Message>, maxMessages: nat, maxContentBytes: nat) {
    |messages| <= maxMessages && ContentBytes(messages) <= maxContentBytes
  }

  /** So do the system messages, the anchor and the last `k` units. */
  ghost predicate RecentFit(source: seq<Message>, anchorMessage: Message, units: seq<seq<Message>>, policy: Policy,
                            k: nat)
    requires k <= |units|
  {
    Fits(SystemMessages(source) + [anchorMessage] + Flatten(units[|units| - k..]), policy.maxMessages,
         policy.maxContentBytes)
  }

  /** The messages are all system messages of the source, the anchor, and the last `k` of its other units,
      which fit, while no more of them would, up to the number that the policy retains. */
  ghost predicate KeepsMost(source: seq<Message>, anchorMessage: Message, policy: Policy, messages: seq<Message>,
                            k: nat)
    requires Units(source).Some?
  {
    var units := NonSystem(Units(source).value);
    && k <= policy.retainRecentUnits && k <= |units|
    && messages == SystemMessages(source) + [anchorMessage] + Flatten(units[|units| - k..])
    && Fits(messages, policy.maxMessages, policy.maxContentBytes)
    && forall j :: k < j <= policy.retainRecentUnits && j <= |units| ==>
         !RecentFit(source, anchorMessage, units, policy, j)
  }

  /** A returned context: the longest recent run behind the mandatory messages, accepted as a request;
      identified by the arguments, the anchor and the digest of the source, with a key over just what it
      contains; every source message is counted as retained or dropped. */
  ghost predicate Compacted(providerId: string, model: string, source: seq<Message>, tools: seq<string>, anchor: Anchor,
                            anchorMessage: Message, policy: Policy, createdAtMs: nat, context: CompactedContext)
  {
    && Units(source).Some?
    && (exists k :: KeepsMost(source, anchorMessage, policy, context.messages, k))
    && RequestAccepted(providerId, model, context.messages, tools, 1)
    && context.spec == "nimora.compacted-context/1"
    && context.sourceDigest == SourceSha256(source)
    && context.providerId == providerId && context.model == model && context.createdAtMs == createdAtMs
    && context.workspaceFingerprint == anchor.workspaceFingerprint && context.planRevision == anchor.planRevision
    && context.reasoning == anchor.reasoning
    && context.cacheKey == KeySha256(providerId, model, anchor.workspaceFingerprint, anchor.planRevision,
                                     anchor.reasoning, context.messages)
    && context.sourceMessageCount == |source|
    && context.retainedMessageCount == |context.messages|
    && context.droppedMessageCount + |context.messages| == |source| + 1
    && context.Valid()
  }

  lemma BuiltIsCompacted(providerId: string, model: string, source: seq<Message>, tools: seq<string>, anchor: Anchor,
                         anchorMessage: Message, policy: Policy, createdAtMs: nat, k: nat)
    requires Units(source).Some? && RequestAccepted(providerId, model, source, tools, 1)
    requires var units := NonSystem(Units(source).value);
             && Keepable(source, units, ToolIds(tools))
             && LongestFit(source, anchorMessage, units, policy, k)
             && RequestAccepted(providerId, model, Candidate(source, anchorMessage, units, k), tools, 1)
    ensures var messages := Candidate(source, anchorMessage, NonSystem(Units(source).value), k);
            Compacted(providerId, model, source, tools, anchor, anchorMessage, policy, createdAtMs,
                      BuildContext(providerId, model, source, anchor, messages, createdAtMs))
  {
    hide KeepsMost, Units, NonSystem, SystemMessages;
    assert |source| <= MAX_MESSAGES && k <= |NonSystem(Units(source).value)|;
    hide RequestAccepted, LongestFit;
    var units := NonSystem(Units(source).value);
    LastLength(units, k);
    var messages := Candidate(source, anchorMessage, units, k);
    assert |messages| == |SystemMessages(source)| + 1 + |Flatten(Last(units, k))|;
    MostKept(source, anchorMessage, policy, k);
  }

  lemma FitsIff(messages: seq<Message>, policy: Policy)
    ensures WithinPolicy(messages, policy) <==> Fits(messages, policy.maxMessages, policy.maxContentBytes)
  {
  }

  lemma MostKept(source: seq<Message>, anchorMessage: Message, policy: Policy, k: nat)
    requires Units(source).Some? && LongestFit(source, anchorMessage, NonSystem(Units(source).value), policy, k)
    ensures KeepsMost(source, anchorMessage, policy,
                      Candidate(source, anchorMessage, NonSystem(Units(source).value), k), k)
  {
    hide Units, NonSystem;
    var units := NonSystem(Units(source).value);
    forall j | k < j <= policy.retainRecentUnits && j <= |units|
      ensures !RecentFit(source, anchorMessage, units, policy, j)
    {
      assert !WithinPolicy(Candidate(source, anchorMessage, units, j), policy);
    }
  }

  lemma LastTail(units: seq<seq<Message>>, k: nat)
    requires 0 < k <= |units|
    ensures Last(units, k)[1..] == Last(units, k - 1)
  {
  }

  lemma LastNone(source: seq<Message>, anchorMessage: Message, units: seq<seq<Message>>)
    ensures Candidate(source, anchorMessage, units, 0) == SystemMessages(source) + [anchorMessage]
  {
    assert Last(units, 0) == [];
  }

  /** No run longer than `k` units fits. */
  ghost predicate LongerRunsFail(source: seq<Message>, anchorMessage: Message, units: seq<seq<Message>>, policy: Policy,
                                 k: nat) {
    forall j :: k < j <= Min(policy.retainRecentUnits, |units|) ==>
      !WithinPolicy(Candidate(source, anchorMessage, units, j), policy)
  }

  method Compact(encode: (Anchor, SourceDigest) -> string, providerId: string, model: string, source: seq<Message>,
                 tools: seq<string>, anchor: Anchor, policy: Policy, createdAtMs: nat)
    returns (r: Result<CompactedContext, Error>)
    ensures !ValidAnchor(anchor) ==> r == Failure(InvalidAnchor)
    ensures ValidAnchor(anchor) && !ValidPolicy(policy) ==> r == Failure(InvalidPolicy)
    ensures ValidAnchor(anchor) && ValidPolicy(policy) && !SourceUsable(providerId, model, source, tools)
            ==> r == Failure(InvalidSourceProtocol)
    ensures ValidAnchor(anchor) && ValidPolicy(policy) && SourceUsable(providerId, model, source, tools) ==>
              var text := encode(anchor, SourceSha256(source));
              var anchorMessage := Message(System, text, Internal, true, [], None, None);
              if Fits(SystemMessages(source) + [anchorMessage], policy.maxMessages, policy.maxContentBytes)
              then r.Success? && Compacted(providerId, model, source, tools, anchor, anchorMessage, policy, createdAtMs,
                                           r.value)
              else r == Failure(InsufficientBudget)
  {
    hide ValidAnchor, ValidPolicy, RequestAccepted, WithinPolicy, Units, NonSystem, SystemMessages, Keepable,
         Compacted, BuildContext, Last;
    if !ValidAnchor(anchor) { return Failure(InvalidAnchor); }
    if !ValidPolicy(policy) { return Failure(InvalidPolicy); }
    if !RequestAccepted(providerId, model, source, tools, 1) { return Failure(InvalidSourceProtocol); }
    var anchorMessage := AnchorMessage(encode, anchor, source);
    var systemMessages := SystemMessages(source);
    var cut := CutUnits(source);
    if cut.None? { return Failure(InvalidSourceProtocol); }
    UsableUnits(providerId, model, source, tools);
    ghost var units := NonSystem(cut.value);
    var selected := SelectRecent(cut.value, policy.retainRecentUnits);
    LastNone(source, anchorMessage, units);
    FitsIff(systemMessages + [anchorMessage], policy);
    while true
      invariant |selected| <= Min(policy.retainRecentUnits, |units|) && selected == Last(units, |selected|)
      invariant LongerRunsFail(source, anchorMessage, units, policy, |selected|)
      decreases |selected|
    {
      ghost var k := |selected|;
      var messages := systemMessages + [anchorMessage] + Flatten(selected);
      assert messages == Candidate(source, anchorMessage, units, k);
      if WithinPolicy(messages, policy) {
        FittingCandidateAccepted(providerId, model, source, tools, anchorMessage, units, policy, k);
        SmallerFits(source, anchorMessage, units, policy, 0, k);
      }
      if WithinPolicy(messages, policy) && RequestAccepted(providerId, model, messages, tools, 1) {
        assert LongestFit(source, anchorMessage, units, policy, k);
        BuiltIsCompacted(providerId, model, source, tools, anchor, anchorMessage, policy, createdAtMs, k);
        return Success(BuildContext(providerId, model, source, anchor, messages, createdAtMs));
      }
      if selected == [] { return Failure(InsufficientBudget); }
      LastTail(units, k);
      selected := selected[1..];
    }
  }

  /** The loop over the units from the newest to the oldest. */
  method SelectRecent(units: seq<seq<Message>>, retainRecentUnits: nat) returns (selected: seq<seq<Message>>)
    ensures selected == Last(NonSystem(units), Min(retainRecentUnits, |NonSystem(units)|))
    ensures |selected| == Min(retainRecentUnits, |NonSystem(units)|)
  {
    selected := [];
    var retained := 0;
    var i := |units|;
    assert units[i..] == [];
    while i > 0
      invariant 0 <= i <= |units| && retained == |selected| <= retainRecentUnits
      invariant selected == NonSystem(units[i..])
      decreases i
    {
      var unit := units[i - 1];
      assert units[i - 1..] == [unit] + units[i..];
      if !SystemUnit(unit) {
        if retained >= retainRecentUnits { break; }
        selected := [unit] + selected;
        retained := retained + 1;
      }
      i := i - 1;
    }
    NonSystemJoin(units[..i], units[i..]);
    assert units[..i] + units[i..] == units;
  }

  lemma {:induction false} NonSystemJoin(a: seq<seq<Message>>, b: seq<seq<Message>>)
    ensures NonSystem(a + b) == NonSystem(a) + NonSystem(b)
  {
    if a == [] {
      assert a + b == b;
    } else {
      assert (a + b)[1..] == a[1..] + b;
      NonSystemJoin(a[1..], b);
    }
  }
}
