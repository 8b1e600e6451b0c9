/** One Provider tool turn: collecting a result for every call, then continuing the conversation. */
module ToolTurns {
  import opened Wrappers
  import opened Text
  import opened Provider
  import opened ProtocolMeaning
  import opened ProtocolUnits
  import opened FiniteSets
  import Sorting

  const MAX_RESPONSE_BYTES := 1024 * 1024
  const RESPONSE_SPEC := "nimora.agent-provider-response/1"

  datatype FinishReason = Completed | ToolCallsRequested | Length | ContentFiltered

  datatype Usage = Usage(inputTokens: nat, outputTokens: nat, costMicrounits: nat)

  datatype Response = Response(
    spec: string, requestId: nat, content: string, toolCalls: seq<ToolCall>, finishReason: FinishReason, usage: Usage)

  datatype TurnError = InvalidToolTurn | ToolResultCorrelationMismatch | IncompleteToolTurn

  /** `validate_response`, for a request with the given identity, tools and output limit. */
  predicate ValidResponse(requestId: nat, tools: set<string>, maxOutputTokens: nat, response: Response) {
    && response.spec == RESPONSE_SPEC
    && response.requestId == requestId
    && Bytes(response.content) <= MAX_RESPONSE_BYTES
    && |response.toolCalls| <= MAX_PROVIDER_TOOL_CALLS
    && response.usage.outputTokens <= maxOutputTokens
    && (response.finishReason == ToolCallsRequested <==> response.toolCalls != [])
    && forall i :: 0 <= i < |response.toolCalls| ==> CallAllowed(response.toolCalls[i], Some(tools))
  }

  function AssistantMessage(response: Response): Message {
    Message(Assistant, response.content, Personal, false, response.toolCalls, None, None)
  }

  function ResultMessage(call: ToolCall, output: Json): Message {
    Message(Tool, output.encoded, Personal, true, [], Some(call.id), Some(call.toolId))
  }

  /** The first call with the given identifier. */
  function FindCall(calls: seq<ToolCall>, id: string): (r: Option<ToolCall>)
    ensures r.Some? ==> r.value in calls && r.value.id == id
    ensures r.None? ==> forall c :: c in calls ==> c.id != id
  {
    if calls == [] then None else if calls[0].id == id then Some(calls[0]) else FindCall(calls[1..], id)
  }

  /** What recording one result does to the results so far. */
  function Recorded(calls: seq<ToolCall>, results: map<string, Json>, record: Record): Option<map<string, Json>> {
    var call := FindCall(calls, record.callId);
    if call.None? || call.value.toolId != record.toolId || record.callId in results then None
    else Some(results[record.callId := record.output])
  }

  datatype Record = Record(callId: string, toolId: string, output: Json)

  /** The ordered result messages for calls that all have a result. */
  function ResultMessages(calls: seq<ToolCall>, results: map<string, Json>): Option<seq<Message>> {
    if calls == [] then Some([])
    else if calls[0].id !in results then None
    else
      Behind([ResultMessage(calls[0], results[calls[0].id])], ResultMessages(calls[1..], results))
  }

  function Behind(messages: seq<Message>, rest: Option<seq<Message>>): Option<seq<Message>> {
    if rest.None? then None else Some(messages + rest.value)
  }

  lemma BehindTwice(a: seq<Message>, b: seq<Message>, rest: Option<seq<Message>>)
    ensures Behind(a, Behind(b, rest)) == Behind(a + b, rest)
    ensures Behind([], rest) == rest
  {
    if rest.Some? {
      assert a + (b + rest.value) == (a + b) + rest.value && [] + rest.value == rest.value;
    }
  }

  function Continuation(response: Response, results: map<string, Json>): Result<seq<Message>, TurnError> {
    if |results| != |response.toolCalls| then Failure(IncompleteToolTurn)
    else
      var messages := Behind([AssistantMessage(response)], ResultMessages(response.toolCalls, results));
      if messages.None? then Failure(IncompleteToolTurn) else Success(messages.value)
  }

  class ProviderToolTurn {
    const response: Response
    var results: map<string, Json>

    constructor Empty(response: Response)
      ensures this.response == response && results == map[]
    {
      this.response := response;
      results := map[];
    }

    static method Start(response: Response) returns (r: Result<ProviderToolTurn, TurnError>)
      ensures r.Success? <==> response.finishReason == ToolCallsRequested && response.toolCalls != []
      ensures r.Success? ==>
                fresh(r.value) && r.value.response == response && r.value.results == map[] && r.value.Valid()
      ensures r.Failure? ==> r.error == InvalidToolTurn
    {
      if response.finishReason != ToolCallsRequested || response.toolCalls == [] {
        return Failure(InvalidToolTurn);
      }
      var turn := new ProviderToolTurn.Empty(response);
      return Success(turn);
    }

    /** Results are only kept for calls of this turn. */
    ghost predicate Valid()
      reads this
    {
      OnlyCalled(response.toolCalls, results)
    }

    method RecordResult(callId: string, toolId: string, output: Json) returns (r: Result<(), TurnError>)
      requires Valid()
      modifies this
      ensures Valid()
      ensures var next := old(Recorded(response.toolCalls, results, Record(callId, toolId, output)));
              if next.Some? then r == Success(()) && results == next.value
              else r == Failure(ToolResultCorrelationMismatch) && results == old(results)
    {
      var call := FindCall(response.toolCalls, callId);
      if call.None? { return Failure(ToolResultCorrelationMismatch); }
      if call.value.toolId != toolId || callId in results { return Failure(ToolResultCorrelationMismatch); }
      results := results[callId := output];
      return Success(());
    }

    method ContinuationMessages() returns (r: Result<seq<Message>, TurnError>)
      ensures r == Continuation(response, results)
    {
      if |results| != |response.toolCalls| { return Failure(IncompleteToolTurn); }
      var calls := response.toolCalls;
      var messages := [AssistantMessage(response)];
      assert calls[0..] == calls;
      for i := 0 to |calls|
        invariant Behind([AssistantMessage(response)], ResultMessages(calls, results)) ==
                  Behind(messages, ResultMessages(calls[i..], results))
      {
        assert calls[i..][0] == calls[i] && calls[i..][1..] == calls[i + 1..];
        if calls[i].id !in results { return Failure(IncompleteToolTurn); }
        var message := ResultMessage(calls[i], results[calls[i].id]);
        BehindTwice(messages, [message], ResultMessages(calls[i + 1..], results));
        messages := messages + [message];
      }
      assert calls[|calls|..] == [] && messages + [] == messages;
      return Success(messages);
    }
  }

  ghost predicate OnlyCalled(calls: seq<ToolCall>, results: map<string, Json>) {
    forall id :: id in results ==> exists c :: c in calls && c.id == id
  }

  // ---- Recording order does not matter ----

  function RecordAll(calls: seq<ToolCall>, results: map<string, Json>, records: seq<Record>): Option<map<string, Json>>
    decreases records
  {
    if records == [] then Some(results) else
    var next := Recorded(calls, results, records[0]);
    if next.None? then None else RecordAll(calls, next.value, records[1..])
  }

  function CallIdOf(r: Record): string { r.callId }

  ghost predicate Answering(calls: seq<ToolCall>, r: Record) {
    FindCall(calls, r.callId).Some? && FindCall(calls, r.callId).value.toolId == r.toolId
  }

  /** Records go through exactly when each answers a call of the turn and none answers twice. */
  lemma {:induction false} RecordAllMeaning(calls: seq<ToolCall>, results: map<string, Json>, records: seq<Record>)
    ensures RecordAll(calls, results, records).Some? <==>
              (&& (forall r :: r in records ==> Answering(calls, r) && r.callId !in results)
               && Sorting.DistinctKeys(CallIdOf, records))
    ensures RecordAll(calls, results, records).Some? ==>
              var m := RecordAll(calls, results, records).value;
              && (forall id :: id in m <==> id in results || exists r :: r in records && r.callId == id)
              && (forall id :: id in results ==> id in m && m[id] == results[id])
              && (forall r :: r in records ==> r.callId in m && m[r.callId] == r.output)
    decreases records
  {
    if records != [] {
      var first, rest := records[0], records[1..];
      assert records == [first] + rest;
      DistinctFirst(records);
      assert first in records;
      var next := Recorded(calls, results, first);
      if next.Some? { RecordAllMeaning(calls, next.value, rest); }
    }
  }

  lemma DistinctFirst(records: seq<Record>)
    requires records != []
    ensures Sorting.DistinctKeys(CallIdOf, records) <==>
            Sorting.DistinctKeys(CallIdOf, records[1..]) && forall r :: r in records[1..] ==>
              r.callId != records[0].callId
  {
    var rest := records[1..];
    if Sorting.DistinctKeys(CallIdOf, records) {
      forall i, j | 0 <= i < j < |rest| ensures CallIdOf(rest[i]) != CallIdOf(rest[j]) {
        assert CallIdOf(records[i + 1]) != CallIdOf(records[j + 1]);
      }
      forall r | r in rest ensures r.callId != records[0].callId {
        var k :| 0 <= k < |rest| && rest[k] == r;
        assert CallIdOf(records[0]) != CallIdOf(records[k + 1]);
      }
    }
    if Sorting.DistinctKeys(CallIdOf, rest) && forall r :: r in rest ==> r.callId != records[0].callId {
      forall i, j | 0 <= i < j < |records| ensures CallIdOf(records[i]) != CallIdOf(records[j]) {
        assert records[j] == rest[j - 1] && rest[j - 1] in rest;
        if i > 0 { assert CallIdOf(rest[i - 1]) != CallIdOf(rest[j - 1]); }
      }
    }
  }

  lemma SameVerdict(calls: seq<ToolCall>, a: seq<Record>, b: seq<Record>)
    requires multiset(a) == multiset(b) && RecordAll(calls, map[], a).Some?
    ensures RecordAll(calls, map[], b).Some?
  {
    hide Answering;
    RecordAllMeaning(calls, map[], a);
    RecordAllMeaning(calls, map[], b);
    Sorting.SameElements(a, b);
    Sorting.DistinctRearranged(CallIdOf, a, b);
  }

  lemma SameResults(calls: seq<ToolCall>, a: seq<Record>, b: seq<Record>)
    requires forall r :: r in a <==> r in b
    requires RecordAll(calls, map[], a).Some? && RecordAll(calls, map[], b).Some?
    ensures RecordAll(calls, map[], a).value == RecordAll(calls, map[], b).value
  {
    hide Answering, RecordAll, Sorting.DistinctKeys;
    RecordAllMeaning(calls, map[], a);
    RecordAllMeaning(calls, map[], b);
    var m, n := RecordAll(calls, map[], a).value, RecordAll(calls, map[], b).value;
    forall id | id in m.Keys + n.Keys ensures id in m && id in n && m[id] == n[id] {
      var r :| r in a && r.callId == id;
      assert r in b;
    }
    assert m.Keys == n.Keys;
  }

  /** Recording the same results in another order gives the same turn, so the same continuation. */
  lemma RecordingOrder(calls: seq<ToolCall>, a: seq<Record>, b: seq<Record>)
    requires multiset(a) == multiset(b)
    ensures RecordAll(calls, map[], a) == RecordAll(calls, map[], b)
  {
    Sorting.SameElements(a, b);
    if RecordAll(calls, map[], a).Some? {
      SameVerdict(calls, a, b);
      SameResults(calls, a, b);
      assert RecordAll(calls, map[], a).value == RecordAll(calls, map[], b).value;
    } else if RecordAll(calls, map[], b).Some? {
      SameVerdict(calls, b, a);
    }
  }

  // ---- Complete turns ----

  ghost function CallIds(calls: seq<ToolCall>): set<string> {
    set c | c in calls :: c.id
  }

  lemma {:induction false} CallIdsCount(calls: seq<ToolCall>)
    ensures |CallIds(calls)| <= |calls|
    ensures |CallIds(calls)| == |calls| ==> DistinctIds(calls)
  {
    if calls != [] {
      var rest := calls[1..];
      assert calls == [calls[0]] + rest;
      assert CallIds(calls) == CallIds(rest) + {calls[0].id};
      CallIdsCount(rest);
      if |CallIds(calls)| == |calls| {
        DistinctCons(calls);
        forall c | c in rest ensures c.id != calls[0].id {
          assert c.id in CallIds(rest);
        }
      }
    }
  }

  /** Pigeonhole: a turn with as many results as calls has distinct call identifiers, each answered. */
  lemma CompleteTurnIsDistinct(calls: seq<ToolCall>, results: map<string, Json>)
    requires OnlyCalled(calls, results) && |results| == |calls|
    ensures DistinctIds(calls)
    ensures forall c :: c in calls ==> c.id in results
  {
    assert |results.Keys| == |results|;
    assert results.Keys <= CallIds(calls);
    SubsetCount(results.Keys, CallIds(calls));
    CallIdsCount(calls);
  }

  lemma {:induction false} ResultMessagesMeaning(calls: seq<ToolCall>, results: map<string, Json>)
    requires forall c :: c in calls ==> c.id in results
    ensures ResultMessages(calls, results).Some?
    ensures var messages := ResultMessages(calls, results).value;
            |messages| == |calls| && forall i :: 0 <= i < |calls| ==>
              messages[i] == ResultMessage(calls[i], results[calls[i].id])
  {
    if calls != [] {
      assert calls == [calls[0]] + calls[1..];
      assert calls[0] in calls;
      ResultMessagesMeaning(calls[1..], results);
    }
  }

  lemma FirstResult(calls: seq<ToolCall>, results: map<string, Json>, allowed: Option<set<string>>, s: Scan)
    requires calls != [] && calls[0].id in results && ResultMessages(calls[1..], results).Some?
    requires calls[0].id in s.pending && s.pending[calls[0].id] == calls[0].toolId && calls[0].id !in s.resolved
    ensures ResultMessages(calls, results).Some?
    ensures ScanAll(ResultMessages(calls, results).value, allowed, s)
            == ScanAll(ResultMessages(calls[1..], results).value, allowed, Scan(s.pending, s.resolved + {calls[0].id}))
  {
    var messages := ResultMessages(calls, results).value;
    assert messages[0] == ResultMessage(calls[0], results[calls[0].id]);
    assert messages[1..] == ResultMessages(calls[1..], results).value;
  }

  lemma CallIdsCons(calls: seq<ToolCall>)
    requires calls != []
    ensures CallIds(calls) == {calls[0].id} + CallIds(calls[1..])
  {
    assert calls == [calls[0]] + calls[1..];
  }

  /** Scanning the results of already asked calls, in call order, answers each of them. */
  lemma {:induction false} ResultsScan(calls: seq<ToolCall>, results: map<string, Json>, allowed: Option<set<string>>,
                                       s: Scan)
    requires forall c :: c in calls ==>
               c.id in results && c.id in s.pending && s.pending[c.id] == c.toolId && c.id !in s.resolved
    requires DistinctIds(calls)
    ensures ResultMessages(calls, results).Some?
    ensures ScanAll(ResultMessages(calls, results).value, allowed, s)
            == Some(Scan(s.pending, s.resolved + CallIds(calls)))
  {
    if calls == [] {
      assert CallIds(calls) == {} && s.resolved + {} == s.resolved;
    } else {
      hide DistinctIds, CallIds, ResultMessages, ScanAll;
      var rest := calls[1..];
      assert calls == [calls[0]] + rest;
      assert calls[0] in calls;
      DistinctCons(calls);
      var resolved := s.resolved + {calls[0].id};
      ResultsScan(rest, results, allowed, Scan(s.pending, resolved));
      FirstResult(calls, results, allowed, s);
      CallIdsCons(calls);
      assert resolved + CallIds(rest) == s.resolved + CallIds(calls);
    }
  }

  ghost predicate GoodCalls(response: Response, allowed: Option<set<string>>) {
    response.toolCalls != [] && forall c :: c in response.toolCalls ==> CallAllowed(c, allowed)
  }

  /** A complete turn continues the conversation with exactly one protocol unit, which answers its
      own calls and nothing else. */
  lemma ContinuationIsOneUnit(response: Response, results: map<string, Json>, allowed: Option<set<string>>)
    requires GoodCalls(response, allowed)
    requires OnlyCalled(response.toolCalls, results) && |results| == |response.toolCalls|
    ensures Continuation(response, results).Success?
    ensures var unit := Continuation(response, results).value;
            && UnitShape(unit) && Units(unit) == Some([unit])
            && Closed(unit, allowed) && Ids(unit, allowed) == CallIds(response.toolCalls)
            && WellPaired(unit, allowed)
  {
    var calls := response.toolCalls;
    CompleteTurnIsDistinct(calls, results);
    ResultMessagesMeaning(calls, results);
    ContinuationScan(response, results, allowed);
    hide Closed, WellPaired, Accepted, CallAllowed, DistinctIds, ScanAll;
    var unit := Continuation(response, results).value;
    assert unit[1..] == ResultMessages(calls, results).value;
    ShapedUnit(unit);
    ClosedIffAccepted(unit, allowed);
    AcceptedIffWellPaired(unit, allowed);
  }

  lemma AssistantScan(response: Response, results: seq<Message>, allowed: Option<set<string>>)
    requires GoodCalls(response, allowed) && DistinctIds(response.toolCalls)
    ensures AddCalls(response.toolCalls, allowed, map[]).Some?
    ensures var pending := AddCalls(response.toolCalls, allowed, map[]).value;
            && After([AssistantMessage(response)] + results, allowed) == ScanAll(results, allowed, Scan(pending, {}))
            && pending.Keys == CallIds(response.toolCalls)
            && forall c :: c in response.toolCalls ==> c.id in pending && pending[c.id] == c.toolId
  {
    hide CallAllowed, DistinctIds, AddCalls;
    var calls := response.toolCalls;
    AddCallsMeaning(calls, allowed, map[]);
    var unit := [AssistantMessage(response)] + results;
    assert unit[0] == AssistantMessage(response) && unit[1..] == results;
    assert AddCalls(calls, allowed, map[]).value.Keys == CallIds(calls);
  }

  lemma ContinuationScan(response: Response, results: map<string, Json>, allowed: Option<set<string>>)
    requires GoodCalls(response, allowed) && DistinctIds(response.toolCalls)
    requires forall c :: c in response.toolCalls ==> c.id in results
    requires |results| == |response.toolCalls| && Continuation(response, results).Success?
    ensures var unit := Continuation(response, results).value;
            Closed(unit, allowed) && Ids(unit, allowed) == CallIds(response.toolCalls)
  {
    hide CallAllowed, DistinctIds, AddCalls, ScanAll, AssistantMessage, CallIds, ResultMessages;
    var calls := response.toolCalls;
    var messages := ResultMessages(calls, results).value;
    AssistantScan(response, messages, allowed);
    var pending := AddCalls(calls, allowed, map[]).value;
    ResultsScan(calls, results, allowed, Scan(pending, {}));
    assert {} + CallIds(calls) == CallIds(calls);
  }

  /** Appending a closed unit keeps a conversation accepted exactly when its identifiers are new. */
  lemma AppendIffFresh(conversation: seq<Message>, unit: seq<Message>, allowed: Option<set<string>>)
    requires Accepted(conversation, allowed) && Closed(unit, allowed)
    ensures Closed(conversation, allowed)
    ensures Accepted(conversation + unit, allowed) <==> Ids(conversation, allowed) !! Ids(unit, allowed)
    ensures Accepted(conversation + unit, allowed) ==>
              && Closed(conversation + unit, allowed)
              && Ids(conversation + unit, allowed) == Ids(conversation, allowed) + Ids(unit, allowed)
  {
    ClosedIffAccepted(conversation, allowed);
    ClosedIffAccepted(conversation + unit, allowed);
    var s, t := After(conversation, allowed).value, After(unit, allowed).value;
    ScanSplit(conversation, unit, allowed, NOTHING_SEEN);
    assert Beside(s.pending, NOTHING_SEEN) == s;
    ScanAllBeside(unit, allowed, s.pending, NOTHING_SEEN);
    if s.pending.Keys !! t.pending.Keys {
      assert (s.pending + t.pending).Keys == s.pending.Keys + t.resolved;
    }
  }

  ghost predicate TurnUnits(turns: seq<seq<Message>>, allowed: Option<set<string>>) {
    forall i :: 0 <= i < |turns| ==> Closed(turns[i], allowed) && Units(turns[i]) == Some([turns[i]])
  }

  ghost predicate AllFresh(used: set<string>, turns: seq<seq<Message>>, allowed: Option<set<string>>)
    requires TurnUnits(turns, allowed)
    decreases turns
  {
    turns != [] ==>
      && Ids(turns[0], allowed) !! used
      && AllFresh(used + Ids(turns[0], allowed), turns[1..], allowed)
  }

  /** Over any number of turns the checkpoint stays valid exactly as long as no turn reuses a call
      identifier of the conversation or of an earlier turn, and it is cut at the turn boundaries. */
  lemma {:induction false} TurnsKeepConversation(conversation: seq<Message>, turns: seq<seq<Message>>,
                                                 allowed: Option<set<string>>)
    requires Accepted(conversation, allowed) && TurnUnits(turns, allowed)
    ensures Closed(conversation, allowed)
    ensures Accepted(conversation + Flatten(turns), allowed) <==> AllFresh(Ids(conversation, allowed), turns, allowed)
    ensures Units(conversation).Some? ==>
              Units(conversation + Flatten(turns)) == Some(Units(conversation).value + turns)
    decreases |turns|
  {
    ClosedIffAccepted(conversation, allowed);
    if turns == [] {
      assert conversation + Flatten(turns) == conversation;
      if Units(conversation).Some? { assert Units(conversation).value + turns == Units(conversation).value; }
    } else {
      var unit, rest := turns[0], turns[1..];
      forall i | 0 <= i < |rest| ensures Closed(rest[i], allowed) && Units(rest[i]) == Some([rest[i]]) {
        assert rest[i] == turns[i + 1];
      }
      AppendIffFresh(conversation, unit, allowed);
      assert conversation + Flatten(turns) == conversation + unit + Flatten(rest);
      if Units(conversation).Some? { UnitsJoin(conversation, Flatten(turns)); }
      if Accepted(conversation + unit, allowed) {
        TurnsKeepConversation(conversation + unit, rest, allowed);
      } else {
        PrefixRejected(conversation, unit, Flatten(rest), allowed);
      }
      UnitsOfTurns(turns, allowed);
    }
  }

  lemma {:induction false} UnitsOfTurns(turns: seq<seq<Message>>, allowed: Option<set<string>>)
    requires TurnUnits(turns, allowed)
    ensures Units(Flatten(turns)) == Some(turns)
  {
    if turns != [] {
      var rest := turns[1..];
      forall i | 0 <= i < |rest| ensures Closed(rest[i], allowed) && Units(rest[i]) == Some([rest[i]]) {
        assert rest[i] == turns[i + 1];
      }
      UnitsOfTurns(rest, allowed);
      UnitsJoin(turns[0], Flatten(rest));
      assert [turns[0]] + rest == turns;
    }
  }

  lemma {:induction false} UnitsJoin(a: seq<Message>, b: seq<Message>)
    requires Units(a).Some?
    ensures Units(a + b) == Prepend(Units(a).value, Units(b))
    decreases |a|
  {
    if a == [] {
      assert a + b == b;
      PrependNothing(Units(b));
    } else {
      var end := if a[0].role == Assistant && a[0].toolCalls != [] then |a[0].toolCalls| + 1 else 1;
      assert (a + b)[..end] == a[..end] && (a + b)[end..] == a[end..] + b;
      assert a[..1] == [a[0]];
      UnitsJoin(a[end..], b);
      PrependTwice([a[..end]], Units(a[end..]).value, Units(b));
      forall k | 1 <= k < end ensures (a + b)[k] == a[k] {}
    }
  }

  /** A unit that reuses an identifier spoils the conversation whatever follows. */
  lemma PrefixRejected(conversation: seq<Message>, unit: seq<Message>, rest: seq<Message>, allowed: Option<set<string>>)
    requires Accepted(conversation, allowed) && Closed(unit, allowed)
    requires !Accepted(conversation + unit, allowed)
    ensures !Accepted(conversation + unit + rest, allowed)
  {
    ClosedIffAccepted(conversation, allowed);
    var s, t := After(conversation, allowed).value, After(unit, allowed).value;
    ScanSplit(conversation, unit, allowed, NOTHING_SEEN);
    ScanSplit(conversation + unit, rest, allowed, NOTHING_SEEN);
    assert Beside(s.pending, NOTHING_SEEN) == s;
    ScanAllBeside(unit, allowed, s.pending, NOTHING_SEEN);
    if s.pending.Keys !! t.pending.Keys {
      AppendIffFresh(conversation, unit, allowed);
    }
  }

  // ---- What is accepted ----

  /** Exactly the answers that are accepted for a request with the given identity, tools and output limit. */
  lemma ResponseIff(requestId: nat, tools: set<string>, maxOutputTokens: nat, response: Response)
    ensures ValidResponse(requestId, tools, maxOutputTokens, response) <==>
              && response.spec == "nimora.agent-provider-response/1" && response.requestId == requestId
              && Bytes(response.content) <= 1_048_576 && |response.toolCalls| <= 32
              && response.usage.outputTokens <= maxOutputTokens
              && (response.finishReason.ToolCallsRequested? <==> |response.toolCalls| >= 1)
              && forall c :: c in response.toolCalls ==>
                   c.id != "" && Bytes(c.id) <= 128 && c.arguments.isObject && c.toolId in tools
  {
    hide Bytes;
    if forall c :: c in response.toolCalls ==>
         c.id != "" && Bytes(c.id) <= 128 && c.arguments.isObject && c.toolId in tools
    {
      forall i | 0 <= i < |response.toolCalls| ensures CallAllowed(response.toolCalls[i], Some(tools)) {
        assert response.toolCalls[i] in response.toolCalls;
      }
    }
  }
}
