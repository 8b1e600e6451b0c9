/** Provider messages and the validator that pairs tool calls with tool results. */
module Provider {
  import opened Wrappers
  import opened Text

  const MAX_MESSAGES := 256
  const MAX_MESSAGE_BYTES := 256 * 1024
  const MAX_PROVIDER_TOOL_CALLS := 32

  datatype Role = System | User | Assistant | Tool

  datatype DataClassification = Public | Internal | Personal | Sensitive | Restricted {
    function Rank(): nat {
      match this
      case Public => 0 case Internal => 1 case Personal => 2 case Sensitive => 3 case Restricted => 4
    }
  }

  /** A JSON value, known by its encoded text and by whether it is an object. */
  datatype Json = Json(encoded: string, isObject: bool)

  datatype ToolCall = ToolCall(id: string, toolId: string, arguments: Json)

  datatype Message = Message(
    role: Role,
    content: string,
    classification: DataClassification,
    trusted: bool,
    toolCalls: seq<ToolCall>,
    toolCallId: Option<string>,
    toolName: Option<string>)

  function TextMessage(role: Role, content: string, classification: DataClassification, trusted: bool): Message {
    Message(role, content, classification, trusted, [], None, None)
  }

  /** The validator's two tables: calls seen so far with their tools, and calls already answered. */
  datatype Scan = Scan(pending: map<string, string>, resolved: set<string>)

  const NOTHING_SEEN := Scan(map[], {})

  predicate CallAllowed(call: ToolCall, allowed: Option<set<string>>) {
    && call.id != "" && Bytes(call.id) <= 128
    && call.arguments.isObject
    && (allowed.Some? ==> call.toolId in allowed.value)
  }

  /** The inner loop over one message's calls. */
  function AddCalls(calls: seq<ToolCall>, allowed: Option<set<string>>, pending: map<string,
                    string>): Option<map<string, string>> {
    if calls == [] then Some(pending)
    else if !CallAllowed(calls[0], allowed) || calls[0].id in pending then None
    else AddCalls(calls[1..], allowed, pending[calls[0].id := calls[0].toolId])
  }

  function ScanOne(m: Message, allowed: Option<set<string>>, s: Scan): Option<Scan> {
    match m.role
    case System | User =>
      if m.toolCalls != [] || m.toolCallId.Some? || m.toolName.Some? then None else Some(s)
    case Assistant =>
      if m.toolCallId.Some? || m.toolName.Some? then None else
      var pending := AddCalls(m.toolCalls, allowed, s.pending);
      if pending.None? then None else Some(Scan(pending.value, s.resolved))
    case Tool =>
      if m.toolCalls != [] || m.toolCallId.None? || m.toolName.None? then None
      else if m.toolCallId.value !in s.pending || s.pending[m.toolCallId.value] != m.toolName.value
              || m.toolCallId.value in s.resolved then None
      else Some(Scan(s.pending, s.resolved + {m.toolCallId.value}))
  }

  function ScanAll(messages: seq<Message>, allowed: Option<set<string>>, s: Scan): Option<Scan> {
    if messages == [] then Some(s) else
    var next := ScanOne(messages[0], allowed, s);
    if next.None? then None else ScanAll(messages[1..], allowed, next.value)
  }

  /** `validate_message_protocol_with_tools`: `allowed` is absent for checkpoints. */
  predicate Accepted(messages: seq<Message>, allowed: Option<set<string>>) {
    var s := ScanAll(messages, allowed, NOTHING_SEEN);
    s.Some? && |s.value.pending| == |s.value.resolved|
  }

  method ValidateMessageProtocol(messages: seq<Message>, allowed: Option<set<string>>) returns (ok: bool)
    ensures ok == Accepted(messages, allowed)
  {
    var pending: map<string, string> := map[];
    var resolved: set<string> := {};
    for i := 0 to |messages|
      invariant ScanAll(messages, allowed, NOTHING_SEEN) == ScanAll(messages[i..], allowed, Scan(pending, resolved))
    {
      var message := messages[i];
      ghost var before := Scan(pending, resolved);
      assert messages[i..][0] == message && messages[i..][1..] == messages[i + 1..];
      match message.role {
        case System | User =>
          if message.toolCalls != [] || message.toolCallId.Some? || message.toolName.Some? { return false; }
        case Assistant =>
          if message.toolCallId.Some? || message.toolName.Some? { return false; }
          var calls := message.toolCalls;
          for j := 0 to |calls|
            invariant AddCalls(calls, allowed, before.pending) == AddCalls(calls[j..], allowed, pending)
          {
            assert calls[j..][0] == calls[j] && calls[j..][1..] == calls[j + 1..];
            if !CallAllowed(calls[j], allowed) || calls[j].id in pending { return false; }
            pending := pending[calls[j].id := calls[j].toolId];
          }
        case Tool =>
          if message.toolCalls != [] || message.toolCallId.None? || message.toolName.None? { return false; }
          var callId, toolName := message.toolCallId.value, message.toolName.value;
          if callId !in pending || pending[callId] != toolName || callId in resolved { return false; }
          resolved := resolved + {callId};
      }
      assert ScanOne(message, allowed, before) == Some(Scan(pending, resolved));
    }
    return |pending| == |resolved|;
  }

  // ---- The independent reading: what it means for calls and results to pair up ----

  ghost function Calls(messages: seq<Message>): seq<ToolCall> {
    if messages == [] then [] else Calls(messages[..|messages| - 1]) + messages[|messages| - 1].toolCalls
  }

  /** The call identifiers answered, in order. */
  ghost function Answers(messages: seq<Message>): seq<string> {
    if messages == [] then [] else
    var before, m := messages[..|messages| - 1], messages[|messages| - 1];
    if m.role == Tool && m.toolCallId.Some? then Answers(before) + [m.toolCallId.value] else Answers(before)
  }

  ghost predicate DistinctIds(calls: seq<ToolCall>) {
    forall i, j :: 0 <= i < j < |calls| ==> calls[i].id != calls[j].id
  }

  ghost predicate NoRepeats<T>(s: seq<T>) {
    forall i, j :: 0 <= i < j < |s| ==> s[i] != s[j]
  }

  /** Fields fit the role, and every call is well formed and allowed. */
  ghost predicate WellShaped(m: Message, allowed: Option<set<string>>) {
    && (m.role != Tool ==> m.toolCallId.None? && m.toolName.None?)
    && (m.role == Tool ==> m.toolCallId.Some? && m.toolName.Some?)
    && (m.role != Assistant ==> m.toolCalls == [])
    && forall c :: c in m.toolCalls ==>
         && c.id != "" && Bytes(c.id) <= 128 && c.arguments.isObject
         && (allowed.Some? ==> c.toolId in allowed.value)
  }

  /** The tool message at `j` answers an earlier call to the same tool. */
  ghost predicate AnswersEarlierCall(messages: seq<Message>, j: nat)
    requires j < |messages|
  {
    messages[j].role == Tool ==>
      exists c :: c in Calls(messages[..j]) && messages[j].toolCallId == Some(c.id)
                  && messages[j].toolName == Some(c.toolId)
  }

  ghost predicate Consistent(messages: seq<Message>, allowed: Option<set<string>>) {
    && (forall i :: 0 <= i < |messages| ==> WellShaped(messages[i], allowed))
    && DistinctIds(Calls(messages))
    && NoRepeats(Answers(messages))
    && forall j :: 0 <= j < |messages| ==> AnswersEarlierCall(messages, j)
  }

  /** No call identifier is used twice, no call is answered twice, every result answers an earlier
      call to the same tool, and every call is answered. */
  ghost predicate WellPaired(messages: seq<Message>, allowed: Option<set<string>>) {
    Consistent(messages, allowed) && forall c :: c in Calls(messages) ==> c.id in Answers(messages)
  }

  ghost predicate Records(s: Scan, messages: seq<Message>) {
    && (forall c :: c in Calls(messages) ==> c.id in s.pending && s.pending[c.id] == c.toolId)
    && (forall id :: id in s.pending ==> exists c :: c in Calls(messages) && c.id == id)
    && (forall id :: id in s.resolved <==> id in Answers(messages))
    && s.resolved <= s.pending.Keys
  }

  lemma {:induction false} ScanSplit(a: seq<Message>, b: seq<Message>, allowed: Option<set<string>>, s: Scan)
    ensures var first := ScanAll(a, allowed, s);
            ScanAll(a + b, allowed, s) == if first.None? then None else ScanAll(b, allowed, first.value)
  {
    if a == [] {
      assert a + b == b;
    } else {
      assert (a + b)[1..] == a[1..] + b;
      var next := ScanOne(a[0], allowed, s);
      if next.Some? { ScanSplit(a[1..], b, allowed, next.value); }
    }
  }

  lemma ScanLast(before: seq<Message>, m: Message, allowed: Option<set<string>>, s: Scan)
    ensures var first := ScanAll(before, allowed, s);
            ScanAll(before + [m], allowed, s) == if first.None? then None else ScanOne(m, allowed, first.value)
  {
    ScanSplit(before, [m], allowed, s);
    var first := ScanAll(before, allowed, s);
    if first.Some? {
      var next := ScanOne(m, allowed, first.value);
      assert [m][1..] == [];
      if next.Some? { assert ScanAll([], allowed, next.value) == next; }
    }
  }

  /** Adding calls succeeds exactly when they are allowed, distinct and new. */
  lemma {:induction false} AddCallsMeaning(calls: seq<ToolCall>, allowed: Option<set<string>>,
                                           pending: map<string, string>)
    ensures AddCalls(calls, allowed, pending).Some? <==>
              (&& (forall c :: c in calls ==> CallAllowed(c, allowed))
               && DistinctIds(calls)
               && (forall c :: c in calls ==> c.id !in pending))
    ensures var r := AddCalls(calls, allowed, pending);
            r.Some? ==> && (forall id :: id in pending ==> id in r.value && r.value[id] == pending[id])
                        && (forall c :: c in calls ==> c.id in r.value && r.value[c.id] == c.toolId)
                        && (forall id :: id in r.value ==> id in pending || exists c :: c in calls && c.id == id)
                        && |r.value| == |pending| + |calls|
  {
    if calls != [] {
      var c0 := calls[0];
      assert calls == [c0] + calls[1..];
      if CallAllowed(c0, allowed) && c0.id !in pending {
        var pending' := pending[c0.id := c0.toolId];
        AddCallsMeaning(calls[1..], allowed, pending');
        assert pending'.Keys == pending.Keys + {c0.id};
        DistinctCons(calls);
      }
      assert c0 in calls;
    }
  }

  lemma DistinctCons(calls: seq<ToolCall>)
    requires calls != []
    ensures DistinctIds(calls) <==> DistinctIds(calls[1..]) && forall c :: c in calls[1..] ==> c.id != calls[0].id
  {
    if DistinctIds(calls) {
      forall c | c in calls[1..] ensures c.id != calls[0].id {
        var k :| 0 <= k < |calls[1..]| && calls[1..][k] == c;
        assert calls[k + 1] == c;
      }
    }
    if DistinctIds(calls[1..]) && forall c :: c in calls[1..] ==> c.id != calls[0].id {
      forall i, j | 0 <= i < j < |calls| ensures calls[i].id != calls[j].id {
        assert calls[j] == calls[1..][j - 1] && calls[j] in calls[1..];
        if i > 0 { assert calls[i] == calls[1..][i - 1]; }
      }
    }
  }
}
