/** The validator accepts a conversation exactly when its calls and results pair up. */
module ProtocolMeaning {
  import opened Wrappers
  import opened Text
  import opened Provider
  import opened FiniteSets

  ghost predicate Fresh(before: seq<Message>, calls: seq<ToolCall>) {
    forall c, d :: c in calls && d in Calls(before) ==> c.id != d.id
  }

  /** What the last message adds to the conditions on the messages before it. */
  ghost predicate Follows(before: seq<Message>, m: Message, allowed: Option<set<string>>) {
    && WellShaped(m, allowed)
    && DistinctIds(m.toolCalls) && Fresh(before, m.toolCalls)
    && (m.role == Tool ==>
          && m.toolCallId.value !in Answers(before)
          && exists c :: c in Calls(before) && m.toolCallId == Some(c.id) && m.toolName == Some(c.toolId))
  }

  lemma DistinctJoin(a: seq<ToolCall>, b: seq<ToolCall>)
    ensures DistinctIds(a + b) <==> DistinctIds(a) && DistinctIds(b) && forall c, d :: c in b && d in a ==> c.id != d.id
  {
    var ab := a + b;
    if DistinctIds(ab) {
      forall i, j | 0 <= i < j < |a| ensures a[i].id != a[j].id { assert ab[i] == a[i] && ab[j] == a[j]; }
      forall i, j | 0 <= i < j < |b| ensures b[i].id != b[j].id { assert ab[|a| + i] == b[i] && ab[|a| + j] == b[j]; }
      forall c, d | c in b && d in a ensures c.id != d.id {
        var i :| 0 <= i < |a| && a[i] == d;
        var j :| 0 <= j < |b| && b[j] == c;
        assert ab[i] == d && ab[|a| + j] == c;
      }
    }
    if DistinctIds(a) && DistinctIds(b) && forall c, d :: c in b && d in a ==> c.id != d.id {
      forall i, j | 0 <= i < j < |ab| ensures ab[i].id != ab[j].id {
        if j < |a| {
        } else if i >= |a| {
          assert ab[i] == b[i - |a|] && ab[j] == b[j - |a|];
        } else {
          assert ab[i] in a && ab[j] in b;
        }
      }
    }
  }

  lemma NoRepeatsSnoc(a: seq<string>, x: string)
    ensures NoRepeats(a + [x]) <==> NoRepeats(a) && x !in a
  {
    var ax := a + [x];
    if NoRepeats(ax) {
      forall i, j | 0 <= i < j < |a| ensures a[i] != a[j] { assert ax[i] == a[i] && ax[j] == a[j]; }
      forall i | 0 <= i < |a| ensures a[i] != x { assert ax[i] == a[i] && ax[|a|] == x; }
    }
  }

  lemma ConsistentLast(before: seq<Message>, m: Message, allowed: Option<set<string>>)
    ensures Consistent(before + [m], allowed) <==> Consistent(before, allowed) && Follows(before, m, allowed)
  {
    var all := before + [m];
    assert all[..|before|] == before;
    DistinctJoin(Calls(before), m.toolCalls);
    if m.role == Tool && m.toolCallId.Some? { NoRepeatsSnoc(Answers(before), m.toolCallId.value); }
    assert all[|before|] == m;
    forall j | 0 <= j < |before| ensures all[j] == before[j] && all[..j] == before[..j] {}
    if Consistent(all, allowed) {
      assert WellShaped(all[|before|], allowed) && AnswersEarlierCall(all, |before|);
      forall j | 0 <= j < |before| ensures WellShaped(before[j], allowed) && AnswersEarlierCall(before, j) {
        assert WellShaped(all[j], allowed) && AnswersEarlierCall(all, j);
      }
    }
    if Consistent(before, allowed) && Follows(before, m, allowed) {
      forall j | 0 <= j < |all| ensures WellShaped(all[j], allowed) && AnswersEarlierCall(all, j) {
        if j < |before| { assert WellShaped(before[j], allowed) && AnswersEarlierCall(before, j); }
      }
    }
  }

  /** Known identifiers are those of the calls seen, so fresh calls are unknown ones. */
  lemma FreshMeansUnknown(before: seq<Message>, calls: seq<ToolCall>, s: Scan)
    requires Records(s, before)
    ensures Fresh(before, calls) <==> forall c :: c in calls ==> c.id !in s.pending
  {
    if forall c :: c in calls ==> c.id !in s.pending {
      forall c, d | c in calls && d in Calls(before) ensures c.id != d.id {
        assert d.id in s.pending;
      }
    }
  }

  lemma AssistantFollows(before: seq<Message>, m: Message, allowed: Option<set<string>>, s: Scan)
    requires Records(s, before) && m.role == Assistant
    ensures ScanOne(m, allowed, s).Some? <==> Follows(before, m, allowed)
  {
    hide Fresh, DistinctIds, Bytes, AddCalls, Records;
    AddCallsMeaning(m.toolCalls, allowed, s.pending);
    FreshMeansUnknown(before, m.toolCalls, s);
  }

  lemma AssistantRecords(before: seq<Message>, m: Message, allowed: Option<set<string>>, s: Scan)
    requires Records(s, before) && m.role == Assistant && ScanOne(m, allowed, s).Some?
    ensures Records(ScanOne(m, allowed, s).value, before + [m])
  {
    hide DistinctIds, CallAllowed, AddCalls;
    AddCallsMeaning(m.toolCalls, allowed, s.pending);
    var pending := AddCalls(m.toolCalls, allowed, s.pending).value;
    CallsSnoc(before, m);
    forall id | id in pending ensures exists c :: c in Calls(before + [m]) && c.id == id {
      if id in s.pending {
        var c :| c in Calls(before) && c.id == id;
        assert c in Calls(before + [m]);
      } else {
        var c :| c in m.toolCalls && c.id == id;
        assert c in Calls(before + [m]);
      }
    }
  }

  lemma CallsSnoc(before: seq<Message>, m: Message)
    ensures Calls(before + [m]) == Calls(before) + m.toolCalls
    ensures m.role != Tool ==> Answers(before + [m]) == Answers(before)
    ensures m.role == Tool && m.toolCallId.Some? ==> Answers(before + [m]) == Answers(before) + [m.toolCallId.value]
  {
    assert (before + [m])[..|before|] == before;
  }

  lemma ToolFollows(before: seq<Message>, m: Message, allowed: Option<set<string>>, s: Scan)
    requires Records(s, before) && m.role == Tool
    ensures ScanOne(m, allowed, s).Some? <==> Follows(before, m, allowed)
  {
    hide CallAllowed;
    if m.toolCallId.Some? && m.toolName.Some? {
      var id, name := m.toolCallId.value, m.toolName.value;
      if id in s.pending {
        var c :| c in Calls(before) && c.id == id;
        assert s.pending[id] == c.toolId;
      }
      assert (id in s.pending && s.pending[id] == name) <==>
             exists c :: c in Calls(before) && m.toolCallId == Some(c.id) && m.toolName == Some(c.toolId);
    }
  }

  lemma ToolRecords(before: seq<Message>, m: Message, allowed: Option<set<string>>, s: Scan)
    requires Records(s, before) && m.role == Tool && ScanOne(m, allowed, s).Some?
    ensures Records(ScanOne(m, allowed, s).value, before + [m])
  {
    CallsSnoc(before, m);
    assert Calls(before) + [] == Calls(before);
  }

  /** One message passes the scan exactly when it continues what was recorded. */
  lemma ScanOneMeaning(before: seq<Message>, m: Message, allowed: Option<set<string>>, s: Scan)
    requires Records(s, before)
    ensures ScanOne(m, allowed, s).Some? <==> Follows(before, m, allowed)
    ensures ScanOne(m, allowed, s).Some? ==> Records(ScanOne(m, allowed, s).value, before + [m])
  {
    match m.role
    case Assistant =>
      hide Records, Follows, ScanOne;
      AssistantFollows(before, m, allowed, s);
      if ScanOne(m, allowed, s).Some? { AssistantRecords(before, m, allowed, s); }
    case Tool =>
      hide Records, Follows, ScanOne;
      ToolFollows(before, m, allowed, s);
      if ScanOne(m, allowed, s).Some? { ToolRecords(before, m, allowed, s); }
    case System | User =>
      assert (before + [m])[..|before|] == before;
      if m.toolCalls == [] { assert Calls(before + [m]) == Calls(before); }
  }

  lemma {:induction false} ScanMeaning(messages: seq<Message>, allowed: Option<set<string>>)
    ensures ScanAll(messages, allowed, NOTHING_SEEN).Some? <==> Consistent(messages, allowed)
    ensures ScanAll(messages, allowed, NOTHING_SEEN).Some? ==>
              Records(ScanAll(messages, allowed, NOTHING_SEEN).value, messages)
  {
    if messages != [] {
      var before, m := messages[..|messages| - 1], messages[|messages| - 1];
      assert messages == before + [m];
      ScanMeaning(before, allowed);
      ScanLast(before, m, allowed, NOTHING_SEEN);
      ConsistentLast(before, m, allowed);
      var s := ScanAll(before, allowed, NOTHING_SEEN);
      if s.Some? { ScanOneMeaning(before, m, allowed, s.value); }
    }
  }

  /** The validator's loop decides exactly the pairing condition. */
  lemma AcceptedIffWellPaired(messages: seq<Message>, allowed: Option<set<string>>)
    ensures Accepted(messages, allowed) <==> WellPaired(messages, allowed)
  {
    ScanMeaning(messages, allowed);
    var scan := ScanAll(messages, allowed, NOTHING_SEEN);
    if scan.Some? {
      var s := scan.value;
      SubsetCount(s.resolved, s.pending.Keys);
      assert |s.pending| == |s.pending.Keys|;
      if s.resolved == s.pending.Keys {
        forall c | c in Calls(messages) ensures c.id in Answers(messages) { assert c.id in s.resolved; }
      }
      if forall c :: c in Calls(messages) ==> c.id in Answers(messages) {
        assert s.pending.Keys <= s.resolved;
      }
    }
  }
}
