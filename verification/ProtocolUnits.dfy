/** Cutting a conversation into protocol units: every unit of an accepted conversation answers its
    own calls, so whole units can be dropped or kept freely. */
module ProtocolUnits {
  import opened Wrappers
  import opened Provider
  import opened FiniteSets
  import opened ProtocolMeaning

  /** `protocol_units`. */
  function Units(messages: seq<Message>): Option<seq<seq<Message>>> {
    if messages == [] then Some([])
    else if messages[0].role == Assistant && messages[0].toolCalls != [] then
      var end := |messages[0].toolCalls| + 1;
      if end > |messages| || exists k :: 1 <= k < end && messages[k].role != Tool then None
      else Prepend([messages[..end]], Units(messages[end..]))
    else if messages[0].role == Tool then None
    else Prepend([[messages[0]]], Units(messages[1..]))
  }

  function Prepend(units: seq<seq<Message>>, rest: Option<seq<seq<Message>>>): Option<seq<seq<Message>>> {
    if rest.None? then None else Some(units + rest.value)
  }

  method CutUnits(messages: seq<Message>) returns (r: Option<seq<seq<Message>>>)
    ensures r == Units(messages)
  {
    var units: seq<seq<Message>> := [];
    var index := 0;
    assert messages[0..] == messages;
    PrependNothing(Units(messages));
    while index < |messages|
      invariant 0 <= index <= |messages|
      invariant Units(messages) == Prepend(units, Units(messages[index..]))
    {
      var message := messages[index];
      ghost var left := messages[index..];
      if message.role == Assistant && message.toolCalls != [] {
        var end := index + |message.toolCalls| + 1;
        if end > |messages| { return None; }
        if exists k :: index + 1 <= k < end && messages[k].role != Tool {
          var k :| index + 1 <= k < end && messages[k].role != Tool;
          assert left[k - index].role != Tool;
          return None;
        }
        assert left[..end - index] == messages[index..end] && left[end - index..] == messages[end..];
        PrependTwice(units, [messages[index..end]], Units(messages[end..]));
        units := units + [messages[index..end]];
        index := end;
      } else if message.role == Tool {
        return None;
      } else {
        assert left[1..] == messages[index + 1..];
        PrependTwice(units, [[message]], Units(messages[index + 1..]));
        units := units + [[message]];
        index := index + 1;
      }
    }
    assert messages[index..] == [] && units + [] == units;
    return Some(units);
  }

  lemma PrependNothing(rest: Option<seq<seq<Message>>>)
    ensures Prepend([], rest) == rest
  {
    if rest.Some? { assert [] + rest.value == rest.value; }
  }

  lemma PrependTwice(a: seq<seq<Message>>, b: seq<seq<Message>>, rest: Option<seq<seq<Message>>>)
    ensures Prepend(a, Prepend(b, rest)) == Prepend(a + b, rest)
  {
    if rest.Some? { assert a + (b + rest.value) == (a + b) + rest.value; }
  }

  function Flatten(units: seq<seq<Message>>): seq<Message> {
    if units == [] then [] else units[0] + Flatten(units[1..])
  }

  lemma {:induction false} FlattenJoin(a: seq<seq<Message>>, b: seq<seq<Message>>)
    ensures Flatten(a + b) == Flatten(a) + Flatten(b)
  {
    if a == [] {
      assert a + b == b;
    } else {
      assert (a + b)[1..] == a[1..] + b;
      FlattenJoin(a[1..], b);
    }
  }

  ghost predicate UnitShape(unit: seq<Message>) {
    && unit != []
    && unit[0].role != Tool
    && (if unit[0].role == Assistant then |unit| == |unit[0].toolCalls| + 1 else |unit| == 1)
    && forall k :: 1 <= k < |unit| ==> unit[k].role == Tool
  }

  /** Units are never empty, have the shape of a call with its results, and lose nothing. */
  lemma {:induction false} UnitsPartition(messages: seq<Message>)
    requires Units(messages).Some?
    ensures Flatten(Units(messages).value) == messages
    ensures forall u :: u in Units(messages).value ==> UnitShape(u)
  {
    if messages != [] {
      var end := if messages[0].role == Assistant && messages[0].toolCalls != [] then |messages[0].toolCalls| + 1
                 else 1;
      UnitsPartition(messages[end..]);
      var rest := Units(messages[end..]).value;
      assert messages[..end] + messages[end..] == messages;
      assert messages[..1] == [messages[0]];
      assert ([messages[..end]] + rest)[1..] == rest;
      forall k | 1 <= k < end ensures messages[k].role == Tool {}
    }
  }

  lemma ShapedUnit(unit: seq<Message>)
    requires UnitShape(unit)
    ensures Units(unit) == Some([unit])
  {
    assert unit[..|unit|] == unit && unit[|unit|..] == [];
    if |unit| == 1 { assert unit == [unit[0]]; }
    assert [unit] + [] == [unit];
  }

  /** And there is no other way to cut a conversation into units of that shape. */
  lemma {:induction false} UnitsUnique(units: seq<seq<Message>>)
    requires forall u :: u in units ==> UnitShape(u)
    ensures Units(Flatten(units)) == Some(units)
  {
    if units != [] {
      var u, rest := units[0], Flatten(units[1..]);
      var messages := Flatten(units);
      assert u in units;
      UnitsUnique(units[1..]);
      assert messages == u + rest && messages[..|u|] == u && messages[|u|..] == rest;
      assert |u| == 1 ==> u == [messages[0]];
      assert [u] + units[1..] == units;
    }
  }

  // ---- Scanning beside an answered past ----

  /** Everything in `base` has been asked and answered; `s` is what happens beside it. */
  ghost function Beside(base: map<string, string>, s: Scan): Scan {
    Scan(base + s.pending, base.Keys + s.resolved)
  }

  ghost predicate Apart(base: map<string, string>, s: Scan) {
    base.Keys !! s.pending.Keys && s.resolved <= s.pending.Keys
  }

  lemma AddCallsBeside(calls: seq<ToolCall>, allowed: Option<set<string>>, base: map<string, string>,
                       q: map<string, string>)
    requires base.Keys !! q.Keys
    ensures var r := AddCalls(calls, allowed, q);
            && AddCalls(calls, allowed, base + q) ==
                 (if r.Some? && base.Keys !! r.value.Keys then Some(base + r.value) else None)
            && (r.Some? ==> q.Keys <= r.value.Keys)
  {
    hide CallAllowed, DistinctIds, AddCalls;
    AddCallsMeaning(calls, allowed, q);
    AddCallsMeaning(calls, allowed, base + q);
    var r, w := AddCalls(calls, allowed, q), AddCalls(calls, allowed, base + q);
    if w.Some? {
      forall c | c in calls ensures c.id !in q { assert c.id !in base + q; }
      assert r.Some?;
      SameAdditions(calls, base, q, r.value, w.value);
    } else if r.Some? {
      var c :| c in calls && c.id in base + q;
      assert c.id in r.value && c.id in base;
    }
  }

  lemma SameAdditions(calls: seq<ToolCall>, base: map<string, string>, q: map<string, string>, r: map<string, string>,
                      w: map<string, string>)
    requires forall c :: c in calls ==> c.id !in base + q
    requires base.Keys !! q.Keys
    requires forall id :: id in q ==> id in r && r[id] == q[id]
    requires forall c :: c in calls ==> c.id in r && r[c.id] == c.toolId
    requires forall id :: id in r ==> id in q || exists c :: c in calls && c.id == id
    requires forall id :: id in base + q ==> id in w && w[id] == (base + q)[id]
    requires forall c :: c in calls ==> c.id in w && w[c.id] == c.toolId
    requires forall id :: id in w ==> id in base + q || exists c :: c in calls && c.id == id
    ensures base.Keys !! r.Keys && w == base + r
  {
    forall id | id in w.Keys + (base + r).Keys ensures id in w && id in base + r && w[id] == (base + r)[id] {
      assert id in base + q || exists c :: c in calls && c.id == id;
    }
    assert w.Keys == (base + r).Keys;
  }

  lemma ScanOneBeside(m: Message, allowed: Option<set<string>>, base: map<string, string>, s: Scan)
    requires Apart(base, s)
    ensures var t := ScanOne(m, allowed, s);
            ScanOne(m, allowed, Beside(base, s)) ==
              if t.Some? && Apart(base, t.value) then Some(Beside(base, t.value)) else None
  {
    if m.role == Assistant {
      AddCallsBeside(m.toolCalls, allowed, base, s.pending);
    } else if m.role == Tool && m.toolCallId.Some? {
      var id := m.toolCallId.value;
      assert base.Keys + s.resolved + {id} == base.Keys + (s.resolved + {id});
    }
  }

  lemma KeysGrow(m: Message, allowed: Option<set<string>>, s: Scan)
    ensures ScanOne(m, allowed, s).Some? ==> s.pending.Keys <= ScanOne(m, allowed, s).value.pending.Keys
  {
    if m.role == Assistant { AddCallsMeaning(m.toolCalls, allowed, s.pending); }
  }

  lemma {:induction false} KeysGrowAll(messages: seq<Message>, allowed: Option<set<string>>, s: Scan)
    ensures ScanAll(messages, allowed, s).Some? ==> s.pending.Keys <= ScanAll(messages, allowed, s).value.pending.Keys
  {
    if messages != [] {
      KeysGrow(messages[0], allowed, s);
      var next := ScanOne(messages[0], allowed, s);
      if next.Some? { KeysGrowAll(messages[1..], allowed, next.value); }
    }
  }

  /** An answered past neither helps nor hinders, as long as its identifiers are not used again. */
  lemma {:induction false} ScanAllBeside(messages: seq<Message>, allowed: Option<set<string>>, base: map<string,
                                         string>, s: Scan)
    requires Apart(base, s)
    ensures var t := ScanAll(messages, allowed, s);
            ScanAll(messages, allowed, Beside(base, s)) ==
              if t.Some? && base.Keys !! t.value.pending.Keys then Some(Beside(base, t.value)) else None
    ensures ScanAll(messages, allowed, s).Some? ==>
              ScanAll(messages, allowed, s).value.resolved <= ScanAll(messages, allowed, s).value.pending.Keys
  {
    if messages != [] {
      ScanOneBeside(messages[0], allowed, base, s);
      ScanOneBeside(messages[0], allowed, map[], s);
      var next := ScanOne(messages[0], allowed, s);
      if next.Some? {
        OneStaysInside(messages[0], allowed, s);
        if base.Keys !! next.value.pending.Keys {
          ScanAllBeside(messages[1..], allowed, base, next.value);
        } else {
          ScanAllBeside(messages[1..], allowed, map[], next.value);
          KeysGrowAll(messages[1..], allowed, next.value);
        }
      }
    }
  }

  lemma OneStaysInside(m: Message, allowed: Option<set<string>>, s: Scan)
    requires s.resolved <= s.pending.Keys
    ensures ScanOne(m, allowed, s).Some? ==>
              ScanOne(m, allowed, s).value.resolved <= ScanOne(m, allowed, s).value.pending.Keys
  {
    KeysGrow(m, allowed, s);
  }

  // ---- Units are closed ----

  ghost function After(messages: seq<Message>, allowed: Option<set<string>>): Option<Scan> {
    ScanAll(messages, allowed, NOTHING_SEEN)
  }

  /** Scanned on its own, the unit ends with every call answered. */
  ghost predicate Closed(unit: seq<Message>, allowed: Option<set<string>>) {
    After(unit, allowed).Some? && After(unit, allowed).value.resolved == After(unit, allowed).value.pending.Keys
  }

  ghost function Ids(unit: seq<Message>, allowed: Option<set<string>>): set<string>
    requires Closed(unit, allowed)
  {
    After(unit, allowed).value.resolved
  }

  ghost predicate AllClosed(units: seq<seq<Message>>, allowed: Option<set<string>>) {
    && (forall i :: 0 <= i < |units| ==> Closed(units[i], allowed))
    && forall i, j :: 0 <= i < j < |units| ==> Ids(units[i], allowed) !! Ids(units[j], allowed)
  }

  lemma ClosedIffAccepted(unit: seq<Message>, allowed: Option<set<string>>)
    ensures Closed(unit, allowed) <==> Accepted(unit, allowed)
  {
    ScanAllBeside(unit, allowed, map[], NOTHING_SEEN);
    var s := After(unit, allowed);
    if s.Some? { SubsetCount(s.value.resolved, s.value.pending.Keys); }
  }

  /** A run of tool results answers one new call each. */
  lemma {:induction false} ResultsCount(results: seq<Message>, allowed: Option<set<string>>, s: Scan)
    requires forall k :: 0 <= k < |results| ==> results[k].role == Tool
    requires s.resolved <= s.pending.Keys && ScanAll(results, allowed, s).Some?
    ensures var t := ScanAll(results, allowed, s).value;
            t.pending == s.pending && |t.resolved| == |s.resolved| + |results| && t.resolved <= t.pending.Keys
  {
    if results != [] {
      ResultsCount(results[1..], allowed, ScanOne(results[0], allowed, s).value);
    }
  }

  /** The pigeonhole: starting with nothing outstanding, as many new answers as new calls leave
      nothing outstanding. */
  lemma UnitEndsAnswered(unit: seq<Message>, allowed: Option<set<string>>, base: map<string, string>)
    requires UnitShape(unit)
    requires ScanAll(unit, allowed, Scan(base, base.Keys)).Some?
    ensures var t := ScanAll(unit, allowed, Scan(base, base.Keys)).value; t.resolved == t.pending.Keys
  {
    var s := Scan(base, base.Keys);
    var asked := ScanOne(unit[0], allowed, s).value;
    AddCallsMeaning(unit[0].toolCalls, allowed, base);
    assert |base| == |base.Keys|;
    ResultsCount(unit[1..], allowed, asked);
    var t := ScanAll(unit, allowed, s).value;
    assert t == ScanAll(unit[1..], allowed, asked).value;
    assert |t.pending| == |t.pending.Keys|;
    SubsetCount(t.resolved, t.pending.Keys);
  }

  lemma {:induction false} UnitsFrom(messages: seq<Message>, allowed: Option<set<string>>, base: map<string, string>)
    requires Units(messages).Some? && ScanAll(messages, allowed, Scan(base, base.Keys)).Some?
    ensures AllClosed(Units(messages).value, allowed)
    ensures forall i :: 0 <= i < |Units(messages).value| ==> Ids(Units(messages).value[i], allowed) !! base.Keys
    decreases |messages|
  {
    if messages != [] {
      UnitsPartition(messages);
      var us := Units(messages).value;
      var u := us[0];
      var rest := messages[|u|..];
      assert messages == u + rest && Units(rest) == Some(us[1..]);
      assert u in us;
      assert Beside(base, NOTHING_SEEN) == Scan(base, base.Keys);
      hide Units, UnitShape, AllClosed, ScanOne, Beside;
      ScanSplit(u, rest, allowed, Scan(base, base.Keys));
      UnitEndsAnswered(u, allowed, base);
      ScanAllBeside(u, allowed, base, NOTHING_SEEN);
      var t := After(u, allowed).value;
      FirstUnitClosed(base, t);
      UnitsFrom(rest, allowed, base + t.pending);
      FirstThenRest(us, allowed, base, t);
    }
  }

  lemma FirstThenRest(us: seq<seq<Message>>, allowed: Option<set<string>>, base: map<string, string>, t: Scan)
    requires us != [] && After(us[0], allowed) == Some(t) && t.resolved == t.pending.Keys && base.Keys !! t.pending.Keys
    requires AllClosed(us[1..], allowed)
    requires forall i :: 0 <= i < |us[1..]| ==> Ids(us[1..][i], allowed) !! (base + t.pending).Keys
    ensures AllClosed(us, allowed)
    ensures forall i :: 0 <= i < |us| ==> Ids(us[i], allowed) !! base.Keys
  {
    hide ScanAll;
    forall i | 0 <= i < |us| ensures Closed(us[i], allowed) && Ids(us[i], allowed) !! base.Keys {
      if i > 0 { assert us[i] == us[1..][i - 1]; }
    }
    forall i, j | 0 <= i < j < |us| ensures Ids(us[i], allowed) !! Ids(us[j], allowed) {
      assert us[j] == us[1..][j - 1];
      if i > 0 { assert us[i] == us[1..][i - 1]; }
    }
  }

  lemma FirstUnitClosed(base: map<string, string>, t: Scan)
    requires base.Keys !! t.pending.Keys && t.resolved <= t.pending.Keys
    requires Beside(base, t).resolved == Beside(base, t).pending.Keys
    ensures t.resolved == t.pending.Keys
    ensures Beside(base, t) == Scan(base + t.pending, (base + t.pending).Keys)
  {
    forall id | id in t.pending ensures id in t.resolved {
      assert id in (base + t.pending).Keys;
    }
  }

  /** Closed units with different identifiers can be put together in any order. */
  lemma {:induction false} ClosedUnitsScan(units: seq<seq<Message>>, allowed: Option<set<string>>,
                                           base: map<string, string>)
    requires AllClosed(units, allowed)
    requires forall i :: 0 <= i < |units| ==> Ids(units[i], allowed) !! base.Keys
    ensures var s := ScanAll(Flatten(units), allowed, Scan(base, base.Keys));
            s.Some? && s.value.resolved == s.value.pending.Keys
  {
    if units != [] {
      var u, rest := units[0], units[1..];
      assert Beside(base, NOTHING_SEEN) == Scan(base, base.Keys);
      ScanAllBeside(u, allowed, base, NOTHING_SEEN);
      var t := After(u, allowed).value;
      assert Beside(base, t) == Scan(base + t.pending, (base + t.pending).Keys);
      forall i | 0 <= i < |rest| ensures Closed(rest[i], allowed) && Ids(rest[i], allowed) !! (base + t.pending).Keys {
        assert rest[i] == units[i + 1];
      }
      forall i, j | 0 <= i < j < |rest| ensures Ids(rest[i], allowed) !! Ids(rest[j], allowed) {
        assert rest[i] == units[i + 1] && rest[j] == units[j + 1];
      }
      ClosedUnitsScan(rest, allowed, base + t.pending);
      ScanSplit(u, Flatten(rest), allowed, Scan(base, base.Keys));
    }
  }

  /** Each unit of an accepted conversation is by itself a well-paired conversation, and no call
      identifier is shared between units. */
  lemma UnitsOfAccepted(source: seq<Message>, allowed: Option<set<string>>)
    requires Accepted(source, allowed) && Units(source).Some?
    ensures Flatten(Units(source).value) == source
    ensures AllClosed(Units(source).value, allowed)
    ensures forall u :: u in Units(source).value ==> UnitShape(u) && WellPaired(u, allowed)
  {
    UnitsPartition(source);
    var none: map<string, string> := map[];
    assert Scan(none, none.Keys) == NOTHING_SEEN;
    UnitsFrom(source, allowed, none);
    forall u | u in Units(source).value ensures WellPaired(u, allowed) {
      ClosedIffAccepted(u, allowed);
      AcceptedIffWellPaired(u, allowed);
    }
  }

  ghost predicate Plain(m: Message) {
    m.role != Tool && m.toolCalls == [] && m.toolCallId.None? && m.toolName.None?
  }

  lemma {:induction false} PlainScan(messages: seq<Message>, allowed: Option<set<string>>, s: Scan)
    requires forall i :: 0 <= i < |messages| ==> Plain(messages[i])
    ensures ScanAll(messages, allowed, s) == Some(s)
  {
    if messages != [] {
      assert Plain(messages[0]);
      PlainScan(messages[1..], allowed, s);
    }
  }

  /** Plain messages in front of closed, distinct units make an accepted conversation. */
  lemma PlainThenUnits(plain: seq<Message>, units: seq<seq<Message>>, allowed: Option<set<string>>)
    requires forall i :: 0 <= i < |plain| ==> Plain(plain[i])
    requires AllClosed(units, allowed)
    ensures Accepted(plain + Flatten(units), allowed)
  {
    PlainScan(plain, allowed, NOTHING_SEEN);
    ScanSplit(plain, Flatten(units), allowed, NOTHING_SEEN);
    var none: map<string, string> := map[];
    ClosedUnitsScan(units, allowed, none);
    assert Scan(none, none.Keys) == NOTHING_SEEN;
  }

  function SystemMessages(source: seq<Message>): seq<Message> {
    if source == [] then []
    else if source[0].role == System then [source[0]] + SystemMessages(source[1..])
    else SystemMessages(source[1..])
  }

  lemma {:induction false} SystemMessagesFrom(source: seq<Message>)
    ensures forall m :: m in SystemMessages(source) <==> m in source && m.role == System
  {
    if source != [] {
      SystemMessagesFrom(source[1..]);
      assert source == [source[0]] + source[1..];
    }
  }

  lemma SystemMessagesPlain(source: seq<Message>, allowed: Option<set<string>>)
    requires Accepted(source, allowed)
    ensures forall m :: m in SystemMessages(source) ==> Plain(m)
  {
    SystemMessagesFrom(source);
    AcceptedIffWellPaired(source, allowed);
    forall m | m in SystemMessages(source) ensures Plain(m) {
      var i :| 0 <= i < |source| && source[i] == m;
      assert WellShaped(source[i], allowed);
    }
  }

  ghost function Picked(units: seq<seq<Message>>, picks: seq<nat>): (r: seq<seq<Message>>)
    requires forall i :: 0 <= i < |picks| ==> picks[i] < |units|
    ensures |r| == |picks| && forall i :: 0 <= i < |r| ==> r[i] == units[picks[i]]
  {
    seq(|picks|, i requires 0 <= i < |picks| => units[picks[i]])
  }

  /** Any selection of whole units, none taken twice, behind the hoisted system messages and any
      further plain messages, is accepted again. */
  lemma SelectionAccepted(source: seq<Message>, allowed: Option<set<string>>, extra: seq<Message>, picks: seq<nat>)
    requires Accepted(source, allowed) && Units(source).Some?
    requires forall i :: 0 <= i < |extra| ==> Plain(extra[i])
    requires NoRepeats(picks) && forall i :: 0 <= i < |picks| ==> picks[i] < |Units(source).value|
    ensures Accepted(SystemMessages(source) + extra + Flatten(Picked(Units(source).value, picks)), allowed)
  {
    UnitsOfAccepted(source, allowed);
    SystemMessagesPlain(source, allowed);
    var us := Units(source).value;
    var chosen := Picked(us, picks);
    forall i, j | 0 <= i < j < |chosen| ensures Ids(chosen[i], allowed) !! Ids(chosen[j], allowed) {
      assert picks[i] != picks[j];
      assert picks[i] < picks[j] || picks[j] < picks[i];
    }
    PlainThenUnits(SystemMessages(source) + extra, chosen, allowed);
  }
}
