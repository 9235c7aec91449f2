/** `production/control_plane.py` and `ois/control_plane/sqlite_evidence.py`: the hash-linked evidence ledger in
    memory and its SQLite twin. The digest is any injective function of what the code hashes; `dumps` (None when it
    raises) and `loads` stand for the JSON encoding of a payload. */
module Evidence {
  import opened Prelude
  import opened Values

  /** A dictionary in insertion order, which its `repr` and so the hash depends on. */
  type Payload = seq<(string, Value)>

  /** What is hashed. The timestamp is not. */
  datatype Content = Content(id: string, exec: string, kind: string, payload: Payload, previous: Option<string>)

  datatype Event =
    Event(id: string, exec: string, kind: string, payload: Payload, timestamp: int, previous: Option<string>,
      hash: string)

  datatype Row =
    Row(id: string, exec: string, kind: string, payloadJson: string, timestamp: int, previous: Option<string>,
      hash: string)

  /** One append, with the id and the time the ledger draws for it. */
  datatype Entry = Entry(id: string, exec: string, kind: string, payload: Payload, timestamp: int)

  ghost predicate Injective(digest: Content -> string) {
    forall a, b :: digest(a) == digest(b) ==> a == b
  }

  function LastHash(events: seq<Event>): Option<string> {
    if events == [] then None else Some(events[|events| - 1].hash)
  }

  function Previous(events: seq<Event>, i: nat): Option<string>
    requires i < |events|
  {
    if i == 0 then None else Some(events[i - 1].hash)
  }

  predicate LinkHolds(digest: Content -> string, e: Event, previous: Option<string>) {
    e.previous == previous && e.hash == digest(Content(e.id, e.exec, e.kind, e.payload, previous))
  }

  /** Each event names its predecessor's hash and carries the hash of its own content. */
  ghost predicate Chained(digest: Content -> string, events: seq<Event>) {
    forall i :: 0 <= i < |events| ==> LinkHolds(digest, events[i], Previous(events, i))
  }

  function Link(digest: Content -> string, e: Entry, previous: Option<string>): Event {
    Event(e.id, e.exec, e.kind, e.payload, e.timestamp, previous,
      digest(Content(e.id, e.exec, e.kind, e.payload, previous)))
  }

  /** The chain that a sequence of appends builds. */
  function Linked(digest: Content -> string, entries: seq<Entry>): (events: seq<Event>)
    ensures |events| == |entries|
  {
    if entries == [] then []
    else
      var before := Linked(digest, entries[..|entries| - 1]);
      before + [Link(digest, entries[|entries| - 1], LastHash(before))]
  }

  predicate Accepts(entries: seq<Entry>, e: Entry) {
    forall i :: 0 <= i < |entries| ==> entries[i].id != e.id
  }

  lemma LinkedStep(digest: Content -> string, entries: seq<Entry>, e: Entry)
    ensures Linked(digest, entries + [e]) ==
            Linked(digest, entries) + [Link(digest, e, LastHash(Linked(digest, entries)))]
  {
    assert (entries + [e])[..|entries + [e]| - 1] == entries;
  }

  /** Every event of the built chain carries its entry's data and links to the event before it. */
  lemma {:induction false} LinkedAt(digest: Content -> string, entries: seq<Entry>, i: nat)
    requires i < |entries|
    ensures Linked(digest, entries)[i] == Link(digest, entries[i], Previous(Linked(digest, entries), i))
  {
    if i < |entries| - 1 {
      LinkedAt(digest, entries[..|entries| - 1], i);
    }
  }

  /** Every append sequence verifies. */
  lemma AppendsVerify(digest: Content -> string, entries: seq<Entry>)
    ensures Chained(digest, Linked(digest, entries))
  {
    forall i | 0 <= i < |entries|
      ensures LinkHolds(digest, Linked(digest, entries)[i], Previous(Linked(digest, entries), i))
    {
      LinkedAt(digest, entries, i);
    }
  }

  /** Equal in everything but the timestamps. */
  predicate SameEvents(a: seq<Event>, b: seq<Event>) {
    |a| == |b| && forall i :: 0 <= i < |a| ==> a[i] == b[i].(timestamp := a[i].timestamp)
  }

  lemma SameHashSameEvent(digest: Content -> string, x: Event, y: Event)
    requires Injective(digest) && LinkHolds(digest, x, x.previous) && LinkHolds(digest, y, y.previous)
    requires x.hash == y.hash
    ensures x == y.(timestamp := x.timestamp)
  {
    var a, b := Content(x.id, x.exec, x.kind, x.payload, x.previous),
      Content(y.id, y.exec, y.kind, y.payload, y.previous);
    assert digest(a) == digest(b);
  }

  lemma LastEventDetermined(digest: Content -> string, a: seq<Event>, b: seq<Event>)
    requires Injective(digest) && Chained(digest, a) && Chained(digest, b) && LastHash(a) == LastHash(b) && a != []
    ensures b != [] && a[|a| - 1] == b[|b| - 1].(timestamp := a[|a| - 1].timestamp)
    ensures Previous(a, |a| - 1) == Previous(b, |b| - 1)
  {
    var m, n := |a| - 1, |b| - 1;
    assert LinkHolds(digest, a[m], Previous(a, m));
    assert LinkHolds(digest, b[n], Previous(b, n));
    hide Injective, Chained;
    SameHashSameEvent(digest, a[m], b[n]);
  }

  lemma {:induction false} SameHashSameChain(digest: Content -> string, a: seq<Event>, b: seq<Event>)
    requires Injective(digest) && Chained(digest, a) && Chained(digest, b) && LastHash(a) == LastHash(b)
    ensures SameEvents(a, b)
    decreases |a|
  {
    hide Injective, Chained;
    if a != [] {
      LastEventDetermined(digest, a, b);
      var a', b' := a[..|a| - 1], b[..|b| - 1];
      PrefixVerifies(digest, a, |a| - 1);
      PrefixVerifies(digest, b, |b| - 1);
      SameHashSameChain(digest, a', b');
      forall i | 0 <= i < |a| ensures a[i] == b[i].(timestamp := a[i].timestamp) {
        assert i < |a'| ==> a[i] == a'[i] && b[i] == b'[i];
      }
    }
  }

  /** Against a known last hash, a candidate ledger verifies exactly when it is the recorded one up to timestamps:
      every edit, insertion, deletion, truncation or reordering of hashed content is found, and a changed timestamp
      never is. */
  lemma TamperingIsFoundExactlyOutsideTimestamps(digest: Content -> string, recorded: seq<Event>, candidate: seq<Event>)
    requires Injective(digest) && Chained(digest, recorded) && LastHash(candidate) == LastHash(recorded)
    ensures Chained(digest, candidate) <==> SameEvents(recorded, candidate)
  {
    if Chained(digest, candidate) {
      SameHashSameChain(digest, recorded, candidate);
    }
    if SameEvents(recorded, candidate) {
      forall i | 0 <= i < |candidate| ensures LinkHolds(digest, candidate[i], Previous(candidate, i)) {
        assert LinkHolds(digest, recorded[i], Previous(recorded, i));
        assert Previous(candidate, i) == Previous(recorded, i);
      }
    }
  }

  /** Without a known last hash, cutting off the end goes unnoticed. */
  lemma PrefixVerifies(digest: Content -> string, events: seq<Event>, n: nat)
    requires n <= |events| && Chained(digest, events)
    ensures Chained(digest, events[..n])
  {
    forall i | 0 <= i < n ensures LinkHolds(digest, events[..n][i], Previous(events[..n], i)) {
      assert LinkHolds(digest, events[i], Previous(events, i));
    }
  }

  /** The loop of `verify_chain`, on any list of events, recorded or tampered with. */
  method VerifyChain(digest: Content -> string, events: seq<Event>) returns (ok: bool)
    ensures ok <==> Chained(digest, events)
  {
    hide LinkHolds;
    var previous: Option<string> := None;
    for i := 0 to |events|
      invariant previous == if i == 0 then None else Some(events[i - 1].hash)
      invariant forall k :: 0 <= k < i ==> LinkHolds(digest, events[k], Previous(events, k))
    {
      if !LinkHolds(digest, events[i], previous) {
        return false;
      }
      previous := Some(events[i].hash);
    }
    ok := true;
  }

  function OfExecution(events: seq<Event>, exec: string): seq<Event> {
    if events == [] then []
    else
      var last := events[|events| - 1];
      OfExecution(events[..|events| - 1], exec) + (if last.exec == exec then [last] else [])
  }

  /** Taking an execution's events goes event by event and keeps their order. */
  lemma {:induction false} OfExecutionSplits(a: seq<Event>, b: seq<Event>, exec: string)
    ensures OfExecution(a + b, exec) == OfExecution(a, exec) + OfExecution(b, exec)
  {
    if b == [] {
      assert a + b == a;
    } else {
      OfExecutionSplits(a, b[..|b| - 1], exec);
      assert (a + b)[..|a + b| - 1] == a + b[..|b| - 1];
    }
  }

  lemma OfExecutionOne(x: Event, exec: string)
    ensures OfExecution([x], exec) == if x.exec == exec then [x] else []
  {
    assert [x][..0] == [];
  }

  ghost predicate Appended(before: seq<Entry>, e: Entry, accepted: bool, after: seq<Entry>) {
    after == if accepted then before + [e] else before
  }

  class EvidenceLedger {
    const digest: Content -> string
    var events: seq<Event>
    var ids: set<string>
    ghost var entries: seq<Entry>

    ghost predicate Valid()
      reads this
    {
      events == Linked(digest, entries) && ids == set i | 0 <= i < |entries| :: entries[i].id
    }

    constructor (digest: Content -> string)
      ensures Valid() && this.digest == digest && entries == []
    {
      this.digest := digest;
      events, ids, entries := [], {}, [];
    }

    method Append(e: Entry) returns (appended: Option<Event>)
      requires Valid()
      modifies this
      ensures Valid()
      ensures appended.Some? <==> Accepts(old(entries), e)
      ensures Appended(old(entries), e, appended.Some?, entries)
      ensures appended.Some? ==> events == old(events) + [appended.value]
    {
      if e.id in ids {
        return None;
      }
      LinkedStep(digest, entries, e);
      var previous := if events == [] then None else Some(events[|events| - 1].hash);
      var event := Link(digest, e, previous);
      events := events + [event];
      ids := ids + {e.id};
      entries := entries + [e];
      appended := Some(event);
    }

    method EventsOf(exec: Option<string>) returns (found: seq<Event>)
      ensures found == if exec.None? then events else OfExecution(events, exec.value)
    {
      if exec.None? {
        return events;
      }
      found := [];
      for i := 0 to |events|
        invariant found == OfExecution(events[..i], exec.value)
      {
        assert events[..i + 1][..i] == events[..i];
        found := found + if events[i].exec == exec.value then [events[i]] else [];
      }
      assert events[..|events|] == events;
    }
  }

  /** What reading a row back yields: the hash is the stored one, the payload has been through JSON. */
  function Decode(loads: string -> Payload, r: Row): Event {
    Event(r.id, r.exec, r.kind, loads(r.payloadJson), r.timestamp, r.previous, r.hash)
  }

  function DecodeAll(loads: string -> Payload, rows: seq<Row>): (events: seq<Event>)
    ensures |events| == |rows| && forall i :: 0 <= i < |rows| ==> events[i] == Decode(loads, rows[i])
  {
    seq(|rows|, i requires 0 <= i < |rows| => Decode(loads, rows[i]))
  }

  predicate Stable(dumps: Payload -> Option<string>, loads: string -> Payload, p: Payload) {
    dumps(p).Some? && loads(dumps(p).value) == p
  }

  ghost predicate RowsHold(
    digest: Content -> string, dumps: Payload -> Option<string>, rows: seq<Row>, entries: seq<Entry>) {
    && |rows| == |entries|
    && forall i :: 0 <= i < |rows| ==>
         var e := Linked(digest, entries)[i];
         && dumps(entries[i].payload).Some?
         && rows[i] == Row(e.id, e.exec, e.kind, dumps(entries[i].payload).value, e.timestamp, e.previous, e.hash)
  }

  ghost predicate AllStable(dumps: Payload -> Option<string>, loads: string -> Payload, entries: seq<Entry>) {
    forall i :: 0 <= i < |entries| ==> Stable(dumps, loads, entries[i].payload)
  }

  lemma StoredIds(digest: Content -> string, dumps: Payload -> Option<string>, rows: seq<Row>, entries: seq<Entry>)
    requires RowsHold(digest, dumps, rows, entries)
    ensures |rows| == |entries| && forall i :: 0 <= i < |rows| ==> rows[i].id == entries[i].id
  {
    forall i | 0 <= i < |rows| ensures rows[i].id == entries[i].id {
      LinkedAt(digest, entries, i);
    }
  }

  lemma {:induction false} StoreStep(
    digest: Content -> string, dumps: Payload -> Option<string>, rows: seq<Row>, entries: seq<Entry>, e: Entry)
    requires RowsHold(digest, dumps, rows, entries) && dumps(e.payload).Some?
    ensures
      var v := Link(digest, e, if rows == [] then None else Some(rows[|rows| - 1].hash));
      && RowsHold(digest, dumps, rows +
        [Row(v.id, v.exec, v.kind, dumps(e.payload).value, v.timestamp, v.previous, v.hash)], entries + [e])
      && v == Linked(digest, entries + [e])[|entries|]
  {
    hide Linked;
    LinkedStep(digest, entries, e);
    var last := if rows == [] then None else Some(rows[|rows| - 1].hash);
    var v, all := Link(digest, e, last), entries + [e];
    assert rows != [] ==> last == Some(Linked(digest, entries)[|entries| - 1].hash);
    assert v == Linked(digest, all)[|entries|];
    hide Link;
    var rows' := rows + [Row(v.id, v.exec, v.kind, dumps(e.payload).value, v.timestamp, v.previous, v.hash)];
    forall i | 0 <= i < |rows'|
      ensures
        var x := Linked(digest, all)[i];
        && dumps(all[i].payload).Some?
        && rows'[i] == Row(x.id, x.exec, x.kind, dumps(all[i].payload).value, x.timestamp, x.previous, x.hash)
    {
      if i < |rows| {
        assert Linked(digest, all)[i] == Linked(digest, entries)[i];
      }
    }
  }

  class SQLiteLedger {
    const digest: Content -> string
    const dumps: Payload -> Option<string>
    const loads: string -> Payload
    var rows: seq<Row>
    ghost var entries: seq<Entry>

    ghost predicate Valid()
      reads this
    {
      RowsHold(digest, dumps, rows, entries)
    }

    constructor (digest: Content -> string, dumps: Payload -> Option<string>, loads: string -> Payload)
      ensures Valid() && this.digest == digest && this.dumps == dumps && this.loads == loads && entries == []
    {
      this.digest, this.dumps, this.loads := digest, dumps, loads;
      rows, entries := [], [];
    }

    /** The hash is taken of the payload itself, before it is dumped. An unserialisable payload or a repeated id
        raises and the insert does not happen. */
    method Append(e: Entry) returns (appended: Option<Event>)
      requires Valid()
      modifies this
      ensures Valid()
      ensures appended.Some? <==> Accepts(old(entries), e) && dumps(e.payload).Some?
      ensures Appended(old(entries), e, appended.Some?, entries)
      ensures appended.Some? ==> appended.value == Linked(digest, entries)[|entries| - 1]
    {
      StoredIds(digest, dumps, rows, entries);
      hide RowsHold, Linked;
      var previous := if rows == [] then None else Some(rows[|rows| - 1].hash);
      var event := Link(digest, e, previous);
      var text := dumps(e.payload);
      if text.None? || exists i :: 0 <= i < |rows| && rows[i].id == e.id {
        return None;
      }
      StoreStep(digest, dumps, rows, entries, e);
      rows := rows + [Row(event.id, event.exec, event.kind, text.value, event.timestamp, previous, event.hash)];
      entries := entries + [e];
      appended := Some(event);
    }

    method Events() returns (events: seq<Event>)
      ensures events == DecodeAll(loads, rows)
    {
      events := [];
      for i := 0 to |rows|
        invariant events == DecodeAll(loads, rows[..i])
      {
        events := events + [Decode(loads, rows[i])];
      }
      assert rows[..|rows|] == rows;
    }

    method Verify() returns (ok: bool)
      ensures ok <==> Chained(digest, DecodeAll(loads, rows))
    {
      var events := Events();
      ok := VerifyChain(digest, events);
    }
  }

  /** Reading back what was stored verifies exactly when every payload survives JSON, and then it is the very chain
      of the in-memory ledger. */
  lemma ReadBackVerifiesExactlyWhenStable(
    digest: Content -> string, dumps: Payload -> Option<string>, loads: string -> Payload, rows: seq<Row>,
    entries: seq<Entry>)
    requires Injective(digest) && RowsHold(digest, dumps, rows, entries)
    ensures Chained(digest, DecodeAll(loads, rows)) <==> AllStable(dumps, loads, entries)
    ensures AllStable(dumps, loads, entries) <==> DecodeAll(loads, rows) == Linked(digest, entries)
  {
    var read, built := DecodeAll(loads, rows), Linked(digest, entries);
    forall i | 0 <= i < |rows|
      ensures LinkHolds(digest, read[i], Previous(read, i)) <==> Stable(dumps, loads, entries[i].payload)
      ensures read[i] == built[i] <==> Stable(dumps, loads, entries[i].payload)
    {
      LinkedAt(digest, entries, i);
      assert Previous(read, i) == Previous(built, i);
      var p := entries[i].payload;
      var mine := Content(built[i].id, built[i].exec, built[i].kind, p, built[i].previous);
      assert built[i].hash == digest(mine);
      assert LinkHolds(digest, read[i], Previous(read, i)) <==>
        read[i].hash == digest(mine.(payload := read[i].payload));
    }
  }

  lemma StablePayloads(
    digest: Content -> string, dumps: Payload -> Option<string>, loads: string -> Payload, entries: seq<Entry>,
    events: seq<Event>)
    requires events == Linked(digest, entries)
    ensures AllStable(dumps, loads, entries) <==>
            forall i :: 0 <= i < |events| ==> Stable(dumps, loads, events[i].payload)
  {
    forall i | 0 <= i < |entries| ensures events[i].payload == entries[i].payload {
      LinkedAt(digest, entries, i);
    }
    hide Linked, Stable;
  }

  /** Rows that read back as some other chain were stored from that chain's own entries. */
  lemma {:induction false} ReadBackDetermines(
    digest: Content -> string, dumps: Payload -> Option<string>, loads: string -> Payload, rows: seq<Row>,
    stored: seq<Entry>, entries: seq<Entry>)
    requires Injective(digest) && RowsHold(digest, dumps, rows, stored)
    requires DecodeAll(loads, rows) == Linked(digest, entries)
    ensures stored == entries
  {
    var read := DecodeAll(loads, rows);
    forall i | 0 <= i < |entries| ensures stored[i] == entries[i] {
      LinkedAt(digest, stored, i);
      LinkedAt(digest, entries, i);
      assert read[i] == Linked(digest, entries)[i];
      SameEntry(digest, stored[i], Linked(digest, stored)[i], entries[i], Linked(digest, entries)[i]);
    }
  }

  lemma SameEntry(digest: Content -> string, a: Entry, x: Event, b: Entry, y: Event)
    requires Injective(digest) && x == Link(digest, a, x.previous) && y == Link(digest, b, y.previous)
    requires x.hash == y.hash && x.timestamp == y.timestamp
    ensures a == b
  {
    SameHashSameEvent(digest, x, y);
  }

  /** What one append to both ledgers keeps: as long as memory holds only payloads that survive JSON, both hold the
      same. */
  lemma TwinStep(
    dumps: Payload -> Option<string>, loads: string -> Payload, memory: seq<Entry>, stored: seq<Entry>, e: Entry,
    memory': seq<Entry>, stored': seq<Entry>)
    requires AllStable(dumps, loads, memory) ==> stored == memory
    requires memory' == if Accepts(memory, e) then memory + [e] else memory
    requires stored' == if Accepts(stored, e) && dumps(e.payload).Some? then stored + [e] else stored
    ensures AllStable(dumps, loads, memory') ==> stored' == memory'
  {
    if AllStable(dumps, loads, memory') {
      assert forall i :: 0 <= i < |memory| ==> memory'[i] == memory[i];
      assert AllStable(dumps, loads, memory);
      if Accepts(memory, e) {
        assert memory'[|memory|] == e && Stable(dumps, loads, e.payload);
      }
    }
  }

  /** Both ledgers fed the same appends, whatever their payloads: memory always verifies; SQLite verifies exactly
      when each payload that it `stored` survives JSON; and both report the same events exactly when each payload that
      memory holds does. A payload that cannot be dumped is refused by SQLite alone. */
  method Twins(
    digest: Content -> string, dumps: Payload -> Option<string>, loads: string -> Payload, appends: seq<Entry>)
    returns (memory: seq<Event>, memoryOk: bool, sqlite: seq<Event>, sqliteOk: bool, ghost stored: seq<Entry>)
    requires Injective(digest)
    ensures memoryOk
    ensures |sqlite| == |stored| && (sqliteOk <==> AllStable(dumps, loads, stored))
    ensures forall i :: 0 <= i < |stored| ==> stored[i] in appends && dumps(stored[i].payload).Some?
    ensures sqlite == memory <==> forall i :: 0 <= i < |memory| ==> Stable(dumps, loads, memory[i].payload)
  {
    hide Injective, Chained, RowsHold, Linked, Accepts, AllStable;
    var m := new EvidenceLedger(digest);
    var s := new SQLiteLedger(digest, dumps, loads);
    for i := 0 to |appends|
      invariant fresh(m) && fresh(s) && m.Valid() && s.Valid()
      invariant m.digest == digest && s.digest == digest && s.dumps == dumps && s.loads == loads
      invariant AllStable(dumps, loads, m.entries) ==> s.entries == m.entries
      invariant forall k :: 0 <= k < |s.entries| ==> s.entries[k] in appends && dumps(s.entries[k].payload).Some?
    {
      ghost var me, se := m.entries, s.entries;
      var a := m.Append(appends[i]);
      var b := s.Append(appends[i]);
      TwinStep(dumps, loads, me, se, appends[i], m.entries, s.entries);
    }
    memory, stored := m.events, s.entries;
    AppendsVerify(digest, m.entries);
    memoryOk := VerifyChain(digest, memory);
    sqlite := s.Events();
    sqliteOk := s.Verify();
    ReadBackVerifiesExactlyWhenStable(digest, dumps, loads, s.rows, s.entries);
    StablePayloads(digest, dumps, loads, m.entries, memory);
    StoredIds(digest, dumps, s.rows, s.entries);
    if sqlite == memory {
      ReadBackDetermines(digest, dumps, loads, s.rows, s.entries, m.entries);
    }
  }
}
