/** `ois/integration/redis_recovery.py`: a Redis stream read by a consumer group, with stale entries claimed by a
    recovery worker. Each Redis command is one step, handlers may fail or never return, and several workers may handle
    one entry at the same time. */
module StreamRecovery {
  import opened Prelude

  datatype Phase = Handling | Handled | Acknowledged

  /** A worker on its way through one entry: handler, XACK, XDEL. */
  datatype Flight = Flight(id: string, phase: Phase)

  datatype Event =
    | Added(id: string)
    | Returned(id: string)
    | Acked(id: string)
    | Deleted(id: string)

  /** An entry is acknowledged or deleted only after its handler has returned normally. */
  ghost predicate AckAfterSuccess(trace: seq<Event>) {
    forall i :: 0 <= i < |trace| && (trace[i].Acked? || trace[i].Deleted?) ==> Returned(trace[i].id) in trace[..i]
  }

  function Happened(trace: seq<Event>): set<Event> {
    set e | e in trace
  }

  /** An entry is undelivered or pending exactly from its XADD to its first XACK, whatever its handlers did and
      whoever crashed, and it is in the stream exactly until its XDEL, which an XACK has preceded. */
  ghost predicate NothingLost(past: set<Event>, undelivered: set<string>, pending: set<string>, entries: set<string>) {
    && (forall id :: id in undelivered || id in pending <==> Added(id) in past && Acked(id) !in past)
    && (forall id :: id in entries <==> Added(id) in past && Deleted(id) !in past)
    && (forall id :: Deleted(id) in past ==> Acked(id) in past)
    && (forall id :: Acked(id) in past ==> Added(id) in past)
  }

  ghost predicate FlightsOk(past: set<Event>, undelivered: set<string>, flights: map<nat, Flight>) {
    forall f :: f in flights ==>
      && flights[f].id !in undelivered && Added(flights[f].id) in past
      && (flights[f].phase != Handling ==> Returned(flights[f].id) in past)
      && (flights[f].phase == Acknowledged ==> Acked(flights[f].id) in past)
  }

  function Ids(s: seq<string>): set<string> {
    set id | id in s
  }

  lemma AckKeepsRest(past: set<Event>, undelivered: set<string>, pending: set<string>, entries: set<string>, id: string)
    requires NothingLost(past, undelivered, pending, entries) && Added(id) in past && id !in undelivered
    ensures NothingLost(past + {Acked(id)}, undelivered, pending - {id}, entries)
  {
  }

  lemma DeleteKeepsRest(
    past: set<Event>, undelivered: set<string>, pending: set<string>, entries: set<string>, id: string)
    requires NothingLost(past, undelivered, pending, entries) && Acked(id) in past
    ensures NothingLost(past + {Deleted(id)}, undelivered, pending, entries - {id})
  {
  }

  lemma ReturnKeepsRest(
    past: set<Event>, undelivered: set<string>, pending: set<string>, entries: set<string>, id: string)
    requires NothingLost(past, undelivered, pending, entries)
    ensures NothingLost(past + {Returned(id)}, undelivered, pending, entries)
  {
  }

  /** What a flight in each phase knows. */
  lemma FlightKnows(past: set<Event>, undelivered: set<string>, flights: map<nat, Flight>, f: nat)
    requires FlightsOk(past, undelivered, flights) && f in flights
    ensures flights[f].id !in undelivered && Added(flights[f].id) in past
    ensures flights[f].phase != Handling ==> Returned(flights[f].id) in past
    ensures flights[f].phase == Acknowledged ==> Acked(flights[f].id) in past
  {
  }

  /** More history, and one flight that has moved on or ended. */
  lemma FlightMoves(
    past: set<Event>, undelivered: set<string>, flights: map<nat, Flight>, f: nat, e: Event, phase: Phase)
    requires FlightsOk(past, undelivered, flights) && f in flights
    requires match phase
             case Handled => e == Returned(flights[f].id)
             case Acknowledged => e == Acked(flights[f].id) && flights[f].phase == Handled
             case Handling => false
    ensures FlightsOk(past + {e}, undelivered, flights[f := Flight(flights[f].id, phase)])
  {
  }

  lemma FlightEnds(past: set<Event>, past': set<Event>, undelivered: set<string>, flights: map<nat, Flight>, f: nat)
    requires FlightsOk(past, undelivered, flights) && past <= past'
    ensures FlightsOk(past', undelivered, flights - {f})
  {
  }

  class Stream {
    var entries: set<string>
    var undelivered: seq<string>
    var pending: set<string>
    var flights: map<nat, Flight>
    var trace: seq<Event>

    ghost predicate Valid()
      reads this
    {
      && Distinct(undelivered) && Ids(undelivered) !! pending && AckAfterSuccess(trace)
      && NothingLost(Happened(trace), Ids(undelivered), pending, entries)
      && FlightsOk(Happened(trace), Ids(undelivered), flights)
    }

    constructor ()
      ensures Valid() && entries == {} && undelivered == [] && pending == {} && flights == map[] && trace == []
    {
      entries, undelivered, pending, flights, trace := {}, [], {}, map[], [];
    }

    /** XADD; ids are new. */
    method Add(id: string)
      requires Valid() && Added(id) !in Happened(trace)
      modifies this`entries, this`undelivered, this`trace
      ensures Valid()
      ensures entries == old(entries) + {id} && undelivered == old(undelivered) + [id]
      ensures trace == old(trace) + [Added(id)]
    {
      Grows(trace, Added(id));
      assert Ids(undelivered + [id]) == Ids(undelivered) + {id};
      hide AckAfterSuccess, Happened, Ids;
      entries, undelivered, trace := entries + {id}, undelivered + [id], trace + [Added(id)];
    }

    /** XREADGROUP ">": the next undelivered entry becomes pending and a worker starts on it. */
    method Deliver(flight: nat) returns (id: Option<string>)
      requires Valid() && flight !in flights
      modifies this`undelivered, this`pending, this`flights
      ensures Valid()
      ensures id.None? <==> old(undelivered) == []
      ensures id.None? ==> undelivered == old(undelivered) && pending == old(pending) && flights == old(flights)
      ensures id.Some? ==>
                && id.value == old(undelivered)[0] && undelivered == old(undelivered)[1..]
                && pending == old(pending) + {id.value} && flights == old(flights)[flight := Flight(id.value, Handling)]
    {
      hide AckAfterSuccess;
      if undelivered == [] {
        return None;
      }
      id := Some(undelivered[0]);
      assert undelivered == [undelivered[0]] + undelivered[1..];
      assert undelivered[0] !in undelivered[1..];
      undelivered, pending := undelivered[1..], pending + {id.value};
      flights := flights[flight := Flight(id.value, Handling)];
    }

    /** XAUTOCLAIM of one pending entry, however recently another worker started on it. */
    method AutoClaim(flight: nat, id: string) returns (ok: bool)
      requires Valid() && flight !in flights
      modifies this`flights
      ensures Valid()
      ensures ok <==> id in pending
      ensures flights == if ok then old(flights)[flight := Flight(id, Handling)] else old(flights)
    {
      ok := id in pending;
      if ok {
        flights := flights[flight := Flight(id, Handling)];
      }
    }

    /** The handler returns, or raises (as does decoding); a raise ends the flight and leaves the entry pending. */
    method HandlerEnds(flight: nat, normally: bool)
      requires Valid() && flight in flights && flights[flight].phase == Handling
      modifies this`flights, this`trace
      ensures Valid()
      ensures normally ==>
                flights == old(flights)[flight := old(flights)[flight].(phase := Handled)] &&
                  trace == old(trace) + [Returned(old(flights)[flight].id)]
      ensures !normally ==> flights == old(flights) - {flight} && trace == old(trace)
    {
      if normally {
        var id := flights[flight].id;
        hide AckAfterSuccess, Happened, Ids, NothingLost, FlightsOk;
        ReturnKeepsRest(Happened(trace), Ids(undelivered), pending, entries, id);
        FlightMoves(Happened(trace), Ids(undelivered), flights, flight, Returned(id), Handled);
        Grows(trace, Returned(id));
        flights := flights[flight := Flight(id, Handled)];
        trace := trace + [Returned(id)];
      } else {
        hide AckAfterSuccess, Happened, Ids, NothingLost, FlightsOk;
        FlightEnds(Happened(trace), Happened(trace), Ids(undelivered), flights, flight);
        flights := flights - {flight};
      }
    }

    /** A worker dies at any point. */
    method Crash(flight: nat)
      requires Valid()
      modifies this`flights
      ensures Valid() && flights == old(flights) - {flight}
    {
      flights := flights - {flight};
    }

    method XAck(flight: nat)
      requires Valid() && flight in flights && flights[flight].phase == Handled
      modifies this`pending, this`flights, this`trace
      ensures Valid()
      ensures pending == old(pending) - {old(flights)[flight].id}
      ensures flights == old(flights)[flight := old(flights)[flight].(phase := Acknowledged)]
      ensures trace == old(trace) + [Acked(old(flights)[flight].id)]
    {
      var id := flights[flight].id;
      hide AckAfterSuccess, Happened, Ids, NothingLost, FlightsOk;
      FlightKnows(Happened(trace), Ids(undelivered), flights, flight);
      AckKeepsRest(Happened(trace), Ids(undelivered), pending, entries, id);
      FlightMoves(Happened(trace), Ids(undelivered), flights, flight, Acked(id), Acknowledged);
      Grows(trace, Acked(id));
      pending, flights, trace := pending - {id}, flights[flight := Flight(id, Acknowledged)], trace + [Acked(id)];
    }

    method XDel(flight: nat)
      requires Valid() && flight in flights && flights[flight].phase == Acknowledged
      modifies this`entries, this`flights, this`trace
      ensures Valid()
      ensures entries == old(entries) - {old(flights)[flight].id} && flights == old(flights) - {flight}
      ensures trace == old(trace) + [Deleted(old(flights)[flight].id)]
    {
      var id := flights[flight].id;
      hide AckAfterSuccess, Happened, Ids, NothingLost, FlightsOk;
      FlightKnows(Happened(trace), Ids(undelivered), flights, flight);
      DeleteKeepsRest(Happened(trace), Ids(undelivered), pending, entries, id);
      FlightEnds(Happened(trace), Happened(trace) + {Deleted(id)}, Ids(undelivered), flights, flight);
      Grows(trace, Deleted(id));
      entries, flights, trace := entries - {id}, flights - {flight}, trace + [Deleted(id)];
    }
  }

  lemma Grows(trace: seq<Event>, e: Event)
    requires AckAfterSuccess(trace) && (e.Acked? || e.Deleted? ==> Returned(e.id) in Happened(trace))
    ensures AckAfterSuccess(trace + [e]) && Happened(trace + [e]) == Happened(trace) + {e}
  {
    var t := trace + [e];
    forall i | 0 <= i < |t| && (t[i].Acked? || t[i].Deleted?) ensures Returned(t[i].id) in t[..i] {
      assert t[..i] == trace[..i];
      assert trace[..|trace|] == trace;
    }
  }

  // ---------- Every run ----------

  datatype Op =
    | OpAdd(id: string)
    | OpDeliver(flight: nat)
    | OpAutoClaim(flight: nat, id: string)
    | OpHandlerEnds(flight: nat, normally: bool)
    | OpCrash(flight: nat)
    | OpAck(flight: nat)
    | OpDel(flight: nat)

  method AllRuns(
    ops: seq<Op>) returns (trace: seq<Event>, undelivered: seq<string>, pending: set<string>, entries: set<string>)
    ensures AckAfterSuccess(trace) && NothingLost(Happened(trace), Ids(undelivered), pending, entries)
  {
    var s := new Stream();
    for i := 0 to |ops|
      invariant s.Valid() && fresh(s)
    {
      AnyStep(s, ops[i]);
    }
    trace, undelivered, pending, entries := s.trace, s.undelivered, s.pending, s.entries;
  }

  /** Any command of any worker; a command whose worker is not at that point does nothing. */
  method AnyStep(s: Stream, op: Op)
    requires s.Valid()
    modifies s
    ensures s.Valid()
  {
    hide AckAfterSuccess, NothingLost, FlightsOk;
    match op {
      case OpAdd(id) =>
        if Added(id) !in Happened(s.trace) {
          s.Add(id);
        }
      case OpDeliver(f) =>
        if f !in s.flights {
          var id := s.Deliver(f);
        }
      case OpAutoClaim(f, id) =>
        if f !in s.flights {
          var ok := s.AutoClaim(f, id);
        }
      case OpHandlerEnds(f, normally) =>
        if f in s.flights && s.flights[f].phase == Handling {
          s.HandlerEnds(f, normally);
        }
      case OpCrash(f) => s.Crash(f);
      case OpAck(f) =>
        if f in s.flights && s.flights[f].phase == Handled {
          s.XAck(f);
        }
      case OpDel(f) =>
        if f in s.flights && s.flights[f].phase == Acknowledged {
          s.XDel(f);
        }
    }
  }

  // ---------- The two loops ----------

  datatype Fate = HandlerOk | HandlerRaises | Undecodable

  /** `consume_once` without a crash: true exactly when an entry was there and its handler returned. */
  method ConsumeOnce(s: Stream, flight: nat, fate: string -> Fate) returns (done: bool)
    requires s.Valid() && flight !in s.flights
    modifies s
    ensures s.Valid() && s.flights == old(s.flights)
    ensures done <==> old(s.undelivered) != [] && fate(old(s.undelivered)[0]) == HandlerOk
    ensures old(s.undelivered) == [] ==>
              s.undelivered == [] && s.pending == old(s.pending) && s.entries == old(s.entries)
    ensures old(s.undelivered) != [] ==>
              var id := old(s.undelivered)[0];
              && s.undelivered == old(s.undelivered)[1..]
              && s.pending == (if done then old(s.pending) - {id} else old(s.pending) + {id})
              && s.entries == if done then old(s.entries) - {id} else old(s.entries)
  {
    hide AckAfterSuccess, NothingLost, FlightsOk;
    var id := s.Deliver(flight);
    done := id.Some? && fate(id.value) == HandlerOk;
    if id.None? {
      return;
    }
    s.HandlerEnds(flight, done);
    if done {
      s.XAck(flight);
      s.XDel(flight);
    }
    assert s.flights == old(s.flights);
  }

  /** The entries that one pass of `recover_once` settles: handled normally, and not behind an entry that cannot be
      decoded, because decoding happens outside the `try` and ends the pass. */
  ghost function Reach(ids: seq<string>, fate: string -> Fate): nat
    ensures Reach(ids, fate) <= |ids|
    ensures forall k :: 0 <= k < Reach(ids, fate) ==> fate(ids[k]) != Undecodable
    ensures Reach(ids, fate) < |ids| ==> fate(ids[Reach(ids, fate)]) == Undecodable
  {
    if ids == [] || fate(ids[0]) == Undecodable then 0 else 1 + Reach(ids[1..], fate)
  }

  /** Those of the first `n` entries whose handlers return. */
  ghost function HandledAmong(ids: seq<string>, fate: string -> Fate, n: nat): set<string>
    requires n <= |ids|
  {
    set k | 0 <= k < n && fate(ids[k]) == HandlerOk :: ids[k]
  }

  lemma HandledAmongNext(ids: seq<string>, fate: string -> Fate, k: nat)
    requires Distinct(ids) && k < |ids|
    ensures ids[k] !in HandledAmong(ids, fate, k)
    ensures HandledAmong(ids, fate, k + 1) ==
            HandledAmong(ids, fate, k) + (if fate(ids[k]) == HandlerOk then {ids[k]} else {})
  {
  }

  /** One stale entry: claimed, and settled if its handler returns. */
  method RecoverOne(s: Stream, flight: nat, id: string, fate: Fate) returns (handled: bool)
    requires s.Valid() && flight !in s.flights && id in s.pending
    modifies s
    ensures s.Valid() && s.undelivered == old(s.undelivered) && flight !in s.flights
    ensures handled <==> fate == HandlerOk
    ensures s.pending == (if handled then old(s.pending) - {id} else old(s.pending))
    ensures s.entries == (if handled then old(s.entries) - {id} else old(s.entries))
  {
    hide AckAfterSuccess, NothingLost, FlightsOk;
    var ok := s.AutoClaim(flight, id);
    handled := fate == HandlerOk;
    s.HandlerEnds(flight, handled);
    if handled {
      s.XAck(flight);
      s.XDel(flight);
    }
  }

  /** `recover_once` over the stale entries, in the order in which XAUTOCLAIM hands them out. */
  method RecoverOnce(
    s: Stream, flight: nat, ids: seq<string>, fate: string -> Fate) returns (processed: nat, aborted: bool)
    requires s.Valid() && flight !in s.flights && Distinct(ids) && forall id :: id in ids ==> id in s.pending
    modifies s
    ensures s.Valid() && s.undelivered == old(s.undelivered)
    ensures aborted <==> Reach(ids, fate) < |ids|
    ensures s.pending == old(s.pending) - HandledAmong(ids, fate, Reach(ids, fate))
    ensures s.entries == old(s.entries) - HandledAmong(ids, fate, Reach(ids, fate))
    ensures processed == |HandledAmong(ids, fate, Reach(ids, fate))|
  {
    hide AckAfterSuccess, NothingLost, FlightsOk, Reach, Distinct, Recovered;
    processed, aborted := 0, false;
    ghost var p, e := s.pending, s.entries;
    RecoveredNone(p, e, ids, fate);
    var k := 0;
    while k < |ids|
      invariant 0 <= k <= |ids| && s.Valid() && s.undelivered == old(s.undelivered) && flight !in s.flights
      invariant Recovered(p, e, s.pending, s.entries, ids, fate, k, processed)
    {
      RecoveredNext(p, e, s.pending, s.entries, ids, fate, k, processed);
      var handled := RecoverOne(s, flight, ids[k], fate(ids[k]));
      if fate(ids[k]) == Undecodable {
        RecoveredIsReach(p, e, s.pending, s.entries, ids, fate, k, processed);
        return processed, true;
      }
      if handled {
        processed := processed + 1;
      }
      k := k + 1;
    }
    RecoveredIsReach(p, e, s.pending, s.entries, ids, fate, k, processed);
  }

  ghost predicate Recovered(
    p: set<string>, e: set<string>, pending: set<string>, entries: set<string>, ids: seq<string>, fate: string -> Fate,
    k: nat, processed: nat)
    requires k <= |ids|
  {
    && pending == p - HandledAmong(ids, fate, k) && entries == e - HandledAmong(ids, fate, k)
    && processed == |HandledAmong(ids, fate, k)| && forall j :: 0 <= j < k ==> fate(ids[j]) != Undecodable
  }

  lemma RecoveredNone(p: set<string>, e: set<string>, ids: seq<string>, fate: string -> Fate)
    ensures Recovered(p, e, p, e, ids, fate, 0, 0)
  {
    assert HandledAmong(ids, fate, 0) == {};
  }

  lemma RecoveredNext(
    p: set<string>, e: set<string>, pending: set<string>, entries: set<string>, ids: seq<string>, fate: string -> Fate,
    k: nat, processed: nat)
    requires Distinct(ids) && k < |ids| && Recovered(p, e, pending, entries, ids, fate, k, processed) &&
               forall id :: id in ids ==> id in p
    ensures ids[k] in pending
    ensures fate(ids[k]) == HandlerOk ==>
              Recovered(p, e, pending - {ids[k]}, entries - {ids[k]}, ids, fate, k + 1, processed + 1)
    ensures fate(ids[k]) == HandlerRaises ==> Recovered(p, e, pending, entries, ids, fate, k + 1, processed)
  {
    HandledAmongNext(ids, fate, k);
    hide HandledAmong, Distinct;
    var h, x := HandledAmong(ids, fate, k), ids[k];
    assert x in p && x !in h;
    if fate(x) == HandlerOk {
      assert p - (h + {x}) == (p - h) - {x} && e - (h + {x}) == (e - h) - {x} && |h + {x}| == |h| + 1;
    } else {
      assert h + {} == h;
    }
  }

  lemma RecoveredIsReach(
    p: set<string>, e: set<string>, pending: set<string>, entries: set<string>, ids: seq<string>, fate: string -> Fate,
    k: nat, processed: nat)
    requires k <= |ids| && Recovered(p, e, pending, entries, ids, fate, k, processed)
    requires (k < |ids| ==> fate(ids[k]) == Undecodable)
    ensures Reach(ids, fate) == k && pending == p - HandledAmong(ids, fate, k)
    ensures entries == e - HandledAmong(ids, fate, k)
    ensures processed == |HandledAmong(ids, fate, k)|
  {
    ReachIs(ids, fate, k);
  }

  lemma ReachIs(ids: seq<string>, fate: string -> Fate, k: nat)
    requires k <= |ids| && (forall j :: 0 <= j < k ==> fate(ids[j]) != Undecodable)
    requires k < |ids| ==> fate(ids[k]) == Undecodable
    ensures Reach(ids, fate) == k
  {
  }
}
