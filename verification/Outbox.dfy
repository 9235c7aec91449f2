/** `ois/kernel/side_effects.py`: the transactional outbox, its stale reclaim, and a downstream sink that honours
    idempotency keys. Each transaction is one step; a worker that crashes simply takes no further step. */
module Outbox {
  import opened Prelude

  datatype Command = Command(effectId: string, invocationId: string, key: string, request: string)

  datatype RowStatus = PendingRow | ProcessingRow | CompletedRow

  datatype Row = Row(command: Command, status: RowStatus, attempts: nat, lockedAt: Option<int>)

  datatype Event =
    | Delivered(command: Command, at: int)
    | Applied(command: Command)
    | Completed(effect: string)
    | Failed(effect: string)
    | Swept(effects: set<string>, at: int)

  /** Five minutes, in seconds. */
  const STALE_AFTER: int := 300

  predicate Stale(r: Row, now: int) {
    r.status == ProcessingRow && r.lockedAt.Some? && r.lockedAt.value < now - STALE_AFTER
  }

  predicate Claimable(r: Row, now: int) {
    r.status == PendingRow || Stale(r, now)
  }

  function Deliveries(trace: seq<Event>, effect: string): nat {
    if trace == [] then 0
    else
      var e := trace[|trace| - 1];
      Deliveries(trace[..|trace| - 1], effect) + (if e.Delivered? && e.command.effectId == effect then 1 else 0)
  }

  predicate About(e: Event, effect: string) {
    match e
    case Delivered(c, _) => c.effectId == effect
    case Applied(_) => false
    case Completed(x) => x == effect
    case Failed(x) => x == effect
    case Swept(effects, _) => effect in effects
  }

  /** The last delivery, completion, failure or stale reclaim of a row. */
  function LastAbout(trace: seq<Event>, effect: string): Option<Event> {
    if trace == [] then None
    else if About(trace[|trace| - 1], effect) then Some(trace[|trace| - 1])
    else LastAbout(trace[..|trace| - 1], effect)
  }

  /** Handed out for more than five minutes, with nothing heard since. */
  ghost predicate Overdue(last: Option<Event>, at: int) {
    last.Some? && last.value.Delivered? && last.value.at + 300 < at
  }

  /** A completed row is not delivered, nor one that was handed out in the last five minutes; and a stale reclaim takes
      back exactly the rows that are overdue. */
  ghost predicate TimelyDelivered(trace: seq<Event>) {
    && (forall i :: 0 <= i < |trace| && trace[i].Delivered? ==>
          var last := LastAbout(trace[..i], trace[i].command.effectId);
          last.None? || last.value.Failed? || last.value.Swept? || Overdue(last, trace[i].at))
    && (forall i :: 0 <= i < |trace| && trace[i].Swept? ==>
          forall e :: e in trace[i].effects <==> Overdue(LastAbout(trace[..i], e), trace[i].at))
  }

  ghost predicate WasDelivered(trace: seq<Event>, c: Command) {
    exists i :: 0 <= i < |trace| && trace[i].Delivered? && trace[i].command == c
  }

  /** Every delivery of a row is the same command, and different rows never share a key. */
  ghost predicate SameCommandEveryTime(trace: seq<Event>) {
    forall i, j :: 0 <= i < |trace| && 0 <= j < |trace| && trace[i].Delivered? && trace[j].Delivered? ==>
      && (trace[i].command.effectId == trace[j].command.effectId ==> trace[i].command == trace[j].command)
      && (trace[i].command.key == trace[j].command.key ==> trace[i].command.effectId == trace[j].command.effectId)
  }

  /** The sink applies a key once, and only a command that was delivered before. */
  ghost predicate SinkHonoursKeys(trace: seq<Event>) {
    && (forall i, j :: 0 <= i < j < |trace| && trace[i].Applied? && trace[j].Applied? ==>
          trace[i].command.key != trace[j].command.key)
    && (forall i :: 0 <= i < |trace| && trace[i].Applied? ==> WasDelivered(trace[..i], trace[i].command))
  }

  ghost predicate OutboxSafe(trace: seq<Event>) {
    SameCommandEveryTime(trace) && SinkHonoursKeys(trace) && TimelyDelivered(trace)
  }

  /** The unique columns, and the row's own id. */
  ghost predicate UniqueColumns(rows: map<string, Row>) {
    && (forall e :: e in rows ==> rows[e].command.effectId == e)
    && (forall e, f :: e in rows && f in rows && e != f ==>
          rows[e].command.invocationId != rows[f].command.invocationId && rows[e].command.key != rows[f].command.key)
  }

  /** A row is PROCESSING, locked at the time of its delivery, exactly when a delivery is the last thing that happened
      to it, COMPLETED exactly when a completion is, and otherwise PENDING. */
  ghost predicate Shows(r: Row, last: Option<Event>) {
    && (r.status == ProcessingRow <==> last.Some? && last.value.Delivered?)
    && (r.status == CompletedRow <==> last.Some? && last.value.Completed?)
    && r.lockedAt == if r.status == ProcessingRow then Some(last.value.at) else None
  }

  ghost predicate RowsShow(rows: map<string, Row>, trace: seq<Event>) {
    && (forall e :: e in rows ==> Shows(rows[e], LastAbout(trace, e)))
    && (forall e :: e !in rows ==> LastAbout(trace, e) == None)
  }

  /** A row is PROCESSING exactly when it is locked, and `attempts` counts its deliveries. */
  ghost predicate RowsCount(rows: map<string, Row>, trace: seq<Event>) {
    && (forall e :: e in rows ==>
          && (rows[e].status == ProcessingRow <==> rows[e].lockedAt.Some?)
          && rows[e].attempts == Deliveries(trace, e))
    && (forall e :: e !in rows ==> Deliveries(trace, e) == 0)
    && (forall i :: 0 <= i < |trace| && trace[i].Delivered? ==>
          trace[i].command.effectId in rows && rows[trace[i].command.effectId].command == trace[i].command)
  }

  ghost predicate NothingClaimable(rows: map<string, Row>, locked: set<string>, now: int) {
    forall e :: e in rows && e !in locked ==> !Claimable(rows[e], now)
  }

  ghost predicate NoneClaimable(ids: seq<string>, rows: map<string, Row>, locked: set<string>, now: int) {
    forall e :: e in ids && e in rows && e !in locked ==> !Claimable(rows[e], now)
  }

  /** Scans in creation order, passing over rows that another transaction has locked. */
  method FirstClaimable(order: seq<string>, rows: map<string, Row>, locked: set<string>, now: int) returns (k: nat)
    requires Listed(order, rows)
    ensures k <= |order| && NoneClaimable(order[..k], rows, locked, now)
    ensures k < |order| ==> order[k] !in locked && order[k] in rows && Claimable(rows[order[k]], now)
    ensures k == |order| <==> NothingClaimable(rows, locked, now)
  {
    k := 0;
    while k < |order| && (order[k] in locked || !Claimable(rows[order[k]], now))
      invariant 0 <= k <= |order|
      invariant NoneClaimable(order[..k], rows, locked, now)
    {
      k := k + 1;
    }
    assert order[..|order|] == order;
  }

  datatype EnqueueOutcome = Stored | AlreadyPresent | UniqueViolation

  ghost predicate Listed(order: seq<string>, rows: map<string, Row>) {
    Distinct(order) && forall e :: e in order <==> e in rows
  }

  ghost predicate AppliedKeys(trace: seq<Event>, applied: set<string>) {
    forall i :: 0 <= i < |trace| && trace[i].Applied? ==> trace[i].command.key in applied
  }

  class Boundary {
    var order: seq<string>
    var rows: map<string, Row>
    var applied: set<string>
    var trace: seq<Event>

    ghost predicate Valid()
      reads this
    {
      && Listed(order, rows) && UniqueColumns(rows) && RowsCount(rows, trace) && RowsShow(rows, trace)
      && OutboxSafe(trace) && AppliedKeys(trace, applied)
    }

    constructor ()
      ensures Valid() && order == [] && rows == map[] && applied == {} && trace == []
    {
      order, rows, applied, trace := [], map[], {}, [];
    }

    /** A known invocation is ignored; any other clash of unique columns raises. */
    method Enqueue(c: Command) returns (outcome: EnqueueOutcome)
      requires Valid()
      modifies this`order, this`rows
      ensures Valid()
      ensures outcome.AlreadyPresent? <==>
              exists e :: e in old(rows) && old(rows)[e].command.invocationId == c.invocationId
      ensures outcome.Stored? <==> forall e :: e in old(rows) ==>
                old(rows)[e].command.invocationId != c.invocationId && old(rows)[e].command.key != c.key &&
                  e != c.effectId
      ensures outcome.Stored? ==>
                rows == old(rows)[c.effectId := Row(c, PendingRow, 0, None)] && order == old(order) + [c.effectId]
      ensures !outcome.Stored? ==> rows == old(rows) && order == old(order)
    {
      hide OutboxSafe, AppliedKeys, Listed, UniqueColumns, RowsCount, RowsShow;
      if exists e :: e in rows && rows[e].command.invocationId == c.invocationId {
        return AlreadyPresent;
      }
      if c.effectId in rows || exists e :: e in rows && rows[e].command.key == c.key {
        return UniqueViolation;
      }
      EnqueueStep(order, rows, trace, c);
      rows := rows[c.effectId := Row(c, PendingRow, 0, None)];
      order := order + [c.effectId];
      outcome := Stored;
    }

    /** The oldest claimable row that no concurrent transaction has locked (SKIP LOCKED). */
    method Claim(now: int, locked: set<string>) returns (command: Option<Command>, ghost at: nat)
      requires Valid()
      modifies this`rows, this`trace
      ensures Valid()
      ensures command.None? <==> NothingClaimable(old(rows), locked, now)
      ensures command.None? ==> rows == old(rows) && trace == old(trace)
      ensures command.Some? ==>
                var e := command.value.effectId;
                && e in old(rows) && e !in locked && Claimable(old(rows)[e], now)
                && command.value == old(rows)[e].command
                && rows == old(rows)[e := Row(command.value, ProcessingRow, old(rows)[e].attempts + 1, Some(now))]
                && trace == old(trace) + [Delivered(command.value, now)]
      ensures command.Some? ==>
                at < |order| && order[at] == command.value.effectId &&
                  NoneClaimable(order[..at], old(rows), locked, now)
    {
      hide UniqueColumns, RowsCount, RowsShow, OutboxSafe, AppliedKeys, Listed, NoneClaimable, NothingClaimable,
           Claimable;
      var k := FirstClaimable(order, rows, locked, now);
      if k == |order| {
        return None, 0;
      }
      var e := order[k];
      OwnId(rows, e);
      var c := rows[e].command;
      DeliverStep(order, rows, applied, trace, e, now);
      rows := rows[e := Row(c, ProcessingRow, rows[e].attempts + 1, Some(now))];
      trace := trace + [Delivered(c, now)];
      command, at := Some(c), k;
    }

    /** Whatever state the row is in. */
    method Complete(effect: string)
      requires Valid()
      modifies this`rows, this`trace
      ensures Valid()
      ensures rows == if effect in old(rows) then Settled(old(rows), effect, CompletedRow) else old(rows)
      ensures trace == if effect in old(rows) then old(trace) + [Completed(effect)] else old(trace)
    {
      if effect in rows {
        hide OutboxSafe, AppliedKeys, Listed, UniqueColumns, RowsCount, RowsShow, Settled;
        SettleStep(order, rows, applied, trace, Completed(effect), effect, CompletedRow);
        rows := Settled(rows, effect, CompletedRow);
        trace := trace + [Completed(effect)];
      }
    }

    method Fail(effect: string)
      requires Valid()
      modifies this`rows, this`trace
      ensures Valid()
      ensures rows == if effect in old(rows) then Settled(old(rows), effect, PendingRow) else old(rows)
      ensures trace == if effect in old(rows) then old(trace) + [Failed(effect)] else old(trace)
    {
      if effect in rows {
        hide OutboxSafe, AppliedKeys, Listed, UniqueColumns, RowsCount, RowsShow, Settled;
        SettleStep(order, rows, applied, trace, Failed(effect), effect, PendingRow);
        rows := Settled(rows, effect, PendingRow);
        trace := trace + [Failed(effect)];
      }
    }

    method RecoverStale(now: int) returns (count: nat)
      requires Valid()
      modifies this`rows, this`trace
      ensures Valid()
      ensures trace == old(trace) + [Swept((set e | e in old(rows) && Stale(old(rows)[e], now)), now)]
      ensures rows.Keys == old(rows).Keys && count == |set e | e in old(rows) && Stale(old(rows)[e], now)|
      ensures forall e :: e in rows ==>
                rows[e] == if Stale(old(rows)[e], now) then old(rows)[e].(status := PendingRow, lockedAt := None)
                  else old(rows)[e]
    {
      hide OutboxSafe, AppliedKeys, Listed, UniqueColumns, RowsCount, RowsShow, Stale;
      var stale := set e | e in rows && Stale(rows[e], now);
      count := |stale|;
      var rows' := map e | e in rows :: if Stale(rows[e], now)
        then rows[e].(status := PendingRow, lockedAt := None) else rows[e];
      SweepStep(order, rows, rows', applied, trace, stale, now);
      rows := rows';
      trace := trace + [Swept(stale, now)];
    }

    /** A worker performs a command it was handed, at any later time and any number of times; the sink ignores a key
        that it has applied. */
    method Perform(c: Command) returns (effective: bool)
      requires Valid() && WasDelivered(trace, c)
      modifies this`applied, this`trace
      ensures Valid()
      ensures effective <==> c.key !in old(applied)
      ensures applied == old(applied) + {c.key} && trace == if effective then old(trace) + [Applied(c)] else old(trace)
    {
      effective := c.key !in applied;
      if effective {
        ApplyStep(rows, trace, c);
        hide OutboxSafe, Listed, UniqueColumns, RowsCount, RowsShow;
        applied := applied + {c.key};
        trace := trace + [Applied(c)];
      }
    }
  }

  lemma OwnId(rows: map<string, Row>, e: string)
    requires UniqueColumns(rows) && e in rows
    ensures rows[e].command.effectId == e
  {
  }

  lemma EnqueueStep(order: seq<string>, rows: map<string, Row>, trace: seq<Event>, c: Command)
    requires Listed(order, rows) && UniqueColumns(rows) && RowsCount(rows, trace) && RowsShow(rows, trace)
    requires forall e :: e in rows ==>
               rows[e].command.invocationId != c.invocationId && rows[e].command.key != c.key && e != c.effectId
    ensures
      var rows' := rows[c.effectId := Row(c, PendingRow, 0, None)];
      && Listed(order + [c.effectId], rows') && UniqueColumns(rows') && RowsCount(rows', trace)
      && RowsShow(rows', trace)
  {
    hide Deliveries, LastAbout, Listed, RowsShow, RowsCount;
    ListedStep(order, rows, c.effectId, Row(c, PendingRow, 0, None));
    FreshShows(rows, trace, c);
    FreshCounts(rows, trace, c);
  }

  lemma FreshShows(rows: map<string, Row>, trace: seq<Event>, c: Command)
    requires RowsShow(rows, trace) && c.effectId !in rows
    ensures RowsShow(rows[c.effectId := Row(c, PendingRow, 0, None)], trace)
  {
    hide LastAbout;
  }

  lemma FreshCounts(rows: map<string, Row>, trace: seq<Event>, c: Command)
    requires RowsCount(rows, trace) && c.effectId !in rows
    ensures RowsCount(rows[c.effectId := Row(c, PendingRow, 0, None)], trace)
  {
    hide Deliveries;
  }

  lemma ListedStep(order: seq<string>, rows: map<string, Row>, e: string, r: Row)
    requires Listed(order, rows) && e !in rows
    ensures Listed(order + [e], rows[e := r])
  {
    assert e !in order;
  }

  /** New statuses and locks for rows that keep their commands and counts. */
  lemma RelockStep(order: seq<string>, rows: map<string, Row>, rows': map<string, Row>, trace: seq<Event>)
    requires Listed(order, rows) && UniqueColumns(rows) && RowsCount(rows, trace) && rows'.Keys == rows.Keys
    requires forall e :: e in rows ==>
               e in rows' && rows'[e].command == rows[e].command && rows'[e].attempts == rows[e].attempts
    requires forall e :: e in rows' ==> (rows'[e].status == ProcessingRow <==> rows'[e].lockedAt.Some?)
    ensures Listed(order, rows') && UniqueColumns(rows') && RowsCount(rows', trace)
  {
    hide Deliveries;
    assert forall e :: e in rows' <==> e in rows;
  }

  lemma SweepStep(
    order: seq<string>, rows: map<string, Row>, rows': map<string, Row>, applied: set<string>, trace: seq<Event>,
    stale: set<string>, now: int)
    requires Listed(order, rows) && UniqueColumns(rows) && RowsCount(rows, trace) && RowsShow(rows, trace)
    requires OutboxSafe(trace) && AppliedKeys(trace, applied)
    requires stale == set e | e in rows && Stale(rows[e], now)
    requires rows'.Keys == rows.Keys
    requires forall e :: e in rows' ==>
               rows'[e] == if Stale(rows[e], now) then rows[e].(status := PendingRow, lockedAt := None) else rows[e]
    ensures
      var t := trace + [Swept(stale, now)];
      && Listed(order, rows') && UniqueColumns(rows') && RowsCount(rows', t) && RowsShow(rows', t)
      && OutboxSafe(t) && AppliedKeys(t, applied)
  {
    assert forall e :: e in rows ==> (rows[e].status == ProcessingRow <==> rows[e].lockedAt.Some?);
    assert AppliedKeys(trace + [Swept(stale, now)], applied);
    hide Listed, UniqueColumns, RowsCount, RowsShow, OutboxSafe, AppliedKeys;
    RelockStep(order, rows, rows', trace);
    QuietCounts(rows', trace, Swept(stale, now));
    SweepShows(rows, rows', trace, stale, now);
    QuietSafe(trace, Swept(stale, now));
  }

  lemma SweepShows(
    rows: map<string, Row>, rows': map<string, Row>, trace: seq<Event>, stale: set<string>, now: int)
    requires RowsShow(rows, trace) && rows'.Keys == rows.Keys && stale == set e | e in rows && Stale(rows[e], now)
    requires forall e :: e in rows' ==>
               rows'[e] == if Stale(rows[e], now) then rows[e].(status := PendingRow, lockedAt := None) else rows[e]
    ensures RowsShow(rows', trace + [Swept(stale, now)])
    ensures forall e :: e in stale <==> Overdue(LastAbout(trace, e), now)
  {
    LastAboutStep(trace, Swept(stale, now));
    hide LastAbout;
    assert forall e :: e in rows' ==> e in rows;
    forall e ensures e in stale <==> Overdue(LastAbout(trace, e), now) {
      if e in rows {
        assert Shows(rows[e], LastAbout(trace, e));
      }
    }
  }

  function Settled(rows: map<string, Row>, e: string, status: RowStatus): map<string, Row>
    requires e in rows
  {
    rows[e := rows[e].(status := status, lockedAt := None)]
  }

  lemma LastAboutStep(trace: seq<Event>, e: Event)
    ensures forall x :: LastAbout(trace + [e], x) == if About(e, x) then Some(e) else LastAbout(trace, x)
  {
    Prefixes(trace, e);
  }

  /** `ev` is the completion or failure of row `e`. */
  lemma SettleStep(
    order: seq<string>, rows: map<string, Row>, applied: set<string>, trace: seq<Event>, ev: Event, e: string,
    status: RowStatus)
    requires e in rows && Listed(order, rows) && UniqueColumns(rows) && RowsCount(rows, trace) && RowsShow(rows, trace)
    requires OutboxSafe(trace) && AppliedKeys(trace, applied)
    requires (ev == Completed(e) && status == CompletedRow) || (ev == Failed(e) && status == PendingRow)
    ensures
      var rows', t := Settled(rows, e, status), trace + [ev];
      && Listed(order, rows') && UniqueColumns(rows') && RowsCount(rows', t) && RowsShow(rows', t)
      && OutboxSafe(t) && AppliedKeys(t, applied)
  {
    var rows', t := Settled(rows, e, status), trace + [ev];
    assert forall x :: x in rows ==> (rows[x].status == ProcessingRow <==> rows[x].lockedAt.Some?);
    assert AppliedKeys(t, applied);
    SettleShows(rows, trace, ev, e, status);
    hide Listed, UniqueColumns, RowsCount, RowsShow, OutboxSafe, AppliedKeys;
    RelockStep(order, rows, rows', trace);
    QuietCounts(rows', trace, ev);
    QuietSafe(trace, ev);
  }

  lemma SettleShows(rows: map<string, Row>, trace: seq<Event>, ev: Event, e: string, status: RowStatus)
    requires e in rows && RowsShow(rows, trace)
    requires (ev == Completed(e) && status == CompletedRow) || (ev == Failed(e) && status == PendingRow)
    ensures RowsShow(Settled(rows, e, status), trace + [ev])
  {
    LastAboutStep(trace, ev);
    hide LastAbout;
  }

  lemma QuietCounts(rows: map<string, Row>, trace: seq<Event>, ev: Event)
    requires RowsCount(rows, trace) && !ev.Delivered?
    ensures RowsCount(rows, trace + [ev])
  {
    Prefixes(trace, ev);
  }

  lemma QuietSafe(trace: seq<Event>, ev: Event)
    requires OutboxSafe(trace) && !ev.Delivered? && !ev.Applied?
    requires ev.Swept? ==> forall e :: e in ev.effects <==> Overdue(LastAbout(trace, e), ev.at)
    ensures OutboxSafe(trace + [ev])
  {
    Prefixes(trace, ev);
    hide LastAbout, WasDelivered;
  }

  lemma DeliverStep(
    order: seq<string>, rows: map<string, Row>, applied: set<string>, trace: seq<Event>, e: string, now: int)
    requires e in rows && Listed(order, rows) && UniqueColumns(rows) && RowsCount(rows, trace) && RowsShow(rows, trace)
    requires OutboxSafe(trace) && AppliedKeys(trace, applied) && Claimable(rows[e], now)
    ensures
      var rows' := rows[e := Row(rows[e].command, ProcessingRow, rows[e].attempts + 1, Some(now))];
      var t := trace + [Delivered(rows[e].command, now)];
      && Listed(order, rows') && UniqueColumns(rows') && RowsCount(rows', t) && RowsShow(rows', t)
      && OutboxSafe(t) && AppliedKeys(t, applied)
  {
    hide RowsCount, RowsShow, OutboxSafe, Claimable, Listed, UniqueColumns, AppliedKeys;
    ClaimableIsOpen(rows, trace, e, now);
    DeliverSafe(rows, trace, e, now);
    DeliverCounts(rows, trace, e, now);
    DeliverShows(rows, trace, e, now);
    DeliverLists(order, rows, applied, trace, e, now);
  }

  lemma ClaimableIsOpen(rows: map<string, Row>, trace: seq<Event>, e: string, now: int)
    requires e in rows && RowsShow(rows, trace) && Claimable(rows[e], now)
    ensures
      var last := LastAbout(trace, e);
      last.None? || last.value.Failed? || last.value.Swept? || Overdue(last, now)
  {
    ClaimableExactly(rows, trace, e, now);
  }

  /** A row can be claimed exactly when nothing has happened to it, or a failure or a stale reclaim is the last that
      did, or it has been handed out for more than five minutes. */
  lemma ClaimableExactly(rows: map<string, Row>, trace: seq<Event>, e: string, now: int)
    requires e in rows && RowsShow(rows, trace)
    ensures
      var last := LastAbout(trace, e);
      Claimable(rows[e], now) <==> last.None? || last.value.Failed? || last.value.Swept? || Overdue(last, now)
  {
    LastIsAbout(trace, e);
    assert Shows(rows[e], LastAbout(trace, e));
    hide LastAbout;
  }

  lemma {:induction false} LastIsAbout(trace: seq<Event>, e: string)
    ensures LastAbout(trace, e).Some? ==> About(LastAbout(trace, e).value, e)
  {
    if trace != [] {
      LastIsAbout(trace[..|trace| - 1], e);
    }
  }

  lemma DeliverLists(
    order: seq<string>, rows: map<string, Row>, applied: set<string>, trace: seq<Event>, e: string, now: int)
    requires e in rows && Listed(order, rows) && UniqueColumns(rows) && AppliedKeys(trace, applied)
    ensures
      var rows' := rows[e := Row(rows[e].command, ProcessingRow, rows[e].attempts + 1, Some(now))];
      Listed(order, rows') && UniqueColumns(rows') && AppliedKeys(trace + [Delivered(rows[e].command, now)], applied)
  {
  }

  lemma DeliverShows(rows: map<string, Row>, trace: seq<Event>, e: string, now: int)
    requires e in rows && UniqueColumns(rows) && RowsShow(rows, trace)
    ensures
      var c := rows[e].command;
      RowsShow(rows[e := Row(c, ProcessingRow, rows[e].attempts + 1, Some(now))], trace + [Delivered(c, now)])
  {
    LastAboutStep(trace, Delivered(rows[e].command, now));
    hide LastAbout;
  }

  lemma DeliverSafe(rows: map<string, Row>, trace: seq<Event>, e: string, now: int)
    requires e in rows && UniqueColumns(rows) && RowsCount(rows, trace) && OutboxSafe(trace)
    requires
      var last := LastAbout(trace, e);
      last.None? || last.value.Failed? || last.value.Swept? || Overdue(last, now)
    ensures OutboxSafe(trace + [Delivered(rows[e].command, now)])
  {
    Prefixes(trace, Delivered(rows[e].command, now));
    hide Deliveries, LastAbout, WasDelivered;
  }

  lemma DeliverCounts(rows: map<string, Row>, trace: seq<Event>, e: string, now: int)
    requires e in rows && UniqueColumns(rows) && RowsCount(rows, trace)
    ensures
      var c := rows[e].command;
      RowsCount(rows[e := Row(c, ProcessingRow, rows[e].attempts + 1, Some(now))], trace + [Delivered(c, now)])
  {
    Prefixes(trace, Delivered(rows[e].command, now));
  }

  lemma ApplyStep(rows: map<string, Row>, trace: seq<Event>, c: Command)
    requires RowsCount(rows, trace) && RowsShow(rows, trace) && OutboxSafe(trace) && WasDelivered(trace, c)
    requires forall i :: 0 <= i < |trace| && trace[i].Applied? ==> trace[i].command.key != c.key
    ensures
      var t := trace + [Applied(c)];
      RowsCount(rows, t) && RowsShow(rows, t) && OutboxSafe(t)
  {
    Prefixes(trace, Applied(c));
    LastAboutStep(trace, Applied(c));
    QuietCounts(rows, trace, Applied(c));
    hide RowsCount, Deliveries, LastAbout, WasDelivered;
  }

  // ---------- Every run ----------

  datatype Op =
    | OpEnqueue(command: Command)
    | OpClaim(now: int, locked: set<string>)
    | OpComplete(effect: string)
    | OpFail(effect: string)
    | OpRecoverStale(now: int)
    | OpPerform(delivery: nat)

  /** Any mix of enqueues, claims, stale reclaims, completions and failures (late ones too), and of workers that
      perform what they were handed whenever they get to it. */
  method AllRuns(ops: seq<Op>) returns (trace: seq<Event>, rows: map<string, Row>)
    ensures OutboxSafe(trace) && UniqueColumns(rows) && RowsCount(rows, trace) && RowsShow(rows, trace)
  {
    hide OutboxSafe, UniqueColumns, RowsCount, RowsShow, AppliedKeys, Listed, NoneClaimable;
    var b := new Boundary();
    for i := 0 to |ops|
      invariant b.Valid() && fresh(b)
    {
      match ops[i] {
        case OpEnqueue(c) => var outcome := b.Enqueue(c);
        case OpClaim(now, locked) => var command, at := b.Claim(now, locked);
        case OpComplete(e) => b.Complete(e);
        case OpFail(e) => b.Fail(e);
        case OpRecoverStale(now) => var count := b.RecoverStale(now);
        case OpPerform(k) =>
          if k < |b.trace| && b.trace[k].Delivered? {
            assert WasDelivered(b.trace, b.trace[k].command);
            var effective := b.Perform(b.trace[k].command);
          }
      }
    }
    trace, rows := b.trace, b.rows;
  }

  /** Each row's command takes effect at most once, however often it is delivered. */
  lemma AppliedAtMostOnce(trace: seq<Event>, i: nat, j: nat)
    requires OutboxSafe(trace) && i < |trace| && j < |trace| && trace[i].Applied? && trace[j].Applied?
    requires trace[i].command.effectId == trace[j].command.effectId
    ensures i == j
  {
    var a :| 0 <= a < i && trace[..i][a].Delivered? && trace[..i][a].command == trace[i].command;
    var b :| 0 <= b < j && trace[..j][b].Delivered? && trace[..j][b].command == trace[j].command;
    assert trace[a].command == trace[b].command;
  }

  lemma {:induction false} LastAboutIsOf(trace: seq<Event>, effect: string, i: nat, j: nat)
    requires i < j <= |trace| && About(trace[i], effect)
    ensures exists k :: i <= k < j && About(trace[k], effect) && LastAbout(trace[..j], effect) == Some(trace[k])
  {
    assert trace[..j][..j - 1] == trace[..j - 1];
    if !About(trace[j - 1], effect) {
      LastAboutIsOf(trace, effect, i, j - 1);
    }
  }

  /** COMPLETED is final unless a failure comes: what is delivered or taken back after its completion was failed in
      between. */
  lemma {:induction false} ReopenedOnlyByFailure(trace: seq<Event>, i: nat, j: nat)
    requires OutboxSafe(trace) && i < j < |trace| && trace[i].Completed?
    requires About(trace[j], trace[i].effect) && (trace[j].Delivered? || trace[j].Swept?)
    ensures exists k :: i < k < j && trace[k] == Failed(trace[i].effect)
  {
    hide SameCommandEveryTime, SinkHonoursKeys, LastAbout;
    var e := trace[i].effect;
    LastAboutIsOf(trace, e, i, j);
    var k :| i <= k < j && About(trace[k], e) && LastAbout(trace[..j], e) == Some(trace[k]);
    assert !trace[k].Completed?;
    if !trace[k].Failed? {
      ReopenedOnlyByFailure(trace, i, k);
    }
  }

  /** Nothing is handed out twice within five minutes: two deliveries of a row with no settlement or stale reclaim in
      between are more than 300 seconds apart. */
  lemma DeliveredAgainOnlyWhenOverdue(trace: seq<Event>, i: nat, j: nat)
    requires OutboxSafe(trace) && i < j < |trace| && trace[i].Delivered? && trace[j].Delivered?
    requires trace[i].command.effectId == trace[j].command.effectId
    requires forall k :: i < k < j ==> !About(trace[k], trace[i].command.effectId)
    ensures trace[i].at + 300 < trace[j].at
  {
    hide SameCommandEveryTime, SinkHonoursKeys, LastAbout;
    var e := trace[i].command.effectId;
    LastAboutIsOf(trace, e, i, j);
  }

  /** Until a failure comes the row stays COMPLETED, in every run. */
  lemma CompletedUntilFailed(rows: map<string, Row>, trace: seq<Event>, i: nat)
    requires OutboxSafe(trace) && RowsShow(rows, trace) && i < |trace| && trace[i].Completed?
    requires forall k :: i < k < |trace| ==> trace[k] != Failed(trace[i].effect)
    ensures trace[i].effect in rows && rows[trace[i].effect].status == CompletedRow
  {
    hide LastAbout, SameCommandEveryTime, SinkHonoursKeys, TimelyDelivered;
    var e := trace[i].effect;
    LastAboutIsOf(trace, e, i, |trace|);
    assert trace[..|trace|] == trace;
    var k :| i <= k < |trace| && About(trace[k], e) && LastAbout(trace, e) == Some(trace[k]);
    if trace[k].Delivered? || trace[k].Swept? {
      ReopenedOnlyByFailure(trace, i, k);
    }
  }

  /** And a row whose last settlement is a failure can be claimed at once, whatever it was before. */
  lemma FailedIsClaimable(rows: map<string, Row>, trace: seq<Event>, i: nat, now: int)
    requires RowsShow(rows, trace) && i < |trace| && trace[i].Failed?
    requires forall k :: i < k < |trace| ==> !About(trace[k], trace[i].effect)
    ensures trace[i].effect in rows && Claimable(rows[trace[i].effect], now)
  {
    hide LastAbout;
    LastAboutIsOf(trace, trace[i].effect, i, |trace|);
    assert trace[..|trace|] == trace;
  }

  /** A late `fail` reopens a COMPLETED row and it is delivered again; the sink's key check is what keeps the effect
      single. */
  method LateFailReopens(c: Command) returns (reopened: RowStatus, trace: seq<Event>)
    ensures reopened == PendingRow
    ensures trace == [Delivered(c, 0), Delivered(c, 301), Applied(c), Completed(c.effectId), Failed(c.effectId),
                      Delivered(c, 302)]
    ensures OutboxSafe(trace)
  {
    hide OutboxSafe, UniqueColumns, RowsCount, RowsShow, AppliedKeys, Listed, NoneClaimable;
    var b := new Boundary();
    var stored := b.Enqueue(c);
    assert b.rows == map[c.effectId := Row(c, PendingRow, 0, None)];
    ClaimOnly(b, Row(c, PendingRow, 0, None), 0);
    ClaimOnly(b, Row(c, ProcessingRow, 1, Some(0)), 301);
    assert b.trace[0].Delivered?;
    var effective := b.Perform(c);
    b.Complete(c.effectId);
    b.Fail(c.effectId);
    assert b.rows == map[c.effectId := Row(c, PendingRow, 2, None)];
    reopened := b.rows[c.effectId].status;
    ClaimOnly(b, Row(c, PendingRow, 2, None), 302);
    assert b.trace[0].Delivered?;
    effective := b.Perform(c);
    trace := b.trace;
  }

  /** A claim on a table of one claimable row. */
  method ClaimOnly(b: Boundary, r: Row, now: int)
    requires b.Valid() && b.rows == map[r.command.effectId := r] && Claimable(r, now)
    modifies b`rows, b`trace
    ensures b.Valid() && b.trace == old(b.trace) + [Delivered(r.command, now)]
    ensures b.rows == map[r.command.effectId := Row(r.command, ProcessingRow, r.attempts + 1, Some(now))]
  {
    hide OutboxSafe, UniqueColumns, RowsCount, RowsShow, AppliedKeys, Listed, NoneClaimable, Claimable;
    assert r.command.effectId in b.rows;
    ghost var at;
    var command;
    command, at := b.Claim(now, {});
  }
}
