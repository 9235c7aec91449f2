/** `production/workers.py`: the in-process queue with exclusive leases, attempts and expiry, and the worker that
    drains it. Every public method runs under the queue's lock and is one step. */
module LeaseQueue {
  import opened Prelude

  datatype ItemStatus = Queued | Running | Succeeded | Failed

  datatype WorkItem = WorkItem(
    payload: string, attempts: nat, status: ItemStatus, worker: Option<string>, leaseUntil: Option<int>,
    result: Option<string>, error: Option<string>)

  datatype Event = Claimed(id: string) | Completed(id: string)

  function Count(trace: seq<Event>, e: Event): nat {
    if trace == [] then 0
    else Count(trace[..|trace| - 1], e) + (if trace[|trace| - 1] == e then 1 else 0)
  }

  predicate Over(i: WorkItem) {
    i.status in {Succeeded, Failed}
  }

  /** Distance of an item from its end. Every change of status or attempts makes it smaller. */
  function Rank(max: nat, i: WorkItem): nat {
    if Over(i) || i.attempts > max then 0
    else 2 * (max - i.attempts) + (if i.status == Queued then 1 else 2)
  }

  /** How one item may change in any step: finished items never do, and whatever else moves loses rank. */
  ghost predicate Descends(max: nat, a: WorkItem, b: WorkItem) {
    && b.payload == a.payload
    && (Over(a) ==> b == a)
    && ((b.status == a.status && b.attempts == a.attempts) || Rank(max, b) < Rank(max, a))
  }

  /** What holds of an item in every reachable state. */
  ghost predicate ItemOk(max: nat, i: WorkItem, claims: nat, completions: nat) {
    && i.attempts == claims <= max
    && (i.status == Queued ==> i.attempts < max || max == 0)
    && (i.status == Running ==> i.attempts > 0 && i.worker.Some? && i.leaseUntil.Some?)
    && (i.status == Failed ==> i.attempts == max)
    && completions == (if i.status == Succeeded then 1 else 0)
  }

  ghost predicate ItemsOk(max: nat, items: map<string, WorkItem>, trace: seq<Event>) {
    && (forall id :: id in items ==> ItemOk(max, items[id], Count(trace, Claimed(id)), Count(trace, Completed(id))))
    && (forall id :: id !in items ==> Count(trace, Claimed(id)) == 0 && Count(trace, Completed(id)) == 0)
  }

  /** Whether lost or given back, an item is queued again while attempts remain. */
  function Returned(max: nat, i: WorkItem): WorkItem {
    i.(status := if i.attempts < max then Queued else Failed, leaseUntil := None)
  }

  function Taken(i: WorkItem, worker: string, until: int): WorkItem {
    i.(status := Running, worker := Some(worker), attempts := i.attempts + 1, leaseUntil := Some(until))
  }

  predicate LeaseOver(i: WorkItem, now: int) {
    i.status == Running && i.leaseUntil.Some? && i.leaseUntil.value <= now
  }

  function AfterExpiry(max: nat, i: WorkItem, now: int): WorkItem {
    if LeaseOver(i, now) then Returned(max, i).(worker := None) else i
  }

  predicate Owns(items: map<string, WorkItem>, id: string, worker: string) {
    id in items && items[id].status == Running && items[id].worker == Some(worker)
  }

  ghost predicate StepDescends(max: nat, items: map<string, WorkItem>, items': map<string, WorkItem>) {
    items'.Keys == items.Keys && forall id :: id in items ==> Descends(max, items[id], items'[id])
  }

  // ---------- Who holds what ----------

  datatype Move =
    | Took(id: string, worker: string, until: int)
    | Beat(id: string, worker: string, until: int)
    | Gave(id: string, worker: string)
    | Lost(ids: set<string>, at: int)

  datatype Hold = Hold(worker: string, until: int)

  /** The lease on an item, as the moves so far leave it. */
  function Holder(moves: seq<Move>, id: string): Option<Hold> {
    if moves == [] then None else HolderAfter(Holder(moves[..|moves| - 1], id), moves[|moves| - 1], id)
  }

  function HolderAfter(before: Option<Hold>, m: Move, id: string): Option<Hold> {
    match m
    case Took(i, w, until) => if i == id then Some(Hold(w, until)) else before
    case Beat(i, w, until) => if i == id then Some(Hold(w, until)) else before
    case Gave(i, _) => if i == id then None else before
    case Lost(ids, _) => if id in ids then None else before
  }

  predicate HeldBy(h: Option<Hold>, worker: string) {
    h.Some? && h.value.worker == worker
  }

  /** An item is taken only when nobody holds it, renewed, completed or failed only by its holder, and lost exactly when
      the deadline has come. */
  ghost predicate MoveAllowed(before: seq<Move>, m: Move) {
    match m
    case Took(id, _, _) => Holder(before, id).None?
    case Beat(id, w, _) => HeldBy(Holder(before, id), w)
    case Gave(id, w) => HeldBy(Holder(before, id), w)
    case Lost(ids, at) =>
      forall id :: id in ids <==> Holder(before, id).Some? && Holder(before, id).value.until <= at
  }

  ghost predicate Exclusive(moves: seq<Move>) {
    forall k :: 0 <= k < |moves| ==> MoveAllowed(moves[..k], moves[k])
  }

  /** An item is RUNNING exactly while it is held, by the holder and until the deadline. */
  ghost predicate HoldsShow(items: map<string, WorkItem>, moves: seq<Move>) {
    && (forall id :: id in items ==>
          && (items[id].status == Running <==> Holder(moves, id).Some?)
          && (items[id].status == Running ==>
                items[id].worker.Some? && items[id].leaseUntil.Some?
                && Holder(moves, id) == Some(Hold(items[id].worker.value, items[id].leaseUntil.value))))
    && (forall id :: id !in items ==> Holder(moves, id).None?)
  }

  lemma HolderStep(moves: seq<Move>, m: Move)
    requires Exclusive(moves) && MoveAllowed(moves, m)
    ensures Exclusive(moves + [m])
    ensures forall id :: Holder(moves + [m], id) == HolderAfter(Holder(moves, id), m, id)
  {
    Prefixes(moves, m);
    hide MoveAllowed;
  }

  lemma TookStep(items: map<string, WorkItem>, moves: seq<Move>, id: string, i: WorkItem)
    requires Exclusive(moves) && HoldsShow(items, moves) && id in items && items[id].status != Running
    requires i.status == Running && i.worker.Some? && i.leaseUntil.Some?
    ensures
      var m := Took(id, i.worker.value, i.leaseUntil.value);
      Exclusive(moves + [m]) && HoldsShow(items[id := i], moves + [m])
  {
    HolderStep(moves, Took(id, i.worker.value, i.leaseUntil.value));
    hide Holder, Exclusive;
  }

  lemma BeatStep(items: map<string, WorkItem>, moves: seq<Move>, id: string, until: int)
    requires Exclusive(moves) && HoldsShow(items, moves) && id in items && items[id].status == Running
    ensures
      && items[id].worker.Some?
      && var m := Beat(id, items[id].worker.value, until);
         Exclusive(moves + [m]) && HoldsShow(items[id := items[id].(leaseUntil := Some(until))], moves + [m])
  {
    assert Holder(moves, id).Some?;
    HolderStep(moves, Beat(id, items[id].worker.value, until));
    hide Holder, Exclusive;
  }

  lemma GaveStep(items: map<string, WorkItem>, moves: seq<Move>, id: string, i: WorkItem)
    requires Exclusive(moves) && HoldsShow(items, moves) && id in items && items[id].status == Running
    requires i.status != Running
    ensures
      && items[id].worker.Some?
      && var m := Gave(id, items[id].worker.value);
         Exclusive(moves + [m]) && HoldsShow(items[id := i], moves + [m])
  {
    assert Holder(moves, id).Some?;
    HolderStep(moves, Gave(id, items[id].worker.value));
    hide Holder, Exclusive;
  }

  lemma LostStep(
    items: map<string, WorkItem>, items': map<string, WorkItem>, moves: seq<Move>, ids: set<string>, max: nat, now: int)
    requires Exclusive(moves) && HoldsShow(items, moves) && items'.Keys == items.Keys
    requires ids == set id | id in items && LeaseOver(items[id], now)
    requires forall id :: id in items' ==> items'[id] == AfterExpiry(max, items[id], now)
    ensures Exclusive(moves + [Lost(ids, now)]) && HoldsShow(items', moves + [Lost(ids, now)])
  {
    forall id ensures id in ids <==> Holder(moves, id).Some? && Holder(moves, id).value.until <= now {
      if id in items {
        assert items[id].status == Running <==> Holder(moves, id).Some?;
      }
    }
    HolderStep(moves, Lost(ids, now));
    hide Holder, Exclusive;
    assert forall id :: id in items' ==> id in items;
  }

  lemma {:induction false} HeldUntilMoved(moves: seq<Move>, id: string, i: nat, j: nat) returns (k: nat)
    requires i <= j <= |moves| && Holder(moves[..i], id).Some? && Holder(moves[..j], id).None?
    ensures i <= k < j && Holder(moves[..k], id).Some? && Holder(moves[..k + 1], id).None?
  {
    hide Holder;
    if Holder(moves[..j - 1], id).None? {
      k := HeldUntilMoved(moves, id, i, j - 1);
    } else {
      k := j - 1;
    }
  }

  /** How a lease ends. */
  lemma LeaseEnds(moves: seq<Move>, id: string, k: nat)
    requires Exclusive(moves) && k < |moves| && Holder(moves[..k], id).Some? && Holder(moves[..k + 1], id).None?
    ensures
      var h := Holder(moves[..k], id).value;
      moves[k] == Gave(id, h.worker) || (moves[k].Lost? && id in moves[k].ids && h.until <= moves[k].at)
  {
    assert moves[..k + 1][..k] == moves[..k];
    assert MoveAllowed(moves[..k], moves[k]);
  }

  /** An item that was taken is taken again only after its holder completed or failed it, or at a time when its
      deadline, as last renewed, had come. */
  lemma TakenAgainOnlyWhenGivenOrLost(moves: seq<Move>, i: nat, j: nat) returns (k: nat)
    requires Exclusive(moves) && i < j < |moves| && moves[i].Took? && moves[j].Took? && moves[i].id == moves[j].id
    ensures i < k < j && Holder(moves[..k], moves[i].id).Some?
    ensures
      var h := Holder(moves[..k], moves[i].id).value;
      moves[k] == Gave(moves[i].id, h.worker) ||
        (moves[k].Lost? && moves[i].id in moves[k].ids && h.until <= moves[k].at)
  {
    assert Holder(moves[..j], moves[i].id).None? && Holder(moves[..i + 1], moves[i].id).Some? by {
      assert MoveAllowed(moves[..j], moves[j]);
      assert moves[..i + 1][..i] == moves[..i];
    }
    hide Holder, Exclusive;
    k := HeldUntilMoved(moves, moves[i].id, i + 1, j);
    LeaseEnds(moves, moves[i].id, k);
  }

  class Queue {
    const leaseSeconds: int
    const maxAttempts: nat
    var order: seq<string>
    var items: map<string, WorkItem>
    var trace: seq<Event>
    var moves: seq<Move>

    ghost predicate Valid()
      reads this
    {
      && Distinct(order) && (forall id :: id in order <==> id in items)
      && ItemsOk(maxAttempts, items, trace) && Exclusive(moves) && HoldsShow(items, moves)
    }

    constructor (leaseSeconds: int, maxAttempts: nat)
      ensures Valid() && items == map[] && order == [] && trace == [] && moves == []
      ensures this.leaseSeconds == leaseSeconds && this.maxAttempts == maxAttempts
    {
      this.leaseSeconds, this.maxAttempts := leaseSeconds, maxAttempts;
      order, items, trace, moves := [], map[], [], [];
    }

    /** `id` is a fresh UUID. */
    method Enqueue(id: string, payload: string)
      requires Valid() && id !in items
      modifies this`order, this`items
      ensures Valid()
      ensures order == old(order) + [id]
      ensures items == old(items)[id := WorkItem(payload, 0, Queued, None, None, None, None)]
    {
      items := items[id := WorkItem(payload, 0, Queued, None, None, None, None)];
      order := order + [id];
    }

    /** `_expire_locked`. */
    method RecoverExpired(now: int) returns (count: nat)
      requires Valid()
      modifies this`items, this`moves
      ensures Valid() && StepDescends(maxAttempts, old(items), items)
      ensures moves == old(moves) + [Lost((set id | id in old(items) && LeaseOver(old(items)[id], now)), now)]
      ensures forall id :: id in items ==> items[id] == AfterExpiry(maxAttempts, old(items)[id], now)
      ensures count == |set id | id in old(items) && LeaseOver(old(items)[id], now)|
    {
      hide ItemsOk, AfterExpiry, Descends, ExpiredUpTo, OverAmong, LeaseOver, Returned, Exclusive, HoldsShow;
      var before := items;
      NoneExpired(maxAttempts, items, now);
      count := 0;
      var k := 0;
      while k < |order|
        invariant 0 <= k <= |order|
        invariant items.Keys == before.Keys && moves == old(moves)
        invariant ExpiredUpTo(maxAttempts, before, items, order[..k], now) && ItemsOk(maxAttempts, items, trace)
        invariant count == |OverAmong(before, order[..k], now)|
      {
        var id := order[k];
        assert order[..k + 1] == order[..k] + [id];
        assert id !in order[..k] && id in order;
        ExpireOne(maxAttempts, before, items, trace, order[..k], id, now);
        if LeaseOver(items[id], now) {
          items := items[id := Returned(maxAttempts, items[id]).(worker := None)];
          count := count + 1;
        }
        k := k + 1;
      }
      assert order[..k] == order;
      AllExpired(maxAttempts, before, items, trace, order, now);
      var lost := set id | id in before && LeaseOver(before[id], now);
      LostStep(before, items, moves, lost, maxAttempts, now);
      moves := moves + [Lost(lost, now)];
    }

    /** The first available item in insertion order, after expired leases have been taken back. */
    method Claim(worker: string, now: int) returns (claimed: Option<string>, ghost at: nat)
      requires Valid()
      modifies this`items, this`trace, this`moves
      ensures Valid() && StepDescends(maxAttempts, old(items), items)
      ensures claimed.None? ==> trace == old(trace) && forall id :: id in items ==> !Available(items[id], maxAttempts)
      ensures claimed.Some? ==>
                at < |order| && order[at] == claimed.value && forall j :: 0 <= j < at ==>
                  order[j] in items && !Available(items[order[j]], maxAttempts)
      ensures claimed.Some? ==>
                var id := claimed.value;
                && id in old(items) && Owns(items, id, worker) && items[id].attempts == old(items)[id].attempts + 1
                && Available(AfterExpiry(maxAttempts, old(items)[id], now), maxAttempts)
                && items[id] == Taken(AfterExpiry(maxAttempts, old(items)[id], now), worker, now + leaseSeconds)
                && trace == old(trace) + [Claimed(id)]
                && Rank(maxAttempts, items[id]) < Rank(maxAttempts, old(items)[id])
      ensures forall id :: id in items && claimed != Some(id) ==>
                items[id] == AfterExpiry(maxAttempts, old(items)[id], now)
    {
      hide ItemsOk, AfterExpiry, StepDescends, Rank, Exclusive, HoldsShow;
      var count := RecoverExpired(now);
      var k := FirstQueued(order, items, maxAttempts);
      if k == |order| {
        assert order[..k] == order;
        return None, 0;
      }
      var id := order[k];
      assert id in order;
      ClaimStep(maxAttempts, old(items), items, trace, id, worker, now + leaseSeconds);
      TookStep(items, moves, id, Taken(items[id], worker, now + leaseSeconds));
      items := items[id := Taken(items[id], worker, now + leaseSeconds)];
      moves := moves + [Took(id, worker, now + leaseSeconds)];
      trace := trace + [Claimed(id)];
      claimed, at := Some(id), k;
      SameAttempts(maxAttempts, old(items)[id], now);
    }

    method Heartbeat(id: string, worker: string, now: int) returns (ok: bool)
      requires Valid()
      modifies this`items, this`moves
      ensures Valid() && StepDescends(maxAttempts, old(items), items)
      ensures ok <==> Owns(old(items), id, worker)
      ensures items == if ok then old(items)[id := old(items)[id].(leaseUntil := Some(now + leaseSeconds))]
                       else old(items)
    {
      hide Exclusive, HoldsShow, ItemsOk, Count, Rank;
      ok := Owns(items, id, worker);
      if ok {
        LongerLease(maxAttempts, items, trace, id, now + leaseSeconds);
        BeatStep(items, moves, id, now + leaseSeconds);
        moves := moves + [Beat(id, worker, now + leaseSeconds)];
        items := items[id := items[id].(leaseUntil := Some(now + leaseSeconds))];
      }
    }

    method Complete(id: string, worker: string, result: string) returns (ok: bool)
      requires Valid()
      modifies this`items, this`trace, this`moves
      ensures Valid() && StepDescends(maxAttempts, old(items), items)
      ensures ok <==> Owns(old(items), id, worker)
      ensures ok ==>
                items ==
                old(items)[id := old(items)[id].(status := Succeeded, result := Some(result), leaseUntil := None)]
      ensures ok ==> trace == old(trace) + [Completed(id)]
      ensures !ok ==> items == old(items) && trace == old(trace)
    {
      hide ItemsOk, Count, Exclusive, HoldsShow;
      ok := Owns(items, id, worker);
      if ok {
        GaveStep(items, moves, id, items[id].(status := Succeeded, result := Some(result), leaseUntil := None));
        moves := moves + [Gave(id, worker)];
        CompleteStep(maxAttempts, items, trace, id, result);
        items := items[id := items[id].(status := Succeeded, result := Some(result), leaseUntil := None)];
        trace := trace + [Completed(id)];
      }
    }

    method Fail(id: string, worker: string, error: string) returns (ok: bool)
      requires Valid()
      modifies this`items, this`moves
      ensures Valid() && StepDescends(maxAttempts, old(items), items)
      ensures ok <==> Owns(old(items), id, worker)
      ensures items == if ok then old(items)[id := Returned(maxAttempts, old(items)[id]).(error := Some(error))]
                       else old(items)
    {
      hide ItemsOk, Count, Exclusive, HoldsShow;
      ok := Owns(items, id, worker);
      if ok {
        GaveStep(items, moves, id, Returned(maxAttempts, items[id]).(error := Some(error)));
        moves := moves + [Gave(id, worker)];
        ReturnStep(maxAttempts, items, trace, id);
        items := items[id := Returned(maxAttempts, items[id]).(error := Some(error))];
      }
    }
  }

  ghost predicate ExpiredUpTo(
    max: nat, before: map<string, WorkItem>, items: map<string, WorkItem>, done: seq<string>, now: int) {
    && items.Keys == before.Keys
    && forall id :: id in before ==> items[id] == if id in done then AfterExpiry(max, before[id], now) else before[id]
  }

  ghost function OverAmong(items: map<string, WorkItem>, ids: seq<string>, now: int): set<string> {
    set id | id in ids && id in items && LeaseOver(items[id], now)
  }

  lemma NoneExpired(max: nat, items: map<string, WorkItem>, now: int)
    ensures ExpiredUpTo(max, items, items, [], now) && OverAmong(items, [], now) == {}
  {
  }

  lemma AllExpired(
    max: nat, before: map<string, WorkItem>, items: map<string, WorkItem>, trace: seq<Event>, order: seq<string>,
    now: int)
    requires ExpiredUpTo(max, before, items, order, now) && ItemsOk(max, before, trace) &&
               forall id :: id in order <==> id in before
    ensures items.Keys == before.Keys && StepDescends(max, before, items)
    ensures forall id :: id in items ==> items[id] == AfterExpiry(max, before[id], now)
    ensures OverAmong(before, order, now) == set id | id in before && LeaseOver(before[id], now)
  {
    ExpiryDescends(max, before, trace, now);
    hide AfterExpiry, Descends, LeaseOver, ItemsOk;
  }

  lemma ExpireOne(max: nat, before: map<string, WorkItem>, items: map<string, WorkItem>, trace: seq<Event>,
                  done: seq<string>, id: string, now: int)
    requires id in before && id !in done
    requires ExpiredUpTo(max, before, items, done, now) && ItemsOk(max, items, trace)
    ensures
      var items' := if LeaseOver(items[id], now) then items[id := Returned(max, items[id]).(worker := None)] else items;
      ExpiredUpTo(max, before, items', done + [id], now) && ItemsOk(max, items', trace)
    ensures id !in OverAmong(before, done, now)
    ensures OverAmong(before, done + [id], now) ==
            OverAmong(before, done, now) + (if LeaseOver(items[id], now) then {id} else {})
  {
    if LeaseOver(items[id], now) {
      ReturnStep(max, items, trace, id);
      assert id in done + [id];
    }
  }

  lemma ExpiryDescends(max: nat, items: map<string, WorkItem>, trace: seq<Event>, now: int)
    requires ItemsOk(max, items, trace)
    ensures forall id :: id in items ==> Descends(max, items[id], AfterExpiry(max, items[id], now))
  {
    forall id | id in items ensures Descends(max, items[id], AfterExpiry(max, items[id], now)) {
      assert ItemOk(max, items[id], Count(trace, Claimed(id)), Count(trace, Completed(id)));
    }
  }

  lemma ReturnStep(max: nat, items: map<string, WorkItem>, trace: seq<Event>, id: string)
    requires ItemsOk(max, items, trace) && id in items && items[id].status == Running
    ensures forall i: WorkItem :: i.attempts == items[id].attempts && i.status == Returned(max, items[id]).status ==>
              ItemsOk(max, items[id := i], trace)
    ensures Rank(max, Returned(max, items[id])) < Rank(max, items[id])
  {
    assert ItemOk(max, items[id], Count(trace, Claimed(id)), Count(trace, Completed(id)));
  }

  lemma ClaimStep(
    max: nat, before: map<string, WorkItem>, items: map<string, WorkItem>, trace: seq<Event>, id: string,
    worker: string, until: int)
    requires ItemsOk(max, items, trace) && StepDescends(max, before, items)
    requires id in items && items[id].status == Queued && items[id].attempts < max
    ensures
      var i := Taken(items[id], worker, until);
      && ItemsOk(max, items[id := i], trace + [Claimed(id)]) && StepDescends(max, before, items[id := i])
      && Rank(max, i) < Rank(max, before[id])
  {
    hide ItemsOk, Rank, Descends, Taken, Count;
    ClaimCounts(max, items, trace, id, worker, until);
    TakenDescends(max, before[id], items[id], worker, until);
  }

  lemma TakenDescends(max: nat, before: WorkItem, i: WorkItem, worker: string, until: int)
    requires Descends(max, before, i) && i.status == Queued && i.attempts < max
    ensures Descends(max, before, Taken(i, worker, until)) && Rank(max, Taken(i, worker, until)) < Rank(max, before)
  {
  }

  lemma ClaimCounts(max: nat, items: map<string, WorkItem>, trace: seq<Event>, id: string, worker: string, until: int)
    requires ItemsOk(max, items, trace)
    requires id in items && items[id].status == Queued && items[id].attempts < max
    ensures
      var i := Taken(items[id], worker, until);
      ItemsOk(max, items[id := i], trace + [Claimed(id)])
  {
    assert (trace + [Claimed(id)])[..|trace + [Claimed(id)]| - 1] == trace;
    assert ItemOk(max, items[id], Count(trace, Claimed(id)), Count(trace, Completed(id)));
  }

  lemma SameAttempts(max: nat, i: WorkItem, now: int)
    ensures AfterExpiry(max, i, now).attempts == i.attempts
  {
  }

  predicate Available(i: WorkItem, max: nat) {
    i.status == Queued && i.attempts < max
  }

  method FirstQueued(order: seq<string>, items: map<string, WorkItem>, max: nat) returns (k: nat)
    requires forall id :: id in order ==> id in items
    ensures k <= |order| && (forall id :: id in order[..k] ==> !Available(items[id], max))
    ensures k < |order| ==> Available(items[order[k]], max)
  {
    k := 0;
    while k < |order| && !Available(items[order[k]], max)
      invariant 0 <= k <= |order|
      invariant forall id :: id in order[..k] ==> !Available(items[id], max)
    {
      k := k + 1;
    }
  }

  lemma LongerLease(max: nat, items: map<string, WorkItem>, trace: seq<Event>, id: string, until: int)
    requires ItemsOk(max, items, trace) && id in items
    ensures ItemsOk(max, items[id := items[id].(leaseUntil := Some(until))], trace)
  {
    assert ItemOk(max, items[id], Count(trace, Claimed(id)), Count(trace, Completed(id)));
  }

  lemma CompleteStep(max: nat, items: map<string, WorkItem>, trace: seq<Event>, id: string, result: string)
    requires ItemsOk(max, items, trace) && id in items && items[id].status == Running
    ensures
      var i := items[id].(status := Succeeded, result := Some(result), leaseUntil := None);
      && ItemsOk(max, items[id := i], trace + [Completed(id)]) && Rank(max, i) < Rank(max, items[id])
  {
    assert (trace + [Completed(id)])[..|trace + [Completed(id)]| - 1] == trace;
    assert ItemOk(max, items[id], Count(trace, Claimed(id)), Count(trace, Completed(id)));
  }

  // ---------- Every run ----------

  datatype Op =
    | OpEnqueue(id: string, payload: string)
    | OpClaim(worker: string, now: int)
    | OpHeartbeat(id: string, worker: string, now: int)
    | OpComplete(id: string, worker: string, result: string)
    | OpFail(id: string, worker: string, error: string)
    | OpRecoverExpired(now: int)

  /** Items present before are still there: finished ones untouched, the others with no more rank than before. */
  ghost predicate Descended(max: nat, items: map<string, WorkItem>, items': map<string, WorkItem>) {
    forall id :: id in items ==> id in items' && Descends(max, items[id], items'[id])
  }

  /** Any continuation of any queue. */
  method AnySteps(q: Queue, ops: seq<Op>)
    requires q.Valid()
    modifies q
    ensures q.Valid() && Descended(q.maxAttempts, old(q.items), q.items)
    ensures (forall i :: 0 <= i < |ops| ==> !ops[i].OpEnqueue?) ==>
              q.order == old(q.order) && q.items.Keys == old(q.items).Keys
    ensures ops == [] ==> q.items == old(q.items) && q.trace == old(q.trace)
  {
    hide ItemsOk, Rank, AfterExpiry, Exclusive, HoldsShow;
    var i := 0;
    while i < |ops|
      invariant 0 <= i <= |ops|
      invariant q.Valid() && Descended(q.maxAttempts, old(q.items), q.items)
      invariant (forall k :: 0 <= k < i ==> !ops[k].OpEnqueue?) ==>
                  q.order == old(q.order) && q.items.Keys == old(q.items).Keys
      invariant i == 0 ==> q.items == old(q.items) && q.trace == old(q.trace)
    {
      ghost var before := q.items;
      AnyStep(q, ops[i]);
      DescendedTransitive(q.maxAttempts, old(q.items), before, q.items);
      i := i + 1;
    }
  }

  method AnyStep(q: Queue, op: Op)
    requires q.Valid()
    modifies q
    ensures q.Valid() && Descended(q.maxAttempts, old(q.items), q.items)
    ensures !op.OpEnqueue? ==> q.order == old(q.order) && q.items.Keys == old(q.items).Keys
  {
    hide ItemsOk, Rank, AfterExpiry, Exclusive, HoldsShow;
    match op {
      case OpEnqueue(id, p) =>
        if id !in q.items {
          q.Enqueue(id, p);
        }
      case OpClaim(w, now) => var claimed, at := q.Claim(w, now);
      case OpHeartbeat(id, w, now) => var ok := q.Heartbeat(id, w, now);
      case OpComplete(id, w, r) => var ok := q.Complete(id, w, r);
      case OpFail(id, w, e) => var ok := q.Fail(id, w, e);
      case OpRecoverExpired(now) => var n := q.RecoverExpired(now);
    }
  }

  lemma DescendedTransitive(max: nat, a: map<string, WorkItem>, b: map<string, WorkItem>, c: map<string, WorkItem>)
    requires Descended(max, a, b) && Descended(max, b, c)
    ensures Descended(max, a, c)
  {
  }

  /** From the empty queue: every item has been claimed exactly `attempts` times and at most `max_attempts`, is
      FAILED only with all attempts used, and has had one accepted completion exactly when SUCCEEDED; and leases are
      exclusive. */
  method AllRuns(leaseSeconds: int, max: nat, ops: seq<Op>)
    returns (trace: seq<Event>, moves: seq<Move>, items: map<string, WorkItem>)
    ensures ItemsOk(max, items, trace) && Exclusive(moves) && HoldsShow(items, moves)
  {
    hide ItemsOk, Exclusive, HoldsShow;
    var q := new Queue(leaseSeconds, max);
    AnySteps(q, ops);
    trace, moves, items := q.trace, q.moves, q.items;
  }

  // ---------- Draining ----------

  function TotalRank(max: nat, order: seq<string>, items: map<string, WorkItem>): nat
    requires forall id :: id in order ==> id in items
  {
    if order == [] then 0
    else TotalRank(max, order[..|order| - 1], items) + Rank(max, items[order[|order| - 1]])
  }

  lemma {:induction false} TotalRankFalls(
    max: nat, order: seq<string>, a: map<string, WorkItem>, b: map<string, WorkItem>)
    requires forall id :: id in order ==> id in a && id in b && Descends(max, a[id], b[id])
    ensures TotalRank(max, order, b) <= TotalRank(max, order, a)
    ensures (exists id :: id in order && Rank(max, b[id]) < Rank(max, a[id])) ==>
              TotalRank(max, order, b) < TotalRank(max, order, a)
  {
    if order != [] {
      var front := order[..|order| - 1];
      TotalRankFalls(max, front, a, b);
      assert order == front + [order[|order| - 1]];
    }
  }

  /** What happens around one `run_once`: when it claims, how the handler ends, and what other threads do to the
      queue while the handler runs. */
  datatype Turn = Turn(now: int, succeeds: bool, text: string, meanwhile: seq<Op>)

  ghost predicate NoEnqueue(t: Turn) {
    forall i :: 0 <= i < |t.meanwhile| ==> !t.meanwhile[i].OpEnqueue?
  }

  ghost predicate NoneAvailable(items: map<string, WorkItem>, max: nat) {
    forall id :: id in items ==> !Available(items[id], max)
  }

  ghost predicate NoneRunning(items: map<string, WorkItem>) {
    forall id :: id in items ==> items[id].status != Running
  }

  /** How an undisturbed turn leaves its item. */
  predicate Handled(i: WorkItem, turn: Turn) {
    if turn.succeeds then i.status == Succeeded && i.result == Some(turn.text)
    else i.status in {Queued, Failed} && i.error == Some(turn.text)
  }

  /** What the worker reports when its handler has ended; the queue takes it only from the holder. */
  method Settle(q: Queue, worker: string, id: string, turn: Turn)
    requires q.Valid()
    modifies q
    ensures q.Valid() && Descended(q.maxAttempts, old(q.items), q.items)
    ensures q.order == old(q.order) && q.items.Keys == old(q.items).Keys
    ensures if Owns(old(q.items), id, worker)
            then id in q.items && Handled(q.items[id], turn) && q.items[id].status != Running
            else q.items == old(q.items)
    ensures forall x :: x in q.items && x != id ==> q.items[x] == old(q.items)[x]
  {
    hide ItemsOk, Rank, Exclusive, HoldsShow;
    if turn.succeeds {
      var ok := q.Complete(id, worker, turn.text);
    } else {
      var ok := q.Fail(id, worker, turn.text);
    }
  }

  /** `Worker.run_once`: false only when nothing was available; true costs rank, summed over the items there before,
      whatever other threads do meanwhile. */
  method RunOnce(q: Queue, worker: string, turn: Turn)
    returns (worked: bool, ghost id: string, ghost theirs: map<string, WorkItem>)
    requires q.Valid()
    modifies q
    ensures q.Valid() && Descended(q.maxAttempts, old(q.items), q.items)
    ensures NoEnqueue(turn) ==> q.order == old(q.order) && q.items.Keys == old(q.items).Keys
    ensures !worked ==> NoneAvailable(q.items, q.maxAttempts)
    ensures !worked ==> q.order == old(q.order) && q.items.Keys == old(q.items).Keys
    ensures worked ==>
              TotalRank(q.maxAttempts, old(q.order), q.items) < TotalRank(q.maxAttempts, old(q.order), old(q.items))
    ensures turn.meanwhile == [] && NoneRunning(old(q.items)) ==> NoneRunning(q.items)
    ensures worked && turn.meanwhile == [] ==> id in q.items && Handled(q.items[id], turn)
    ensures worked ==>
              if Owns(theirs, id, worker) then id in q.items && Handled(q.items[id], turn) else q.items == theirs
  {
    id, theirs := "", map[];
    hide ItemsOk, AfterExpiry, Rank, TotalRank, Descends, Exclusive, HoldsShow, Handled;
    ghost var before := q.items;
    ghost var at;
    var claimed;
    claimed, at := q.Claim(worker, turn.now);
    IdleStaysIdle(q.maxAttempts, before, turn.now);
    if claimed.None? {
      return false, id, theirs;
    }
    var item := claimed.value;
    id := item;
    ghost var mine := q.items;
    AnySteps(q, turn.meanwhile);
    theirs := q.items;
    Settle(q, worker, item, turn);
    DescendedTransitive(q.maxAttempts, mine, theirs, q.items);
    DescendedTransitive(q.maxAttempts, before, mine, q.items);
    RankNeverRises(q.maxAttempts, mine[id], q.items[id]);
    worked := true;
    assert id in old(q.order);
    TotalRankFalls(q.maxAttempts, old(q.order), before, q.items);
  }

  lemma RankNeverRises(max: nat, a: WorkItem, b: WorkItem)
    requires Descends(max, a, b)
    ensures Rank(max, b) <= Rank(max, a)
  {
  }

  /** Repeated `run_once` ends, after at most as many turns as the queue has rank, with nothing left to claim;
      without interference every item is then finished. */
  method Drain(q: Queue, worker: string, turns: nat -> Turn) returns (n: nat)
    requires q.Valid() && forall k :: NoEnqueue(turns(k))
    modifies q
    ensures q.Valid() && Descended(q.maxAttempts, old(q.items), q.items)
    ensures n <= TotalRank(q.maxAttempts, old(q.order), old(q.items))
    ensures q.maxAttempts >= 1 ==> forall id :: id in q.items ==> q.items[id].status != Queued
    ensures q.maxAttempts >= 1 && (forall k :: turns(k).meanwhile == []) && NoneRunning(old(q.items)) ==>
              forall id :: id in q.items ==> Over(q.items[id])
  {
    hide ItemsOk, Rank, TotalRank, NoEnqueue, Exclusive, HoldsShow;
    n := 0;
    var worked, first, others := RunOnce(q, worker, turns(0));
    TotalRankFalls(q.maxAttempts, q.order, old(q.items), q.items);
    while worked
      invariant q.Valid() && Descended(q.maxAttempts, old(q.items), q.items)
      invariant q.order == old(q.order) && q.items.Keys == old(q.items).Keys
      invariant n + (if worked then 1 else 0) + TotalRank(q.maxAttempts, q.order, q.items)
                <= TotalRank(q.maxAttempts, old(q.order), old(q.items))
      invariant !worked ==> NoneAvailable(q.items, q.maxAttempts)
      invariant (forall k :: turns(k).meanwhile == []) && NoneRunning(old(q.items)) ==> NoneRunning(q.items)
      decreases TotalRank(q.maxAttempts, q.order, q.items), worked
    {
      n := n + 1;
      ghost var before := q.items;
      ghost var id;
      worked, id, others := RunOnce(q, worker, turns(n));
      DescendedTransitive(q.maxAttempts, old(q.items), before, q.items);
      TotalRankFalls(q.maxAttempts, q.order, before, q.items);
    }
    QueuedIsAvailable(q.maxAttempts, q.items, q.trace);
  }

  lemma QueuedIsAvailable(max: nat, items: map<string, WorkItem>, trace: seq<Event>)
    requires ItemsOk(max, items, trace)
    ensures max >= 1 ==> forall id :: id in items && items[id].status == Queued ==> Available(items[id], max)
  {
    forall id | id in items && items[id].status == Queued && max >= 1 ensures Available(items[id], max) {
      assert ItemOk(max, items[id], Count(trace, Claimed(id)), Count(trace, Completed(id)));
    }
  }

  lemma IdleStaysIdle(max: nat, items: map<string, WorkItem>, now: int)
    ensures forall id :: id in items && items[id].status != Running ==> AfterExpiry(max, items[id], now) == items[id]
  {
  }
}
