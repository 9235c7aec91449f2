/** `ois/infrastructure/postgres_fencing.py`: worker leases as PostgreSQL rows with epochs, and a store whose every
    mutation checks the lease inside its own transaction. Each transaction is one step. */
module Fencing {
  import opened Prelude

  datatype Row = Row(worker: string, epoch: nat, expires: int)

  datatype Lease = Lease(exec: string, worker: string, epoch: nat, expires: int)

  datatype Command = Command(effect: string, exec: string, invocation: string, key: string)

  /** The mutations of `FencedPostgresDurableExecutionStore`. A result is put only if it succeeded or was cancelled. */
  datatype Mutation =
    | SaveCheckpoint(exec: string, state: string)
    | DeleteCheckpoint(exec: string)
    | PutResult(invocation: string, exec: string, result: string)
    | CommitCheckpointAndEffect(exec: string, state: string, command: Command)
    | CompleteEffect(command: Command, result: string)

  /** The executions whose rows a mutation may change. */
  function Targets(m: Mutation): set<string> {
    match m
    case SaveCheckpoint(e, _) => {e}
    case DeleteCheckpoint(e) => {e}
    case PutResult(_, e, _) => {e}
    case CommitCheckpointAndEffect(e, _, c) => {e, c.exec}
    case CompleteEffect(c, _) => {c.exec}
  }

  datatype Effect = Effect(command: Command, result: Option<string>)

  datatype Tables = Tables(
    checkpoints: map<string, string>,
    results: map<string, string>,
    effects: map<string, Effect>)

  predicate StagedAlready(effects: map<string, Effect>, c: Command) {
    exists x :: x in effects && effects[x].command.invocation == c.invocation
  }

  /** None where the mutation raises and its transaction is undone: a new command clashes with another one's id or
      key, or the effect to complete was not staged for its execution. */
  function Mutate(t: Tables, m: Mutation): Option<Tables> {
    match m
    case SaveCheckpoint(e, s) => Some(t.(checkpoints := t.checkpoints[e := s]))
    case DeleteCheckpoint(e) => Some(t.(checkpoints := t.checkpoints - {e}))
    case PutResult(i, _, r) => Some(if i in t.results then t else t.(results := t.results[i := r]))
    case CommitCheckpointAndEffect(e, s, c) =>
      var saved := t.(checkpoints := t.checkpoints[e := s]);
      if StagedAlready(t.effects, c) then Some(saved)
      else if c.effect in t.effects || exists x :: x in t.effects && t.effects[x].command.key == c.key then None
      else Some(saved.(effects := t.effects[c.effect := Effect(c, None)]))
    case CompleteEffect(c, r) =>
      if c.effect in t.effects && t.effects[c.effect].command.exec == c.exec
      then Some(t.(effects := t.effects[c.effect := t.effects[c.effect].(result := Some(r))])) else None
  }

  datatype Event =
    | Claimed(exec: string, worker: string, epoch: nat, until: int, wall: int)
    | Renewed(exec: string, worker: string, epoch: nat, until: int)
    | Released(exec: string)
    | Checked(lease: Lease, at: int)
    | Wrote(lease: Lease, mutation: Mutation, at: int)
    | WroteUnfenced(lease: Lease, mutation: Mutation, at: int)

  /** Row, worker, epoch and expiry must all agree; `now` is the transaction's time. */
  predicate Current(rows: map<string, Row>, l: Lease, now: int) {
    && l.exec in rows && rows[l.exec].worker == l.worker && rows[l.exec].epoch == l.epoch
    && rows[l.exec].expires > now
  }

  /** The row that a claim leaves behind, or None when another worker's lease has not expired. The database clock
      dates the new lease; the worker's own clock judges the old one. */
  function ClaimedRow(
    rows: map<string, Row>, exec: string, worker: string, now: int, wall: int, ttl: int): Option<Row> {
    if exec !in rows then Some(Row(worker, 1, now + ttl))
    else
      var r := rows[exec];
      var live := r.expires > wall;
      if live && r.worker != worker then None
      else Some(Row(worker, if live then r.epoch else r.epoch + 1, now + ttl))
  }

  // ---------- What a trace says about leases ----------

  datatype Grant = Grant(worker: string, epoch: nat)

  /** The claims on an execution since its row was last released. */
  function Tenure(trace: seq<Event>, exec: string): seq<Grant> {
    if trace == [] then []
    else
      var before := Tenure(trace[..|trace| - 1], exec);
      match trace[|trace| - 1]
      case Claimed(e, w, n, _, _) => if e == exec then before + [Grant(w, n)] else before
      case Released(e) => if e == exec then [] else before
      case _ => before
  }

  /** The expiry that the last claim or renewal set. */
  function Deadline(trace: seq<Event>, exec: string): int {
    if trace == [] then 0
    else
      match trace[|trace| - 1]
      case Claimed(e, _, _, until, _) => if e == exec then until else Deadline(trace[..|trace| - 1], exec)
      case Renewed(e, _, _, until) => if e == exec then until else Deadline(trace[..|trace| - 1], exec)
      case _ => Deadline(trace[..|trace| - 1], exec)
  }

  /** Within one row lifetime numbering starts at 1, never falls, and an epoch belongs to one worker. */
  ghost predicate EpochsOrdered(g: seq<Grant>) {
    && (g != [] ==> g[0].epoch == 1)
    && forall i, j :: 0 <= i < j < |g| ==>
         g[i].epoch <= g[j].epoch && (g[i].epoch == g[j].epoch ==> g[i].worker == g[j].worker)
  }

  /** A fenced write is by the latest claimant of the leased execution, within its deadline. */
  ghost predicate WriteAllowed(before: seq<Event>, l: Lease, at: int) {
    var g := Tenure(before, l.exec);
    g != [] && g[|g| - 1] == Grant(l.worker, l.epoch) && at < Deadline(before, l.exec)
  }

  /** A first claim has epoch 1. While the deadline lies ahead of the claimant's clock the row can only be claimed again
      by its holder, with the same epoch; afterwards by anybody, with the next. */
  ghost predicate ClaimAllowed(before: seq<Event>, ev: Event)
    requires ev.Claimed?
  {
    var g := Tenure(before, ev.exec);
    if g == [] then ev.epoch == 1
    else if ev.wall < Deadline(before, ev.exec) then g[|g| - 1] == Grant(ev.worker, ev.epoch)
    else ev.epoch == g[|g| - 1].epoch + 1
  }

  ghost predicate ClaimsAllowed(trace: seq<Event>) {
    forall i :: 0 <= i < |trace| && trace[i].Claimed? ==> ClaimAllowed(trace[..i], trace[i])
  }

  ghost predicate Fenced(trace: seq<Event>) {
    && ClaimsAllowed(trace)
    && (forall i :: 0 <= i < |trace| && (trace[i].Checked? || trace[i].Wrote?) ==>
          WriteAllowed(trace[..i], trace[i].lease, trace[i].at))
    && (forall i, e :: 0 <= i <= |trace| ==> EpochsOrdered(Tenure(trace[..i], e)))
  }

  /** A row exists while its tenure lasts and shows the last grant and the current deadline. */
  ghost predicate Mirrors(rows: map<string, Row>, trace: seq<Event>) {
    forall e ::
      var g := Tenure(trace, e);
      && (e in rows <==> g != [])
      && (e in rows ==> g[|g| - 1] == Grant(rows[e].worker, rows[e].epoch) && Deadline(trace, e) == rows[e].expires)
  }

  // ---------- What a trace says about the tables ----------

  predicate Writes(ev: Event) {
    ev.Wrote? || ev.WroteUnfenced?
  }

  /** The state last saved for an execution and not deleted since. */
  function StateOf(trace: seq<Event>, exec: string): Option<string> {
    if trace == [] then None
    else
      var before, ev := StateOf(trace[..|trace| - 1], exec), trace[|trace| - 1];
      if !Writes(ev) then before
      else
        match ev.mutation
        case SaveCheckpoint(e, s) => if e == exec then Some(s) else before
        case CommitCheckpointAndEffect(e, s, _) => if e == exec then Some(s) else before
        case DeleteCheckpoint(e) => if e == exec then None else before
        case _ => before
  }

  /** The first result put for an invocation. */
  function FirstResult(trace: seq<Event>, invocation: string): Option<string> {
    if trace == [] then None
    else
      var before, ev := FirstResult(trace[..|trace| - 1], invocation), trace[|trace| - 1];
      if before.None? && Writes(ev) && ev.mutation.PutResult? && ev.mutation.invocation == invocation
      then Some(ev.mutation.result) else before
  }

  /** The last result with which an effect was completed. */
  function LastCompletion(trace: seq<Event>, effect: string): Option<string> {
    if trace == [] then None
    else
      var ev := trace[|trace| - 1];
      if Writes(ev) && ev.mutation.CompleteEffect? && ev.mutation.command.effect == effect
      then Some(ev.mutation.result) else LastCompletion(trace[..|trace| - 1], effect)
  }

  predicate Stages(ev: Event, c: Command) {
    Writes(ev) && ev.mutation.CommitCheckpointAndEffect? && ev.mutation.command == c
  }

  ghost predicate WasStaged(trace: seq<Event>, c: Command) {
    exists i :: 0 <= i < |trace| && Stages(trace[i], c)
  }

  /** Each checkpoint is the last one saved or committed; each result is the first one put; each effect was committed
      together with a checkpoint, its invocation and key are its own, and it is completed as last reported; and no
      committed invocation is missing. */
  ghost predicate TablesShow(t: Tables, trace: seq<Event>) {
    CheckpointsShow(t, trace) && ResultsShow(t, trace) && EffectsShow(t.effects, trace)
  }

  ghost predicate CheckpointsShow(t: Tables, trace: seq<Event>) {
    forall e :: StateOf(trace, e) == if e in t.checkpoints then Some(t.checkpoints[e]) else None
  }

  ghost predicate ResultsShow(t: Tables, trace: seq<Event>) {
    forall i :: FirstResult(trace, i) == if i in t.results then Some(t.results[i]) else None
  }

  ghost predicate EffectsShow(effects: map<string, Effect>, trace: seq<Event>) {
    && CompletionsShow(effects, trace) && CommandsUnique(effects) && CommandsStaged(effects, trace)
    && NoneMissing(effects, trace)
  }

  ghost predicate CompletionsShow(effects: map<string, Effect>, trace: seq<Event>) {
    forall x :: LastCompletion(trace, x) == if x in effects then effects[x].result else None
  }

  ghost predicate CommandsUnique(effects: map<string, Effect>) {
    && (forall x :: x in effects ==> effects[x].command.effect == x)
    && (forall x, y :: x in effects && y in effects && x != y ==>
          effects[x].command.invocation != effects[y].command.invocation
          && effects[x].command.key != effects[y].command.key)
  }

  ghost predicate CommandsStaged(effects: map<string, Effect>, trace: seq<Event>) {
    forall x :: x in effects ==> WasStaged(trace, effects[x].command)
  }

  ghost predicate NoneMissing(effects: map<string, Effect>, trace: seq<Event>) {
    forall c :: WasStaged(trace, c) ==> StagedAlready(effects, c)
  }

  class LeaseStore {
    const ttl: int
    var rows: map<string, Row>
    var tables: Tables
    var trace: seq<Event>

    ghost predicate Valid()
      reads this
    {
      ttl > 0 && Fenced(trace) && Mirrors(rows, trace) && TablesShow(tables, trace)
    }

    constructor (ttl: int)
      requires ttl > 0
      ensures Valid() && trace == [] && rows == map[] && this.ttl == ttl
      ensures tables == Tables(map[], map[], map[])
    {
      this.ttl := ttl;
      rows, tables, trace := map[], Tables(map[], map[], map[]), [];
    }

    /** Fails only for an empty worker id; `lease` is None when another worker holds the row. */
    method Claim(exec: string, worker: string, now: int, wall: int) returns (ok: bool, lease: Option<Lease>)
      requires Valid()
      modifies this`rows, this`trace
      ensures Valid()
      ensures ok <==> worker != ""
      ensures lease.None? ==> rows == old(rows) && trace == old(trace)
      ensures lease.None? <==>
              !ok || (exec in old(rows) && old(rows)[exec].worker != worker && wall < old(rows)[exec].expires)
      ensures lease.Some? ==>
                var epoch := if exec !in old(rows) then 1
                             else if wall < old(rows)[exec].expires then old(rows)[exec].epoch
                             else old(rows)[exec].epoch + 1;
                && lease.value == Lease(exec, worker, epoch, now + ttl)
                && rows == old(rows)[exec := Row(worker, epoch, now + ttl)]
                && ClaimedRow(old(rows), exec, worker, now, wall, ttl) == Some(rows[exec])
                && trace == old(trace) + [Claimed(exec, worker, epoch, now + ttl, wall)]
    {
      hide Fenced, Mirrors, TablesShow;
      if worker == "" {
        return false, None;
      }
      ok, lease := true, None;
      var epoch := 1;
      if exec in rows {
        var row := rows[exec];
        if row.expires > wall && row.worker != worker {
          return;
        }
        epoch := if row.worker == worker && row.expires > wall then row.epoch else row.epoch + 1;
      }
      QuietShows(tables, trace, Claimed(exec, worker, epoch, now + ttl, wall));
      ClaimKeeps(rows, trace, exec, worker, now, wall, ttl);
      rows := rows[exec := Row(worker, epoch, now + ttl)];
      trace := trace + [Claimed(exec, worker, epoch, now + ttl, wall)];
      lease := Some(Lease(exec, worker, epoch, now + ttl));
    }

    method Renew(lease: Lease, now: int) returns (renewed: Option<Lease>)
      requires Valid()
      modifies this`rows, this`trace
      ensures Valid()
      ensures renewed.Some? <==> Current(old(rows), lease, now)
      ensures renewed.None? ==> rows == old(rows) && trace == old(trace)
      ensures renewed.Some? ==>
                && renewed.value == lease.(expires := now + ttl)
                && rows == old(rows)[lease.exec := Row(lease.worker, lease.epoch, now + ttl)]
                && trace == old(trace) + [Renewed(lease.exec, lease.worker, lease.epoch, now + ttl)]
    {
      if !Current(rows, lease, now) {
        return None;
      }
      hide Fenced, Mirrors, TablesShow;
      RenewKeeps(rows, tables, trace, lease, now + ttl);
      rows := rows[lease.exec := rows[lease.exec].(expires := now + ttl)];
      trace := trace + [Renewed(lease.exec, lease.worker, lease.epoch, now + ttl)];
      renewed := Some(lease.(expires := now + ttl));
    }

    /** Deletes the row if worker and epoch still match, expired or not. */
    method Release(lease: Lease)
      requires Valid()
      modifies this`rows, this`trace
      ensures Valid()
      ensures
        var hit := lease.exec in old(rows) && old(rows)[lease.exec].worker == lease.worker &&
          old(rows)[lease.exec].epoch == lease.epoch;
        && rows == (if hit then old(rows) - {lease.exec} else old(rows))
        && trace == (if hit then old(trace) + [Released(lease.exec)] else old(trace))
    {
      if lease.exec in rows && rows[lease.exec].worker == lease.worker && rows[lease.exec].epoch == lease.epoch {
        hide Fenced, Mirrors, TablesShow;
        QuietShows(tables, trace, Released(lease.exec));
        QuietKeeps(rows, trace, Released(lease.exec));
        rows := rows - {lease.exec};
        trace := trace + [Released(lease.exec)];
      }
    }

    /** `assert_current` in a transaction of its own. */
    method AssertCurrent(lease: Lease, now: int) returns (ok: bool)
      requires Valid()
      modifies this`trace
      ensures Valid()
      ensures ok <==> Current(rows, lease, now)
      ensures trace == if ok then old(trace) + [Checked(lease, now)] else old(trace)
    {
      ok := Current(rows, lease, now);
      if ok {
        hide Fenced, Mirrors, Current, TablesShow;
        QuietShows(tables, trace, Checked(lease, now));
        QuietKeeps(rows, trace, Checked(lease, now));
        trace := trace + [Checked(lease, now)];
      }
    }

    /** A mutation of the fenced store: lease check and change in one transaction, or neither. */
    method FencedWrite(lease: Lease, m: Mutation, now: int) returns (ok: bool)
      requires Valid()
      modifies this`tables, this`trace
      ensures Valid()
      ensures ok <==> Current(rows, lease, now) && Mutate(old(tables), m).Some?
      ensures tables == if ok then Mutate(old(tables), m).value else old(tables)
      ensures trace == if ok then old(trace) + [Wrote(lease, m, now)] else old(trace)
    {
      ok := Current(rows, lease, now) && Mutate(tables, m).Some?;
      if ok {
        hide Fenced, Mirrors, Current, Mutate, TablesShow;
        WriteShows(tables, trace, Wrote(lease, m, now));
        QuietKeeps(rows, trace, Wrote(lease, m, now));
        tables := Mutate(tables, m).value;
        trace := trace + [Wrote(lease, m, now)];
      }
    }

    /** The write half of `ExecutionRuntime._save_checkpoint`, whose check ran in an earlier transaction. */
    method UnfencedWrite(lease: Lease, m: Mutation, now: int) returns (ok: bool)
      requires Valid()
      modifies this`tables, this`trace
      ensures Valid()
      ensures ok <==> Mutate(old(tables), m).Some?
      ensures tables == if ok then Mutate(old(tables), m).value else old(tables)
      ensures trace == if ok then old(trace) + [WroteUnfenced(lease, m, now)] else old(trace)
    {
      ok := Mutate(tables, m).Some?;
      if ok {
        hide Fenced, Mirrors, Mutate, TablesShow;
        WriteShows(tables, trace, WroteUnfenced(lease, m, now));
        QuietKeeps(rows, trace, WroteUnfenced(lease, m, now));
        tables := Mutate(tables, m).value;
        trace := trace + [WroteUnfenced(lease, m, now)];
      }
    }
  }

  lemma QuietStep(trace: seq<Event>, ev: Event)
    requires Fenced(trace) && !ev.Claimed? && (ev.Checked? || ev.Wrote? ==> WriteAllowed(trace, ev.lease, ev.at))
    ensures Fenced(trace + [ev])
    ensures forall e :: Tenure(trace + [ev], e) == if ev == Released(e) then [] else Tenure(trace, e)
    ensures forall e :: Deadline(trace + [ev], e) == if ev.Renewed? && ev.exec == e then ev.until
              else Deadline(trace, e)
  {
    Prefixes(trace, ev);
    forall i, e | 0 <= i <= |trace + [ev]| ensures EpochsOrdered(Tenure((trace + [ev])[..i], e)) {
      assert EpochsOrdered(Tenure(trace[..if i <= |trace| then i else |trace|], e));
    }
  }

  lemma OrderedAppend(g: seq<Grant>, x: Grant)
    requires EpochsOrdered(g)
    requires if g == [] then x.epoch == 1 else g[|g| - 1].epoch < x.epoch || g[|g| - 1] == x
    ensures EpochsOrdered(g + [x])
  {
  }

  lemma ClaimStep(trace: seq<Event>, ev: Event)
    requires Fenced(trace) && ev.Claimed? && ClaimAllowed(trace, ev)
    ensures
      var t, exec := trace + [ev], ev.exec;
      && Fenced(t)
      && (forall e ::
            Tenure(t, e) == if e == exec then Tenure(trace, e) + [Grant(ev.worker, ev.epoch)] else Tenure(trace, e))
      && (forall e :: Deadline(t, e) == if e == exec then ev.until else Deadline(trace, e))
  {
    Prefixes(trace, ev);
    OrderedAppend(Tenure(trace, ev.exec), Grant(ev.worker, ev.epoch)) by {
      assert EpochsOrdered(Tenure(trace[..|trace|], ev.exec));
    }
    hide EpochsOrdered, WriteAllowed, ClaimAllowed;
    forall i, e | 0 <= i <= |trace + [ev]| ensures EpochsOrdered(Tenure((trace + [ev])[..i], e)) {
      assert EpochsOrdered(Tenure(trace[..if i <= |trace| then i else |trace|], e));
    }
  }

  /** What the row decides is what the trace decides. */
  lemma ClaimRefusedExactly(
    rows: map<string, Row>, trace: seq<Event>, exec: string, worker: string, now: int, wall: int, ttl: int)
    requires Mirrors(rows, trace)
    ensures
      var g := Tenure(trace, exec);
      ClaimedRow(rows, exec, worker, now, wall, ttl).None? <==>
      g != [] && g[|g| - 1].worker != worker && wall < Deadline(trace, exec)
  {
    hide Tenure, Deadline;
  }

  lemma RowsAllow(
    rows: map<string, Row>, trace: seq<Event>, exec: string, worker: string, now: int, wall: int, ttl: int)
    requires Mirrors(rows, trace) && ClaimedRow(rows, exec, worker, now, wall, ttl).Some?
    ensures
      var r := ClaimedRow(rows, exec, worker, now, wall, ttl).value;
      ClaimAllowed(trace, Claimed(exec, r.worker, r.epoch, r.expires, wall))
  {
    hide Tenure, Deadline;
  }

  lemma ClaimKeeps(
    rows: map<string, Row>, trace: seq<Event>, exec: string, worker: string, now: int, wall: int, ttl: int)
    requires Fenced(trace) && Mirrors(rows, trace)
    requires ClaimedRow(rows, exec, worker, now, wall, ttl).Some?
    ensures
      var r := ClaimedRow(rows, exec, worker, now, wall, ttl).value;
      var t := trace + [Claimed(exec, r.worker, r.epoch, r.expires, wall)];
      Fenced(t) && Mirrors(rows[exec := r], t)
  {
    hide Fenced, Tenure, Deadline, ClaimAllowed, ClaimedRow, Mirrors;
    RowsAllow(rows, trace, exec, worker, now, wall, ttl);
    var r := ClaimedRow(rows, exec, worker, now, wall, ttl).value;
    var ev := Claimed(exec, r.worker, r.epoch, r.expires, wall);
    ClaimStep(trace, ev);
    ClaimMirrors(rows, trace, ev);
  }

  lemma ClaimMirrors(rows: map<string, Row>, trace: seq<Event>, ev: Event)
    requires Mirrors(rows, trace) && ev.Claimed?
    requires
      forall e ::
        Tenure(trace + [ev], e) ==
        if e == ev.exec then Tenure(trace, e) + [Grant(ev.worker, ev.epoch)] else Tenure(trace, e)
    requires forall e :: Deadline(trace + [ev], e) == if e == ev.exec then ev.until else Deadline(trace, e)
    ensures Mirrors(rows[ev.exec := Row(ev.worker, ev.epoch, ev.until)], trace + [ev])
  {
    hide Tenure, Deadline;
  }

  function RowsAfter(rows: map<string, Row>, ev: Event): map<string, Row> {
    match ev
    case Claimed(e, w, n, until, _) => rows[e := Row(w, n, until)]
    case Renewed(e, w, n, until) => rows[e := Row(w, n, until)]
    case Released(e) => rows - {e}
    case _ => rows
  }

  lemma RenewKeeps(rows: map<string, Row>, tables: Tables, trace: seq<Event>, l: Lease, until: int)
    requires Fenced(trace) && Mirrors(rows, trace) && TablesShow(tables, trace)
    requires l.exec in rows && rows[l.exec].worker == l.worker && rows[l.exec].epoch == l.epoch
    ensures
      var t := trace + [Renewed(l.exec, l.worker, l.epoch, until)];
      && Fenced(t) && Mirrors(rows[l.exec := rows[l.exec].(expires := until)], t) && TablesShow(tables, t)
  {
    var ev := Renewed(l.exec, l.worker, l.epoch, until);
    assert RowsAfter(rows, ev) == rows[l.exec := rows[l.exec].(expires := until)];
    hide Fenced, Mirrors, TablesShow, RowsAfter;
    QuietShows(tables, trace, ev);
    QuietKeeps(rows, trace, ev);
  }

  lemma MayWrite(rows: map<string, Row>, trace: seq<Event>, l: Lease, at: int)
    requires Mirrors(rows, trace) && Current(rows, l, at)
    ensures WriteAllowed(trace, l, at)
  {
    hide Tenure, Deadline;
  }

  lemma QuietKeeps(rows: map<string, Row>, trace: seq<Event>, ev: Event)
    requires Fenced(trace) && Mirrors(rows, trace) && !ev.Claimed?
    requires ev.Checked? || ev.Wrote? ==> Current(rows, ev.lease, ev.at)
    requires ev.Renewed? ==> ev.exec in rows && rows[ev.exec].worker == ev.worker && rows[ev.exec].epoch == ev.epoch
    ensures Fenced(trace + [ev]) && Mirrors(RowsAfter(rows, ev), trace + [ev])
  {
    hide Fenced, Tenure, Deadline, WriteAllowed, Current;
    if ev.Checked? || ev.Wrote? {
      MayWrite(rows, trace, ev.lease, ev.at);
    }
    QuietStep(trace, ev);
    MirrorsStep(rows, trace, ev);
  }

  lemma MirrorsStep(rows: map<string, Row>, trace: seq<Event>, ev: Event)
    requires Mirrors(rows, trace) && !ev.Claimed?
    requires ev.Renewed? ==> ev.exec in rows && rows[ev.exec].worker == ev.worker && rows[ev.exec].epoch == ev.epoch
    requires forall e :: Tenure(trace + [ev], e) == if ev == Released(e) then [] else Tenure(trace, e)
    requires forall e :: Deadline(trace + [ev], e) == if ev.Renewed? && ev.exec == e then ev.until
               else Deadline(trace, e)
    ensures Mirrors(RowsAfter(rows, ev), trace + [ev])
  {
    hide Tenure, Deadline;
  }

  lemma StagedGrows(trace: seq<Event>, ev: Event, c: Command)
    ensures WasStaged(trace + [ev], c) <==> WasStaged(trace, c) || Stages(ev, c)
  {
    var t := trace + [ev];
    assert t[|trace|] == ev;
    if WasStaged(trace, c) {
      var i :| 0 <= i < |trace| && Stages(trace[i], c);
      assert t[i] == trace[i];
    }
  }

  lemma QuietShows(t: Tables, trace: seq<Event>, ev: Event)
    requires TablesShow(t, trace) && !Writes(ev)
    ensures TablesShow(t, trace + [ev])
  {
    Prefixes(trace, ev);
    forall c ensures WasStaged(trace + [ev], c) <==> WasStaged(trace, c) {
      StagedGrows(trace, ev, c);
    }
    hide WasStaged;
  }

  lemma CompletionsStep(t: Tables, trace: seq<Event>, ev: Event)
    requires CompletionsShow(t.effects, trace) && Writes(ev) && Mutate(t, ev.mutation).Some?
    ensures CompletionsShow(Mutate(t, ev.mutation).value.effects, trace + [ev])
  {
    Prefixes(trace, ev);
    hide StagedAlready;
  }

  lemma UniqueStep(t: Tables, m: Mutation)
    requires CommandsUnique(t.effects) && Mutate(t, m).Some?
    ensures CommandsUnique(Mutate(t, m).value.effects)
  {
  }

  lemma StagedStep(t: Tables, trace: seq<Event>, ev: Event)
    requires CommandsStaged(t.effects, trace) && NoneMissing(t.effects, trace)
    requires Writes(ev) && Mutate(t, ev.mutation).Some?
    ensures
      var after := Mutate(t, ev.mutation).value.effects;
      CommandsStaged(after, trace + [ev]) && NoneMissing(after, trace + [ev])
  {
    forall c ensures WasStaged(trace + [ev], c) <==> WasStaged(trace, c) || Stages(ev, c) {
      StagedGrows(trace, ev, c);
    }
    hide WasStaged, StagedAlready, Mutate;
    StagedStay(t, ev.mutation);
    CommandsFrom(t, ev.mutation);
  }

  lemma CommandsFrom(t: Tables, m: Mutation)
    requires Mutate(t, m).Some?
    ensures
      var after := Mutate(t, m).value.effects;
      forall x :: x in after ==>
        || (x in t.effects && after[x].command == t.effects[x].command)
        || (m.CommitCheckpointAndEffect? && after[x].command == m.command)
  {
  }

  /** The effects after a write, and what the trace says about them. */
  lemma EffectStep(t: Tables, trace: seq<Event>, ev: Event)
    requires EffectsShow(t.effects, trace) && Writes(ev) && Mutate(t, ev.mutation).Some?
    ensures EffectsShow(Mutate(t, ev.mutation).value.effects, trace + [ev])
  {
    hide CompletionsShow, CommandsUnique, CommandsStaged, NoneMissing, Mutate;
    CompletionsStep(t, trace, ev);
    UniqueStep(t, ev.mutation);
    StagedStep(t, trace, ev);
  }

  lemma StagedStay(t: Tables, m: Mutation)
    requires Mutate(t, m).Some?
    ensures
      var after := Mutate(t, m).value.effects;
      && (forall c :: StagedAlready(t.effects, c) ==> StagedAlready(after, c))
      && (m.CommitCheckpointAndEffect? ==> StagedAlready(after, m.command))
  {
    var after := Mutate(t, m).value.effects;
    forall c | StagedAlready(t.effects, c) ensures StagedAlready(after, c) {
      var x :| x in t.effects && t.effects[x].command.invocation == c.invocation;
      assert x in after && after[x].command == t.effects[x].command;
    }
    if m.CommitCheckpointAndEffect? && !StagedAlready(t.effects, m.command) {
      assert after[m.command.effect].command == m.command;
    }
  }

  lemma CheckpointStep(t: Tables, trace: seq<Event>, ev: Event)
    requires CheckpointsShow(t, trace) && Writes(ev) && Mutate(t, ev.mutation).Some?
    ensures CheckpointsShow(Mutate(t, ev.mutation).value, trace + [ev])
  {
    Prefixes(trace, ev);
    hide StagedAlready;
  }

  lemma ResultStep(t: Tables, trace: seq<Event>, ev: Event)
    requires ResultsShow(t, trace) && Writes(ev) && Mutate(t, ev.mutation).Some?
    ensures ResultsShow(Mutate(t, ev.mutation).value, trace + [ev])
  {
    Prefixes(trace, ev);
    hide StagedAlready;
  }

  lemma WriteShows(t: Tables, trace: seq<Event>, ev: Event)
    requires TablesShow(t, trace) && Writes(ev) && Mutate(t, ev.mutation).Some?
    ensures TablesShow(Mutate(t, ev.mutation).value, trace + [ev])
  {
    hide Mutate, CheckpointsShow, ResultsShow, EffectsShow;
    EffectStep(t, trace, ev);
    CheckpointStep(t, trace, ev);
    ResultStep(t, trace, ev);
  }

  // ---------- Every run ----------

  datatype Op =
    | OpClaim(exec: string, worker: string, now: int, wall: int)
    | OpRenew(lease: Lease, now: int)
    | OpRelease(lease: Lease)
    | OpCheck(lease: Lease, now: int)
    | OpWrite(lease: Lease, mutation: Mutation, now: int)
    | OpUnfencedWrite(lease: Lease, mutation: Mutation, now: int)

  /** Any interleaving of any number of workers, with any clock readings and any lease objects, current, stale or
      invented: fenced writes are always by the latest claimant within its deadline, and the tables show what was
      written. */
  method AllRuns(ttl: int, ops: seq<Op>) returns (trace: seq<Event>, tables: Tables)
    requires ttl > 0
    ensures Fenced(trace) && TablesShow(tables, trace)
  {
    hide Fenced, Mirrors, TablesShow, Mutate;
    var store := new LeaseStore(ttl);
    for i := 0 to |ops|
      invariant store.Valid() && fresh(store)
    {
      var ok, lease;
      match ops[i] {
        case OpClaim(e, w, now, wall) => ok, lease := store.Claim(e, w, now, wall);
        case OpRenew(l, now) => lease := store.Renew(l, now);
        case OpRelease(l) => store.Release(l);
        case OpCheck(l, now) => ok := store.AssertCurrent(l, now);
        case OpWrite(l, m, now) => ok := store.FencedWrite(l, m, now);
        case OpUnfencedWrite(l, m, now) => ok := store.UnfencedWrite(l, m, now);
      }
    }
    trace, tables := store.trace, store.tables;
  }

  /** The claim behind the last grant of a tenure: nothing claimed or released the row after it. */
  lemma {:induction false} LatestClaim(trace: seq<Event>, k: nat, exec: string) returns (m: nat)
    requires k <= |trace| && Tenure(trace[..k], exec) != []
    ensures m < k && trace[m].Claimed? && trace[m].exec == exec
    ensures var g := Tenure(trace[..k], exec); g[|g| - 1] == Grant(trace[m].worker, trace[m].epoch)
    ensures forall i :: m < i < k ==> !(trace[i].Claimed? && trace[i].exec == exec) && trace[i] != Released(exec)
  {
    assert k > 0 && trace[..k][..k - 1] == trace[..k - 1];
    if trace[k - 1].Claimed? && trace[k - 1].exec == exec {
      m := k - 1;
    } else {
      m := LatestClaim(trace, k - 1, exec);
    }
  }

  /** A worker displaced by another claimant must claim again before a fenced write of its can succeed. */
  lemma DisplacedMustReclaim(trace: seq<Event>, j: nat, k: nat) returns (m: nat)
    requires Fenced(trace) && j < k < |trace|
    requires trace[k].Wrote? && trace[j].Claimed? && trace[j].exec == trace[k].lease.exec
    requires trace[j].worker != trace[k].lease.worker
    ensures j < m < k && trace[m].Claimed? && trace[m].exec == trace[k].lease.exec
    ensures trace[m].worker == trace[k].lease.worker && trace[m].epoch == trace[k].lease.epoch
  {
    assert WriteAllowed(trace[..k], trace[k].lease, trace[k].at);
    m := LatestClaim(trace, k, trace[k].lease.exec);
  }

  /** A claim stays in the tenure until a release. */
  lemma {:induction false} ClaimStays(trace: seq<Event>, i: nat, j: nat) returns (p: nat)
    requires i < j <= |trace| && trace[i].Claimed?
    requires forall k :: i < k < j ==> trace[k] != Released(trace[i].exec)
    ensures var g := Tenure(trace[..j], trace[i].exec); p < |g| && g[p] == Grant(trace[i].worker, trace[i].epoch)
    ensures j > i + 1 && trace[j - 1].Claimed? && trace[j - 1].exec == trace[i].exec ==>
              p < |Tenure(trace[..j], trace[i].exec)| - 1
  {
    assert trace[..j][..j - 1] == trace[..j - 1];
    if j == i + 1 {
      p := |Tenure(trace[..i], trace[i].exec)|;
    } else {
      p := ClaimStays(trace, i, j - 1);
    }
  }

  /** Between two claims of one execution, numbering falls or an epoch changes hands only across a release. */
  lemma NumberingRestartsOnlyAfterRelease(trace: seq<Event>, i: nat, j: nat)
    requires Fenced(trace) && i < j < |trace| && trace[i].Claimed? && trace[j].Claimed?
    requires trace[i].exec == trace[j].exec
    requires trace[j].epoch < trace[i].epoch || (trace[j].epoch == trace[i].epoch && trace[j].worker != trace[i].worker)
    ensures exists k :: i < k < j && trace[k] == Released(trace[i].exec)
  {
    hide ClaimsAllowed;
    if forall k :: i < k < j ==> trace[k] != Released(trace[i].exec) {
      assert forall k :: i < k < j + 1 ==> trace[k] != Released(trace[i].exec);
      var p := ClaimStays(trace, i, j + 1);
      assert trace[..j + 1][..j] == trace[..j];
      var g := Tenure(trace[..j + 1], trace[i].exec);
      assert EpochsOrdered(g) && g[|g| - 1] == Grant(trace[j].worker, trace[j].epoch);
      assert p < |g| - 1;
    }
  }

  /** A live lease is never taken from its holder: where two claims by different workers follow each other without a
      release, the second claimant's clock has reached the deadline, as last claimed or renewed; and its epoch is the
      next. With other claims in between, that holds of one of them. */
  lemma {:induction false} TakeoverWaitsForTheDeadline(trace: seq<Event>, i: nat, j: nat) returns (m: nat)
    requires Fenced(trace) && i < j < |trace| && trace[i].Claimed? && trace[j].Claimed?
    requires trace[i].exec == trace[j].exec && trace[i].worker != trace[j].worker
    requires forall k :: i < k < j ==> trace[k] != Released(trace[i].exec)
    ensures i < m <= j && trace[m].Claimed? && trace[m].exec == trace[i].exec
    ensures trace[m].wall >= Deadline(trace[..m], trace[i].exec)
    ensures (forall k :: i < k < j ==> !Marks(trace[k], trace[i].exec)) ==>
              m == j && trace[j].epoch == trace[i].epoch + 1
  {
    hide Deadline;
    var p := ClaimStays(trace, i, j);
    var n := LatestClaim(trace, j, trace[i].exec);
    assert ClaimAllowed(trace[..j], trace[j]);
    if trace[n].worker != trace[j].worker {
      m := j;
    } else {
      m := TakeoverWaitsForTheDeadline(trace, i, n);
    }
  }

  // ---------- What is not fenced, and exactly when ----------

  /** A mutation changes checkpoints and effects of its targets only. */
  lemma ChangesOnlyTargets(t: Tables, m: Mutation)
    requires Mutate(t, m).Some?
    ensures
      var t' := Mutate(t, m).value;
      && (forall e :: e !in Targets(m) ==>
            (e in t'.checkpoints <==> e in t.checkpoints)
            && (e in t.checkpoints ==> t'.checkpoints[e] == t.checkpoints[e]))
      && (forall x :: x in t'.effects && t'.effects[x].command.exec !in Targets(m) ==>
            x in t.effects && t'.effects[x] == t.effects[x])
      && (forall x :: x in t.effects ==> x in t'.effects && t'.effects[x].command == t.effects[x].command)
      && (t'.results != t.results ==> m.PutResult?)
  {
    hide StagedAlready;
  }

  /** The lease is current for every execution the mutation may change. */
  ghost predicate TargetsHeld(rows: map<string, Row>, l: Lease, m: Mutation, at: int) {
    forall e :: e in Targets(m) ==> Current(rows, l.(exec := e), at)
  }

  /** Passing the fence is enough, whatever else the lease table holds. */
  ghost predicate FenceProtects(l: Lease, m: Mutation, at: int) {
    forall rows :: Current(rows, l, at) ==> TargetsHeld(rows, l, m, at)
  }

  /** The store never compares the lease's execution with the one it writes: the fence protects what a mutation
      changes exactly when that is the leased execution and nothing else. */
  lemma FenceProtectsExactlyItsOwnExecution(l: Lease, m: Mutation, at: int)
    ensures FenceProtects(l, m, at) <==> Targets(m) == {l.exec}
  {
    var rows := map[l.exec := Row(l.worker, l.epoch, at + 1)];
    assert Current(rows, l, at);
    if FenceProtects(l, m, at) {
      forall e | e in Targets(m) ensures e == l.exec {
        assert Current(rows, l.(exec := e), at);
      }
      assert Targets(m) != {};
    }
  }

  /** So a fenced write whose lease names what it changes is by the latest claimant of everything it changes. */
  lemma OwnTargetIsWrittenByItsLatestClaimant(trace: seq<Event>, k: nat, e: string)
    requires Fenced(trace) && k < |trace| && trace[k].Wrote?
    requires Targets(trace[k].mutation) == {trace[k].lease.exec} && e in Targets(trace[k].mutation)
    ensures WriteAllowed(trace[..k], trace[k].lease.(exec := e), trace[k].at)
  {
    assert trace[k].lease.(exec := e) == trace[k].lease;
  }

  /** Otherwise it need not be: with a lease on "a", a worker overwrites the checkpoint of "b", which another worker
      has leased. */
  method ForeignExecutionIsOverwritten() returns (trace: seq<Event>, state: string)
    ensures Fenced(trace) && |trace| == 3 && trace[2].Wrote?
    ensures trace[1] == Claimed("b", "v", 1, 10, 0) && trace[2].lease.worker == "w"
    ensures trace[2].mutation == SaveCheckpoint("b", "stale") && state == "stale"
    ensures !WriteAllowed(trace[..2], trace[2].lease.(exec := "b"), trace[2].at)
  {
    hide Fenced, Mirrors;
    var s := new LeaseStore(10);
    var ok, mine := s.Claim("a", "w", 0, 0);
    var ok', theirs := s.Claim("b", "v", 0, 0);
    ok := s.FencedWrite(mine.value, SaveCheckpoint("b", "stale"), 1);
    trace, state := s.trace, s.tables.checkpoints["b"];
    assert trace[..2] == [Claimed("a", "w", 1, 10, 0), Claimed("b", "v", 1, 10, 0)];
    assert trace[..2][|trace[..2]| - 1] == Claimed("b", "v", 1, 10, 0);
  }

  predicate Marks(ev: Event, exec: string) {
    (ev.Claimed? && ev.exec == exec) || ev == Released(exec)
  }

  /** Nobody claims or releases the execution from position `a` to before `b`. */
  ghost predicate Untouched(trace: seq<Event>, exec: string, a: nat, b: nat)
    requires b <= |trace|
  {
    forall i :: a <= i < b ==> !Marks(trace[i], exec)
  }

  predicate GrantsTo(ev: Event, l: Lease) {
    ev.Claimed? && ev.exec == l.exec && ev.worker == l.worker && ev.epoch == l.epoch
  }

  /** The grant of `l` is made between `i` and `k`, and nobody claims or releases after it. */
  ghost predicate GrantedSince(trace: seq<Event>, l: Lease, i: nat, k: nat)
    requires k <= |trace|
  {
    exists m :: i <= m < k && GrantsTo(trace[m], l) && Untouched(trace, l.exec, m + 1, k)
  }

  lemma {:induction false} UntouchedKeepsTenure(trace: seq<Event>, exec: string, a: nat, b: nat)
    requires a <= b <= |trace| && Untouched(trace, exec, a, b)
    ensures Tenure(trace[..b], exec) == Tenure(trace[..a], exec)
  {
    if a < b {
      assert trace[..b][..b - 1] == trace[..b - 1] && !Marks(trace[b - 1], exec);
      UntouchedKeepsTenure(trace, exec, a, b - 1);
    }
  }

  ghost predicate LatestIs(before: seq<Event>, l: Lease) {
    var g := Tenure(before, l.exec);
    g != [] && g[|g| - 1] == Grant(l.worker, l.epoch)
  }

  /** From position `i` on, a lease is the latest grant exactly when it was at `i` and nothing happened since, or it
      was granted since and nothing happened after that. */
  lemma LatestExactly(trace: seq<Event>, l: Lease, i: nat, k: nat)
    requires i <= k <= |trace|
    ensures LatestIs(trace[..k], l) <==>
            (Untouched(trace, l.exec, i, k) && LatestIs(trace[..i], l)) || GrantedSince(trace, l, i, k)
  {
    if Untouched(trace, l.exec, i, k) {
      UntouchedKeepsTenure(trace, l.exec, i, k);
    }
    if GrantedSince(trace, l, i, k) {
      var m :| i <= m < k && GrantsTo(trace[m], l) && Untouched(trace, l.exec, m + 1, k);
      UntouchedKeepsTenure(trace, l.exec, m + 1, k);
      assert trace[..m + 1][..m] == trace[..m];
    }
    if LatestIs(trace[..k], l) {
      var m := LatestClaim(trace, k, l.exec);
      assert Untouched(trace, l.exec, m + 1, k) && GrantsTo(trace[m], l);
    }
  }

  /** `ExecutionRuntime._save_checkpoint` checks in one transaction and writes in the next. The late write is one
      that the fence would allow exactly when the lease has not run out and, since the check, either nobody claimed or
      released the execution or the same grant was made again. */
  lemma CheckedWriteIsFencedExactly(trace: seq<Event>, i: nat, k: nat)
    requires Fenced(trace) && i < k < |trace| && trace[i].Checked? && trace[k].WroteUnfenced?
    requires trace[k].lease == trace[i].lease
    ensures
      var l := trace[k].lease;
      WriteAllowed(trace[..k], l, trace[k].at) <==>
      && trace[k].at < Deadline(trace[..k], l.exec)
      && (Untouched(trace, l.exec, i, k) || GrantedSince(trace, l, i, k))
  {
    hide Tenure, Deadline;
    LatestExactly(trace, trace[k].lease, i, k);
    assert WriteAllowed(trace[..i], trace[i].lease, trace[i].at);
  }

  /** With no release in between, that is: no claim by another grant, and the deadline not passed. */
  lemma CheckedWriteIsFencedUnlessDisplaced(trace: seq<Event>, i: nat, k: nat)
    requires Fenced(trace) && i < k < |trace| && trace[i].Checked? && trace[k].WroteUnfenced?
    requires trace[k].lease == trace[i].lease && forall j :: i < j < k ==> trace[j] != Released(trace[i].lease.exec)
    ensures
      var l := trace[k].lease;
      WriteAllowed(trace[..k], l, trace[k].at) <==>
      && trace[k].at < Deadline(trace[..k], l.exec)
      && forall j :: i < j < k && trace[j].Claimed? && trace[j].exec == l.exec ==> GrantsTo(trace[j], l)
  {
    var l := trace[k].lease;
    CheckedWriteIsFencedExactly(trace, i, k);
    if WriteAllowed(trace[..k], l, trace[k].at) {
      forall j | i < j < k && trace[j].Claimed? && trace[j].exec == l.exec ensures GrantsTo(trace[j], l) {
        LatestKeepsItsEpoch(trace, i, j, k);
      }
    } else if trace[k].at < Deadline(trace[..k], l.exec) {
      assert !Untouched(trace, l.exec, i, k);
      var m := LastMark(trace, l.exec, i, k);
      assert trace[m].Claimed?;
    }
  }

  lemma {:induction false} LastMark(trace: seq<Event>, exec: string, i: nat, k: nat) returns (m: nat)
    requires i <= k <= |trace| && !Untouched(trace, exec, i, k)
    ensures i <= m < k && Marks(trace[m], exec) && Untouched(trace, exec, m + 1, k)
  {
    if Marks(trace[k - 1], exec) {
      m := k - 1;
    } else {
      m := LastMark(trace, exec, i, k - 1);
    }
  }

  /** A grant that is the latest both before and after a claim, with no release, is that claim's grant: epochs of
      one row lifetime never fall and each belongs to one worker. */
  lemma LatestKeepsItsEpoch(trace: seq<Event>, i: nat, j: nat, k: nat)
    requires Fenced(trace) && i < j < k <= |trace| && trace[i].Checked? && trace[j].Claimed?
    requires trace[j].exec == trace[i].lease.exec && LatestIs(trace[..k], trace[i].lease)
    requires forall x :: i < x < k ==> trace[x] != Released(trace[i].lease.exec)
    ensures GrantsTo(trace[j], trace[i].lease)
  {
    hide Tenure, EpochsOrdered;
    var l := trace[i].lease;
    assert WriteAllowed(trace[..i], l, trace[i].at);
    var m := LatestClaim(trace, i, l.exec);
    var n := LatestClaim(trace, k, l.exec);
    hide Fenced, WriteAllowed;
    ClaimsInOrder(trace, m, j);
    if j < n {
      ClaimsInOrder(trace, j, n);
    }
  }

  lemma ClaimsInOrder(trace: seq<Event>, i: nat, j: nat)
    requires Fenced(trace) && i < j < |trace| && trace[i].Claimed? && trace[j].Claimed?
    requires trace[i].exec == trace[j].exec
    requires forall k :: i < k < j ==> trace[k] != Released(trace[i].exec)
    ensures trace[i].epoch <= trace[j].epoch
    ensures (trace[i].epoch == trace[j].epoch ==> trace[i].worker == trace[j].worker)
  {
    hide Fenced;
    if trace[j].epoch < trace[i].epoch || (trace[j].epoch == trace[i].epoch && trace[j].worker != trace[i].worker) {
      NumberingRestartsOnlyAfterRelease(trace, i, j);
    }
  }

  /** The check passes, the lease expires, another worker claims, and the displaced worker's write still lands. */
  method CheckThenWriteIsNotFenced() returns (trace: seq<Event>, state: string)
    ensures Fenced(trace) && |trace| == 4 && state == "stale"
    ensures trace[0] == Claimed("a", "w", 1, 10, 0) && trace[1].Checked? && trace[2] == Claimed("a", "v", 2, 21, 11)
    ensures trace[3].WroteUnfenced? && trace[3].lease == trace[1].lease && trace[3].lease.worker == "w"
    ensures !WriteAllowed(trace[..3], trace[3].lease, trace[3].at)
  {
    hide Fenced, Mirrors;
    var s := new LeaseStore(10);
    var ok, mine := s.Claim("a", "w", 0, 0);
    ok := s.AssertCurrent(mine.value, 1);
    var ok', theirs := s.Claim("a", "v", 11, 11);
    ok := s.UnfencedWrite(mine.value, SaveCheckpoint("a", "stale"), 12);
    trace, state := s.trace, s.tables.checkpoints["a"];
    assert trace[..3][|trace[..3]| - 1] == Claimed("a", "v", 2, 21, 11);
  }

  /** Releasing deletes the row and numbering starts again, so a lease object from before a release passes the fence
      again exactly when the row is later granted to the same worker with the same epoch. */
  lemma ReleasedLeasePassesExactlyWhenGrantedAgain(trace: seq<Event>, l: Lease, i: nat, k: nat, at: int)
    requires i < k <= |trace| && trace[i] == Released(l.exec)
    ensures WriteAllowed(trace[..k], l, at) <==> at < Deadline(trace[..k], l.exec) && GrantedSince(trace, l, i + 1, k)
  {
    LatestExactly(trace, l, i + 1, k);
    assert trace[..i + 1][|trace[..i + 1]| - 1] == Released(l.exec);
  }

  /** Which happens: the lease object of the first claim writes in the tenure of the second. */
  method EarlierLeasePassesAgain() returns (trace: seq<Event>)
    ensures Fenced(trace) && |trace| == 4
    ensures trace[0] == Claimed("a", "w", 1, 10, 0) && trace[1] == Released("a")
    ensures trace[2] == Claimed("a", "w", 1, 30, 20)
    ensures trace[3].Wrote? && trace[3].lease == Lease("a", "w", 1, 10) && trace[3].at == 25
  {
    hide Fenced, Mirrors;
    var s := new LeaseStore(10);
    var ok, first := s.Claim("a", "w", 0, 0);
    s.Release(first.value);
    var ok', second := s.Claim("a", "w", 20, 20);
    ok := s.FencedWrite(first.value, SaveCheckpoint("a", "late"), 25);
    trace := s.trace;
  }
}
