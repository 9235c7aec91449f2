/** How uninterrupted calls of `start` and `resume_approval` in `ois/autonomy/engine.py` end, in every state of the
    tables: what becomes of the run, its lease and its approval, and whether `execute` was called. */
module DurableEndings {
  import opened Prelude
  import opened Values
  import opened Policy
  import opened DurableEngine
  import opened DurableRuns
  import Fencing

  lemma {:induction false} OverStays(cfg: Config, db: Database, t: nat, th: Thread, input: Input, m: nat, n: nat)
    requires After(cfg, db, t, th, input, m).phase == Over && m <= n
    ensures After(cfg, db, t, th, input, n) == After(cfg, db, t, th, input, m)
  {
    hide Create, ClaimKey, ClaimLease, Request, Move, Execute, ReleaseLease, GateStep, LookUp, Find;
    if m < n {
      OverStays(cfg, db, t, th, input, m, n - 1);
    }
  }

  /** The policy's verdict on the event of a ticket, in terms of the rules and the event. */
  lemma JudgeMeans(cfg: Config, e: Envelope)
    ensures
      var v := Judge(cfg, e);
      && (v.Allow? <==> SomeAdmits(cfg.rules, e) && !WantsApproval(e))
      && (v.ApprovalRequired? <==> SomeAdmits(cfg.rules, e) && WantsApproval(e))
      && (v.Error? <==> Unreadable(cfg.rules, e))
      && (v.Deny? <==> !SomeAdmits(cfg.rules, e) && !Unreadable(cfg.rules, e))
  {
    PermittedExactly(cfg.rules, e);
    hide Evaluate, SomeAdmits, WantsApproval, Unreadable, ContextOf;
  }

  // ---------- From a ticket on ----------

  /** A ticket for a run under a current lease. */
  ghost predicate Ticketed(db: Database, k: Ticket, now: int) {
    k.run.identity in db.runs && k.lease.exec == k.run.id && Fencing.Current(db.leases, k.lease, now)
  }

  ghost predicate PendingApproval(db: Database, id: string, event: string) {
    id in db.approvals && db.approvals[id].eventId == event && db.approvals[id].decision == Pending
  }

  /** An event that wants an approval: the run waits for a pending approval of the event, if there is one, or for a new
      one of its own. The call fails, and keeps its lease, where the new one cannot be stored. */
  ghost predicate WaitEnded(cfg: Config, db: Database, k: Ticket, o: Outcome, input: Input)
    requires k.run.identity in db.runs
  {
    var payload := cfg.jsonb(k.event.payload);
    if PendingApproval(db, input.pick, k.run.identity.event) then
      o.phase == Over && o.db == Closed(db, k, WaitingApproval(input.pick)) && !SomeRan(o.records)
    else if exists a :: PendingApproval(db, a, k.run.identity.event) then o.db == db && !SomeRan(o.records)
    else if payload.None? || k.run.id in db.approvals then o.phase == Over && o.db == db && !SomeRan(o.records)
    else o.phase == Over && o.db == Asked(db, k, payload.value, input.now) && !SomeRan(o.records)
  }

  /** A risk that cannot be read ends the call at once, with the lease kept; an event that no rule admits stops the run;
      a resume, and an event that wants no approval, executes; any other event waits. */
  ghost predicate TicketEnded(cfg: Config, db: Database, t: nat, call: Call, k: Ticket, o: Outcome, input: Input)
    requires k.run.identity in db.runs
  {
    if Unreadable(cfg.rules, k.event) then o == Outcome(db, Over, [])
    else if !SomeAdmits(cfg.rules, k.event) then
      o.phase == Over && o.db == Closed(db, k, StoppedRun) && !SomeRan(o.records)
    else if call.Resume? || !WantsApproval(k.event) then RunEnded(db, t, call, k, o, input.ok, input.now)
    else WaitEnded(cfg, db, k, o, input)
  }

  lemma OneStep(cfg: Config, db: Database, t: nat, call: Call, phase: Phase, input: Input)
    ensures After(cfg, db, t, Thread(call, phase), input, 1) == Next(cfg, db, t, Thread(call, phase), input)
  {
    hide Next;
    assert After(cfg, db, t, Thread(call, phase), input, 0) == Outcome(db, phase, []);
    var o := Next(cfg, db, t, Thread(call, phase), input);
    assert Thread(call, phase).(phase := phase) == Thread(call, phase) && [] + o.records == o.records;
  }

  /** `m` steps that record nothing, followed by `n` more. */
  lemma Onwards(cfg: Config, db: Database, t: nat, call: Call, a: Phase, b: Phase, input: Input, m: nat, n: nat)
    requires After(cfg, db, t, Thread(call, a), input, m) == Outcome(db, b, [])
    ensures After(cfg, db, t, Thread(call, a), input, m + n) == After(cfg, db, t, Thread(call, b), input, n)
  {
    hide After;
    AfterSplits(cfg, db, t, Thread(call, a), input, m, n);
    assert Thread(call, a).(phase := b) == Thread(call, b);
  }

  /** `m` steps followed by `n` more. */
  lemma Stages(
    cfg: Config, db: Database, t: nat, call: Call, phase: Phase, l: Outcome, p: Outcome, input: Input, m: nat, n: nat)
    requires After(cfg, db, t, Thread(call, phase), input, m) == l
    requires After(cfg, l.db, t, Thread(call, l.phase), input, n) == p
    ensures After(cfg, db, t, Thread(call, phase), input, m + n) == Outcome(p.db, p.phase, l.records + p.records)
  {
    hide After;
    AfterSplits(cfg, db, t, Thread(call, phase), input, m, n);
    assert Thread(call, phase).(phase := l.phase) == Thread(call, l.phase);
  }

  lemma MovedAndReleased(t: nat, k: Ticket, status: RunStatus, now: int)
    ensures !SomeRan([Moved(t, k.run.id, status, k.lease, now), OnLease(Fencing.Released(k.lease.exec))])
  {
  }

  lemma TicketStops(cfg: Config, db: Database, t: nat, call: Call, k: Ticket, input: Input)
    requires Ticketed(db, k, input.now) && Judge(cfg, k.event).Deny?
    ensures
      var o := After(cfg, db, t, Thread(call, Ready(k)), input, 3);
      o.phase == Over && o.db == Closed(db, k, StoppedRun) && !SomeRan(o.records)
  {
    OneStep(cfg, db, t, call, Ready(k), input);
    assert GateStep(cfg, call, k) == Moving(k, StoppedRun);
    hide After, GateStep, Judge, Fencing.Current, Closed, SomeRan;
    Onwards(cfg, db, t, call, Ready(k), Moving(k, StoppedRun), input, 1, 2);
    MovingCloses(cfg, db, t, call, k, StoppedRun, input);
    MovedAndReleased(t, k, StoppedRun, input.now);
  }

  lemma AskingEnds(cfg: Config, db: Database, t: nat, call: Call, k: Ticket, input: Input)
    requires Ticketed(db, k, input.now)
    ensures WaitEnded(cfg, db, k, After(cfg, db, t, Thread(call, Asking(k)), input, 4), input)
  {
    hide After, Judge, Fencing.Current, SomeRan;
    NoneRan();
    OneStep(cfg, db, t, call, Asking(k), input);
    var event := k.run.identity.event;
    assert forall a :: PendingApproval(db, a, event) <==> a in db.approvals && PendingFor(db.approvals[a], event);
    if PendingApproval(db, input.pick, event) {
      var status := WaitingApproval(input.pick);
      Onwards(cfg, db, t, call, Asking(k), Moving(k, status), input, 1, 2);
      MovingCloses(cfg, db, t, call, k, status, input);
      MovedAndReleased(t, k, status, input.now);
      OverStays(cfg, db, t, Thread(call, Asking(k)), input, 3, 4);
    } else if exists a :: PendingApproval(db, a, event) {
      Onwards(cfg, db, t, call, Asking(k), Asking(k), input, 1, 0);
      Onwards(cfg, db, t, call, Asking(k), Asking(k), input, 1, 1);
      Onwards(cfg, db, t, call, Asking(k), Asking(k), input, 1, 2);
      Onwards(cfg, db, t, call, Asking(k), Asking(k), input, 1, 3);
    } else {
      Onwards(cfg, db, t, call, Asking(k), Requesting(k), input, 1, 3);
      RequestEnds(cfg, db, t, call, k, input);
    }
  }

  lemma RequestEnds(cfg: Config, db: Database, t: nat, call: Call, k: Ticket, input: Input)
    requires Ticketed(db, k, input.now)
    ensures
      var o, payload := After(cfg, db, t, Thread(call, Requesting(k)), input, 3), cfg.jsonb(k.event.payload);
      && o.phase == Over && !SomeRan(o.records)
      && o.db == if payload.None? || k.run.id in db.approvals then db else Asked(db, k, payload.value, input.now)
  {
    OneStep(cfg, db, t, call, Requesting(k), input);
    NoneRan();
    hide After, Fencing.Current, SomeRan;
    var o, status := Request(cfg, db, k, input.now), WaitingApproval(k.run.id);
    if o.phase == Over {
      OverStays(cfg, db, t, Thread(call, Requesting(k)), input, 1, 3);
    } else {
      AfterSplits(cfg, db, t, Thread(call, Requesting(k)), input, 1, 2);
      assert o.phase == Moving(k, status) && o.records == [];
      SameLeases(db, o.db, k, input.now);
      MovingCloses(cfg, o.db, t, call, k, status, input);
      MovedAndReleased(t, k, status, input.now);
      var p := After(cfg, o.db, t, Thread(call, Moving(k, status)), input, 2);
      assert o.records + p.records == p.records;
      assert Closed(o.db, k, status) == Asked(db, k, cfg.jsonb(k.event.payload).value, input.now);
    }
  }

  lemma SameLeases(db: Database, db': Database, k: Ticket, now: int)
    requires Ticketed(db, k, now) && db'.leases == db.leases && db'.runs == db.runs
    ensures Ticketed(db', k, now)
  {
  }

  /** How a call ends that has its ticket, whatever the tables hold. */
  lemma TicketEnds(cfg: Config, db: Database, t: nat, call: Call, k: Ticket, input: Input)
    requires Ticketed(db, k, input.now)
    ensures TicketEnded(cfg, db, t, call, k, After(cfg, db, t, Thread(call, Ready(k)), input, 5), input)
  {
    var th := Thread(call, Ready(k));
    JudgeMeans(cfg, k.event);
    OneStep(cfg, db, t, call, Ready(k), input);
    hide After, Judge, Fencing.Current, SomeAdmits, WantsApproval, Unreadable, WaitEnded, RunEnded, SomeRan, Closed;
    if Unreadable(cfg.rules, k.event) {
      OverStays(cfg, db, t, th, input, 1, 5);
    } else if !SomeAdmits(cfg.rules, k.event) {
      TicketStops(cfg, db, t, call, k, input);
      OverStays(cfg, db, t, th, input, 3, 5);
    } else if call.Resume? || !WantsApproval(k.event) {
      LeasedToEnd(cfg, db, t, call, k, input);
    } else {
      Onwards(cfg, db, t, call, Ready(k), Asking(k), input, 1, 4);
      AskingEnds(cfg, db, t, call, k, input);
    }
  }

  // ---------- Whole calls ----------

  /** Nobody else's lease is in the way. */
  predicate LeaseFree(rows: map<string, Fencing.Row>, exec: string, worker: string, wall: int) {
    exec in rows && rows[exec].worker != worker ==> rows[exec].expires <= wall
  }

  lemma ClaimedExactlyWhenFree(
    rows: map<string, Fencing.Row>, exec: string, worker: string, now: int, wall: int, ttl: int)
    ensures Fencing.ClaimedRow(rows, exec, worker, now, wall, ttl).Some? <==> LeaseFree(rows, exec, worker, wall)
  {
  }

  /** `execute` was called once, for this run, and ended as `ok` says. */
  ghost predicate RanOnce(records: seq<Record>, w: Workflow, i: Identity, via: Option<string>, ok: bool) {
    exists n :: 0 <= n < |records| && RanAt(records, n, w, i, via, ok)
  }

  ghost predicate RanAt(records: seq<Record>, n: nat, w: Workflow, i: Identity, via: Option<string>, ok: bool)
    requires n < |records|
  {
    && records[n].Ran? && records[n].workflow == w && records[n].ticket.run.identity == i && records[n].via == via
    && records[n].ok == ok && forall m :: 0 <= m < |records| && records[m].Ran? ==> m == n
  }

  lemma EndedRanOnce(
    db: Database, t: nat, call: Call, k: Ticket, before: seq<Record>, o: Outcome, ok: bool, now: int)
    requires k.run.identity in db.runs && RunEnded(db, t, call, k, o, ok, now) && !SomeRan(before)
    ensures RanOnce(before + o.records, call.workflow, k.run.identity,
                    if call.Start? then None else Some(call.approval), ok)
  {
    var all := before + o.records;
    assert o.records[1].Ran? && all[|before| + 1] == o.records[1];
    assert forall m :: 0 <= m < |all| && all[m].Ran? ==> m == |before| + 1;
    var via := if call.Start? then None else Some(call.approval);
    assert RanAt(all, |before| + 1, call.workflow, k.run.identity, via, ok);
  }

  /** The tables with a run of this identity and status, its key won and its lease given back. */
  function EndedAs(db: Database, i: Identity, id: string, status: RunStatus): Database {
    db.(runs := db.runs[i := Run(id, status)], keys := db.keys + {Key(i)}, leases := db.leases - {id})
  }

  /** The run that `create` finds or makes. */
  function RunFor(db: Database, i: Identity, runId: string): Run {
    if i in db.runs then db.runs[i] else Run(runId, Received)
  }

  /** What `start` needs to get as far as its gate: an event meant for the workflow; a run of the event's own, or
      neither its key nor the drawn id taken; the key not yet won; and no other worker's live lease. */
  ghost predicate Startable(cfg: Config, db: Database, w: Workflow, e: Envelope, worker: string, input: Input) {
    var i := IdentityOf(w, e);
    && MeantFor(w, e) && worker != "" && Key(i) !in db.keys
    && (i in db.runs || forall j :: j in db.runs ==> Key(j) != Key(i) && db.runs[j].id != input.runId)
    && LeaseFree(db.leases, RunFor(db, i, input.runId).id, worker, input.wall)
  }

  /** The tables of a call that has its ticket. */
  ghost predicate Begun(db: Database, i: Identity, run: Run, e: Envelope, o: Outcome, now: int) {
    && o.phase.Ready? && o.phase.ticket.run == RunRef(run.id, i) && o.phase.ticket.event == e
    && Ticketed(o.db, o.phase.ticket, now) && !SomeRan(o.records)
    && o.db == db.(runs := db.runs[i := run], keys := o.db.keys, leases := o.db.leases)
    && o.db.leases - {run.id} == db.leases - {run.id}
  }

  lemma StartClaims(cfg: Config, db: Database, t: nat, call: Call, run: RunRef, input: Input)
    requires call.Start? && call.worker != "" && LeaseFree(db.leases, run.id, call.worker, input.wall) && cfg.ttl > 0
    requires run.identity in db.runs
    ensures
      var o := ClaimLease(cfg, db, call, run, input);
      && o.phase.Ready? && o.phase.ticket.run == run && o.phase.ticket.event == call.event
      && Ticketed(o.db, o.phase.ticket, input.now) && |o.records| == 1 && o.records[0].OnLease?
      && o.db == db.(leases := o.db.leases) && o.db.leases - {run.id} == db.leases - {run.id}
  {
  }

  /** The first two steps of `start`: its run and its key. */
  lemma StartKeys(cfg: Config, db: Database, t: nat, w: Workflow, e: Envelope, worker: string, input: Input)
    requires Startable(cfg, db, w, e, worker, input)
    ensures
      var i := IdentityOf(w, e);
      var run := RunFor(db, i, input.runId);
      After(cfg, db, t, Thread(Start(w, e, worker), Called), input, 2) ==
      Outcome(db.(runs := db.runs[i := run], keys := db.keys + {Key(i)}), Won(RunRef(run.id, i)), [Keyed(t, Key(i))])
  {
    MatchesExactly(w, e);
    hide Matches, MeantFor, Key, IdentityOf, ClaimLease, Request, Move, Execute, ReleaseLease, GateStep, LookUp, Find;
    var i, call := IdentityOf(w, e), Start(w, e, worker);
    var run, th := RunFor(db, i, input.runId), Thread(call, Called);
    assert i in db.runs ==> db.runs[i := run] == db.runs;
    var created := db.(runs := db.runs[i := run]);
    assert After(cfg, db, t, th, input, 0) == Outcome(db, Called, []);
    assert After(cfg, db, t, th, input, 1) == Outcome(created, Created(RunRef(run.id, i)), []);
  }

  lemma StartBegins(cfg: Config, db: Database, t: nat, w: Workflow, e: Envelope, worker: string, input: Input)
    requires Startable(cfg, db, w, e, worker, input) && cfg.ttl > 0
    ensures
      var i := IdentityOf(w, e);
      var o := After(cfg, db, t, Thread(Start(w, e, worker), Called), input, 3);
      Begun(db, i, RunFor(db, i, input.runId), e, o, input.now) && o.db.keys == db.keys + {Key(i)}
  {
    var i, call := IdentityOf(w, e), Start(w, e, worker);
    var run := RunFor(db, i, input.runId);
    StartKeys(cfg, db, t, w, e, worker, input);
    var o := After(cfg, db, t, Thread(call, Called), input, 2);
    StartClaims(cfg, o.db, t, call, RunRef(run.id, i), input);
    var c := ClaimLease(cfg, o.db, call, RunRef(run.id, i), input);
    hide Create, ClaimKey, ClaimLease, Request, Move, Execute, ReleaseLease, GateStep, LookUp, Find, Key, IdentityOf,
         Startable, Fencing.Current;
    assert After(cfg, db, t, Thread(call, Called), input, 3) == Outcome(c.db, c.phase, o.records + c.records);
    assert o.records + c.records == [Keyed(t, Key(i)), c.records[0]];
  }

  /** The tables after an uninterrupted `start`. */
  ghost predicate StartEnded(cfg: Config, db: Database, w: Workflow, e: Envelope, o: Outcome, input: Input) {
    var i := IdentityOf(w, e);
    var id, payload := RunFor(db, i, input.runId).id, cfg.jsonb(e.payload);
    if Unreadable(cfg.rules, e) then o.phase == Over && id in o.db.leases && !SomeRan(o.records)
    else if !SomeAdmits(cfg.rules, e) then
      o.phase == Over && o.db == EndedAs(db, i, id, StoppedRun) && !SomeRan(o.records)
    else if !WantsApproval(e) then
      && o.phase == Over && o.db == EndedAs(db, i, id, if input.ok then Completed else RecoveringRun)
      && RanOnce(o.records, w, i, None, input.ok)
    else if PendingApproval(db, input.pick, e.id) then
      o.phase == Over && o.db == EndedAs(db, i, id, WaitingApproval(input.pick)) && !SomeRan(o.records)
    else if (exists a :: PendingApproval(db, a, e.id)) || payload.None? || id in db.approvals then !SomeRan(o.records)
    else
      && o.phase == Over && !SomeRan(o.records)
      && o.db == EndedAs(db, i, id, WaitingApproval(id)).(
                   approvals := db.approvals[
                     id := Approval(id, i.tenant, i.workspace, i.workflow, i.event, Some(e.kind), payload.value,
                         e.source,
                                    input.now + 3600, Pending)])
  }

  lemma BegunEnds(cfg: Config, db: Database, t: nat, w: Workflow, e: Envelope, worker: string, l: Outcome, p: Outcome,
                  input: Input)
    requires
      var i := IdentityOf(w, e);
      Begun(db, i, RunFor(db, i, input.runId), e, l, input.now) && l.db.keys == db.keys + {Key(i)}
    requires TicketEnded(cfg, l.db, t, Start(w, e, worker), l.phase.ticket, p, input)
    ensures StartEnded(cfg, db, w, e, Outcome(p.db, p.phase, l.records + p.records), input)
  {
    hide Key, SomeAdmits, WantsApproval, Unreadable, SomeRan, RanOnce, Fencing.Current, Asked, Closed, EndedAs;
    var k, payload := l.phase.ticket, cfg.jsonb(e.payload);
    NoneRan();
    RanConcat(l.records, p.records);
    BegunCloses(db, IdentityOf(w, e), RunFor(db, IdentityOf(w, e), input.runId), e, l, input.now);
    hide Begun, RunFor, PendingApproval;
    if !Unreadable(cfg.rules, e) && SomeAdmits(cfg.rules, e) && !WantsApproval(e) {
      EndedRanOnce(l.db, t, Start(w, e, worker), k, l.records, p, input.ok, input.now);
    } else if payload.Some? {
      AskedIsEnded(l.db, k, payload.value, input.now);
    }
  }

  lemma BegunCloses(db: Database, i: Identity, run: Run, e: Envelope, l: Outcome, now: int)
    requires Begun(db, i, run, e, l, now) && l.db.keys == db.keys + {Key(i)}
    ensures
      var k := l.phase.ticket;
      && k.run == RunRef(run.id, i) && k.event == e && i in l.db.runs && k.lease.exec == run.id && run.id in l.db.leases
      && (forall s :: Closed(l.db, k, s) == EndedAs(db, i, run.id, s)) && l.db.approvals == db.approvals
      && (forall a :: PendingApproval(l.db, a, e.id) <==> PendingApproval(db, a, e.id)) && !SomeRan(l.records)
  {
    hide Key, SomeRan;
  }

  lemma AskedIsEnded(db: Database, k: Ticket, payload: map<string, Value>, now: int)
    requires k.run.identity in db.runs && k.lease.exec == k.run.id
    ensures
      var i := k.run.identity;
      Asked(db, k, payload, now) ==
      Closed(db, k, WaitingApproval(k.run.id)).(
        approvals := db.approvals[
          k.run.id := Approval(k.run.id, i.tenant, i.workspace, i.workflow, i.event, Some(k.event.kind), payload,
                               k.event.source, now + 3600, Pending)])
  {
  }

  /** An uninterrupted `start` that gets as far as its gate, from any tables: a risk that cannot be read leaves the
      lease held; an event that no rule admits ends with the run STOPPED and the lease released; one that wants no
      approval is executed once and ends COMPLETED, or RECOVERING if `execute` raised, and released; one that does
      waits for the pending approval of its event, or for a new one that expires in an hour, released. */
  lemma StartEnds(cfg: Config, db: Database, t: nat, w: Workflow, e: Envelope, worker: string, input: Input, n: nat)
    requires Startable(cfg, db, w, e, worker, input) && cfg.ttl > 0 && n >= 8
    ensures
      var th := Thread(Start(w, e, worker), Called);
      StartEnded(cfg, db, w, e, After(cfg, db, t, th, input, 8), input)
    ensures
      var th := Thread(Start(w, e, worker), Called);
      After(cfg, db, t, th, input, 8).phase == Over ==>
        After(cfg, db, t, th, input, n) == After(cfg, db, t, th, input, 8)
  {
    var call := Start(w, e, worker);
    StartBegins(cfg, db, t, w, e, worker, input);
    var l := After(cfg, db, t, Thread(call, Called), input, 3);
    hide After, Startable, StartEnded, TicketEnded, IdentityOf, RunFor, Ticketed, Key;
    TicketEnds(cfg, l.db, t, call, l.phase.ticket, input);
    var p := After(cfg, l.db, t, Thread(call, l.phase), input, 5);
    Stages(cfg, db, t, call, Called, l, p, input, 3, 5);
    BegunEnds(cfg, db, t, w, e, worker, l, p, input);
    if After(cfg, db, t, Thread(call, Called), input, 8).phase == Over {
      OverStays(cfg, db, t, Thread(call, Called), input, 8, n);
    }
  }

  /** Otherwise it ends without a lease, an approval or an execution. */
  lemma StartRefused(cfg: Config, db: Database, t: nat, w: Workflow, e: Envelope, worker: string, input: Input, n: nat)
    requires !Startable(cfg, db, w, e, worker, input) && n >= 3
    ensures
      var o := After(cfg, db, t, Thread(Start(w, e, worker), Called), input, n);
      o.phase == Over && !SomeRan(o.records) && o.db.leases == db.leases && o.db.approvals == db.approvals
  {
    var call := Start(w, e, worker);
    hide After, Startable, SomeRan, IdentityOf;
    StartTurnsBack(cfg, db, t, w, e, worker, input);
    OverStays(cfg, db, t, Thread(call, Called), input, 3, n);
  }

  lemma StartTurnsBack(cfg: Config, db: Database, t: nat, w: Workflow, e: Envelope, worker: string, input: Input)
    requires !Startable(cfg, db, w, e, worker, input)
    ensures
      var o := After(cfg, db, t, Thread(Start(w, e, worker), Called), input, 3);
      o.phase == Over && !SomeRan(o.records) && o.db.leases == db.leases && o.db.approvals == db.approvals
  {
    hide After, Matches, MeantFor, Key, IdentityOf, LeaseFree, Fencing.ClaimedRow, Request, Move, Execute,
         ReleaseLease, GateStep, LookUp, Find;
    MatchesExactly(w, e);
    var i, call := IdentityOf(w, e), Start(w, e, worker);
    var run := RunRef(RunFor(db, i, input.runId).id, i);
    ClaimedExactlyWhenFree(db.leases, run.id, worker, input.now, input.wall, cfg.ttl);
    OneStep(cfg, db, t, call, Called, input);
    var o := Create(db, call, input.runId);
    if o.phase == Over {
      OverStays(cfg, db, t, Thread(call, Called), input, 1, 3);
    } else {
      assert o.phase == Created(run) && o.db == db.(runs := o.db.runs) && o.records == [];
      assert Key(i) in db.keys || worker == "" || !LeaseFree(db.leases, run.id, worker, input.wall);
      hide Create, Startable;
      var p := ClaimKey(o.db, t, run);
      OneStep(cfg, o.db, t, call, Created(run), input);
      Stages(cfg, db, t, call, Called, o, p, input, 1, 1);
      assert [] + p.records == p.records;
      if p.phase == Over {
        OverStays(cfg, db, t, Thread(call, Called), input, 2, 3);
      } else {
        OneStep(cfg, p.db, t, call, Won(run), input);
        Stages(cfg, db, t, call, Called, p, Outcome(p.db, Over, []), input, 2, 1);
      }
    }
  }

  lemma WantingIsDead(cfg: Config, db: Database, t: nat, call: Call, k: Ticket, input: Input)
    requires call.Start? && !(SomeAdmits(cfg.rules, k.event) && !WantsApproval(k.event))
    ensures
      var o := After(cfg, db, t, Thread(call, Ready(k)), input, 1);
      Dead(o.phase) && !SomeRan(o.records)
  {
    JudgeMeans(cfg, k.event);
    NoneRan();
    hide After, SomeRan, SomeAdmits, WantsApproval, Judge;
    OneStep(cfg, db, t, call, Ready(k), input);
  }

  /** In every state of the tables an uninterrupted `start` of at least eight steps calls `execute` exactly when it gets
      as far as its gate, some rule admits the event, and the event wants no approval. */
  lemma StartExecutesExactly(
    cfg: Config, db: Database, t: nat, w: Workflow, e: Envelope, worker: string, input: Input, n: nat)
    requires cfg.ttl > 0 && n >= 8
    ensures SomeRan(After(cfg, db, t, Thread(Start(w, e, worker), Called), input, n).records) <==>
            Startable(cfg, db, w, e, worker, input) && SomeAdmits(cfg.rules, e) && !WantsApproval(e)
  {
    var call := Start(w, e, worker);
    if !Startable(cfg, db, w, e, worker, input) {
      StartRefused(cfg, db, t, w, e, worker, input, n);
    } else if SomeAdmits(cfg.rules, e) && !WantsApproval(e) {
      StartEnds(cfg, db, t, w, e, worker, input, n);
      assert !Unreadable(cfg.rules, e);
    } else {
      hide After, Startable, SomeAdmits, WantsApproval, Dead, SomeRan, GateStep;
      StartBegins(cfg, db, t, w, e, worker, input);
      var l := After(cfg, db, t, Thread(call, Called), input, 3);
      WantingIsDead(cfg, l.db, t, call, l.phase.ticket, input);
      ThenFate(cfg, db, t, call, Called, input, 3, 1, n, l.db, l.phase);
    }
  }

  // ---------- Resuming ----------

  /** What `resume_approval` needs to get as far as its gate. */
  ghost predicate Reachable(db: Database, id: string, worker: string, version: string, wall: int) {
    && id in db.approvals && db.approvals[id].decision == Approved && worker != ""
    && var a := db.approvals[id];
       var i := Identity(a.tenant, a.workspace, a.workflow, version, a.eventId);
       i in db.runs && LeaseFree(db.leases, db.runs[i].id, worker, wall)
  }

  /** The event that a resume hands to `execute`. */
  function Preserved(a: Approval): Envelope {
    match a.kind
    case Some(kind) => Envelope(a.eventId, a.tenant, a.workspace, kind, a.payload, a.source)
    case None => Envelope(a.eventId, a.tenant, a.workspace, "approval.resumed", map[], Null)
  }

  ghost predicate ResumeEnded(cfg: Config, db: Database, i: Identity, e: Envelope, call: Call, o: Outcome, ok: bool)
    requires i in db.runs && call.Resume?
  {
    && o.phase == Over
    && if Unreadable(cfg.rules, e) then
         db.runs[i].id in o.db.leases && o.db == db.(leases := o.db.leases) && !SomeRan(o.records)
       else
         var end := if !SomeAdmits(cfg.rules, e) then StoppedRun else if ok then Completed else RecoveringRun;
         && o.db == db.(runs := db.runs[i := db.runs[i].(status := end)], leases := db.leases - {db.runs[i].id})
         && if SomeAdmits(cfg.rules, e) then RanOnce(o.records, call.workflow, i, Some(call.approval), ok)
            else !SomeRan(o.records)
  }

  lemma LeasedResumeEnds(
    cfg: Config, db: Database, t: nat, call: Call, run: RunRef, e: Envelope, l: Outcome, p: Outcome, input: Input)
    requires call.Resume? && run.identity in db.runs && db.runs[run.identity].id == run.id
    requires LeaseTaken(db, run, e, l, input.now) && TicketEnded(cfg, l.db, t, call, l.phase.ticket, p, input)
    ensures ResumeEnded(cfg, db, run.identity, e, call, Outcome(p.db, p.phase, l.records + p.records), input.ok)
  {
    LeaseRanNothing(db, run, e, l, input.now);
    RanConcat(l.records, p.records);
    hide SomeRan, SomeAdmits, WantsApproval, Unreadable, RanOnce;
    if !Unreadable(cfg.rules, e) && SomeAdmits(cfg.rules, e) {
      EndedRanOnce(l.db, t, call, l.phase.ticket, l.records, p, input.ok, input.now);
    }
  }

  /** An uninterrupted `resume_approval` that gets as far as its gate, from any tables: denied, the run is STOPPED;
      otherwise `execute` is called once on the event as the approval preserved it and the run ends COMPLETED or
      RECOVERING; the lease is released unless the stored risk cannot be read. */
  lemma ResumeEnds(cfg: Config, db: Database, t: nat, call: Call, input: Input, n: nat)
    requires call.Resume? && Reachable(db, call.approval, call.worker, call.workflow.version, input.wall)
    requires cfg.ttl > 0 && n >= 10
    ensures
      var a := db.approvals[call.approval];
      ResumeEnded(cfg, db, RunOf(a, call.workflow.version), Preserved(a), call,
                  After(cfg, db, t, Thread(call, Called), input, n), input.ok)
  {
    ReachableLeases(cfg, db, t, call, input);
    var a := db.approvals[call.approval];
    var i := RunOf(a, call.workflow.version);
    hide After, RunOf, EventOf, ResumeEnded, Preserved, LeaseTaken, Reachable;
    LeasedToOver(cfg, db, t, call, RunRef(db.runs[i].id, i), EventOf(a), input);
    OverStays(cfg, db, t, Thread(call, Called), input, 10, n);
  }

  lemma LeasedToOver(cfg: Config, db: Database, t: nat, call: Call, run: RunRef, e: Envelope, input: Input)
    requires call.Resume? && run.identity in db.runs && db.runs[run.identity].id == run.id
    requires LeaseTaken(db, run, e, After(cfg, db, t, Thread(call, Called), input, 5), input.now)
    ensures
      var o := After(cfg, db, t, Thread(call, Called), input, 10);
      o.phase == Over && ResumeEnded(cfg, db, run.identity, e, call, o, input.ok)
  {
    hide After;
    var l := After(cfg, db, t, Thread(call, Called), input, 5);
    assert l.phase.Ready? && Ticketed(l.db, l.phase.ticket, input.now);
    hide TicketEnded, ResumeEnded, LeaseTaken, Ticketed;
    var p := After(cfg, l.db, t, Thread(call, l.phase), input, 5);
    TicketEnds(cfg, l.db, t, call, l.phase.ticket, input);
    Stages(cfg, db, t, call, Called, l, p, input, 5, 5);
    LeasedResumeEnds(cfg, db, t, call, run, e, l, p, input);
    ResumeIsOver(cfg, db, run.identity, e, call, Outcome(p.db, p.phase, l.records + p.records), input.ok);
  }

  lemma ReachableLeases(cfg: Config, db: Database, t: nat, call: Call, input: Input)
    requires call.Resume? && Reachable(db, call.approval, call.worker, call.workflow.version, input.wall)
    requires cfg.ttl > 0
    ensures
      var a, l := db.approvals[call.approval], After(cfg, db, t, Thread(call, Called), input, 5);
      var i := RunOf(a, call.workflow.version);
      && i in db.runs && LeaseTaken(db, RunRef(db.runs[i].id, i), EventOf(a), l, input.now)
      && l.phase.Ready? && Ticketed(l.db, l.phase.ticket, input.now) && EventOf(a) == Preserved(a)
  {
    var i := RunOf(db.approvals[call.approval], call.workflow.version);
    ClaimedExactlyWhenFree(db.leases, db.runs[i].id, call.worker, input.now, input.wall, cfg.ttl);
    hide After, EventOf, LeaseFree, Fencing.ClaimedRow, Fencing.Current;
    ResumeToLease(cfg, db, t, call, i, input);
  }

  /** `DurableRuns.ResumeExecutesExactlyWhenResumable` in terms of the approval, the run, the lease and the rules. */
  lemma ResumableExactly(cfg: Config, db: Database, id: string, worker: string, w: Workflow, now: int, wall: int)
    ensures Resumable(cfg, db, id, worker, w, now, wall) <==>
            && cfg.ttl > 0 && Reachable(db, id, worker, w.version, wall)
            && SomeAdmits(cfg.rules, Preserved(db.approvals[id]))
  {
    if id in db.approvals {
      var a := db.approvals[id];
      JudgeMeans(cfg, EventOf(a));
      assert EventOf(a) == Preserved(a);
      var i := RunOf(a, w.version);
      if i in db.runs {
        ClaimedExactlyWhenFree(db.leases, db.runs[i].id, worker, now, wall, cfg.ttl);
      }
      hide Judge, SomeAdmits, WantsApproval, EventOf, Preserved, LeaseFree, Fencing.ClaimedRow;
    }
  }

  lemma ResumeIsOver(cfg: Config, db: Database, i: Identity, e: Envelope, call: Call, o: Outcome, ok: bool)
    requires i in db.runs && call.Resume? && ResumeEnded(cfg, db, i, e, call, o, ok)
    ensures o.phase == Over
  {
  }
}
