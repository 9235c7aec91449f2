/** Whole calls of the durable engine, run without interruption: what `resume_approval` in `ois/autonomy/engine.py`
    does not look at. */
module DurableRuns {
  import opened Prelude
  import opened Values
  import opened Policy
  import opened DurableEngine
  import Fencing

  /** `n` uninterrupted steps of a thread. */
  function After(cfg: Config, db: Database, t: nat, th: Thread, input: Input, n: nat): Outcome {
    if n == 0 then Outcome(db, th.phase, [])
    else
      var o := After(cfg, db, t, th, input, n - 1);
      var p := Next(cfg, o.db, t, th.(phase := o.phase), input);
      Outcome(p.db, p.phase, o.records + p.records)
  }

  method StepAlone(e: Engine, t: nat, input: Input, n: nat)
    requires e.Valid() && t < |e.threads|
    modifies e
    ensures e.Valid()
    ensures
      var o := After(e.cfg, old(e.db), t, old(e.threads)[t], input, n);
      && e.db == o.db && e.threads == old(e.threads)[t := old(e.threads)[t].(phase := o.phase)]
      && e.trace == old(e.trace) + o.records
  {
    hide Good, ThreadsOk, RanBelow, Next;
    for i := 0 to n
      invariant e.Valid()
      invariant
        var o := After(e.cfg, old(e.db), t, old(e.threads)[t], input, i);
        && e.db == o.db && e.threads == old(e.threads)[t := old(e.threads)[t].(phase := o.phase)]
        && e.trace == old(e.trace) + o.records
    {
      e.Step(t, input);
    }
  }

  lemma {:induction false} AfterSplits(cfg: Config, db: Database, t: nat, th: Thread, input: Input, m: nat, n: nat)
    ensures
      var o := After(cfg, db, t, th, input, m);
      var p := After(cfg, o.db, t, th.(phase := o.phase), input, n);
      After(cfg, db, t, th, input, m + n) == Outcome(p.db, p.phase, o.records + p.records)
  {
    hide Next;
    if n > 0 {
      AfterSplits(cfg, db, t, th, input, m, n - 1);
    }
  }

  lemma ResumeFinds(cfg: Config, db: Database, t: nat, call: Call, input: Input)
    requires call.Resume? && Granting(db, call.approval)
    requires RunOf(db.approvals[call.approval], call.workflow.version) in db.runs
    ensures
      var i := RunOf(db.approvals[call.approval], call.workflow.version);
      After(cfg, db, t, Thread(call, Called), input, 2) == Outcome(db, Found(RunRef(db.runs[i].id, i)), [])
  {
    hide Create, ClaimKey, ClaimLease, Request, Move, Execute, ReleaseLease, GateStep, LookUp, EventOf,
         Fencing.Current, RunOf;
    var th := Thread(call, Called);
    assert After(cfg, db, t, th, input, 0) == Outcome(db, Called, []);
    assert After(cfg, db, t, th, input, 1) == Outcome(db, Looked, []);
  }

  lemma LeaseIsCurrent(cfg: Config, db: Database, call: Call, run: RunRef, input: Input)
    requires call.Resume? && call.worker != "" && cfg.ttl > 0
    requires Fencing.ClaimedRow(db.leases, run.id, call.worker, input.now, input.wall, cfg.ttl).Some?
    ensures
      var o := ClaimLease(cfg, db, call, run, input);
      && o.phase.Leased? && o.phase.run == run && o.db == db.(leases := o.db.leases) && |o.records| == 1
      && o.records[0].OnLease? && Fencing.Current(o.db.leases, o.phase.lease, input.now)
      && o.phase.lease.exec == run.id && o.db.leases - {run.id} == db.leases - {run.id}
  {
  }

  /** What claiming the lease, checking it and reading the event leave: a ticket for the run, under a current lease. */
  ghost predicate LeaseTaken(db: Database, run: RunRef, e: Envelope, o: Outcome, now: int) {
    && o.phase.Ready? && o.phase.ticket.run == run && o.phase.ticket.event == e && o.phase.ticket.lease.exec == run.id
    && o.db == db.(leases := o.db.leases) && o.db.leases - {run.id} == db.leases - {run.id}
    && Fencing.Current(o.db.leases, o.phase.ticket.lease, now) && |o.records| == 1 && o.records[0].OnLease?
  }

  lemma ResumeLeases(cfg: Config, db: Database, t: nat, call: Call, run: RunRef, input: Input)
    requires call.Resume? && call.worker != "" && cfg.ttl > 0 && Granting(db, call.approval)
    requires Fencing.ClaimedRow(db.leases, run.id, call.worker, input.now, input.wall, cfg.ttl).Some?
    ensures LeaseTaken(db, run, EventOf(db.approvals[call.approval]),
                       After(cfg, db, t, Thread(call, Found(run)), input, 3), input.now)
  {
    LeaseIsCurrent(cfg, db, call, run, input);
    hide Create, ClaimKey, ClaimLease, Request, Move, Execute, ReleaseLease, GateStep, LookUp, EventOf,
         Fencing.Current;
    var th, l := Thread(call, Found(run)), ClaimLease(cfg, db, call, run, input);
    assert After(cfg, db, t, th, input, 0) == Outcome(db, Found(run), []);
    assert After(cfg, db, t, th, input, 1) == Outcome(l.db, l.phase, l.records);
    assert After(cfg, db, t, th, input, 2) == Outcome(l.db, Checked(run, l.phase.lease), l.records);
  }

  lemma ReadyRuns(cfg: Config, db: Database, t: nat, call: Call, k: Ticket, input: Input)
    requires Passes(cfg, call, k.event) && Fencing.Current(db.leases, k.lease, input.now) && k.run.identity in db.runs
    ensures
      var m := Move(db, t, k, Running, input.now);
      After(cfg, db, t, Thread(call, Ready(k)), input, 3) ==
      Outcome(m.db, Moving(k, if input.ok then Completed else RecoveringRun),
        m.records + Execute(db, t, call, k, input.ok).records)
  {
    var th, m := Thread(call, Ready(k)), Move(db, t, k, Running, input.now);
    assert GateStep(cfg, call, k) == Moving(k, Running);
    hide Create, ClaimKey, ClaimLease, Request, ReleaseLease, GateStep, LookUp, EventOf, Fencing.Current, Judge;
    assert After(cfg, db, t, th, input, 0) == Outcome(db, Ready(k), []);
    assert After(cfg, db, t, th, input, 1) == Outcome(db, Moving(k, Running), []);
    assert After(cfg, db, t, th, input, 2) == Outcome(m.db, Executing(k), m.records);
  }

  /** The tables after the last transition of a call and the release of its lease. */
  function Closed(db: Database, k: Ticket, status: RunStatus): Database
    requires k.run.identity in db.runs
  {
    db.(runs := db.runs[k.run.identity := db.runs[k.run.identity].(status := status)],
        leases := db.leases - {k.lease.exec})
  }

  lemma MovingCloses(cfg: Config, db: Database, t: nat, call: Call, k: Ticket, status: RunStatus, input: Input)
    requires Fencing.Current(db.leases, k.lease, input.now) && k.run.identity in db.runs && status != Running
    ensures After(cfg, db, t, Thread(call, Moving(k, status)), input, 2) ==
            Outcome(Closed(db, k, status), Over,
                    [Moved(t, k.run.id, status, k.lease, input.now), OnLease(Fencing.Released(k.lease.exec))])
  {
    hide Create, ClaimKey, ClaimLease, Request, Execute, GateStep, LookUp, EventOf;
    var th := Thread(call, Moving(k, status));
    assert After(cfg, db, t, th, input, 0) == Outcome(db, Moving(k, status), []);
    assert After(cfg, db, t, th, input, 1) == Move(db, t, k, status, input.now);
  }

  /** A run that an approved approval names, whose lease the worker can have, and whose stored event policy does not
      refuse. */
  ghost predicate Resumable(cfg: Config, db: Database, id: string, worker: string, w: Workflow, now: int, wall: int) {
    && cfg.ttl > 0 && worker != "" && Granting(db, id) && RunOf(db.approvals[id], w.version) in db.runs
    && Passes(cfg, Resume(id, worker, w), EventOf(db.approvals[id]))
    && Fencing.ClaimedRow(db.leases, db.runs[RunOf(db.approvals[id], w.version)].id, worker, now, wall, cfg.ttl).Some?
  }

  ghost predicate RanThrough(r: Record, id: string, w: Workflow, run: Identity) {
    r.Ran? && r.workflow == w && r.via == Some(id) && r.ticket.run.identity == run
  }

  /** The tables after a resume that ran to its end. */
  function Resumed(db: Database, i: Identity): Database
    requires i in db.runs
  {
    db.(runs := db.runs[i := db.runs[i].(status := Completed)], leases := db.leases - {db.runs[i].id})
  }

  /** The records of one: lease, RUNNING, `execute`, COMPLETED, release. */
  ghost predicate ResumeRecords(records: seq<Record>, id: string, w: Workflow, run: RunRef) {
    && |records| == 5 && RanThrough(records[2], id, w, run.identity)
    && records[3].Moved? && records[3].status == Completed && records[3].run == run.id
  }

  lemma ResumeToLease(cfg: Config, db: Database, t: nat, call: Call, i: Identity, input: Input)
    requires call.Resume? && call.worker != "" && cfg.ttl > 0 && Granting(db, call.approval)
    requires i == RunOf(db.approvals[call.approval], call.workflow.version) && i in db.runs
    requires Fencing.ClaimedRow(db.leases, db.runs[i].id, call.worker, input.now, input.wall, cfg.ttl).Some?
    ensures LeaseTaken(db, RunRef(db.runs[i].id, i), EventOf(db.approvals[call.approval]),
                       After(cfg, db, t, Thread(call, Called), input, 5), input.now)
  {
    hide EventOf, After, RunOf, Fencing.ClaimedRow, LeaseTaken;
    ResumeFinds(cfg, db, t, call, input);
    ResumeLeases(cfg, db, t, call, RunRef(db.runs[i].id, i), input);
    hide Granting;
    var th, found := Thread(call, Called), Thread(call, Found(RunRef(db.runs[i].id, i)));
    AfterSplits(cfg, db, t, th, input, 2, 3);
    assert th.(phase := found.phase) == found;
    assert After(cfg, db, t, th, input, 5) == After(cfg, db, t, found, input, 3);
  }

  /** What the gate, RUNNING, `execute`, the last transition and the release leave. */
  ghost predicate RunEnded(db: Database, t: nat, call: Call, k: Ticket, o: Outcome, ok: bool, now: int)
    requires k.run.identity in db.runs
  {
    var end := if ok then Completed else RecoveringRun;
    && o.phase == Over && o.db == Closed(db, k, end)
    && o.records ==
       [Moved(t, k.run.id, Running, k.lease, now), Execute(db, t, call, k, ok).records[0],
        Moved(t, k.run.id, end, k.lease, now), OnLease(Fencing.Released(k.lease.exec))]
  }

  lemma LeasedToEnd(cfg: Config, db: Database, t: nat, call: Call, k: Ticket, input: Input)
    requires Passes(cfg, call, k.event) && Fencing.Current(db.leases, k.lease, input.now) && k.run.identity in db.runs
    ensures RunEnded(db, t, call, k, After(cfg, db, t, Thread(call, Ready(k)), input, 5), input.ok, input.now)
  {
    hide After, Passes, Fencing.Current;
    var m := Move(db, t, k, Running, input.now);
    ReadyRuns(cfg, db, t, call, k, input);
    MovingCloses(cfg, m.db, t, call, k, if input.ok then Completed else RecoveringRun, input);
    AfterSplits(cfg, db, t, Thread(call, Ready(k)), input, 3, 2);
  }

  lemma LeaseThenRun(db: Database, t: nat, call: Call, run: RunRef, e: Envelope, l: Outcome, o: Outcome, now: int)
    requires call.Resume? && run.identity in db.runs && db.runs[run.identity].id == run.id
    requires LeaseTaken(db, run, e, l, now) && RunEnded(l.db, t, call, l.phase.ticket, o, true, now)
    ensures o.phase == Over && o.db == Resumed(db, run.identity)
    ensures ResumeRecords(l.records + o.records, call.approval, call.workflow, run)
  {
  }

  lemma ResumeToEnd(cfg: Config, db: Database, t: nat, call: Call, input: Input)
    requires call.Resume? && Resumable(cfg, db, call.approval, call.worker, call.workflow, input.now, input.wall)
    requires input.ok
    ensures
      var i := RunOf(db.approvals[call.approval], call.workflow.version);
      var o := After(cfg, db, t, Thread(call, Called), input, 10);
      && o.phase == Over && o.db == Resumed(db, i)
      && ResumeRecords(o.records, call.approval, call.workflow, RunRef(db.runs[i].id, i))
  {
    var i := RunOf(db.approvals[call.approval], call.workflow.version);
    var run, e := RunRef(db.runs[i].id, i), EventOf(db.approvals[call.approval]);
    ResumeToLease(cfg, db, t, call, i, input);
    var l := After(cfg, db, t, Thread(call, Called), input, 5);
    PassesAlike(cfg, call, call.approval, db);
    hide EventOf, After, RunOf, Passes, Resumable, Fencing.Current, RunEnded, ResumeRecords, Resumed;
    LeasedToEnd(cfg, l.db, t, call, l.phase.ticket, input);
    AfterSplits(cfg, db, t, Thread(call, Called), input, 5, 5);
    hide LeaseTaken;
    LeaseThenRun(db, t, call, run, e, l, After(cfg, l.db, t, Thread(call, l.phase), input, 5), input.now);
  }

  lemma PassesAlike(cfg: Config, call: Call, id: string, db: Database)
    requires call.Resume? && call.approval == id && id in db.approvals
    ensures Passes(cfg, Resume(id, call.worker, call.workflow), EventOf(db.approvals[id])) ==
            Passes(cfg, call, EventOf(db.approvals[id]))
  {
  }

  /** A run whose lease is free is resumable whoever asks, with whatever workflow object of that version, and
      whenever. */
  ghost predicate ReadyToResume(cfg: Config, db: Database, id: string, version: string) {
    && cfg.ttl > 0 && Granting(db, id) && RunOf(db.approvals[id], version) in db.runs
    && (Judge(cfg, EventOf(db.approvals[id])).Allow? || Judge(cfg, EventOf(db.approvals[id])).ApprovalRequired?)
    && db.runs[RunOf(db.approvals[id], version)].id !in db.leases
  }

  lemma ReadyIsResumable(cfg: Config, db: Database, id: string, worker: string, w: Workflow, now: int, wall: int)
    requires ReadyToResume(cfg, db, id, w.version) && worker != ""
    ensures Resumable(cfg, db, id, worker, w, now, wall)
  {
    hide Judge, EventOf, RunOf;
  }

  lemma ResumableHas(cfg: Config, db: Database, id: string, worker: string, w: Workflow, now: int, wall: int)
    requires Resumable(cfg, db, id, worker, w, now, wall)
    ensures id in db.approvals && RunOf(db.approvals[id], w.version) in db.runs
  {
  }

  lemma ResumedIsReady(cfg: Config, db: Database, id: string, worker: string, w: Workflow, now: int, wall: int)
    requires Resumable(cfg, db, id, worker, w, now, wall)
    ensures ReadyToResume(cfg, Resumed(db, RunOf(db.approvals[id], w.version)), id, w.version)
  {
    hide Judge, EventOf, RunOf;
  }

  // ---------- Exactly when a resume executes ----------

  ghost predicate SomeRan(records: seq<Record>) {
    exists n :: 0 <= n < |records| && records[n].Ran?
  }

  /** A call in such a phase executes nothing any more. */
  predicate Dead(phase: Phase) {
    phase.Over? || phase.Releasing? || phase.Asking? || phase.Requesting? || (phase.Moving? && phase.status != Running)
  }

  lemma DeadStep(cfg: Config, db: Database, t: nat, th: Thread, input: Input)
    requires Dead(th.phase)
    ensures Dead(Next(cfg, db, t, th, input).phase) && !SomeRan(Next(cfg, db, t, th, input).records)
  {
    hide Create, ClaimKey, ClaimLease, Execute, GateStep, EventOf, Fencing.Current;
  }

  lemma RanConcat(a: seq<Record>, b: seq<Record>)
    ensures SomeRan(a + b) <==> SomeRan(a) || SomeRan(b)
  {
    if n :| 0 <= n < |a| && a[n].Ran? {
      assert (a + b)[n].Ran?;
    }
    if n :| 0 <= n < |b| && b[n].Ran? {
      assert (a + b)[|a| + n].Ran?;
    }
  }

  lemma {:induction false} DeadStays(cfg: Config, db: Database, t: nat, th: Thread, input: Input, n: nat)
    requires Dead(th.phase)
    ensures Dead(After(cfg, db, t, th, input, n).phase) && !SomeRan(After(cfg, db, t, th, input, n).records)
  {
    hide Next, SomeRan, Dead;
    if n == 0 {
      NoneRan();
    } else {
      DeadStays(cfg, db, t, th, input, n - 1);
      var o := After(cfg, db, t, th, input, n - 1);
      DeadStep(cfg, o.db, t, th.(phase := o.phase), input);
      RanConcat(o.records, Next(cfg, o.db, t, th.(phase := o.phase), input).records);
    }
  }

  lemma NoneRan()
    ensures !SomeRan([])
  {
  }

  /** A call that is dead after `m` steps without having executed never executes; one that has, has. */
  lemma FateAfter(cfg: Config, db: Database, t: nat, th: Thread, input: Input, m: nat, n: nat)
    ensures
      var o := After(cfg, db, t, th, input, m);
      && (Dead(o.phase) && !SomeRan(o.records) ==> !SomeRan(After(cfg, db, t, th, input, n).records))
      && (SomeRan(o.records) && m <= n ==> SomeRan(After(cfg, db, t, th, input, n).records))
  {
    hide After, Dead, SomeRan;
    var o := After(cfg, db, t, th, input, m);
    if m <= n {
      AfterSplits(cfg, db, t, th, input, m, n - m);
      var p := After(cfg, o.db, t, th.(phase := o.phase), input, n - m);
      RanConcat(o.records, p.records);
      if Dead(o.phase) {
        DeadStays(cfg, o.db, t, th.(phase := o.phase), input, n - m);
      }
    } else {
      var q := After(cfg, db, t, th, input, n);
      AfterSplits(cfg, db, t, th, input, n, m - n);
      RanConcat(q.records, After(cfg, q.db, t, th.(phase := q.phase), input, m - n).records);
    }
  }

  /** The gates of a resume before it has its lease, one by one. */
  lemma EarlyRefusals(cfg: Config, db: Database, t: nat, call: Call, input: Input)
    requires call.Resume?
    ensures !Granting(db, call.approval) ==> After(cfg, db, t, Thread(call, Called), input, 1) == Outcome(db, Over, [])
    ensures Granting(db, call.approval) && RunOf(db.approvals[call.approval], call.workflow.version) !in db.runs ==>
              After(cfg, db, t, Thread(call, Called), input, 2) == Outcome(db, Over, [])
  {
    hide Create, ClaimKey, ClaimLease, Request, Move, Execute, ReleaseLease, GateStep, LookUp, EventOf,
         Fencing.Current, RunOf;
    var th := Thread(call, Called);
    assert After(cfg, db, t, th, input, 0) == Outcome(db, Called, []);
    if Granting(db, call.approval) {
      assert After(cfg, db, t, th, input, 1) == Outcome(db, Looked, []);
    }
  }

  /** No lease to be had, or one that is over at once. */
  lemma LeaseRefusals(cfg: Config, db: Database, t: nat, call: Call, run: RunRef, input: Input)
    requires call.Resume? && Granting(db, call.approval)
    ensures
      var free := Fencing.ClaimedRow(db.leases, run.id, call.worker, input.now, input.wall, cfg.ttl).Some?;
      call.worker == "" || cfg.ttl <= 0 || !free ==>
        var o := After(cfg, db, t, Thread(call, Found(run)), input, 2);
        o.phase == Over && !SomeRan(o.records)
  {
    hide Create, ClaimKey, Request, Move, Execute, ReleaseLease, GateStep, LookUp, EventOf;
    var th, l := Thread(call, Found(run)), ClaimLease(cfg, db, call, run, input);
    assert After(cfg, db, t, th, input, 0) == Outcome(db, Found(run), []);
    assert After(cfg, db, t, th, input, 1) == Outcome(l.db, l.phase, l.records);
  }

  /** Policy refuses the stored event, or cannot judge it. */
  lemma GateRefusals(cfg: Config, db: Database, t: nat, call: Call, k: Ticket, input: Input)
    requires call.Resume? && !Passes(cfg, call, k.event)
    ensures
      var o := After(cfg, db, t, Thread(call, Ready(k)), input, 1);
      Dead(o.phase) && !SomeRan(o.records)
  {
    var th := Thread(call, Ready(k));
    assert Dead(GateStep(cfg, call, k));
    hide Create, ClaimKey, ClaimLease, Request, Move, Execute, ReleaseLease, GateStep, LookUp, EventOf;
    assert After(cfg, db, t, th, input, 0) == Outcome(db, Ready(k), []);
  }

  /** Two stages of a call: nothing executed in the first, and a fate known for the second. */
  lemma ThenFate(
    cfg: Config, db: Database, t: nat, call: Call, phase: Phase, input: Input, m: nat, m': nat, n: nat, db': Database,
    phase': Phase)
    requires
      var o := After(cfg, db, t, Thread(call, phase), input, m);
      o.db == db' && o.phase == phase' && !SomeRan(o.records)
    requires
      var p := After(cfg, db', t, Thread(call, phase'), input, m');
      Dead(p.phase) && !SomeRan(p.records)
    ensures !SomeRan(After(cfg, db, t, Thread(call, phase), input, n).records)
  {
    hide After, Dead, SomeRan;
    var o := After(cfg, db, t, Thread(call, phase), input, m);
    var p := After(cfg, db', t, Thread(call, phase'), input, m');
    AfterSplits(cfg, db, t, Thread(call, phase), input, m, m');
    RanConcat(o.records, p.records);
    FateAfter(cfg, db, t, Thread(call, phase), input, m + m', n);
  }

  /** An uninterrupted resume that is not resumable executes nothing, however long it goes on. */
  lemma UnresumableNeverRuns(cfg: Config, db: Database, t: nat, call: Call, input: Input, n: nat)
    requires call.Resume? && !Resumable(cfg, db, call.approval, call.worker, call.workflow, input.now, input.wall)
    ensures !SomeRan(After(cfg, db, t, Thread(call, Called), input, n).records)
  {
    var th := Thread(call, Called);
    NoneRan();
    EarlyRefusals(cfg, db, t, call, input);
    if !Granting(db, call.approval) {
      FateAfter(cfg, db, t, th, input, 1, n);
    } else {
      var i := RunOf(db.approvals[call.approval], call.workflow.version);
      if i !in db.runs {
        FateAfter(cfg, db, t, th, input, 2, n);
      } else {
        UnleasedNeverRuns(cfg, db, t, call, i, input, n);
      }
    }
  }

  lemma UnleasedNeverRuns(cfg: Config, db: Database, t: nat, call: Call, i: Identity, input: Input, n: nat)
    requires call.Resume? && !Resumable(cfg, db, call.approval, call.worker, call.workflow, input.now, input.wall)
    requires Granting(db, call.approval) && i == RunOf(db.approvals[call.approval], call.workflow.version)
    requires i in db.runs
    ensures !SomeRan(After(cfg, db, t, Thread(call, Called), input, n).records)
  {
    var run := RunRef(db.runs[i].id, i);
    var free := Fencing.ClaimedRow(db.leases, run.id, call.worker, input.now, input.wall, cfg.ttl).Some?;
    PassesAlike(cfg, call, call.approval, db);
    assert call.worker == "" || cfg.ttl <= 0 || !free || !Passes(cfg, call, EventOf(db.approvals[call.approval]));
    hide After, Resumable, EventOf, RunOf, Passes, Fencing.ClaimedRow, Fencing.Current, SomeRan;
    NoneRan();
    ResumeFinds(cfg, db, t, call, input);
    if call.worker == "" || cfg.ttl <= 0 || !free {
      LeaseRefusals(cfg, db, t, call, run, input);
      ThenFate(cfg, db, t, call, Called, input, 2, 2, n, db, Found(run));
    } else {
      ResumeToLease(cfg, db, t, call, i, input);
      var l := After(cfg, db, t, Thread(call, Called), input, 5);
      LeaseRanNothing(db, run, EventOf(db.approvals[call.approval]), l, input.now);
      GateRefusals(cfg, l.db, t, call, l.phase.ticket, input);
      ThenFate(cfg, db, t, call, Called, input, 5, 1, n, l.db, l.phase);
    }
  }

  /** For every state of the tables: an uninterrupted `resume_approval` of at least eight steps calls `execute` exactly
      when the run is resumable. The run's status, the workflow's id, tenant, trigger and status play no part. */
  lemma ResumeExecutesExactlyWhenResumable(cfg: Config, db: Database, t: nat, call: Call, input: Input, n: nat)
    requires call.Resume? && n >= 8
    ensures SomeRan(After(cfg, db, t, Thread(call, Called), input, n).records) <==>
            Resumable(cfg, db, call.approval, call.worker, call.workflow, input.now, input.wall)
  {
    if Resumable(cfg, db, call.approval, call.worker, call.workflow, input.now, input.wall) {
      ResumableRuns(cfg, db, t, call, input);
      FateAfter(cfg, db, t, Thread(call, Called), input, 8, n);
    } else {
      UnresumableNeverRuns(cfg, db, t, call, input, n);
    }
  }

  lemma ResumableRuns(cfg: Config, db: Database, t: nat, call: Call, input: Input)
    requires call.Resume? && Resumable(cfg, db, call.approval, call.worker, call.workflow, input.now, input.wall)
    ensures SomeRan(After(cfg, db, t, Thread(call, Called), input, 8).records)
  {
    var i := RunOf(db.approvals[call.approval], call.workflow.version);
    ResumeToLease(cfg, db, t, call, i, input);
    PassesAlike(cfg, call, call.approval, db);
    hide After, EventOf, RunOf, Passes, Resumable, Fencing.Current, SomeRan;
    var l := After(cfg, db, t, Thread(call, Called), input, 5);
    ReadyRan(cfg, l.db, t, call, l.phase.ticket, input);
    ThenRan(cfg, db, t, call, Called, input, 5, 3, l.db, l.phase);
  }

  lemma ReadyRan(cfg: Config, db: Database, t: nat, call: Call, k: Ticket, input: Input)
    requires Passes(cfg, call, k.event) && Fencing.Current(db.leases, k.lease, input.now) && k.run.identity in db.runs
    ensures SomeRan(After(cfg, db, t, Thread(call, Ready(k)), input, 3).records)
  {
    hide After, Passes, Fencing.Current, SomeRan;
    ReadyRuns(cfg, db, t, call, k, input);
    LastRan(Move(db, t, k, Running, input.now).records, Execute(db, t, call, k, input.ok).records);
  }

  lemma ThenRan(
    cfg: Config, db: Database, t: nat, call: Call, phase: Phase, input: Input, m: nat, n: nat, db': Database,
    phase': Phase)
    requires var o := After(cfg, db, t, Thread(call, phase), input, m); o.db == db' && o.phase == phase'
    requires SomeRan(After(cfg, db', t, Thread(call, phase'), input, n).records)
    ensures SomeRan(After(cfg, db, t, Thread(call, phase), input, m + n).records)
  {
    hide After, SomeRan;
    AfterSplits(cfg, db, t, Thread(call, phase), input, m, n);
    RanConcat(After(cfg, db, t, Thread(call, phase), input, m).records,
        After(cfg, db', t, Thread(call, phase'), input, n).records);
  }

  lemma LastRan(a: seq<Record>, b: seq<Record>)
    requires |b| == 1 && b[0].Ran?
    ensures SomeRan(a + b)
  {
    RanConcat(a, b);
    assert b[0].Ran?;
  }

  lemma LeaseRanNothing(db: Database, run: RunRef, e: Envelope, o: Outcome, now: int)
    requires LeaseTaken(db, run, e, o, now)
    ensures !SomeRan(o.records)
  {
  }

  /** An uninterrupted resume of a resumable run, over a free lease, an expired one or the worker's own, calls
      `execute` whatever the run's status and whatever the caller's workflow object is apart from its version, and
      records COMPLETED; afterwards anybody can resume the run again. */
  method ResumeAlone(e: Engine, id: string, worker: string, w: Workflow, now: int, wall: int)
    requires e.Valid() && Resumable(e.cfg, e.db, id, worker, w, now, wall)
    modifies e
    ensures e.Valid() && ReadyToResume(e.cfg, e.db, id, w.version)
    ensures
      var i := RunOf(old(e.db).approvals[id], w.version);
      && e.db == Resumed(old(e.db), i)
      && |e.trace| == |old(e.trace)| + 5 && e.trace[..|old(e.trace)|] == old(e.trace)
      && ResumeRecords(e.trace[|old(e.trace)|..], id, w, RunRef(e.db.runs[i].id, i))
  {
    var call, input := Resume(id, worker, w), Input("", "", now, wall, true);
    ghost var i := RunOf(e.db.approvals[id], w.version);
    ResumedIsReady(e.cfg, e.db, id, worker, w, now, wall);
    assert Granting(e.db, id) && i in e.db.runs;
    hide Good, ThreadsOk, RanBelow, RanHeld, After, RunOf, Resumable, ResumeRecords, ReadyToResume;
    var t := e.Enter(call);
    ResumeToEnd(e.cfg, e.db, t, call, input);
    StepAlone(e, t, input, 10);
  }

  /** `execute` was called for the run through the approval, COMPLETED was recorded, and `execute` was called again. */
  ghost predicate RanTwice(
    trace: seq<Record>, i: nat, m: nat, j: nat, id: string, first: Workflow, second: Workflow, run: RunRef) {
    && i < m < j < |trace| && RanThrough(trace[i], id, first, run.identity)
    && RanThrough(trace[j], id, second, run.identity)
    && trace[m].Moved? && trace[m].status == Completed && trace[m].run == run.id
  }

  /** Resumed to its end and resumed again, by any two workers at any times, with any two workflow objects of the
      version, an approved run executes twice. */
  method ResumedTwiceRunsTwice(e: Engine, id: string, worker: string, w: Workflow, now: int, wall: int,
                               worker': string, w': Workflow, now': int, wall': int) returns (i: nat, m: nat, j: nat)
    requires e.Valid() && Resumable(e.cfg, e.db, id, worker, w, now, wall) && worker' != ""
    requires w'.version == w.version
    modifies e
    ensures e.Valid() && ReadyToResume(e.cfg, e.db, id, w.version)
    ensures
      var run := RunOf(old(e.db).approvals[id], w.version);
      RanTwice(e.trace, i, m, j, id, w, w', RunRef(old(e.db).runs[run].id, run))
  {
    hide Good, ThreadsOk, RanBelow, RanHeld, EventOf, RunOf, Judge, RanThrough, Resumable, ReadyToResume;
    ResumableHas(e.cfg, e.db, id, worker, w, now, wall);
    ghost var run := RunOf(e.db.approvals[id], w.version);
    ghost var n := |e.trace|;
    i, m, j := |e.trace| + 2, |e.trace| + 3, |e.trace| + 7;
    ResumeAlone(e, id, worker, w, now, wall);
    ghost var once := e.trace;
    ReadyIsResumable(e.cfg, e.db, id, worker', w', now', wall');
    ResumeAlone(e, id, worker', w', now', wall');
    assert e.trace[i] == e.trace[..|once|][i] == once[n..][2] && e.trace[m] == e.trace[..|once|][m] == once[n..][3];
    assert e.trace[j] == e.trace[|once|..][2];
  }

  // ---------- From the first start to the second execution ----------

  /** The tables that a `start` works on: nothing of this identity, run id or event is in them yet. */
  ghost predicate Untouched(db: Database, i: Identity, runId: string) {
    && i !in db.runs && (forall j :: j in db.runs ==> Key(j) != Key(i) && db.runs[j].id != runId) && Key(i) !in db.keys
    && runId !in db.leases && runId !in db.approvals
    && forall a :: a in db.approvals ==> !PendingFor(db.approvals[a], i.event)
  }

  function FirstTicket(w: Workflow, e: Envelope, worker: string, runId: string, until: int): Ticket {
    Ticket(RunRef(runId, IdentityOf(w, e)), Fencing.Lease(runId, worker, 1, until), e)
  }

  /** The tables when a `start` has its run, its key and its lease. */
  function Started(db: Database, w: Workflow, e: Envelope, worker: string, runId: string, until: int): Database {
    var i := IdentityOf(w, e);
    db.(runs := db.runs[i := Run(runId, Received)], keys := db.keys + {Key(i)},
        leases := db.leases[runId := Fencing.Row(worker, 1, until)])
  }

  lemma StartGetsTicket(cfg: Config, db: Database, t: nat, w: Workflow, e: Envelope, worker: string, input: Input)
    requires Matches(w, e) && Untouched(db, IdentityOf(w, e), input.runId) && worker != "" && cfg.ttl > 0
    ensures
      var o := After(cfg, db, t, Thread(Start(w, e, worker), Called), input, 3);
      && o.phase == Ready(FirstTicket(w, e, worker, input.runId, input.now + cfg.ttl))
      && o.db == Started(db, w, e, worker, input.runId, input.now + cfg.ttl)
  {
    hide Matches, Key, IdentityOf, Request, Move, Execute, ReleaseLease, GateStep, LookUp, EventOf, Find;
    var i, call := IdentityOf(w, e), Start(w, e, worker);
    var th, run := Thread(call, Called), RunRef(input.runId, i);
    var created := db.(runs := db.runs[i := Run(input.runId, Received)]);
    var keyed := created.(keys := db.keys + {Key(i)});
    assert After(cfg, db, t, th, input, 0) == Outcome(db, Called, []);
    assert After(cfg, db, t, th, input, 1) == Outcome(created, Created(run), []);
    assert After(cfg, db, t, th, input, 2) == Outcome(keyed, Won(run), [Keyed(t, Key(i))]);
  }

  /** The approval that a waiting run asks for. */
  function Requested(k: Ticket, payload: map<string, Value>, now: int): Approval {
    var i := k.run.identity;
    Approval(k.run.id, i.tenant, i.workspace, i.workflow, i.event, Some(k.event.kind), payload, k.event.source,
             now + APPROVAL_TTL, Pending)
  }

  /** The tables when the run waits for it and the lease is given back. */
  function Asked(db: Database, k: Ticket, payload: map<string, Value>, now: int): Database
    requires k.run.identity in db.runs
  {
    db.(runs := db.runs[k.run.identity := db.runs[k.run.identity].(status := WaitingApproval(k.run.id))],
        leases := db.leases - {k.run.id}, approvals := db.approvals[k.run.id := Requested(k, payload, now)])
  }

  /** A ticket under a current lease, for a run that has no approval yet and an event that has none pending. */
  ghost predicate MayAsk(db: Database, k: Ticket, now: int) {
    && k.run.identity in db.runs && k.lease.exec == k.run.id && Fencing.Current(db.leases, k.lease, now)
    && k.run.id !in db.approvals && forall a :: a in db.approvals ==> !PendingFor(db.approvals[a], k.run.identity.event)
  }

  lemma TicketWaits(cfg: Config, db: Database, t: nat, call: Call, k: Ticket, payload: map<string, Value>, input: Input)
    requires call.Start? && Judge(cfg, k.event).ApprovalRequired? && cfg.jsonb(k.event.payload) == Some(payload)
    requires MayAsk(db, k, input.now)
    ensures
      var o := After(cfg, db, t, Thread(call, Ready(k)), input, 5);
      o.phase == Over && o.db == Asked(db, k, payload, input.now)
  {
    var th, i := Thread(call, Ready(k)), k.run.identity;
    assert GateStep(cfg, call, k) == Asking(k) && LookUp(db, k, input.pick) == Requesting(k);
    var asked := db.(approvals := db.approvals[k.run.id := Requested(k, payload, input.now)]);
    assert Request(cfg, db, k, input.now) == Outcome(asked, Moving(k, WaitingApproval(k.run.id)), []);
    hide Create, ClaimKey, ClaimLease, Request, Execute, GateStep, LookUp, EventOf, Judge, Requested, Find;
    assert After(cfg, db, t, th, input, 0) == Outcome(db, Ready(k), []);
    assert After(cfg, db, t, th, input, 1) == Outcome(db, Asking(k), []);
    assert After(cfg, db, t, th, input, 2) == Outcome(db, Requesting(k), []);
    assert After(cfg, db, t, th, input, 3) == Outcome(asked, Moving(k, WaitingApproval(k.run.id)), []);
    assert After(cfg, db, t, th, input, 4) == Move(asked, t, k, WaitingApproval(k.run.id), input.now);
  }

  /** The tables after a `start` that waits for its approval. */
  function Waiting(
    db: Database, w: Workflow, e: Envelope, runId: string, payload: map<string, Value>, now: int): Database {
    var i := IdentityOf(w, e);
    db.(runs := db.runs[i := Run(runId, WaitingApproval(runId))], keys := db.keys + {Key(i)},
        leases := db.leases - {runId},
        approvals := db.approvals[runId :=
          Approval(runId, i.tenant, i.workspace, i.workflow, i.event, Some(e.kind), payload,
                                                    e.source, now + APPROVAL_TTL, Pending)])
  }

  lemma StartWaits(
    cfg: Config, db: Database, t: nat, w: Workflow, e: Envelope, worker: string, payload: map<string, Value>,
    input: Input)
    requires Matches(w, e) && Untouched(db, IdentityOf(w, e), input.runId) && worker != "" && cfg.ttl > 0
    requires Judge(cfg, e).ApprovalRequired? && cfg.jsonb(e.payload) == Some(payload)
    ensures
      After(cfg, db, t, Thread(Start(w, e, worker), Called), input, 8).db ==
        Waiting(db, w, e, input.runId, payload, input.now)
  {
    hide After, Matches, Judge, Key, IdentityOf, Untouched, Started, FirstTicket, Asked, Waiting, MayAsk, LookUp,
         PendingFor, Fencing.Current;
    var call, until := Start(w, e, worker), input.now + cfg.ttl;
    var a, k := Started(db, w, e, worker, input.runId, until), FirstTicket(w, e, worker, input.runId, until);
    StartedMayAsk(db, w, e, worker, input.runId, payload, input.now, until);
    StartGetsTicket(cfg, db, t, w, e, worker, input);
    TicketWaits(cfg, a, t, call, k, payload, input);
    TwoStages(cfg, db, t, call, Called, input, 3, 5, a, Ready(k));
  }

  lemma TwoStages(
    cfg: Config, db: Database, t: nat, call: Call, phase: Phase, input: Input, m: nat, n: nat, db': Database,
    phase': Phase)
    requires var o := After(cfg, db, t, Thread(call, phase), input, m); o.db == db' && o.phase == phase'
    ensures
      var p := After(cfg, db', t, Thread(call, phase'), input, n);
      var q := After(cfg, db, t, Thread(call, phase), input, m + n);
      q.db == p.db && q.phase == p.phase
  {
    hide After;
    AfterSplits(cfg, db, t, Thread(call, phase), input, m, n);
  }

  lemma StartedMayAsk(
    db: Database, w: Workflow, e: Envelope, worker: string, runId: string, payload: map<string, Value>, now: int,
    until: int)
    requires Untouched(db, IdentityOf(w, e), runId) && now < until
    ensures
      var a, k := Started(db, w, e, worker, runId, until), FirstTicket(w, e, worker, runId, until);
      && MayAsk(a, k, now) && k.run.id == runId && k.event == e && k.run.identity in a.runs
      && Asked(a, k, payload, now) == Waiting(db, w, e, runId, payload, now)
  {
    hide Key;
    assert db.leases[runId := Fencing.Row(worker, 1, until)] - {runId} == db.leases - {runId};
  }

  method StartAlone(engine: Engine, w: Workflow, e: Envelope, worker: string, payload: map<string, Value>, input: Input)
    requires engine.Valid() && Matches(w, e) && Untouched(engine.db, IdentityOf(w, e), input.runId)
    requires worker != "" && engine.cfg.ttl > 0
    requires Judge(engine.cfg, e).ApprovalRequired? && engine.cfg.jsonb(e.payload) == Some(payload)
    modifies engine
    ensures engine.Valid() && engine.db == Waiting(old(engine.db), w, e, input.runId, payload, input.now)
  {
    hide Good, ThreadsOk, RanBelow, After, Matches, Judge, Waiting, Untouched, IdentityOf;
    var t := engine.Enter(Start(w, e, worker));
    StartWaits(engine.cfg, engine.db, t, w, e, worker, payload, input);
    StepAlone(engine, t, input, 8);
  }

  lemma ApprovalReleases(
    cfg: Config, db: Database, w: Workflow, e: Envelope, runId: string, payload: map<string, Value>, now: int,
    at: int)
    requires cfg.ttl > 0 && at < now + APPROVAL_TTL
    requires var v := Judge(cfg, e.(payload := payload)); v.Allow? || v.ApprovalRequired?
    ensures
      var waiting := Waiting(db, w, e, runId, payload, now);
      Decidable(waiting, runId, at) && ReadyToResume(cfg, Decided(waiting, runId, Approved, at), runId, w.version)
  {
    var decided := Decided(Waiting(db, w, e, runId, payload, now), runId, Approved, at);
    assert EventOf(decided.approvals[runId]) == e.(payload := payload);
    assert RunOf(decided.approvals[runId], w.version) == IdentityOf(w, e);
    hide Judge, Key;
  }

  /** The whole story from an empty database: an event that needs approval is started, approved in time, resumed to
      its end, and resumed once more by whoever asks, and `execute` has been called twice. */
  method ApprovedOnceExecutedTwice(
    cfg: Config, w: Workflow, e: Envelope, payload: map<string, Value>, worker: string, input: Input, at: int,
    w': Workflow, worker': string, now': int, wall': int, w'': Workflow, worker'': string, now'': int, wall'': int)
    returns (trace: seq<Record>, i: nat, m: nat, j: nat)
    requires cfg.ttl > 0 && worker != "" && worker' != "" && worker'' != ""
    requires Matches(w, e) && Judge(cfg, e).ApprovalRequired? && cfg.jsonb(e.payload) == Some(payload)
    requires var v := Judge(cfg, e.(payload := payload)); v.Allow? || v.ApprovalRequired?
    requires at < input.now + APPROVAL_TTL && w'.version == w.version && w''.version == w.version
    ensures Safe(cfg, trace)
    ensures RanTwice(trace, i, m, j, input.runId, w', w'', RunRef(input.runId, IdentityOf(w, e)))
  {
    var engine := new Engine(cfg);
    assert Untouched(engine.db, IdentityOf(w, e), input.runId);
    hide DbOk, Safe, ThreadsOk, RanBelow, Matches, Judge, Untouched, Decided, Decidable, ReadyToResume, RanTwice,
         EventOf;
    ghost var db := engine.db;
    StartAlone(engine, w, e, worker, payload, input);
    ApprovalReleases(cfg, db, w, e, input.runId, payload, input.now, at);
    WhoseRun(db, w, e, input.runId, payload, input.now, at);
    var ok := engine.Decide(input.runId, Approved, at);
    hide Waiting;
    ReadyIsResumable(cfg, engine.db, input.runId, worker', w', now', wall');
    hide Resumable;
    i, m, j := ResumedTwiceRunsTwice(engine, input.runId, worker', w', now', wall', worker'', w'', now'', wall'');
    trace := engine.trace;
  }

  lemma WhoseRun(db: Database, w: Workflow, e: Envelope, runId: string, payload: map<string, Value>, now: int, at: int)
    ensures
      var decided := Decided(Waiting(db, w, e, runId, payload, now), runId, Approved, at);
      && runId in decided.approvals && RunOf(decided.approvals[runId], w.version) == IdentityOf(w, e)
      && IdentityOf(w, e) in decided.runs && decided.runs[IdentityOf(w, e)].id == runId
  {
  }
}
