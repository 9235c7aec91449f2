/** `SQLiteWorkerQueue` of `ois/runtime/execution_backend.py`. `retry`, `acknowledge` and `fail_job` check ownership
    under one lock acquisition and write under another; here the two halves are separate steps and any other step may
    come between them. */
module WorkerQueue {
  import opened Prelude

  datatype JobStatus = JobPending | JobLeased | JobCompleted | JobFailed

  datatype Job = Job(queue: string, payload: string, attempts: nat, owner: Option<string>, status: JobStatus)

  type Jobs = map<string, Job>

  datatype Kind = Retry | Acknowledge | FailJob

  // ---------- The atomic queue ----------

  datatype Act =
    | Enqueue(id: string, queue: string, payload: string)
    | Claim(id: string, worker: string)
    | Settle(kind: Kind, id: string, worker: string)

  function Settled(kind: Kind, j: Job): Job {
    match kind
    case Retry => j.(attempts := j.attempts + 1, owner := None, status := JobPending)
    case Acknowledge => j.(status := JobCompleted)
    case FailJob => j.(attempts := j.attempts + 1, status := JobFailed)
  }

  /** Check and write in one step; None when the step is refused. */
  function Atomic(jobs: Jobs, a: Act): Option<Jobs> {
    match a
    case Enqueue(id, q, p) => if id in jobs then None else Some(jobs[id := Job(q, p, 0, None, JobPending)])
    case Claim(id, w) =>
      if id in jobs && jobs[id].status == JobPending && jobs[id].owner == None
      then Some(jobs[id := jobs[id].(owner := Some(w), status := JobLeased)]) else None
    case Settle(k, id, w) =>
      if id in jobs && jobs[id].owner == Some(w) && jobs[id].status == JobLeased
      then Some(jobs[id := Settled(k, jobs[id])]) else None
  }

  /** The atomic queue after a list of acts, all of which it accepted. */
  function Replay(acts: seq<Act>): Option<Jobs> {
    if acts == [] then Some(map[])
    else
      var before := Replay(acts[..|acts| - 1]);
      if before.None? then None else Atomic(before.value, acts[|acts| - 1])
  }

  function Settles(acts: seq<Act>, id: string): nat {
    if acts == [] then 0
    else
      var a := acts[|acts| - 1];
      Settles(acts[..|acts| - 1], id) + (if a.Settle? && a.kind in {Retry, FailJob} && a.id == id then 1 else 0)
  }

  /** In every state of the atomic queue a job has no owner exactly when it is pending, and `attempts` is its number
      of retries and failures. */
  lemma {:induction false} AtomicInvariant(acts: seq<Act>)
    requires Replay(acts).Some?
    ensures forall id :: id in Replay(acts).value ==>
              var j := Replay(acts).value[id];
              (j.owner.None? <==> j.status == JobPending) && j.attempts == Settles(acts, id)
    ensures forall id :: id !in Replay(acts).value ==> Settles(acts, id) == 0
  {
    if acts != [] {
      AtomicInvariant(acts[..|acts| - 1]);
    }
  }

  /** Completed and failed jobs never change. */
  lemma {:induction false} FinishedJobsStay(acts: seq<Act>, n: nat, id: string)
    requires n <= |acts| && Replay(acts).Some?
    ensures Replay(acts[..n]).Some?
    ensures id in Replay(acts[..n]).value && Replay(acts[..n]).value[id].status in {JobCompleted, JobFailed} ==>
              id in Replay(acts).value && Replay(acts).value[id] == Replay(acts[..n]).value[id]
  {
    if n < |acts| {
      FinishedJobsStay(acts[..|acts| - 1], n, id);
      assert acts[..|acts| - 1][..n] == acts[..n];
    } else {
      assert acts[..n] == acts;
    }
  }

  ghost predicate Accepted(acts: seq<Act>, kind: Kind, id: string) {
    exists i :: 0 <= i < |acts| && SettlesAs(acts[i], kind, id)
  }

  predicate SettlesAs(a: Act, kind: Kind, id: string) {
    a.Settle? && a.kind == kind && a.id == id
  }

  lemma AcceptedLast(acts: seq<Act>, kind: Kind, id: string)
    requires acts != []
    ensures Accepted(acts, kind, id) <==>
            Accepted(acts[..|acts| - 1], kind, id) || SettlesAs(acts[|acts| - 1], kind, id)
  {
    var front := acts[..|acts| - 1];
    if i :| 0 <= i < |front| && SettlesAs(front[i], kind, id) {
      assert acts[i] == front[i];
    }
  }

  predicate Stands(jobs: Jobs, id: string, status: JobStatus) {
    id in jobs && jobs[id].status == status
  }

  /** A job is COMPLETED exactly when it was acknowledged, and FAILED exactly when it was failed. */
  lemma {:induction false} FinishedAsSettled(acts: seq<Act>, id: string)
    requires Replay(acts).Some?
    ensures Stands(Replay(acts).value, id, JobCompleted) <==> Accepted(acts, Acknowledge, id)
    ensures Stands(Replay(acts).value, id, JobFailed) <==> Accepted(acts, FailJob, id)
  {
    if acts != [] {
      FinishedAsSettled(acts[..|acts| - 1], id);
      AcceptedLast(acts, Acknowledge, id);
      AcceptedLast(acts, FailJob, id);
      hide Accepted;
    }
  }

  predicate Enqueues(a: Act, id: string, j: Job) {
    a == Enqueue(id, j.queue, j.payload)
  }

  /** The worker of the last accepted claim. */
  function LastClaimant(acts: seq<Act>, id: string): Option<string> {
    if acts == [] then None
    else
      var a := acts[|acts| - 1];
      if a.Claim? && a.id == id then Some(a.worker) else LastClaimant(acts[..|acts| - 1], id)
  }

  /** Through claims and retries a job keeps the queue and the payload it was enqueued with, and an owner is always the
      last claimant; only that worker settles it. */
  lemma {:induction false} JobsAsEnqueued(acts: seq<Act>, id: string)
    requires Replay(acts).Some? && id in Replay(acts).value
    ensures
      var j := Replay(acts).value[id];
      && (exists i :: 0 <= i < |acts| && Enqueues(acts[i], id, j))
      && (j.owner.Some? ==> j.owner == LastClaimant(acts, id))
  {
    var front := acts[..|acts| - 1];
    var j := Replay(acts).value[id];
    if acts[|acts| - 1].Enqueue? && acts[|acts| - 1].id == id {
      assert Enqueues(acts[|acts| - 1], id, j);
    } else {
      JobsAsEnqueued(front, id);
      var was := Replay(front).value[id];
      var i :| 0 <= i < |front| && Enqueues(front[i], id, was);
      assert Enqueues(acts[i], id, j);
    }
  }

  // ---------- The real queue ----------

  /** A thread between its ownership check and its write. */
  datatype InFlight = InFlight(kind: Kind, id: string)

  /** The UPDATE of the second half: it matches the id and the owner, but does not look at the status again. */
  function RawWrite(jobs: Jobs, kind: Kind, id: string, worker: string): Jobs {
    if id in jobs && jobs[id].owner == Some(worker) then jobs[id := Settled(kind, jobs[id])] else jobs
  }

  /** Every job a thread has checked is still leased to that thread's worker. */
  ghost predicate ChecksHold(threads: map<nat, InFlight>, workerOf: nat -> string, jobs: Jobs) {
    forall t :: t in threads ==>
      threads[t].id in jobs && jobs[threads[t].id].owner == Some(workerOf(t)) && jobs[threads[t].id].status == JobLeased
  }

  /** No two threads of one worker are between check and write on one job. */
  ghost predicate Apart(threads: map<nat, InFlight>, workerOf: nat -> string) {
    forall a, b :: a in threads && b in threads && a != b && workerOf(a) == workerOf(b) ==>
      threads[a].id != threads[b].id
  }

  class SQLiteWorkerQueue {
    const workerOf: nat -> string
    var jobs: Jobs
    var threads: map<nat, InFlight>
    var trace: seq<Act>
    /** So far no two threads of one worker have been in flight on one job. */
    var apart: bool

    ghost predicate Valid()
      reads this
    {
      apart ==> Replay(trace) == Some(jobs) && ChecksHold(threads, workerOf, jobs) && Apart(threads, workerOf)
    }

    constructor (workerOf: nat -> string)
      ensures Valid() && threads == map[] && trace == [] && jobs == map[] && this.workerOf == workerOf && apart
    {
      this.workerOf := workerOf;
      jobs, threads, trace, apart := map[], map[], [], true;
    }

    method DoEnqueue(id: string, queue: string, payload: string) returns (ok: bool)
      requires Valid()
      modifies this`jobs, this`trace
      ensures Valid()
      ensures ok <==> id !in old(jobs)
      ensures ok ==> jobs == old(jobs)[id := Job(queue, payload, 0, None, JobPending)]
                     && trace == old(trace) + [Enqueue(id, queue, payload)]
      ensures !ok ==> jobs == old(jobs) && trace == old(trace)
    {
      hide Replay;
      ok := id !in jobs;
      if ok {
        Recorded(trace, jobs, Enqueue(id, queue, payload));
        jobs := jobs[id := Job(queue, payload, 0, None, JobPending)];
        trace := trace + [Enqueue(id, queue, payload)];
      }
    }

    /** `pick` is the job the ordered SELECT found. */
    method DoClaim(thread: nat, pick: string) returns (ok: bool)
      requires Valid()
      modifies this`jobs, this`trace
      ensures Valid()
      ensures ok <==> pick in old(jobs) && old(jobs)[pick].status == JobPending && old(jobs)[pick].owner == None
      ensures jobs ==
              if ok then old(jobs)[pick := old(jobs)[pick].(owner := Some(workerOf(thread)), status := JobLeased)]
                      else old(jobs)
      ensures trace == if ok then old(trace) + [Claim(pick, workerOf(thread))] else old(trace)
    {
      hide Replay;
      ok := pick in jobs && jobs[pick].status == JobPending && jobs[pick].owner == None;
      if ok {
        Recorded(trace, jobs, Claim(pick, workerOf(thread)));
        jobs := jobs[pick := jobs[pick].(owner := Some(workerOf(thread)), status := JobLeased)];
        trace := trace + [Claim(pick, workerOf(thread))];
      }
    }

    /** `_assert_ownership`, the first half. The thread must be between calls. */
    method AssertOwnership(thread: nat, kind: Kind, id: string) returns (ok: bool)
      requires Valid() && thread !in threads
      modifies this`threads, this`apart
      ensures Valid()
      ensures ok <==> id in jobs && jobs[id].owner == Some(workerOf(thread)) && jobs[id].status == JobLeased
      ensures threads == if ok then old(threads)[thread := InFlight(kind, id)] else old(threads)
      ensures apart <==>
              old(apart) &&
              !(ok && exists t :: t in old(threads) && workerOf(t) == workerOf(thread) && old(threads)[t].id == id)
    {
      hide Replay;
      ok := id in jobs && jobs[id].owner == Some(workerOf(thread)) && jobs[id].status == JobLeased;
      if ok {
        apart := apart && !exists t :: t in threads && workerOf(t) == workerOf(thread) && threads[t].id == id;
        threads := threads[thread := InFlight(kind, id)];
      }
    }

    /** The second half. While no two threads of one worker meet on a job, this is exactly the atomic step: it is
        accepted, and it changes what the step changes. */
    method Write(thread: nat)
      requires Valid() && thread in threads
      modifies this`jobs, this`threads, this`trace
      ensures Valid()
      ensures
        var f := old(threads)[thread];
        var act := Settle(f.kind, f.id, workerOf(thread));
        && jobs == RawWrite(old(jobs), f.kind, f.id, workerOf(thread))
        && (apart ==> Atomic(old(jobs), act) == Some(jobs))
        && trace == old(trace) + [act] && threads == old(threads) - {thread}
    {
      var f, worker := threads[thread], workerOf(thread);
      Recorded(trace, jobs, Settle(f.kind, f.id, worker));
      WriteKeeps(threads, workerOf, jobs, thread);
      hide Replay, ChecksHold, Apart, Settled;
      jobs := RawWrite(jobs, f.kind, f.id, worker);
      trace := trace + [Settle(f.kind, f.id, worker)];
      threads := threads - {thread};
    }
  }

  lemma WriteKeeps(threads: map<nat, InFlight>, workerOf: nat -> string, jobs: Jobs, t: nat)
    requires t in threads
    ensures
      var f := threads[t];
      var jobs' := RawWrite(jobs, f.kind, f.id, workerOf(t));
      ChecksHold(threads, workerOf, jobs) && Apart(threads, workerOf) ==>
        && Atomic(jobs, Settle(f.kind, f.id, workerOf(t))) == Some(jobs')
        && ChecksHold(threads - {t}, workerOf, jobs') && Apart(threads - {t}, workerOf)
  {
    if ChecksHold(threads, workerOf, jobs) && Apart(threads, workerOf) {
      var f := threads[t];
      assert jobs[f.id].owner == Some(workerOf(t));
    }
  }

  lemma Recorded(trace: seq<Act>, jobs: Jobs, a: Act)
    ensures Replay(trace) == Some(jobs) ==> Replay(trace + [a]) == Atomic(jobs, a)
  {
    assert (trace + [a])[..|trace + [a]| - 1] == trace;
  }

  // ---------- Every interleaving ----------

  datatype Op =
    | OpEnqueue(id: string, queue: string, payload: string)
    | OpClaim(thread: nat, pick: string)
    | OpCheck(thread: nat, kind: Kind, id: string)
    | OpWrite(thread: nat)

  /** As long as no two threads of one worker are in flight on one job, every interleaving of checks and writes ends
      where the atomic queue ends when it performs the writes as single steps in the same order, accepting each of them.
      With one thread per worker id that is always so. */
  method AllRuns(workerOf: nat -> string, ops: seq<Op>) returns (jobs: Jobs, acts: seq<Act>, apart: bool)
    ensures apart ==> Replay(acts) == Some(jobs)
    ensures apart ==> forall id :: id in jobs ==>
              && (jobs[id].owner.None? <==> jobs[id].status == JobPending) && jobs[id].attempts == Settles(acts, id)
              && (exists i :: 0 <= i < |acts| && Enqueues(acts[i], id, jobs[id]))
              && (jobs[id].owner.Some? ==> jobs[id].owner == LastClaimant(acts, id))
    ensures (forall a, b :: workerOf(a) == workerOf(b) ==> a == b) ==> apart
  {
    hide Replay;
    var q := new SQLiteWorkerQueue(workerOf);
    for i := 0 to |ops|
      invariant q.Valid() && fresh(q) && q.workerOf == workerOf
      invariant (forall a, b :: workerOf(a) == workerOf(b) ==> a == b) ==> q.apart
    {
      match ops[i] {
        case OpEnqueue(id, n, p) => var ok := q.DoEnqueue(id, n, p);
        case OpClaim(t, pick) => var ok := q.DoClaim(t, pick);
        case OpCheck(t, k, id) =>
          if t !in q.threads {
            var ok := q.AssertOwnership(t, k, id);
          }
        case OpWrite(t) =>
          if t in q.threads {
            q.Write(t);
          }
      }
    }
    jobs, acts, apart := q.jobs, q.trace, q.apart;
    if apart {
      AtomicInvariant(acts);
      forall id | id in jobs
        ensures (exists i :: 0 <= i < |acts| && Enqueues(acts[i], id, jobs[id]))
        ensures jobs[id].owner.Some? ==> jobs[id].owner == LastClaimant(acts, id)
      {
        JobsAsEnqueued(acts, id);
      }
    }
  }

  // ---------- Two threads for one worker ----------

  /** The write agrees with the atomic step exactly when the checked job is still leased, or no longer the worker's:
      the one thing it overlooks is a status that changed under the same owner. */
  lemma RawWriteIsAtomicExactlyWhenStillLeased(jobs: Jobs, kind: Kind, id: string, worker: string)
    requires id in jobs
    ensures RawWrite(jobs, kind, id, worker) ==
            (if Atomic(jobs, Settle(kind, id, worker)).Some? then Atomic(jobs, Settle(kind, id, worker)).value
              else jobs)
            <==> jobs[id].owner != Some(worker) || jobs[id].status == JobLeased || jobs[id] == Settled(kind, jobs[id])
  {
    if jobs[id].owner == Some(worker) && jobs[id].status != JobLeased {
      assert RawWrite(jobs, kind, id, worker)[id] == Settled(kind, jobs[id]);
    }
    if jobs[id] == Settled(kind, jobs[id]) {
      assert jobs[id := Settled(kind, jobs[id])] == jobs;
    }
  }

  /** Any two threads of one worker: both pass the check on a leased job, the first acknowledges it, and the second
      turns the COMPLETED job into a FAILED one. */
  method SharedWorkerIdBreaksCompletion(
    workerOf: nat -> string, a: nat, b: nat, id: string, queue: string, payload: string)
    returns (between: JobStatus, end: JobStatus, apart: bool)
    requires a != b && workerOf(a) == workerOf(b)
    ensures between == JobCompleted && end == JobFailed && !apart
  {
    hide Replay, ChecksHold, Apart;
    var q := new SQLiteWorkerQueue(workerOf);
    var ok := q.DoEnqueue(id, queue, payload);
    ok := q.DoClaim(a, id);
    ok := q.AssertOwnership(a, Acknowledge, id);
    assert a in q.threads;
    ok := q.AssertOwnership(b, FailJob, id);
    assert q.threads == map[a := InFlight(Acknowledge, id), b := InFlight(FailJob, id)];
    q.Write(a);
    between := q.jobs[id].status;
    q.Write(b);
    end, apart := q.jobs[id].status, q.apart;
  }
}
