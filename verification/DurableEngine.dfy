/** `ois/autonomy/engine.py` over `durable.py`, `durable_approvals.py` and the worker leases: calls of `start` and
    `resume_approval` by any number of threads, interleaved transaction by transaction. A thread that crashes simply
    takes no further step. */
module DurableEngine {
  import opened Prelude
  import opened Values
  import opened Policy
  import Fencing

  datatype Identity = Identity(tenant: string, workspace: string, workflow: string, version: string, event: string)

  /** The idempotency key: the five parts joined with colons. */
  function Key(i: Identity): string {
    i.tenant + ":" + i.workspace + ":" + i.workflow + ":" + i.version + ":" + i.event
  }

  function IdentityOf(w: Workflow, e: Envelope): Identity {
    Identity(e.tenant, e.workspace, w.id, w.version, e.id)
  }

  datatype RunStatus = Received | Running | WaitingApproval(approval: string) | RecoveringRun | Completed | StoppedRun

  datatype Run = Run(id: string, status: RunStatus)

  datatype Decision = Pending | Approved | Rejected | Expired

  /** An approval row; `kind` is None when it was created without an event. */
  datatype Approval = Approval(
    id: string, tenant: string, workspace: string, workflow: string, eventId: string, kind: Option<string>,
    payload: map<string, Value>, source: Value, expires: int, decision: Decision)

  /** The event that `_row` and `resume_event` rebuild. */
  function EventOf(a: Approval): Envelope {
    if a.kind.Some? then Envelope(a.eventId, a.tenant, a.workspace, a.kind.value, a.payload, a.source)
    else Envelope(a.eventId, a.tenant, a.workspace, "approval.resumed", map[], Null)
  }

  function RunOf(a: Approval, version: string): Identity {
    Identity(a.tenant, a.workspace, a.workflow, version, a.eventId)
  }

  datatype Database = Database(
    runs: map<Identity, Run>, keys: set<string>, leases: map<string, Fencing.Row>, approvals: map<string, Approval>)

  // ---------- Threads ----------

  datatype Call =
    | Start(workflow: Workflow, event: Envelope, worker: string)
    | Resume(approval: string, worker: string, workflow: Workflow)

  datatype RunRef = RunRef(id: string, identity: Identity)

  datatype Ticket = Ticket(run: RunRef, lease: Fencing.Lease, event: Envelope)

  /** Where a call stands: what its next transaction is. */
  datatype Phase =
    | Called
    | Created(run: RunRef)
    | Won(run: RunRef)
    | Looked
    | Found(run: RunRef)
    | Leased(run: RunRef, lease: Fencing.Lease)
    | Checked(run: RunRef, lease: Fencing.Lease)
    | Ready(ticket: Ticket)
    | Asking(ticket: Ticket)
    | Requesting(ticket: Ticket)
    | Moving(ticket: Ticket, status: RunStatus)
    | Executing(ticket: Ticket)
    | Releasing(held: Fencing.Lease)
    | Over

  datatype Thread = Thread(call: Call, phase: Phase)

  datatype Record =
    | Keyed(thread: nat, key: string)
    | OnLease(event: Fencing.Event)
    | Moved(thread: nat, run: string, status: RunStatus, lease: Fencing.Lease, at: int)
    | Granted(approval: Approval, at: int)
    | Ran(thread: nat, workflow: Workflow, ticket: Ticket, via: Option<string>, ok: bool)

  /** What the surroundings supply to a step: a fresh run id, which pending approval the query finds, the database's and
      the worker's clock, and whether the caller's `execute` returns normally. */
  datatype Input = Input(runId: string, pick: string, now: int, wall: int, ok: bool)

  datatype Config = Config(rules: seq<Rule>, ttl: int, jsonb: map<string, Value> -> Option<map<string, Value>>)

  datatype Outcome = Outcome(db: Database, phase: Phase, records: seq<Record>)

  function Judge(cfg: Config, e: Envelope): Policy.Verdict {
    Evaluate(cfg.rules, ContextOf(e))
  }

  predicate Granting(db: Database, id: string) {
    id in db.approvals && db.approvals[id].decision == Approved
  }

  // ---------- The steps ----------

  /** `create`: the existing run of the identity, or a new one unless its key or id is taken. */
  function Create(db: Database, call: Call, runId: string): Outcome
    requires call.Start?
  {
    var i := IdentityOf(call.workflow, call.event);
    if !Matches(call.workflow, call.event) then Outcome(db, Over, [])
    else if i in db.runs then Outcome(db, Created(RunRef(db.runs[i].id, i)), [])
    else if exists j :: j in db.runs && (Key(j) == Key(i) || db.runs[j].id == runId) then Outcome(db, Over, [])
    else Outcome(db.(runs := db.runs[i := Run(runId, Received)]), Created(RunRef(runId, i)), [])
  }

  function ClaimKey(db: Database, t: nat, run: RunRef): Outcome {
    var key := Key(run.identity);
    if key in db.keys then Outcome(db, Over, [])
    else Outcome(db.(keys := db.keys + {key}), Won(run), [Keyed(t, key)])
  }

  function ClaimLease(cfg: Config, db: Database, call: Call, run: RunRef, input: Input): Outcome {
    var row := Fencing.ClaimedRow(db.leases, run.id, call.worker, input.now, input.wall, cfg.ttl);
    if call.worker == "" || row.None? then Outcome(db, Over, [])
    else
      var r := row.value;
      var lease := Fencing.Lease(run.id, call.worker, r.epoch, r.expires);
      Outcome(
        db.(leases := db.leases[run.id := r]),
        if call.Start? then Ready(Ticket(run, lease, call.event)) else Leased(run, lease),
        [OnLease(Fencing.Claimed(run.id, call.worker, r.epoch, r.expires, input.wall))])
  }

  /** The run of the approval's tenant, workspace, workflow and event, at the caller's workflow version. */
  function Find(db: Database, call: Call): Outcome
    requires call.Resume? && call.approval in db.approvals
  {
    var a := db.approvals[call.approval];
    var i := RunOf(a, call.workflow.version);
    Outcome(db, if i in db.runs then Found(RunRef(db.runs[i].id, i)) else Over, [])
  }

  function GateStep(cfg: Config, call: Call, k: Ticket): Phase {
    match Judge(cfg, k.event)
    case Error => Over
    case Deny => Moving(k, StoppedRun)
    case ApprovalRequired(_) => if call.Start? then Asking(k) else Moving(k, Running)
    case Allow(_) => Moving(k, Running)
  }

  predicate PendingFor(a: Approval, event: string) {
    a.eventId == event && a.decision == Pending
  }

  /** Any pending approval of the event id will do, whatever its tenant or workflow; `pick` names one, and a wrong
      name leaves the thread where it is. */
  function LookUp(db: Database, k: Ticket, pick: string): Phase {
    if pick in db.approvals && PendingFor(db.approvals[pick], k.run.identity.event) then
      Moving(k, WaitingApproval(pick))
    else if forall a :: a in db.approvals ==> !PendingFor(db.approvals[a], k.run.identity.event) then Requesting(k)
    else Asking(k)
  }

  /** One hour. */
  const APPROVAL_TTL: int := 3600

  function Request(cfg: Config, db: Database, k: Ticket, now: int): Outcome {
    var i, stored := k.run.identity, cfg.jsonb(k.event.payload);
    if stored.None? || k.run.id in db.approvals then Outcome(db, Over, [])
    else
      var a := Approval(
                 k.run.id, i.tenant, i.workspace, i.workflow, i.event, Some(k.event.kind), stored.value, k.event.source,
                 now + APPROVAL_TTL, Pending);
      Outcome(db.(approvals := db.approvals[a.id := a]), Moving(k, WaitingApproval(a.id)), [])
  }

  /** A fenced transition: lease check and update in one transaction. */
  function Move(db: Database, t: nat, k: Ticket, status: RunStatus, now: int): Outcome {
    if !Fencing.Current(db.leases, k.lease, now) || k.run.identity !in db.runs then Outcome(db, Over, [])
    else
      Outcome(
        db.(runs := db.runs[k.run.identity := db.runs[k.run.identity].(status := status)]),
        if status == Running then Executing(k) else Releasing(k.lease),
        [Moved(t, k.run.id, status, k.lease, now)])
  }

  /** The caller's `execute`, on the caller's workflow object. */
  function Execute(db: Database, t: nat, call: Call, k: Ticket, ok: bool): Outcome {
    Outcome(
      db, Moving(k, if ok then Completed else RecoveringRun),
      [Ran(t, call.workflow, k, if call.Start? then None else Some(call.approval), ok)])
  }

  function ReleaseLease(db: Database, l: Fencing.Lease): Outcome {
    if l.exec in db.leases && db.leases[l.exec].worker == l.worker && db.leases[l.exec].epoch == l.epoch
    then Outcome(db.(leases := db.leases - {l.exec}), Over, [OnLease(Fencing.Released(l.exec))])
    else Outcome(db, Over, [])
  }

  function Next(cfg: Config, db: Database, t: nat, th: Thread, input: Input): Outcome {
    match th.phase
    case Called =>
      if th.call.Start? then Create(db, th.call, input.runId)
      else Outcome(db, if Granting(db, th.call.approval) then Looked else Over, [])
    case Created(run) => ClaimKey(db, t, run)
    case Won(run) => ClaimLease(cfg, db, th.call, run, input)
    case Looked =>
      if th.call.Resume? && th.call.approval in db.approvals then Find(db, th.call) else Outcome(db, Over, [])
    case Found(run) => ClaimLease(cfg, db, th.call, run, input)
    case Leased(run, lease) =>
      Outcome(db, if Fencing.Current(db.leases, lease, input.now) then Checked(run, lease) else Over, [])
    case Checked(run, lease) =>
      if th.call.Resume? && Granting(db, th.call.approval)
      then Outcome(db, Ready(Ticket(run, lease, EventOf(db.approvals[th.call.approval]))), [])
      else Outcome(db, Over, [])
    case Ready(k) => Outcome(db, GateStep(cfg, th.call, k), [])
    case Asking(k) => Outcome(db, LookUp(db, k, input.pick), [])
    case Requesting(k) => Request(cfg, db, k, input.now)
    case Moving(k, status) => Move(db, t, k, status, input.now)
    case Executing(k) => Execute(db, t, th.call, k, input.ok)
    case Releasing(lease) => ReleaseLease(db, lease)
    case Over => Outcome(db, Over, [])
  }

  // ---------- What every run keeps ----------

  function Project(r: Record): seq<Fencing.Event> {
    match r
    case OnLease(e) => [e]
    case Moved(_, run, status, lease, at) => [Fencing.Wrote(lease, Fencing.SaveCheckpoint(run, StatusText(status)), at)]
    case _ => []
  }

  function StatusText(s: RunStatus): string {
    match s
    case Received => "received"
    case Running => "running"
    case WaitingApproval(_) => "waiting_approval"
    case RecoveringRun => "recovering"
    case Completed => "completed"
    case StoppedRun => "stopped"
  }

  /** The lease events of a run, transitions being fenced writes. */
  function LeaseTrace(trace: seq<Record>): seq<Fencing.Event> {
    if trace == [] then [] else LeaseTrace(trace[..|trace| - 1]) + Project(trace[|trace| - 1])
  }

  /** The approval is for this very run, and the event is the one it preserved. */
  predicate Covers(a: Approval, k: RunRef, e: Envelope) {
    && a.tenant == k.identity.tenant && a.workspace == k.identity.workspace && a.workflow == k.identity.workflow
    && a.eventId == k.identity.event && e == EventOf(a)
  }

  ghost predicate GrantedIn(trace: seq<Record>, id: string, run: RunRef, e: Envelope) {
    exists i :: 0 <= i < |trace| && GrantRecord(trace[i], id) && Covers(trace[i].approval, run, e)
  }

  predicate GrantRecord(r: Record, id: string) {
    r.Granted? && r.approval.id == id && r.approval.decision == Approved && r.at < r.approval.expires
  }

  /** The thread moved the run to RUNNING under its lease on that run. */
  ghost predicate MovedIn(trace: seq<Record>, t: nat, k: Ticket) {
    k.lease.exec == k.run.id && exists i :: 0 <= i < |trace| && MoveRecord(trace[i], t, k)
  }

  predicate MoveRecord(r: Record, t: nat, k: Ticket) {
    r.Moved? && r.thread == t && r.run == k.run.id && r.status == Running && r.lease == k.lease
  }

  /** `start` calls `execute` only where policy allows the event outright and the key was won; a resume only through
      an approval granted in time for this run. Either way after a RUNNING transition. */
  ghost predicate RanOk(cfg: Config, before: seq<Record>, r: Record)
    requires r.Ran?
  {
    && MovedIn(before, r.thread, r.ticket)
    && (r.via.None? ==>
          && Judge(cfg, r.ticket.event).Allow? && Matches(r.workflow, r.ticket.event)
          && r.ticket.run.identity == IdentityOf(r.workflow, r.ticket.event)
          && Keyed(r.thread, Key(r.ticket.run.identity)) in before)
    && (r.via.Some? ==>
          && (Judge(cfg, r.ticket.event).Allow? || Judge(cfg, r.ticket.event).ApprovalRequired?)
          && r.ticket.run.identity.version == r.workflow.version
          && GrantedIn(before, r.via.value, r.ticket.run, r.ticket.event))
  }

  ghost predicate RanIn(trace: seq<Record>, t: nat, run: string, lease: Fencing.Lease, ok: bool) {
    exists i :: 0 <= i < |trace| && RanRecord(trace[i], t, run, lease, ok)
  }

  predicate RanRecord(r: Record, t: nat, run: string, lease: Fencing.Lease, ok: bool) {
    r.Ran? && r.thread == t && r.ticket.run.id == run && r.ticket.lease == lease && r.ok == ok
  }

  ghost predicate NotRun(trace: seq<Record>, t: nat) {
    forall i :: 0 <= i < |trace| && trace[i].Ran? ==> trace[i].thread != t
  }

  /** COMPLETED is recorded only after the call's own `execute` returned, RECOVERING only after it raised, under the
      same lease; any other status only before. */
  ghost predicate MoveOk(before: seq<Record>, r: Record)
    requires r.Moved?
  {
    && (r.status == Completed ==> RanIn(before, r.thread, r.run, r.lease, true))
    && (r.status == RecoveringRun ==> RanIn(before, r.thread, r.run, r.lease, false))
    && (r.status != Completed && r.status != RecoveringRun ==> NotRun(before, r.thread))
  }

  ghost predicate RunsAllowed(cfg: Config, trace: seq<Record>) {
    && (forall i :: 0 <= i < |trace| && trace[i].Ran? ==> RanOk(cfg, trace[..i], trace[i]))
    && (forall i :: 0 <= i < |trace| && trace[i].Moved? ==> MoveOk(trace[..i], trace[i]))
  }

  /** A key is won once, and a call executes once. */
  ghost predicate OnceEach(trace: seq<Record>) {
    && (forall i, j :: 0 <= i < j < |trace| && trace[i].Keyed? && trace[j].Keyed? ==> trace[i].key != trace[j].key)
    && (forall i, j :: 0 <= i < j < |trace| && trace[i].Ran? && trace[j].Ran? ==> trace[i].thread != trace[j].thread)
  }

  ghost predicate Safe(cfg: Config, trace: seq<Record>) {
    RunsAllowed(cfg, trace) && OnceEach(trace) && Fencing.Fenced(LeaseTrace(trace))
  }

  // ---------- The invariant ----------

  ghost predicate RunsUnique(runs: map<Identity, Run>) {
    forall i, j :: i in runs && j in runs && i != j ==> Key(i) != Key(j) && runs[i].id != runs[j].id
  }

  ghost predicate KeysHold(keys: set<string>, trace: seq<Record>) {
    forall i :: 0 <= i < |trace| && trace[i].Keyed? ==> trace[i].key in keys
  }

  ghost predicate ApprovalsHold(approvals: map<string, Approval>, trace: seq<Record>) {
    forall a :: a in approvals ==>
      && approvals[a].id == a
      && (approvals[a].decision == Approved ==>
        exists i :: 0 <= i < |trace| && GrantRecord(trace[i], a) && trace[i].approval == approvals[a])
  }

  ghost predicate DbOk(db: Database, trace: seq<Record>) {
    && RunsUnique(db.runs) && KeysHold(db.keys, trace) && ApprovalsHold(db.approvals, trace)
    && Fencing.Mirrors(db.leases, LeaseTrace(trace))
  }

  ghost predicate Holds(db: Database, r: RunRef) {
    r.identity in db.runs && db.runs[r.identity].id == r.id
  }

  /** The approval that a resume reads is approved and for this run. */
  ghost predicate Backed(db: Database, call: Call, run: RunRef) {
    && call.Resume? && Granting(db, call.approval) && run.identity.version == call.workflow.version
    && Covers(db.approvals[call.approval], run, EventOf(db.approvals[call.approval]))
  }

  ghost predicate Entitled(db: Database, trace: seq<Record>, t: nat, call: Call, run: RunRef, e: Envelope) {
    match call
    case Start(w, event, _) =>
      run.identity == IdentityOf(w, event) && e == event && Matches(w, event) && Keyed(t, Key(run.identity)) in trace
    case Resume(a, _, _) => Backed(db, call, run) && e == EventOf(db.approvals[a])
  }

  predicate Passes(cfg: Config, call: Call, e: Envelope) {
    var v := Judge(cfg, e);
    v.Allow? || (v.ApprovalRequired? && call.Resume?)
  }

  ghost predicate Ticketed(db: Database, trace: seq<Record>, t: nat, call: Call, k: Ticket) {
    Entitled(db, trace, t, call, k.run, k.event) && Holds(db, k.run) && k.lease.exec == k.run.id
  }

  ghost predicate Started(db: Database, call: Call, run: RunRef) {
    && call.Start? && run.identity == IdentityOf(call.workflow, call.event)
    && Matches(call.workflow, call.event) && Holds(db, run)
  }

  /** The transition that the thread is about to make may be recorded. */
  ghost predicate Justified(trace: seq<Record>, t: nat, k: Ticket, status: RunStatus) {
    MoveOk(trace, Moved(t, k.run.id, status, k.lease, 0))
  }

  ghost predicate ThreadOk(cfg: Config, db: Database, trace: seq<Record>, t: nat, th: Thread) {
    match th.phase
    case Called => NotRun(trace, t)
    case Created(run) => NotRun(trace, t) && Started(db, th.call, run)
    case Won(run) => NotRun(trace, t) && Started(db, th.call, run) && Keyed(t, Key(run.identity)) in trace
    case Looked => NotRun(trace, t) && th.call.Resume? && Granting(db, th.call.approval)
    case Found(run) => NotRun(trace, t) && Backed(db, th.call, run) && Holds(db, run)
    case Leased(run, lease) => NotRun(trace, t) && Backed(db, th.call, run) && Holds(db, run) && lease.exec == run.id
    case Checked(run, lease) => NotRun(trace, t) && Backed(db, th.call, run) && Holds(db, run) && lease.exec == run.id
    case Ready(k) => NotRun(trace, t) && Ticketed(db, trace, t, th.call, k)
    case Asking(k) => NotRun(trace, t) && Ticketed(db, trace, t, th.call, k)
    case Requesting(k) => NotRun(trace, t) && Ticketed(db, trace, t, th.call, k)
    case Moving(k, status) =>
      && Ticketed(db, trace, t, th.call, k)
      && Justified(trace, t, k, status)
      && (status == Running ==> Passes(cfg, th.call, k.event))
    case Executing(k) =>
      NotRun(trace, t) && Ticketed(db, trace, t, th.call, k) && Passes(cfg, th.call, k.event) && MovedIn(trace, t, k)
    case Releasing(_) => true
    case Over => true
  }

  ghost predicate ThreadsOk(cfg: Config, db: Database, trace: seq<Record>, threads: seq<Thread>) {
    forall t :: 0 <= t < |threads| ==> ThreadOk(cfg, db, trace, t, threads[t])
  }

  /** What other threads rely on: runs keep their ids, approved approvals stay, and only `t` ran. */
  ghost predicate Grows(db: Database, trace: seq<Record>, db': Database, trace': seq<Record>, t: nat) {
    && (forall i :: i in db.runs ==> i in db'.runs && db'.runs[i].id == db.runs[i].id)
    && (forall a :: Granting(db, a) ==> a in db'.approvals && db'.approvals[a] == db.approvals[a])
    && |trace| <= |trace'| && (forall i :: 0 <= i < |trace| ==> trace'[i] == trace[i])
    && (forall i :: |trace| <= i < |trace'| && trace'[i].Ran? ==> trace'[i].thread == t)
  }

  lemma OthersStay(
    cfg: Config, db: Database, trace: seq<Record>, db': Database, trace': seq<Record>, t: nat, u: nat, th: Thread)
    requires Grows(db, trace, db', trace', t) && u != t && ThreadOk(cfg, db, trace, u, th)
    ensures ThreadOk(cfg, db', trace', u, th)
  {
    hide Matches, IdentityOf, Key, EventOf, Passes, Justified;
    assert NotRun(trace, u) ==> NotRun(trace', u);
    if th.phase.Executing? {
      var i :| 0 <= i < |trace| && MoveRecord(trace[i], u, th.phase.ticket);
      assert trace'[i] == trace[i];
    }
    if th.phase.Moving? {
      JustifiedGrows(trace, trace', u, th.phase.ticket, th.phase.status);
    }
  }

  lemma JustifiedGrows(trace: seq<Record>, trace': seq<Record>, u: nat, k: Ticket, status: RunStatus)
    requires Justified(trace, u, k, status) && |trace| <= |trace'| && forall i :: 0 <= i < |trace| ==>
               trace'[i] == trace[i]
    requires forall i :: |trace| <= i < |trace'| && trace'[i].Ran? ==> trace'[i].thread != u
    ensures Justified(trace', u, k, status)
  {
    forall ok | RanIn(trace, u, k.run.id, k.lease, ok) ensures RanIn(trace', u, k.run.id, k.lease, ok) {
      var i :| 0 <= i < |trace| && RanRecord(trace[i], u, k.run.id, k.lease, ok);
      assert trace'[i] == trace[i];
    }
  }

  lemma Advance(cfg: Config, db: Database, trace: seq<Record>, threads: seq<Thread>, t: nat, o: Outcome)
    requires ThreadsOk(cfg, db, trace, threads) && t < |threads| && Grows(db, trace, o.db, trace + o.records, t)
    requires ThreadOk(cfg, o.db, trace + o.records, t, threads[t].(phase := o.phase))
    ensures ThreadsOk(cfg, o.db, trace + o.records, threads[t := threads[t].(phase := o.phase)])
  {
    hide ThreadOk, Grows;
    var threads' := threads[t := threads[t].(phase := o.phase)];
    forall u | 0 <= u < |threads'| ensures ThreadOk(cfg, o.db, trace + o.records, u, threads'[u]) {
      if u != t {
        OthersStay(cfg, db, trace, o.db, trace + o.records, t, u, threads[u]);
      }
    }
  }

  ghost predicate Good(cfg: Config, db: Database, trace: seq<Record>) {
    DbOk(db, trace) && Safe(cfg, trace)
  }

  /** What a step must establish. */
  ghost predicate StepOk(cfg: Config, db: Database, trace: seq<Record>, t: nat, th: Thread, o: Outcome) {
    && Good(cfg, o.db, trace + o.records) && Grows(db, trace, o.db, trace + o.records, t)
    && ThreadOk(cfg, o.db, trace + o.records, t, th.(phase := o.phase))
  }

  // ---------- One more record ----------

  lemma LeaseTraceStep(trace: seq<Record>, r: Record)
    ensures LeaseTrace(trace + [r]) == LeaseTrace(trace) + Project(r)
  {
    Prefixes(trace, r);
  }

  lemma RunsAllowedStep(cfg: Config, trace: seq<Record>, r: Record)
    requires RunsAllowed(cfg, trace) && (r.Ran? ==> RanOk(cfg, trace, r)) && (r.Moved? ==> MoveOk(trace, r))
    ensures RunsAllowed(cfg, trace + [r])
  {
    Prefixes(trace, r);
    hide RanOk, MoveOk;
  }

  lemma OnceStep(trace: seq<Record>, r: Record)
    requires OnceEach(trace)
    requires r.Keyed? ==> forall i :: 0 <= i < |trace| && trace[i].Keyed? ==> trace[i].key != r.key
    requires r.Ran? ==> NotRun(trace, r.thread)
    ensures OnceEach(trace + [r])
  {
  }

  lemma KeysStep(keys: set<string>, trace: seq<Record>, r: Record)
    requires KeysHold(keys, trace)
    ensures KeysHold(if r.Keyed? then keys + {r.key} else keys, trace + [r])
  {
  }

  lemma ApprovalsStep(approvals: map<string, Approval>, trace: seq<Record>, r: Record)
    requires ApprovalsHold(approvals, trace)
    ensures ApprovalsHold(approvals, trace + [r])
  {
    forall a | a in approvals && approvals[a].decision == Approved
      ensures exists i :: 0 <= i < |trace + [r]| && GrantRecord((trace + [r])[i], a) &&
                (trace + [r])[i].approval == approvals[a]
    {
      var i :| 0 <= i < |trace| && GrantRecord(trace[i], a) && trace[i].approval == approvals[a];
      assert (trace + [r])[i] == trace[i];
    }
  }

  /** A record that is neither a key nor an execution, with the leases it leaves. */
  lemma PlainRecord(cfg: Config, db: Database, trace: seq<Record>, r: Record, leases: map<string, Fencing.Row>)
    requires Good(cfg, db, trace) && !r.Keyed? && !r.Ran? && (r.Moved? ==> MoveOk(trace, r))
    requires Fencing.Fenced(LeaseTrace(trace) + Project(r)) && Fencing.Mirrors(leases, LeaseTrace(trace) + Project(r))
    ensures Good(cfg, db.(leases := leases), trace + [r])
  {
    hide LeaseTrace, Project, OnceEach, KeysHold, RunsAllowed, RunsUnique, ApprovalsHold, Fencing.Fenced,
         Fencing.Mirrors;
    LeaseTraceStep(trace, r);
    OnceStep(trace, r);
    KeysStep(db.keys, trace, r);
    ApprovalsStep(db.approvals, trace, r);
    RunsAllowedStep(cfg, trace, r);
  }

  lemma QuietLeases(trace: seq<Record>, r: Record)
    requires r.Keyed? || r.Ran? || r.Granted?
    ensures LeaseTrace(trace + [r]) == LeaseTrace(trace)
  {
    LeaseTraceStep(trace, r);
  }

  // ---------- The steps keep it ----------

  lemma NoRecord(trace: seq<Record>)
    ensures trace + [] == trace
  {
  }

  lemma Ending(cfg: Config, db: Database, trace: seq<Record>, t: nat, th: Thread)
    ensures ThreadOk(cfg, db, trace, t, th.(phase := Over))
  {
  }

  lemma LocalStep(cfg: Config, db: Database, trace: seq<Record>, t: nat, th: Thread, phase: Phase)
    requires Good(cfg, db, trace) && ThreadOk(cfg, db, trace, t, th.(phase := phase))
    ensures StepOk(cfg, db, trace, t, th, Outcome(db, phase, []))
  {
    NoRecord(trace);
    hide Good, ThreadOk;
  }

  lemma SameTables(db: Database, trace: seq<Record>, db': Database, r: Record, t: nat)
    requires db'.runs == db.runs && db'.approvals == db.approvals && (r.Ran? ==> r.thread == t)
    ensures Grows(db, trace, db', trace + [r], t)
  {
  }

  lemma MoreTables(db: Database, trace: seq<Record>, db': Database, t: nat)
    requires forall i :: i in db.runs ==> i in db'.runs && db'.runs[i].id == db.runs[i].id
    requires forall a :: a in db.approvals ==> a in db'.approvals && db'.approvals[a] == db.approvals[a]
    ensures Grows(db, trace, db', trace, t)
  {
  }

  lemma TicketGrows(db: Database, trace: seq<Record>, db': Database, trace': seq<Record>, t: nat, call: Call, k: Ticket)
    requires Ticketed(db, trace, t, call, k) && Grows(db, trace, db', trace', t)
    ensures Ticketed(db', trace', t, call, k)
  {
    hide Matches, IdentityOf, Key, EventOf;
  }

  lemma NotRunGrows(trace: seq<Record>, r: Record, t: nat)
    requires NotRun(trace, t) && !r.Ran?
    ensures NotRun(trace + [r], t)
  {
  }

  // Creating a run.

  lemma CreateGood(cfg: Config, db: Database, trace: seq<Record>, i: Identity, runId: string)
    requires Good(cfg, db, trace) && i !in db.runs && forall j :: j in db.runs ==>
               Key(j) != Key(i) && db.runs[j].id != runId
    ensures Good(cfg, db.(runs := db.runs[i := Run(runId, Received)]), trace)
  {
    hide Key, Safe, KeysHold, ApprovalsHold, LeaseTrace, Fencing.Mirrors;
  }

  lemma CreateKeeps(cfg: Config, db: Database, trace: seq<Record>, t: nat, th: Thread, runId: string)
    requires Good(cfg, db, trace) && ThreadOk(cfg, db, trace, t, th) && th.phase.Called? && th.call.Start?
    ensures StepOk(cfg, db, trace, t, th, Create(db, th.call, runId))
  {
    var o := Create(db, th.call, runId);
    var i := IdentityOf(th.call.workflow, th.call.event);
    hide Matches, Key, IdentityOf, Good, Grows, NotRun;
    if o.db == db {
      LocalStep(cfg, db, trace, t, th, o.phase);
    } else {
      NoRecord(trace);
      CreateGood(cfg, db, trace, i, runId);
      MoreTables(db, trace, o.db, t);
    }
  }

  // Winning the idempotency key.

  lemma KeyGood(cfg: Config, db: Database, trace: seq<Record>, t: nat, key: string)
    requires Good(cfg, db, trace) && key !in db.keys
    ensures Good(cfg, db.(keys := db.keys + {key}), trace + [Keyed(t, key)])
  {
    var r := Keyed(t, key);
    OnceStep(trace, r);
    hide LeaseTrace, OnceEach, KeysHold, RunsAllowed, ApprovalsHold, RunsUnique, Fencing.Fenced, Fencing.Mirrors;
    KeysStep(db.keys, trace, r);
    QuietLeases(trace, r);
    RunsAllowedStep(cfg, trace, r);
    ApprovalsStep(db.approvals, trace, r);
  }

  lemma KeyThread(cfg: Config, db: Database, trace: seq<Record>, t: nat, th: Thread, key: string)
    requires ThreadOk(cfg, db, trace, t, th) && th.phase.Created? && key == Key(th.phase.run.identity)
    ensures ThreadOk(cfg, db.(keys := db.keys + {key}), trace + [Keyed(t, key)], t, th.(phase := Won(th.phase.run)))
  {
    hide Matches, IdentityOf, Key, NotRun;
    NotRunGrows(trace, Keyed(t, key), t);
    assert (trace + [Keyed(t, key)])[|trace|] == Keyed(t, key);
  }

  lemma KeyKeeps(cfg: Config, db: Database, trace: seq<Record>, t: nat, th: Thread)
    requires Good(cfg, db, trace) && ThreadOk(cfg, db, trace, t, th) && th.phase.Created?
    ensures StepOk(cfg, db, trace, t, th, ClaimKey(db, t, th.phase.run))
  {
    hide Good, Key, ThreadOk, Grows;
    var key := Key(th.phase.run.identity);
    if key in db.keys {
      Ending(cfg, db, trace, t, th);
      LocalStep(cfg, db, trace, t, th, Over);
    } else {
      KeyGood(cfg, db, trace, t, key);
      KeyThread(cfg, db, trace, t, th, key);
      SameTables(db, trace, db.(keys := db.keys + {key}), Keyed(t, key), t);
    }
  }

  // Claiming the lease.

  lemma LeaseGood(cfg: Config, db: Database, trace: seq<Record>, call: Call, run: RunRef, input: Input)
    requires Good(cfg, db, trace) && !ClaimLease(cfg, db, call, run, input).phase.Over?
    ensures
      var o := ClaimLease(cfg, db, call, run, input);
      |o.records| == 1 && o.records[0].OnLease? && Good(cfg, o.db, trace + o.records)
  {
    var o := ClaimLease(cfg, db, call, run, input);
    hide LeaseTrace, Fencing.Fenced, Fencing.Mirrors, RunsUnique, KeysHold, ApprovalsHold, RunsAllowed, OnceEach;
    Fencing.ClaimKeeps(db.leases, LeaseTrace(trace), run.id, call.worker, input.now, input.wall, cfg.ttl);
    PlainRecord(cfg, db, trace, o.records[0], o.db.leases);
  }

  lemma LeaseThread(
    cfg: Config, db: Database, trace: seq<Record>, db': Database, t: nat, th: Thread, r: Record,
    lease: Fencing.Lease)
    requires ThreadOk(cfg, db, trace, t, th) && (th.phase.Won? || th.phase.Found?) && lease.exec == th.phase.run.id
    requires r.OnLease? && db'.runs == db.runs && db'.approvals == db.approvals
    ensures
      var phase := if th.call.Start? then Ready(Ticket(th.phase.run, lease, th.call.event))
        else Leased(th.phase.run, lease);
      ThreadOk(cfg, db', trace + [r], t, th.(phase := phase))
  {
    NotRunGrows(trace, r, t);
    hide NotRun, Matches, Key, IdentityOf, EventOf, Covers;
  }

  lemma LeaseKeeps(cfg: Config, db: Database, trace: seq<Record>, t: nat, th: Thread, input: Input)
    requires Good(cfg, db, trace) && ThreadOk(cfg, db, trace, t, th) && (th.phase.Won? || th.phase.Found?)
    ensures StepOk(cfg, db, trace, t, th, ClaimLease(cfg, db, th.call, th.phase.run, input))
  {
    var run := th.phase.run;
    var o := ClaimLease(cfg, db, th.call, run, input);
    hide Good, ThreadOk, Grows, Fencing.ClaimedRow;
    if o.phase.Over? {
      Ending(cfg, db, trace, t, th);
      LocalStep(cfg, db, trace, t, th, Over);
    } else {
      LeaseGood(cfg, db, trace, th.call, run, input);
      SameTables(db, trace, o.db, o.records[0], t);
      var lease := if th.call.Start? then o.phase.ticket.lease else o.phase.lease;
      LeaseThread(cfg, db, trace, o.db, t, th, o.records[0], lease);
    }
  }

  // Asking for an approval.

  lemma RequestGood(cfg: Config, db: Database, trace: seq<Record>, a: Approval)
    requires Good(cfg, db, trace) && a.id !in db.approvals && a.decision == Pending
    ensures Good(cfg, db.(approvals := db.approvals[a.id := a]), trace)
  {
    hide Safe, KeysHold, RunsUnique, LeaseTrace, Fencing.Mirrors, GrantRecord;
  }

  lemma RequestThread(
    cfg: Config, db: Database, trace: seq<Record>, db': Database, t: nat, th: Thread, approval: string)
    requires ThreadOk(cfg, db, trace, t, th) && th.phase.Requesting? && Grows(db, trace, db', trace, t)
    ensures ThreadOk(cfg, db', trace, t, th.(phase := Moving(th.phase.ticket, WaitingApproval(approval))))
  {
    hide Ticketed, Grows, Passes, NotRun;
    TicketGrows(db, trace, db', trace, t, th.call, th.phase.ticket);
  }

  lemma RequestKeeps(cfg: Config, db: Database, trace: seq<Record>, t: nat, th: Thread, now: int)
    requires Good(cfg, db, trace) && ThreadOk(cfg, db, trace, t, th) && th.phase.Requesting?
    ensures StepOk(cfg, db, trace, t, th, Request(cfg, db, th.phase.ticket, now))
  {
    var k := th.phase.ticket;
    var o := Request(cfg, db, k, now);
    hide Good, Grows, ThreadOk;
    if o.phase.Over? {
      Ending(cfg, db, trace, t, th);
      LocalStep(cfg, db, trace, t, th, Over);
    } else {
      NoRecord(trace);
      RequestGood(cfg, db, trace, o.db.approvals[k.run.id]);
      MoreTables(db, trace, o.db, t);
      RequestThread(cfg, db, trace, o.db, t, th, k.run.id);
    }
  }

  // Moving the run under the lease.

  lemma MoveGood(cfg: Config, db: Database, trace: seq<Record>, t: nat, k: Ticket, status: RunStatus, now: int)
    requires Good(cfg, db, trace) && Fencing.Current(db.leases, k.lease, now) && Justified(trace, t, k, status)
    ensures Good(cfg, db, trace + [Moved(t, k.run.id, status, k.lease, now)])
  {
    var r := Moved(t, k.run.id, status, k.lease, now);
    var before := LeaseTrace(trace);
    assert MoveOk(trace, r);
    hide MoveOk, Justified;
    hide LeaseTrace, RunsUnique, KeysHold, ApprovalsHold, RunsAllowed, OnceEach;
    Fencing.QuietKeeps(db.leases, before, Project(r)[0]);
    assert Project(r) == [Project(r)[0]];
    hide Fencing.Fenced, Fencing.Mirrors;
    PlainRecord(cfg, db, trace, r, db.leases);
  }

  lemma StatusGood(cfg: Config, db: Database, trace: seq<Record>, i: Identity, status: RunStatus)
    requires Good(cfg, db, trace) && i in db.runs
    ensures Good(cfg, db.(runs := db.runs[i := db.runs[i].(status := status)]), trace)
  {
    hide Key, Safe, KeysHold, ApprovalsHold, LeaseTrace, Fencing.Mirrors;
  }

  lemma MoveGrows(db: Database, trace: seq<Record>, r: Record, i: Identity, status: RunStatus, t: nat)
    requires i in db.runs && !r.Ran?
    ensures Grows(db, trace, db.(runs := db.runs[i := db.runs[i].(status := status)]), trace + [r], t)
  {
  }

  lemma MoveKeeps(cfg: Config, db: Database, trace: seq<Record>, t: nat, th: Thread, now: int)
    requires Good(cfg, db, trace) && ThreadOk(cfg, db, trace, t, th) && th.phase.Moving?
    ensures StepOk(cfg, db, trace, t, th, Move(db, t, th.phase.ticket, th.phase.status, now))
  {
    var k, status := th.phase.ticket, th.phase.status;
    var o := Move(db, t, k, status, now);
    hide Good, Grows, Fencing.Current, ThreadOk;
    if o.phase.Over? {
      Ending(cfg, db, trace, t, th);
      LocalStep(cfg, db, trace, t, th, Over);
    } else {
      MovingIsJustified(cfg, db, trace, t, th);
      MoveGood(cfg, db, trace, t, k, status, now);
      StatusGood(cfg, db, trace + o.records, k.run.identity, status);
      MoveGrows(db, trace, o.records[0], k.run.identity, status, t);
      MoveThread(cfg, db, trace, o.db, t, th, now);
    }
  }

  lemma MovingIsJustified(cfg: Config, db: Database, trace: seq<Record>, t: nat, th: Thread)
    requires ThreadOk(cfg, db, trace, t, th) && th.phase.Moving?
    ensures Justified(trace, t, th.phase.ticket, th.phase.status)
  {
    hide Justified, Ticketed, Passes;
  }

  lemma MoveThread(cfg: Config, db: Database, trace: seq<Record>, db': Database, t: nat, th: Thread, now: int)
    requires ThreadOk(cfg, db, trace, t, th) && th.phase.Moving?
    requires Grows(db, trace, db',
               trace + [Moved(t, th.phase.ticket.run.id, th.phase.status, th.phase.ticket.lease, now)], t)
    ensures
      var k := th.phase.ticket;
      var phase := if th.phase.status == Running then Executing(k) else Releasing(k.lease);
      ThreadOk(cfg, db', trace + [Moved(t, k.run.id, th.phase.status, k.lease, now)], t, th.(phase := phase))
  {
    hide Ticketed, Grows, Passes, NotRun, MovedIn, RanIn;
    if th.phase.status == Running {
      var k := th.phase.ticket;
      var r := Moved(t, k.run.id, Running, k.lease, now);
      TicketGrows(db, trace, db', trace + [r], t, th.call, k);
      NotRunGrows(trace, r, t);
      MovedNow(db', trace, t, th.call, k, now);
    }
  }

  lemma MovedNow(db: Database, trace: seq<Record>, t: nat, call: Call, k: Ticket, now: int)
    requires Ticketed(db, trace + [Moved(t, k.run.id, Running, k.lease, now)], t, call, k)
    ensures MovedIn(trace + [Moved(t, k.run.id, Running, k.lease, now)], t, k)
  {
    assert MoveRecord((trace + [Moved(t, k.run.id, Running, k.lease, now)])[|trace|], t, k);
  }

  // Calling `execute`.

  lemma ExecuteAllowed(cfg: Config, db: Database, trace: seq<Record>, t: nat, th: Thread, ok: bool)
    requires ApprovalsHold(db.approvals, trace) && ThreadOk(cfg, db, trace, t, th) && th.phase.Executing?
    ensures RanOk(cfg, trace, Execute(db, t, th.call, th.phase.ticket, ok).records[0])
  {
    hide Matches, Key, IdentityOf, EventOf;
    if th.call.Resume? {
      var i :| 0 <= i < |trace| && GrantRecord(trace[i], th.call.approval) &&
        trace[i].approval == db.approvals[th.call.approval];
      assert Covers(trace[i].approval, th.phase.ticket.run, th.phase.ticket.event);
    }
  }

  lemma ExecuteGood(cfg: Config, db: Database, trace: seq<Record>, r: Record)
    requires Good(cfg, db, trace) && r.Ran? && RanOk(cfg, trace, r) && NotRun(trace, r.thread)
    ensures Good(cfg, db, trace + [r])
  {
    hide RanOk, LeaseTrace, OnceEach, KeysHold, RunsAllowed, ApprovalsHold, RunsUnique, Fencing.Fenced,
         Fencing.Mirrors;
    OnceStep(trace, r);
    KeysStep(db.keys, trace, r);
    QuietLeases(trace, r);
    RunsAllowedStep(cfg, trace, r);
    ApprovalsStep(db.approvals, trace, r);
  }

  lemma GoodApprovals(cfg: Config, db: Database, trace: seq<Record>)
    requires Good(cfg, db, trace)
    ensures ApprovalsHold(db.approvals, trace)
  {
  }

  lemma ExecuteThread(cfg: Config, db: Database, trace: seq<Record>, t: nat, th: Thread, r: Record, ok: bool)
    requires ThreadOk(cfg, db, trace, t, th) && th.phase.Executing? && Grows(db, trace, db, trace + [r], t)
    requires RanRecord(r, t, th.phase.ticket.run.id, th.phase.ticket.lease, ok)
    ensures NotRun(trace, t)
    ensures ThreadOk(cfg, db, trace + [r], t,
              th.(phase := Moving(th.phase.ticket, if ok then Completed else RecoveringRun)))
  {
    hide Ticketed, Grows, Passes, NotRun, MovedIn;
    TicketGrows(db, trace, db, trace + [r], t, th.call, th.phase.ticket);
    assert RanRecord((trace + [r])[|trace|], t, th.phase.ticket.run.id, th.phase.ticket.lease, ok);
  }

  lemma ExecuteKeeps(cfg: Config, db: Database, trace: seq<Record>, t: nat, th: Thread, ok: bool)
    requires Good(cfg, db, trace) && ThreadOk(cfg, db, trace, t, th) && th.phase.Executing?
    ensures StepOk(cfg, db, trace, t, th, Execute(db, t, th.call, th.phase.ticket, ok))
  {
    var r := Execute(db, t, th.call, th.phase.ticket, ok).records[0];
    hide Good, ThreadOk, NotRun, Grows, RanOk, ApprovalsHold;
    GoodApprovals(cfg, db, trace);
    ExecuteAllowed(cfg, db, trace, t, th, ok);
    SameTables(db, trace, db, r, t);
    ExecuteThread(cfg, db, trace, t, th, r, ok);
    ExecuteGood(cfg, db, trace, r);
  }

  // Releasing the lease.

  lemma ReleaseGood(cfg: Config, db: Database, trace: seq<Record>, exec: string)
    requires Good(cfg, db, trace)
    ensures Good(cfg, db.(leases := db.leases - {exec}), trace + [OnLease(Fencing.Released(exec))])
  {
    hide LeaseTrace, RunsUnique, KeysHold, ApprovalsHold, RunsAllowed, OnceEach, Fencing.Fenced, Fencing.Mirrors;
    Fencing.QuietKeeps(db.leases, LeaseTrace(trace), Fencing.Released(exec));
    PlainRecord(cfg, db, trace, OnLease(Fencing.Released(exec)), db.leases - {exec});
  }

  lemma ReleaseKeeps(cfg: Config, db: Database, trace: seq<Record>, t: nat, th: Thread)
    requires Good(cfg, db, trace) && ThreadOk(cfg, db, trace, t, th) && th.phase.Releasing?
    ensures StepOk(cfg, db, trace, t, th, ReleaseLease(db, th.phase.held))
  {
    var o := ReleaseLease(db, th.phase.held);
    hide Good, ThreadOk, Grows;
    if o.records == [] {
      Ending(cfg, db, trace, t, th);
      LocalStep(cfg, db, trace, t, th, Over);
    } else {
      ReleaseGood(cfg, db, trace, th.phase.held.exec);
      SameTables(db, trace, o.db, o.records[0], t);
      Ending(cfg, o.db, trace + o.records, t, th);
    }
  }

  lemma NextKeeps(cfg: Config, db: Database, trace: seq<Record>, t: nat, th: Thread, input: Input)
    requires Good(cfg, db, trace) && ThreadOk(cfg, db, trace, t, th)
    ensures StepOk(cfg, db, trace, t, th, Next(cfg, db, t, th, input))
  {
    hide Good, StepOk, Create, ClaimKey, ClaimLease, Request, Move, Execute, ReleaseLease, Matches, Key, IdentityOf,
         EventOf, Evaluate, Fencing.Current;
    match th.phase {
      case Called =>
        if th.call.Start? {
          CreateKeeps(cfg, db, trace, t, th, input.runId);
        } else {
          LocalStep(cfg, db, trace, t, th, Next(cfg, db, t, th, input).phase);
        }
      case Created(_) => KeyKeeps(cfg, db, trace, t, th);
      case Won(_) => LeaseKeeps(cfg, db, trace, t, th, input);
      case Found(_) => LeaseKeeps(cfg, db, trace, t, th, input);
      case Requesting(_) => RequestKeeps(cfg, db, trace, t, th, input.now);
      case Moving(_, _) => MoveKeeps(cfg, db, trace, t, th, input.now);
      case Executing(_) => ExecuteKeeps(cfg, db, trace, t, th, input.ok);
      case Releasing(_) => ReleaseKeeps(cfg, db, trace, t, th);
      case _ => LocalStep(cfg, db, trace, t, th, Next(cfg, db, t, th, input).phase);
    }
  }

  // ---------- The engine ----------

  ghost predicate RanBelow(trace: seq<Record>, n: nat) {
    forall i :: 0 <= i < |trace| && trace[i].Ran? ==> trace[i].thread < n
  }

  /** Every execution was on a run of the table. */
  ghost predicate RanHeld(runs: map<Identity, Run>, trace: seq<Record>) {
    forall n :: 0 <= n < |trace| && trace[n].Ran? ==>
      trace[n].ticket.run.identity in runs && runs[trace[n].ticket.run.identity].id == trace[n].ticket.run.id
  }

  class Engine {
    const cfg: Config
    var db: Database
    var threads: seq<Thread>
    var trace: seq<Record>

    ghost predicate Valid()
      reads this
    {
      && Good(cfg, db, trace) && ThreadsOk(cfg, db, trace, threads) && RanBelow(trace, |threads|)
      && RanHeld(db.runs, trace)
    }

    constructor (cfg: Config)
      ensures Valid() && this.cfg == cfg && db == Database(map[], {}, map[], map[]) && threads == [] && trace == []
    {
      this.cfg := cfg;
      db, threads, trace := Database(map[], {}, map[], map[]), [], [];
    }

    /** A thread enters `start` or `resume_approval`. */
    method Enter(call: Call) returns (t: nat)
      requires Valid()
      modifies this`threads
      ensures Valid() && t == |old(threads)| && threads == old(threads) + [Thread(call, Called)]
    {
      t := |threads|;
      EnterKeeps(cfg, db, trace, threads, call);
      hide Good, ThreadsOk;
      threads := threads + [Thread(call, Called)];
    }

    /** One transaction, or one local step, of a thread. */
    method Step(t: nat, input: Input)
      requires Valid() && t < |threads|
      modifies this
      ensures Valid()
      ensures
        var o := Next(cfg, old(db), t, old(threads)[t], input);
        && db == o.db && threads == old(threads)[t := old(threads)[t].(phase := o.phase)]
        && trace == old(trace) + o.records && RunsKept(old(db).runs, db.runs)
    {
      hide Good, ThreadOk, Grows, RanBelow, RanHeld, Next, RunsKept;
      StepKeeps(cfg, db, trace, threads, t, input);
      var o := Next(cfg, db, t, threads[t], input);
      db, threads, trace := o.db, threads[t := threads[t].(phase := o.phase)], trace + o.records;
    }

    /** `PostgresApprovalStore.decide`: one conditional update, or the one that marks the row expired. */
    method Decide(id: string, decision: Decision, now: int) returns (ok: bool)
      requires Valid() && (decision.Approved? || decision.Rejected?)
      modifies this`db, this`trace
      ensures Valid()
      ensures ok <==>
              && id in old(db).approvals && old(db).approvals[id].decision == Pending
              && now < old(db).approvals[id].expires
      ensures ok ==> id in db.approvals
      ensures
        var was := old(db).approvals;
        && db == Decided(old(db), id, decision, now)
        && db == old(db).(approvals :=
                   if ok then was[id := was[id].(decision := decision)]
                   else if id in was && was[id].decision == Pending then was[id := was[id].(decision := Expired)]
                   else was)
      ensures trace == old(trace) + (if ok && decision.Approved? then [Granted(db.approvals[id], now)] else [])
    {
      hide RanHeld, Good, ThreadsOk, RanBelow;
      ok := Decidable(db, id, now);
      DecideKeeps(cfg, db, trace, threads, id, decision, now);
      db := Decided(db, id, decision, now);
      if ok && decision.Approved? {
        trace := trace + [Granted(db.approvals[id], now)];
      }
    }

    /** Somebody else puts an approval into the store. */
    method CreateApproval(a: Approval) returns (ok: bool)
      requires Valid() && a.decision == Pending
      modifies this`db
      ensures Valid()
      ensures ok <==> a.id !in old(db).approvals
      ensures db == if ok then old(db).(approvals := old(db).approvals[a.id := a]) else old(db)
    {
      ok := a.id !in db.approvals;
      if ok {
        hide Good, ThreadsOk, RanBelow, Grows;
        RequestGood(cfg, db, trace, a);
        var db' := db.(approvals := db.approvals[a.id := a]);
        MoreTables(db, trace, db', |threads|);
        AllStay(cfg, db, trace, db', trace, threads);
        db := db';
      }
    }
  }

  lemma EnterKeeps(cfg: Config, db: Database, trace: seq<Record>, threads: seq<Thread>, call: Call)
    requires ThreadsOk(cfg, db, trace, threads) && RanBelow(trace, |threads|)
    ensures ThreadsOk(cfg, db, trace, threads + [Thread(call, Called)]) && RanBelow(trace, |threads| + 1)
  {
    assert ThreadOk(cfg, db, trace, |threads|, Thread(call, Called));
    hide ThreadOk;
  }

  lemma AllStay(cfg: Config, db: Database, trace: seq<Record>, db': Database, trace': seq<Record>, threads: seq<Thread>)
    requires ThreadsOk(cfg, db, trace, threads) && Grows(db, trace, db', trace', |threads|)
    ensures ThreadsOk(cfg, db', trace', threads)
  {
    hide Grows, ThreadOk;
    forall u | 0 <= u < |threads| ensures ThreadOk(cfg, db', trace', u, threads[u]) {
      OthersStay(cfg, db, trace, db', trace', |threads|, u, threads[u]);
    }
  }

  lemma RanBelowGrows(db: Database, trace: seq<Record>, db': Database, trace': seq<Record>, t: nat, n: nat)
    requires RanBelow(trace, n) && Grows(db, trace, db', trace', t) && t < n
    ensures RanBelow(trace', n)
  {
  }

  /** Runs are never removed, and keep their ids. */
  ghost predicate RunsKept(before: map<Identity, Run>, after: map<Identity, Run>) {
    forall i :: i in before ==> i in after && after[i].id == before[i].id
  }

  lemma GrowingKeepsRuns(db: Database, trace: seq<Record>, db': Database, trace': seq<Record>, t: nat)
    requires Grows(db, trace, db', trace', t)
    ensures RunsKept(db.runs, db'.runs)
  {
  }

  /** What a step executes is the run of its own ticket. */
  lemma RanIsHeld(cfg: Config, db: Database, trace: seq<Record>, t: nat, th: Thread, input: Input)
    requires ThreadOk(cfg, db, trace, t, th)
    ensures RanHeld(db.runs, Next(cfg, db, t, th, input).records)
  {
    hide Create, ClaimKey, ClaimLease, Request, Move, ReleaseLease, Matches, Key, IdentityOf, EventOf, Evaluate,
         Passes, NotRun;
    var o := Next(cfg, db, t, th, input);
    NoRanRecords(cfg, db, t, th, input);
    if th.phase.Executing? {
      assert Holds(db, th.phase.ticket.run);
    }
  }

  lemma NoRanRecords(cfg: Config, db: Database, t: nat, th: Thread, input: Input)
    ensures
      var records := Next(cfg, db, t, th, input).records;
      forall n :: 0 <= n < |records| && records[n].Ran? ==> th.phase.Executing? && records[n].ticket == th.phase.ticket
  {
    hide Matches, Key, IdentityOf, EventOf, Evaluate, Fencing.Current, Fencing.ClaimedRow;
  }

  lemma RanHeldGrows(runs: map<Identity, Run>, runs': map<Identity, Run>, trace: seq<Record>, records: seq<Record>)
    ensures RanHeld(runs, trace) && RanHeld(runs, records) && RunsKept(runs, runs') ==> RanHeld(runs', trace + records)
  {
  }

  lemma StepKeeps(cfg: Config, db: Database, trace: seq<Record>, threads: seq<Thread>, t: nat, input: Input)
    requires Good(cfg, db, trace) && ThreadsOk(cfg, db, trace, threads) && RanBelow(trace, |threads|) && t < |threads|
    ensures
      var o := Next(cfg, db, t, threads[t], input);
      && Good(cfg, o.db, trace + o.records)
      && ThreadsOk(cfg, o.db, trace + o.records, threads[t := threads[t].(phase := o.phase)])
      && RanBelow(trace + o.records, |threads|) && RunsKept(db.runs, o.db.runs)
      && (RanHeld(db.runs, trace) ==> RanHeld(o.db.runs, trace + o.records))
  {
    var o := Next(cfg, db, t, threads[t], input);
    RanIsHeld(cfg, db, trace, t, threads[t], input);
    hide Good, ThreadOk, Grows, RanBelow, Next, RunsKept, RanHeld;
    RanHeldGrows(db.runs, o.db.runs, trace, o.records);
    NextKeeps(cfg, db, trace, t, threads[t], input);
    GrowingKeepsRuns(db, trace, o.db, trace + o.records, t);
    Advance(cfg, db, trace, threads, t, o);
    RanBelowGrows(db, trace, o.db, trace + o.records, t, |threads|);
  }

  predicate Decidable(db: Database, id: string, now: int) {
    id in db.approvals && db.approvals[id].decision == Pending && now < db.approvals[id].expires
  }

  function Decided(db: Database, id: string, decision: Decision, now: int): Database {
    if id !in db.approvals || db.approvals[id].decision != Pending then db
    else
      db.(approvals := db.approvals[
          id := db.approvals[id].(decision := if now < db.approvals[id].expires then decision else Expired)])
  }

  lemma DecideGood(cfg: Config, db: Database, trace: seq<Record>, id: string, decision: Decision, now: int)
    requires Good(cfg, db, trace) && id in db.approvals && db.approvals[id].decision == Pending
    requires decision == Approved ==> now < db.approvals[id].expires
    ensures
      var a := db.approvals[id].(decision := decision);
      var db' := db.(approvals := db.approvals[id := a]);
      if decision == Approved then Good(cfg, db', trace + [Granted(a, now)]) else Good(cfg, db', trace)
  {
    var a := db.approvals[id].(decision := decision);
    var r := Granted(a, now);
    DecidedApprovals(db.approvals, trace, id, decision, now);
    hide RunsUnique, KeysHold, LeaseTrace, Fencing.Fenced, Fencing.Mirrors, RunsAllowed, OnceEach, ApprovalsHold;
    if decision == Approved {
      QuietLeases(trace, r);
      RunsAllowedStep(cfg, trace, r);
      KeysStep(db.keys, trace, r);
      OnceStep(trace, r);
    }
  }

  lemma DecidedApprovals(
    approvals: map<string, Approval>, trace: seq<Record>, id: string, decision: Decision, now: int)
    requires ApprovalsHold(approvals, trace) && id in approvals && approvals[id].decision == Pending
    requires decision == Approved ==> now < approvals[id].expires
    ensures
      var a := approvals[id].(decision := decision);
      if decision == Approved then ApprovalsHold(approvals[id := a], trace + [Granted(a, now)])
      else ApprovalsHold(approvals[id := a], trace)
  {
    if decision == Approved {
      var r := Granted(approvals[id].(decision := decision), now);
      ApprovalsStep(approvals, trace, r);
      assert GrantRecord((trace + [r])[|trace|], id);
    }
  }

  lemma DecideKeeps(
    cfg: Config, db: Database, trace: seq<Record>, threads: seq<Thread>, id: string, decision: Decision, now: int)
    requires Good(cfg, db, trace) && ThreadsOk(cfg, db, trace, threads) && RanBelow(trace, |threads|)
    requires decision.Approved? || decision.Rejected?
    ensures
      var db' := Decided(db, id, decision, now);
      var granted := Decidable(db, id, now) && decision.Approved?;
      && (Decidable(db, id, now) ==> id in db'.approvals)
      && var trace' := if granted then trace + [Granted(db'.approvals[id], now)] else trace;
         && Good(cfg, db', trace') && ThreadsOk(cfg, db', trace', threads) && RanBelow(trace', |threads|)
         && db'.runs == db.runs && (RanHeld(db.runs, trace) ==> RanHeld(db'.runs, trace'))
  {
    hide Good, ThreadOk;
    var db' := Decided(db, id, decision, now);
    if db' != db {
      var d := db'.approvals[id].decision;
      DecideGood(cfg, db, trace, id, d, now);
      var trace' := if d == Approved then trace + [Granted(db'.approvals[id], now)] else trace;
      assert Grows(db, trace, db', trace', |threads|);
      AllStay(cfg, db, trace, db', trace', threads);
    }
  }

  // ---------- Every run ----------

  datatype Op =
    | OpEnter(call: Call)
    | OpStep(thread: nat, input: Input)
    | OpDecide(id: string, decision: Decision, now: int)
    | OpCreateApproval(approval: Approval)

  /** Any continuation of any engine. */
  method AnySteps(e: Engine, ops: seq<Op>)
    requires e.Valid()
    modifies e
    ensures e.Valid() && RunsKept(old(e.db).runs, e.db.runs)
    ensures |old(e.trace)| <= |e.trace| && e.trace[..|old(e.trace)|] == old(e.trace)
  {
    hide DbOk, Safe, ThreadsOk, RanBelow, Next;
    for i := 0 to |ops|
      invariant e.Valid() && RunsKept(old(e.db).runs, e.db.runs)
      invariant |old(e.trace)| <= |e.trace| && e.trace[..|old(e.trace)|] == old(e.trace)
    {
      match ops[i] {
        case OpEnter(call) => var t := e.Enter(call);
        case OpStep(t, input) =>
          if t < |e.threads| {
            e.Step(t, input);
          }
        case OpDecide(id, decision, now) =>
          if decision.Approved? || decision.Rejected? {
            var ok := e.Decide(id, decision, now);
          }
        case OpCreateApproval(a) => var ok := e.CreateApproval(a.(decision := Pending));
      }
    }
  }

  /** What every call of `execute` can count on, in terms of the workflow, the event and the rules: some rule admits the
      event; `start` calls it only on an event meant for the workflow that wants no approval and lies within some rule's
      maximum; otherwise an approval was granted in time, for this run and the event it preserved. */
  ghost predicate Deserved(rules: seq<Rule>, before: seq<Record>, r: Record)
    requires r.Ran?
  {
    && SomeAdmits(rules, r.ticket.event)
    && (r.via.None? ==>
          && MeantFor(r.workflow, r.ticket.event) && !WantsApproval(r.ticket.event)
          && !AboveEveryMaximum(rules, r.ticket.event))
    && (r.via.Some? ==> exists i :: 0 <= i < |before| && GrantedInTime(before[i], r.via.value, r.ticket))
  }

  ghost predicate GrantedInTime(r: Record, id: string, k: Ticket) {
    && r.Granted? && r.approval.id == id && r.approval.decision == Approved && r.at < r.approval.expires
    && k.run.identity == Identity(r.approval.tenant, r.approval.workspace, r.approval.workflow,
                                  k.run.identity.version, r.approval.eventId)
    && (r.approval.kind.Some? ==>
          k.event == Envelope(r.approval.eventId, r.approval.tenant, r.approval.workspace, r.approval.kind.value,
                              r.approval.payload, r.approval.source))
    && (r.approval.kind.None? ==>
          k.event == Envelope(r.approval.eventId, r.approval.tenant, r.approval.workspace, "approval.resumed",
                              map[], Null))
  }

  ghost predicate AllDeserved(rules: seq<Rule>, trace: seq<Record>) {
    forall i :: 0 <= i < |trace| && trace[i].Ran? ==> Deserved(rules, trace[..i], trace[i])
  }

  lemma RanIsDeserved(cfg: Config, before: seq<Record>, r: Record)
    requires r.Ran? && RanOk(cfg, before, r)
    ensures Deserved(cfg.rules, before, r)
  {
    var e := r.ticket.event;
    PermittedExactly(cfg.rules, e);
    MatchesExactly(r.workflow, e);
    if AboveEveryMaximum(cfg.rules, e) && !WantsApproval(e) {
      AboveEveryMaximumIsDenied(cfg.rules, e);
    }
    hide Matches, MeantFor, Evaluate, SomeAdmits, WantsApproval, ContextOf, AboveEveryMaximum, MovedIn, Key;
    if r.via.Some? {
      var i :| 0 <= i < |before| && GrantRecord(before[i], r.via.value)
        && Covers(before[i].approval, r.ticket.run, e);
      assert GrantedInTime(before[i], r.via.value, r.ticket);
    }
  }

  lemma SafeIsDeserved(cfg: Config, trace: seq<Record>)
    requires Safe(cfg, trace)
    ensures AllDeserved(cfg.rules, trace)
  {
    hide RanOk, MoveOk, Deserved, LeaseTrace, Fencing.Fenced;
    forall i | 0 <= i < |trace| && trace[i].Ran? ensures Deserved(cfg.rules, trace[..i], trace[i]) {
      RanIsDeserved(cfg, trace[..i], trace[i]);
    }
  }

  /** Any number of calls of `start` and `resume_approval`, by any workers, with any clocks, interleaved transaction
      by transaction and abandoned anywhere, with approvals decided and created meanwhile. */
  method AllRuns(cfg: Config, ops: seq<Op>) returns (trace: seq<Record>)
    ensures Safe(cfg, trace) && AllDeserved(cfg.rules, trace)
  {
    hide AllDeserved, DbOk, Safe, ThreadsOk, RanBelow, RunsKept;
    var e := new Engine(cfg);
    AnySteps(e, ops);
    trace := e.trace;
    SafeIsDeserved(cfg, trace);
  }

  /** `start` calls `execute` at most once for a key, hence for a tenant, workspace, workflow, version and event. */
  lemma StartsOncePerKey(cfg: Config, trace: seq<Record>, i: nat, j: nat)
    requires Safe(cfg, trace) && i < |trace| && j < |trace| && trace[i].Ran? && trace[j].Ran?
    requires trace[i].via.None? && trace[j].via.None?
    requires Key(trace[i].ticket.run.identity) == Key(trace[j].ticket.run.identity)
    ensures i == j
  {
    hide Matches, Judge, MovedIn, Key, IdentityOf, LeaseTrace, Fencing.Fenced;
    assert RanOk(cfg, trace[..i], trace[i]) && RanOk(cfg, trace[..j], trace[j]);
    var a :| 0 <= a < i && trace[..i][a] == Keyed(trace[i].thread, Key(trace[i].ticket.run.identity));
    var b :| 0 <= b < j && trace[..j][b] == Keyed(trace[j].thread, Key(trace[j].ticket.run.identity));
    assert trace[a].key == trace[b].key && trace[a] == trace[b];
  }

  lemma {:induction false} LeaseTracePrefix(trace: seq<Record>, i: nat)
    requires i <= |trace|
    ensures |LeaseTrace(trace[..i])| <= |LeaseTrace(trace)|
    ensures LeaseTrace(trace)[..|LeaseTrace(trace[..i])|] == LeaseTrace(trace[..i])
  {
    if i == |trace| {
      assert trace[..i] == trace;
    } else {
      LeaseTracePrefix(trace[..|trace| - 1], i);
      assert trace[..|trace| - 1][..i] == trace[..i];
    }
  }

  /** Every recorded transition was made by the latest claimant of its lease, before the lease ran out. */
  lemma MovedUnderLease(cfg: Config, trace: seq<Record>, i: nat)
    requires Safe(cfg, trace) && i < |trace| && trace[i].Moved?
    ensures Fencing.WriteAllowed(LeaseTrace(trace[..i]), trace[i].lease, trace[i].at)
  {
    hide RunsAllowed, OnceEach, Fencing.WriteAllowed, Fencing.Tenure, Fencing.Deadline;
    var all, n := LeaseTrace(trace), |LeaseTrace(trace[..i])|;
    LeaseTracePrefix(trace, i);
    LeaseTracePrefix(trace, i + 1);
    assert trace[..i + 1][..i] == trace[..i];
    assert LeaseTrace(trace[..i + 1]) == LeaseTrace(trace[..i]) + Project(trace[i]);
    assert all[n] == all[..n + 1][n] == Project(trace[i])[0];
    assert all[n].Wrote? && all[n].lease == trace[i].lease && all[n].at == trace[i].at;
  }

  /** `execute` is called only after the run was moved to RUNNING under a lease on that run that was current. */
  lemma RunsUnderLease(cfg: Config, trace: seq<Record>, i: nat) returns (j: nat)
    requires Safe(cfg, trace) && i < |trace| && trace[i].Ran?
    ensures j < i && MoveRecord(trace[j], trace[i].thread, trace[i].ticket)
    ensures trace[j].lease.exec == trace[i].ticket.run.id
    ensures Fencing.WriteAllowed(LeaseTrace(trace[..j]), trace[j].lease, trace[j].at)
  {
    assert MovedIn(trace[..i], trace[i].thread, trace[i].ticket) by {
      hide LeaseTrace, Fencing.Fenced, MovedIn, Judge, Matches;
      assert RanOk(cfg, trace[..i], trace[i]);
    }
    j :| 0 <= j < i && MoveRecord(trace[..i][j], trace[i].thread, trace[i].ticket);
    hide Safe, LeaseTrace, Fencing.WriteAllowed;
    MovedUnderLease(cfg, trace, j);
  }

  /** A run is recorded COMPLETED only by a call whose own `execute` returned before, and RECOVERING only by one
      whose own `execute` raised. */
  lemma RecordedAsItEnded(cfg: Config, trace: seq<Record>, i: nat) returns (j: nat)
    requires Safe(cfg, trace) && i < |trace| && trace[i].Moved?
    requires (trace[i].status == Completed || trace[i].status == RecoveringRun)
    ensures j < i && trace[j].Ran? && trace[j].thread == trace[i].thread && trace[j].ticket.run.id == trace[i].run
    ensures trace[j].ok <==> trace[i].status == Completed
  {
    hide LeaseTrace, Fencing.Fenced, RanOk;
    assert MoveOk(trace[..i], trace[i]);
    j :| 0 <= j < i && RanRecord(trace[..i][j], trace[i].thread, trace[i].run, trace[i].lease,
      trace[i].status == Completed);
  }

  /** Where policy wants an approval, `execute` is called only through one that was granted in time for the run's
      own tenant, workspace, workflow id and event. */
  lemma ApprovalRequiredRunsAreApproved(cfg: Config, trace: seq<Record>, i: nat) returns (j: nat)
    requires Safe(cfg, trace) && i < |trace| && trace[i].Ran? && Judge(cfg, trace[i].ticket.event).ApprovalRequired?
    ensures j < i && trace[j].Granted? && trace[i].via == Some(trace[j].approval.id)
    ensures trace[j].at < trace[j].approval.expires
    ensures
      var a, identity := trace[j].approval, trace[i].ticket.run.identity;
      && a.decision == Approved
      && identity == Identity(a.tenant, a.workspace, a.workflow, trace[i].workflow.version, a.eventId)
      && trace[i].ticket.event == EventOf(a)
  {
    hide LeaseTrace, Fencing.Fenced, MovedIn, Judge, Matches, EventOf;
    assert RanOk(cfg, trace[..i], trace[i]);
    j :| 0 <= j < i && GrantRecord(trace[..i][j], trace[i].via.value) &&
      Covers(trace[..i][j].approval, trace[i].ticket.run, trace[i].ticket.event);
  }
}
