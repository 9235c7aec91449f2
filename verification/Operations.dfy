/** `ois/autonomy/operations.py` with `loops.py`, `approvals.py`, `events.py` and `recovery.py`: events are routed
    to workflows, gated by policy and approval, run by a bounded loop, and published from an outbox. */
module Operations {
  import opened Prelude
  import opened Values
  import opened Policy

  datatype Decision = Pending | Approved | Rejected | Expired

  datatype Approval = Approval(
    id: string, tenant: string, workspace: string, workflow: string, eventId: string, event: Option<Envelope>,
    expires: int, decision: Decision)

  /** What a loop run reports; `Raised` is an exception leaving `_run_workflow`. */
  datatype LoopState = Idle | Waiting(approval: string) | Recovering | Stopped | Raised

  datatype RecoveryAction = Retry | Pause | Replan | Escalate | Stop

  /** `FailureRecovery.decide` for a positive attempt number. */
  function Recover(attempt: nat, failure: string, safeToRetry: bool, maxRetries: nat): RecoveryAction {
    if failure == "safety" then Stop
    else if failure == "permission" || failure == "approval" then Escalate
    else if failure == "plan" then Replan
    else if (failure == "transient" || failure == "timeout") && safeToRetry && attempt <= maxRetries then Retry
    else if failure == "state" then Pause
    else Escalate
  }

  datatype Record =
    | Acted(workflow: Workflow, event: Envelope, ok: bool, approval: Option<string>)
    | Granted(request: Approval, at: int)
    | Published(event: Envelope, routed: seq<string>)

  /** The event an approval resumes: the one it was requested for, or one rebuilt from its fields. */
  function ResumedEvent(a: Approval, t: Trigger): Envelope {
    if a.event.Some? then a.event.value else Envelope(a.eventId, a.tenant, a.workspace, t.kind, map[], Null)
  }

  ghost predicate GrantedFor(r: Record, id: string, w: Workflow, e: Envelope) {
    && r.Granted? && r.request.id == id && r.request.workflow == w.id && r.at < r.request.expires
    && ResumedEvent(r.request, w.trigger) == e
  }

  /** Policy allows the event, or wants an approval and there is one; and an approval that is used was granted before,
      in time, for this workflow and this very event. */
  ghost predicate Permitted(rules: seq<Rule>, before: seq<Record>, w: Workflow, e: Envelope, approval: Option<string>) {
    var verdict := Evaluate(rules, ContextOf(e));
    && Matches(w, e)
    && (verdict.Allow? || verdict.ApprovalRequired?)
    && (verdict.ApprovalRequired? ==> approval.Some?)
    && (approval.Some? ==> exists k :: 0 <= k < |before| && GrantedFor(before[k], approval.value, w, e))
  }

  datatype Gate = Open | Asks | Shut | Throws

  /** What stands between an event and the workflow's action. */
  function GateOf(rules: seq<Rule>, w: Workflow, e: Envelope, granted: bool): Gate {
    if !Matches(w, e) then Shut
    else
      match Evaluate(rules, ContextOf(e))
      case Allow(_) => Open
      case ApprovalRequired(_) => if granted then Open else Asks
      case Deny => Shut
      case Error => Throws
  }

  /** What a run may report, given what the gate said. */
  predicate Answers(gate: Gate, s: LoopState) {
    match gate
    case Open => s.Idle? || s.Recovering?
    case Asks => s.Waiting? || s.Raised?
    case Shut => s.Stopped?
    case Throws => s.Raised?
  }

  lemma GrantedNeverAsks(rules: seq<Rule>, w: Workflow, e: Envelope)
    ensures GateOf(rules, w, e, true) != Asks
  {
  }

  ghost predicate Authorised(rules: seq<Rule>, trace: seq<Record>) {
    forall i :: 0 <= i < |trace| && trace[i].Acted? ==>
      Permitted(rules, trace[..i], trace[i].workflow, trace[i].event, trace[i].approval)
  }

  predicate ActsOn(r: Record, workflow: string, event: string) {
    r.Acted? && r.workflow.id == workflow && r.event.id == event
  }

  /** Once a workflow has succeeded on an event id it never acts on that id again. */
  ghost predicate SucceedsLast(trace: seq<Record>) {
    forall i, j :: 0 <= i < j < |trace| && trace[i].Acted? && trace[i].ok ==>
      !ActsOn(trace[j], trace[i].workflow.id, trace[i].event.id)
  }

  ghost predicate Succeeded(trace: seq<Record>, workflow: string, event: string) {
    exists i :: 0 <= i < |trace| && ActsOn(trace[i], workflow, event) && trace[i].ok
  }

  ghost predicate PublishedAfterSuccess(trace: seq<Record>) {
    forall i :: 0 <= i < |trace| && trace[i].Published? ==>
      && trace[i].routed != []
      && forall w :: w in trace[i].routed ==> Succeeded(trace[..i], w, trace[i].event.id)
  }

  function ActsUnder(trace: seq<Record>, approval: string): nat {
    if trace == [] then 0
    else
      var r := trace[|trace| - 1];
      ActsUnder(trace[..|trace| - 1], approval) + (if r.Acted? && r.approval == Some(approval) then 1 else 0)
  }

  ghost predicate WasGranted(trace: seq<Record>, approval: string) {
    exists i :: 0 <= i < |trace| && trace[i].Granted? && trace[i].request.id == approval
  }

  /** An approval is granted once and pays for one bounded loop. */
  ghost predicate ApprovalsSpentOnce(trace: seq<Record>, bound: nat) {
    && (forall i, j :: 0 <= i < j < |trace| && trace[i].Granted? && trace[j].Granted? ==>
          trace[i].request.id != trace[j].request.id)
    && (forall a :: ActsUnder(trace, a) <= if WasGranted(trace, a) then bound else 0)
  }

  ghost predicate Safe(rules: seq<Rule>, bound: nat, trace: seq<Record>) {
    Authorised(rules, trace) && SucceedsLast(trace) && PublishedAfterSuccess(trace) && ApprovalsSpentOnce(trace, bound)
  }

  // ---------- One more record ----------

  lemma SucceededGrows(trace: seq<Record>, r: Record, w: string, e: string)
    ensures Succeeded(trace + [r], w, e) <==> Succeeded(trace, w, e) || (ActsOn(r, w, e) && r.ok)
  {
    var t := trace + [r];
    if Succeeded(trace, w, e) {
      var i :| 0 <= i < |trace| && ActsOn(trace[i], w, e) && trace[i].ok;
      assert t[i] == trace[i];
    }
    if ActsOn(r, w, e) && r.ok {
      assert t[|trace|] == r;
    }
  }

  lemma GrantedGrows(trace: seq<Record>, r: Record, a: string)
    ensures WasGranted(trace + [r], a) <==> WasGranted(trace, a) || (r.Granted? && r.request.id == a)
  {
    var t := trace + [r];
    assert t[|trace|] == r;
    if WasGranted(trace, a) {
      var i :| 0 <= i < |trace| && trace[i].Granted? && trace[i].request.id == a;
      assert t[i] == trace[i];
    }
  }

  lemma AuthorisedGrows(rules: seq<Rule>, trace: seq<Record>, r: Record)
    requires Authorised(rules, trace) && (r.Acted? ==> Permitted(rules, trace, r.workflow, r.event, r.approval))
    ensures Authorised(rules, trace + [r])
  {
    Prefixes(trace, r);
    hide Permitted;
  }

  lemma PublishedGrows(trace: seq<Record>, r: Record)
    requires PublishedAfterSuccess(trace)
    requires r.Published? ==> r.routed != [] && forall w :: w in r.routed ==> Succeeded(trace, w, r.event.id)
    ensures PublishedAfterSuccess(trace + [r])
  {
    Prefixes(trace, r);
    hide Succeeded;
  }

  /** `spare` bounds what the approval in hand may still be used for. */
  ghost predicate Spending(trace: seq<Record>, bound: nat, approval: Option<string>, spare: nat) {
    && ApprovalsSpentOnce(trace, bound)
    && (approval.Some? ==> WasGranted(trace, approval.value) && ActsUnder(trace, approval.value) + spare <= bound)
  }

  lemma SpendingActs(trace: seq<Record>, bound: nat, r: Record, spare: nat)
    requires r.Acted? && Spending(trace, bound, r.approval, spare) && spare > 0
    ensures Spending(trace + [r], bound, r.approval, spare - 1)
  {
    Prefixes(trace, r);
    forall a ensures WasGranted(trace + [r], a) == WasGranted(trace, a) {
      GrantedGrows(trace, r, a);
    }
    hide WasGranted;
  }

  lemma SpendingGrants(trace: seq<Record>, bound: nat, r: Record)
    requires r.Granted? && ApprovalsSpentOnce(trace, bound) && !WasGranted(trace, r.request.id)
    ensures Spending(trace + [r], bound, Some(r.request.id), bound)
  {
    Prefixes(trace, r);
    forall a ensures WasGranted(trace + [r], a) <==> WasGranted(trace, a) || r.request.id == a {
      GrantedGrows(trace, r, a);
    }
    assert forall i :: 0 <= i < |trace| && trace[i].Granted? ==> trace[i].request.id != r.request.id;
    hide WasGranted;
  }

  lemma SpendingPublishes(trace: seq<Record>, bound: nat, r: Record)
    requires r.Published? && ApprovalsSpentOnce(trace, bound)
    ensures ApprovalsSpentOnce(trace + [r], bound)
  {
    Prefixes(trace, r);
    forall a ensures WasGranted(trace + [r], a) == WasGranted(trace, a) {
      GrantedGrows(trace, r, a);
    }
    hide WasGranted;
  }

  // ---------- The state ----------

  ghost predicate ProcessedHolds(processed: set<(string, string)>, trace: seq<Record>) {
    forall w, e :: (w, e) in processed <==> Succeeded(trace, w, e)
  }

  /** An approval that was granted stands as approved in the store. */
  ghost predicate GrantsHold(approvals: map<string, Approval>, trace: seq<Record>) {
    && (forall a :: a in approvals ==> approvals[a].id == a)
    && forall a :: WasGranted(trace, a) ==> a in approvals && approvals[a].decision == Approved
  }

  ghost predicate Known(routes: seq<string>, workflows: map<string, Workflow>) {
    forall w :: w in routes ==> w in workflows
  }

  ghost predicate Registered(workflows: map<string, Workflow>, routes: seq<string>) {
    Distinct(routes) && (forall w :: w in workflows ==> workflows[w].id == w) && Known(routes, workflows)
  }

  /** The routes an event takes, in registration order. The router does not look at tenant, workspace, conditions or
      status. */
  function Routed(routes: seq<string>, workflows: map<string, Workflow>, e: Envelope): seq<string>
    requires Known(routes, workflows)
  {
    if routes == [] then []
    else
      var last := routes[|routes| - 1];
      Routed(routes[..|routes| - 1], workflows, e) + (if Routes(workflows[last].trigger, e) then [last] else [])
  }

  datatype OutboxEvent = OutboxEvent(id: string, tenant: string, workspace: string, kind: string,
    payload: map<string, Value>)

  function FromOutbox(o: OutboxEvent): Envelope {
    Envelope(o.id, o.tenant, o.workspace, o.kind, o.payload, Get(o.payload, "source_id"))
  }

  /** The unpublished rows in creation order. */
  function Unpublished(order: seq<string>, published: set<string>): seq<string> {
    if order == [] then []
    else (if order[0] in published then [] else [order[0]]) + Unpublished(order[1..], published)
  }

  function Acts(w: Workflow, e: Envelope, n: nat, ok: bool, approval: Option<string>): seq<Record> {
    seq(n, i => Acted(w, e, ok && i == n - 1, approval))
  }

  ghost predicate AllProcessed(ids: seq<string>, event: string, processed: set<(string, string)>) {
    forall k :: 0 <= k < |ids| ==> (ids[k], event) in processed
  }

  /** Everything an action call needs: it is permitted, has not succeeded yet, and what is left of the approval
      covers `spare` calls. */
  ghost predicate MayAct(
    rules: seq<Rule>, bound: nat, trace: seq<Record>, w: Workflow, e: Envelope, approval: Option<string>, spare: nat)
  {
    && Safe(rules, bound, trace) && Permitted(rules, trace, w, e, approval) && !Succeeded(trace, w.id, e.id)
    && Spending(trace, bound, approval, spare)
  }

  ghost predicate SameGrants(a: seq<Record>, b: seq<Record>) {
    forall x :: WasGranted(a, x) == WasGranted(b, x)
  }

  /** `b` has the successes of `a` and, if `more`, that of `w` on `e`. */
  ghost predicate SuccessesGrow(a: seq<Record>, b: seq<Record>, more: bool, w: string, e: string) {
    forall x, y :: Succeeded(b, x, y) <==> Succeeded(a, x, y) || (more && x == w && y == e)
  }

  lemma PermittedGrows(
    rules: seq<Rule>, trace: seq<Record>, r: Record, w: Workflow, e: Envelope, approval: Option<string>)
    requires Permitted(rules, trace, w, e, approval)
    ensures Permitted(rules, trace + [r], w, e, approval)
  {
    if approval.Some? {
      var k :| 0 <= k < |trace| && GrantedFor(trace[k], approval.value, w, e);
      assert (trace + [r])[k] == trace[k];
    }
  }

  lemma NoSuccessYet(trace: seq<Record>, r: Record)
    requires SucceedsLast(trace) && (r.Acted? ==> !Succeeded(trace, r.workflow.id, r.event.id))
    ensures SucceedsLast(trace + [r])
  {
  }

  lemma ActStep(
    rules: seq<Rule>, bound: nat, trace: seq<Record>, w: Workflow, e: Envelope, approval: Option<string>, spare: nat,
    ok: bool)
    requires MayAct(rules, bound, trace, w, e, approval, spare) && spare > 0
    ensures
      var t := trace + [Acted(w, e, ok, approval)];
      && Safe(rules, bound, t) && (!ok ==> MayAct(rules, bound, t, w, e, approval, spare - 1))
      && SameGrants(trace, t) && SuccessesGrow(trace, t, ok, w.id, e.id)
  {
    var r := Acted(w, e, ok, approval);
    hide ActsUnder, Permitted, Authorised, PublishedAfterSuccess, SucceedsLast, ApprovalsSpentOnce, Spending;
    assert Spending(trace, bound, r.approval, spare);
    AuthorisedGrows(rules, trace, r);
    PublishedGrows(trace, r);
    NoSuccessYet(trace, r);
    SpendingActs(trace, bound, r, spare);
    SpendingIsOnce(trace + [r], bound, approval, spare - 1);
    PermittedGrows(rules, trace, r, w, e, approval);
    forall x, y ensures Succeeded(trace + [r], x, y) <==> Succeeded(trace, x, y) || (ok && x == w.id && y == e.id) {
      SucceededGrows(trace, r, x, y);
    }
    forall x ensures WasGranted(trace + [r], x) == WasGranted(trace, x) {
      GrantedGrows(trace, r, x);
    }
  }

  lemma SpendingIsOnce(trace: seq<Record>, bound: nat, approval: Option<string>, spare: nat)
    requires Spending(trace, bound, approval, spare)
    ensures ApprovalsSpentOnce(trace, bound)
  {
  }

  ghost predicate OutboxHolds(order: seq<string>, outbox: map<string, OutboxEvent>) {
    Distinct(order) && (forall e :: e in order <==> e in outbox) && forall e :: e in outbox ==> outbox[e].id == e
  }

  ghost predicate StateHolds(
    rules: seq<Rule>, bound: nat, trace: seq<Record>, processed: set<(string, string)>,
    approvals: map<string, Approval>)
  {
    Safe(rules, bound, trace) && ProcessedHolds(processed, trace) && GrantsHold(approvals, trace)
  }

  /** What `_run_workflow` is handed with an approval: its grant is on record and still unspent. */
  ghost predicate Handed(trace: seq<Record>, bound: nat, w: Workflow, e: Envelope, approval: Option<string>) {
    && Spending(trace, bound, approval, bound)
    && (approval.Some? ==> exists k :: 0 <= k < |trace| && GrantedFor(trace[k], approval.value, w, e))
  }

  lemma SameGrantsHold(approvals: map<string, Approval>, before: seq<Record>, after: seq<Record>)
    requires GrantsHold(approvals, before) && SameGrants(before, after)
    ensures GrantsHold(approvals, after)
  {
    hide WasGranted;
  }

  lemma StateRead(
    rules: seq<Rule>, bound: nat, trace: seq<Record>, processed: set<(string, string)>,
    approvals: map<string, Approval>,
    w: string, e: string)
    requires StateHolds(rules, bound, trace, processed, approvals)
    ensures Safe(rules, bound, trace) && GrantsHold(approvals, trace)
    ensures ((w, e) in processed <==> Succeeded(trace, w, e))
  {
    hide Safe, GrantsHold, Succeeded;
    ProcessedMeans(processed, trace, w, e);
  }

  lemma StateAfter(
    rules: seq<Rule>, bound: nat, before: seq<Record>, after: seq<Record>, processed: set<(string, string)>,
    approvals: map<string, Approval>, approvals': map<string, Approval>, ok: bool, w: string, e: string)
    requires StateHolds(rules, bound, before, processed, approvals) && Safe(rules, bound, after)
    requires GrantsHold(approvals', after) && SuccessesGrow(before, after, ok, w, e)
    ensures StateHolds(rules, bound, after, if ok then processed + {(w, e)} else processed, approvals')
  {
    hide Safe, GrantsHold, ProcessedHolds, SuccessesGrow;
    ProcessedStep(processed, before, after, ok, w, e);
  }

  lemma NoActs(trace: seq<Record>, w: Workflow, e: Envelope, approval: Option<string>)
    ensures trace + Acts(w, e, 0, true, approval) == trace
  {
  }

  lemma ProcessedMeans(processed: set<(string, string)>, trace: seq<Record>, w: string, e: string)
    requires ProcessedHolds(processed, trace)
    ensures (w, e) in processed <==> Succeeded(trace, w, e)
  {
  }

  lemma ProcessedStep(
    processed: set<(string, string)>, before: seq<Record>, after: seq<Record>, ok: bool, w: string, e: string)
    requires ProcessedHolds(processed, before) && SuccessesGrow(before, after, ok, w, e)
    ensures ProcessedHolds(if ok then processed + {(w, e)} else processed, after)
  {
    hide Succeeded;
  }

  /** What a drain may change. */
  datatype View = View(
    processed: set<(string, string)>, published: set<string>, approvals: map<string, Approval>, trace: seq<Record>)

  class AutonomousOperations {
    const rules: seq<Rule>
    const maxIterations: nat
    const maxRetries: nat
    const ttl: int
    /** Does the n-th action call return normally? Which id and which time does the n-th approval request draw? */
    const outcome: nat -> bool
    const uuid: nat -> string
    const clock: nat -> int
    var workflows: map<string, Workflow>
    var routes: seq<string>
    var processed: set<(string, string)>
    var approvals: map<string, Approval>
    var order: seq<string>
    var outbox: map<string, OutboxEvent>
    var published: set<string>
    var trace: seq<Record>
    var calls: nat
    var draws: nat

    /** The number of action calls one loop run makes unless one succeeds. */
    function Tries(): nat {
      if maxIterations <= maxRetries then maxIterations else maxRetries + 1
    }

    ghost predicate Valid()
      reads this
    {
      && maxIterations >= 1 && Known(routes, workflows) && Registered(workflows, routes) && OutboxHolds(order, outbox)
      && StateHolds(rules, Tries(), trace, processed, approvals)
    }

    constructor (
      rules: seq<Rule>, maxIterations: nat, maxRetries: nat, ttl: int, outcome: nat -> bool, uuid: nat -> string,
      clock: nat -> int)
      requires maxIterations >= 1 && ttl > 0
      ensures Valid() && this.rules == rules && this.maxIterations == maxIterations && this.maxRetries == maxRetries
      ensures this.outcome == outcome && this.ttl == ttl && this.uuid == uuid && this.clock == clock
      ensures workflows == map[] && routes == [] && processed == {} && approvals == map[] && order == []
      ensures outbox == map[]
      ensures published == {} && trace == [] && calls == 0 && draws == 0
    {
      this.rules, this.maxIterations, this.maxRetries, this.ttl := rules, maxIterations, maxRetries, ttl;
      this.outcome, this.uuid, this.clock := outcome, uuid, clock;
      workflows, routes, processed, approvals := map[], [], {}, map[];
      order, outbox, published, trace, calls, draws := [], map[], {}, [], 0, 0;
    }

    /** The attempts of `AutonomousLoop.run`, once the gates are passed. */
    method RunAttempts(w: Workflow, e: Envelope, approval: Option<string>) returns (ok: bool, ghost n: nat)
      requires maxIterations >= 1 && MayAct(rules, Tries(), trace, w, e, approval, Tries())
      modifies this`trace, this`calls
      ensures 1 <= n <= Tries() && calls == old(calls) + n && trace == old(trace) + Acts(w, e, n, ok, approval)
      ensures forall k: nat :: old(calls) <= k < calls - 1 ==> !outcome(k)
      ensures (ok <==> outcome(calls - 1)) && (!ok ==> n == Tries())
      ensures Safe(rules, Tries(), trace)
      ensures SameGrants(old(trace), trace) && SuccessesGrow(old(trace), trace, ok, w.id, e.id)
    {
      hide MayAct, Safe, SameGrants, SuccessesGrow;
      NothingGrows(trace, w.id, e.id);
      ok, n := false, 0;
      for attempt := 1 to maxIterations + 1
        invariant n == attempt - 1 && n < maxRetries + 1 && n <= Tries() && calls == old(calls) + n
        invariant trace == old(trace) + Acts(w, e, n, false, approval)
        invariant n > 0 ==> !outcome(calls - 1)
        invariant forall k: nat :: old(calls) <= k < calls ==> !outcome(k)
        invariant MayAct(rules, Tries(), trace, w, e, approval, Tries() - n)
        invariant SameGrants(old(trace), trace) && SuccessesGrow(old(trace), trace, false, w.id, e.id)
      {
        ok := outcome(calls);
        ActStep(rules, Tries(), trace, w, e, approval, Tries() - n, ok);
        GrowsTransitively(old(trace), trace, trace + [Acted(w, e, ok, approval)], ok, w.id, e.id);
        calls := calls + 1;
        trace := trace + [Acted(w, e, ok, approval)];
        n := n + 1;
        assert trace == old(trace) + Acts(w, e, n, ok, approval);
        if ok {
          return;
        }
        if Recover(attempt, "transient", true, maxRetries) != Retry {
          MayActIsSafe(rules, Tries(), trace, w, e, approval, Tries() - n);
          return;
        }
      }
      MayActIsSafe(rules, Tries(), trace, w, e, approval, Tries() - n);
    }

    /** What each answer of the gate leads to, from the calls, draws and approvals so far. */
    ghost predicate LoopMeans(
      gate: Gate, w: Workflow, e: Envelope, s: LoopState, n: nat, calls0: nat, draws0: nat,
      approvals0: map<string, Approval>)
      reads this
    {
      match gate
      case Shut => s == Stopped && n == 0
      case Throws => s == Raised && n == 0
      case Asks =>
        var a := uuid(draws0);
        && n == 0
        && (if a in approvals0 then s == Raised
            else s == Waiting(a) && approvals == approvals0[
                   a := Approval(a, e.tenant, e.workspace, w.id, e.id, Some(e), clock(draws0) + ttl, Pending)])
      case Open =>
        && 1 <= n <= Tries() && calls == calls0 + n && (forall k: nat :: calls0 <= k < calls - 1 ==> !outcome(k))
        && s == (if outcome(calls - 1) then Idle else Recovering) && (s.Recovering? ==> n == Tries())
    }

    /** `AutonomousLoop.run`: n action calls are made. */
    method RunLoop(w: Workflow, e: Envelope, approval: Option<string>) returns (s: LoopState, ghost n: nat)
      requires maxIterations >= 1 && Safe(rules, Tries(), trace) && GrantsHold(approvals, trace)
      requires !Succeeded(trace, w.id, e.id) && Handed(trace, Tries(), w, e, approval)
      modifies this`approvals, this`trace, this`calls, this`draws
      ensures Safe(rules, Tries(), trace) && GrantsHold(approvals, trace)
      ensures SuccessesGrow(old(trace), trace, s.Idle?, w.id, e.id)
      ensures trace == old(trace) + Acts(w, e, n, s.Idle?, approval) && calls == old(calls) + n
      ensures approval.Some? || !s.Waiting? ==> approvals == old(approvals)
      ensures LoopMeans(GateOf(rules, w, e, approval.Some?), w, e, s, n, old(calls), old(draws), old(approvals))
      ensures Answers(GateOf(rules, w, e, approval.Some?), s)
      ensures AlwaysSucceeds(outcome) ==> !s.Recovering?
    {
      GrantedNeverAsks(rules, w, e);
      hide Safe, GrantsHold, MayAct, SameGrants, SuccessesGrow, GateOf, Handed, Succeeded;
      n := 0;
      assert trace == trace + Acts(w, e, 0, false, approval);
      NothingGrows(trace, w.id, e.id);
      hide Acts;
      match GateOf(rules, w, e, approval.Some?) {
        case Shut => s := Stopped;
        case Throws => s := Raised;
        case Asks =>
          var a := uuid(draws);
          draws := draws + 1;
          if a in approvals {
            return Raised, 0;
          }
          RequestStep(approvals, trace, a, Request(a, w.id, e, draws - 1));
          approvals := approvals[a := Request(a, w.id, e, draws - 1)];
          s := Waiting(a);
        case Open =>
          HandedMayAct(rules, Tries(), trace, w, e, approval);
          var ok;
          ok, n := RunAttempts(w, e, approval);
          SameGrantsHold(approvals, old(trace), trace);
          s := if ok then Idle else Recovering;
      }
    }

    /** `_run_workflow` on a pair that is not processed yet. */
    method RunFresh(id: string, e: Envelope, approval: Option<string>) returns (s: LoopState, ghost n: nat)
      requires Valid() && id in workflows && Handed(trace, Tries(), workflows[id], e, approval)
      requires (id, e.id) !in processed
      modifies this`processed, this`approvals, this`trace, this`calls, this`draws
      ensures Valid()
      ensures processed == if s.Idle? then old(processed) + {(id, e.id)} else old(processed)
      ensures trace == old(trace) + Acts(workflows[id], e, n, s.Idle?, approval) && calls == old(calls) + n
      ensures approval.Some? ==> approvals == old(approvals)
      ensures Answers(GateOf(rules, workflows[id], e, approval.Some?), s)
      ensures (AlwaysSucceeds(outcome) ==> !s.Recovering?)
    {
      assert workflows[id].id == id;
      hide StateHolds, Safe, GrantsHold, Registered, Known, OutboxHolds, SuccessesGrow, GateOf, Succeeded, Handed,
           Acts, AlwaysSucceeds, LoopMeans, Answers, Tries;
      var w := workflows[id];
      ghost var before, asked, bound := trace, approvals, Tries();
      StateRead(rules, bound, before, processed, asked, id, e.id);
      s, n := RunLoop(w, e, approval);
      StateAfter(rules, bound, before, trace, processed, asked, approvals, s.Idle?, id, e.id);
      if s.Idle? {
        processed := processed + {(id, e.id)};
      }
    }

    /** `_run_workflow`: Idle exactly when the pair is processed afterwards, and then it is not run again. */
    method RunWorkflow(id: string, e: Envelope, approval: Option<string>) returns (s: LoopState, ghost n: nat)
      requires Valid() && id in workflows && Handed(trace, Tries(), workflows[id], e, approval)
      modifies this`processed, this`approvals, this`trace, this`calls, this`draws
      ensures Valid()
      ensures processed == (if s.Idle? then old(processed) + {(id, e.id)} else old(processed))
      ensures s.Idle? <==> (id, e.id) in processed
      ensures trace == old(trace) + Acts(workflows[id], e, n, s.Idle?, approval) && calls == old(calls) + n
      ensures approval.Some? || (id, e.id) in old(processed) ==> approvals == old(approvals)
      ensures (id, e.id) in old(processed) ==> n == 0
      ensures (id, e.id) !in old(processed) ==>
                Answers(GateOf(rules, workflows[id], e, approval.Some?), s) &&
                (AlwaysSucceeds(outcome) ==> !s.Recovering?)
    {
      hide StateHolds, Registered, Known, OutboxHolds, GateOf, Handed, Acts, AlwaysSucceeds, Answers;
      if (id, e.id) in processed {
        NoActs(trace, workflows[id], e, approval);
        return Idle, 0;
      }
      s, n := RunFresh(id, e, approval);
    }

    ghost function Now(): View
      reads this
    {
      View(processed, published, approvals, trace)
    }

    /** The router's handlers in registration order; an exception ends the call. */
    method Route(e: Envelope) returns (raised: bool, decisions: seq<LoopState>, ghost reached: nat)
      requires Valid()
      modifies this`processed, this`approvals, this`trace, this`calls, this`draws
      ensures Valid()
      ensures RouteDone(rules, routes, workflows, e, old(Now()), Now(), AlwaysSucceeds(outcome), raised, decisions)
      ensures reached <= |routes| && ActedOnly(old(trace), trace, routes[..reached], e)
      ensures if raised then reached > 0 && Routes(workflows[routes[reached - 1]].trigger, e)
                             && GateOf(rules, workflows[routes[reached - 1]], e, false) in {Throws, Asks}
              else reached == |routes|
    {
      hide ActedOnly, StateHolds, OutboxHolds, Acts, GateOf, Handed, Reports, Routed, OnlyEvent, OnlyTakers,
           TakersDone, AllTake, Takes, AlwaysSucceeds, AllProcessed, Interrupts, Answers;
      raised, decisions, reached := false, [], 0;
      NoneActed(trace, routes[..0], e);
      NobodyYet(rules, workflows, e, processed);
      NothingRouted(routes, workflows, e, processed);
      for i := 0 to |routes|
        invariant Valid() && old(processed) <= processed && OnlyEvent(old(processed), processed, e.id)
        invariant Reports(decisions, Routed(routes[..i], workflows, e), e.id, processed)
        invariant Routed(routes[..i], workflows, e) == [] ==>
                    trace == old(trace) && processed == old(processed) && approvals == old(approvals)
        invariant ActedOnly(old(trace), trace, routes[..i], e)
        invariant OnlyTakers(rules, workflows, e, old(processed), processed)
        invariant AlwaysSucceeds(outcome) ==>
                    TakersDone(rules, workflows, Routed(routes[..i], workflows, e), e, old(processed), processed)
      {
        RoutedStep(routes, i, workflows, e);
        ghost var was := trace;
        ActedMore(old(trace), trace, routes, i, workflows, e);
        if Routes(workflows[routes[i]].trigger, e) {
          NoApprovalHanded(rules, Tries(), trace, processed, approvals, workflows[routes[i]], e);
          ghost var before := processed;
          var s, n := RunWorkflow(routes[i], e, None);
          ActedOne(old(trace), was, trace, routes, i, workflows, e, n, s.Idle?);
          TakerStep(rules, workflows, Routed(routes[..i], workflows, e), e, old(processed), before, processed,
              routes[i], s);
          if s.Raised? {
            OnlyEventStep(old(processed), before, processed, routes[i], e.id);
            RoutedSome(routes, i, workflows, e);
            NotAllTake(rules, workflows, routes, i, e, old(processed));
            ActedWider(old(trace), trace, routes, i + 1, e);
            return true, decisions, i + 1;
          }
          ReportStep(decisions, Routed(routes[..i], workflows, e), e.id, before, processed, routes[i], s);
          OnlyEventStep(old(processed), before, processed, routes[i], e.id);
          decisions := decisions + [s];
        }
      }
      assert routes[..|routes|] == routes;
      reached := |routes|;
      TakersAreAll(rules, workflows, Routed(routes, workflows, e), e, old(processed), processed);
    }

    /** One row of the batch: routed, and marked published if there were decisions and all are Idle. */
    method DrainOne(id: string) returns (raised: bool)
      requires Valid() && id in outbox
      modifies this`processed, this`approvals, this`trace, this`calls, this`draws, this`published
      ensures Valid()
      ensures RowDone(rules, outbox, routes, workflows, id, old(Now()), Now(), AlwaysSucceeds(outcome), raised)
      ensures id in published && id !in old(published) ==>
                var row := outbox[id];
                var source := if "source_id" in row.payload then row.payload["source_id"] else Null;
                && trace != [] && trace[|trace| - 1].Published?
                && trace[|trace| - 1].event == Envelope(id, row.tenant, row.workspace, row.kind, row.payload, source)
    {
      assert outbox[id].id == id;
      hide StateHolds, OutboxHolds, Registered, Routed, RouteDone, RowDone, AlwaysSucceeds, AllProcessed, ActedOnly,
           GateOf;
      var e := FromOutbox(outbox[id]);
      ghost var was := Now();
      var to := Routed(routes, workflows, e);
      var decisions;
      ghost var reached;
      raised, decisions, reached := Route(e);
      RowFinishes(rules, outbox, routes, workflows, id, was, Now(), AlwaysSucceeds(outcome), raised, decisions);
      if !raised && decisions != [] && forall k :: 0 <= k < |decisions| ==> decisions[k].Idle? {
        assert AllIdle(decisions);
        PublishStep(rules, Tries(), trace, processed, approvals, e, to);
        published := published + {id};
        trace := trace + [Published(e, to)];
      }
    }

    /** Publishes exactly the events of the batch that went somewhere and are processed by every workflow they went
        to. Events that go nowhere stay, and a batch of them alone changes nothing. */
    method DrainOutbox(limit: int) returns (raised: bool, ghost reached: nat)
      requires Valid()
      modifies this`processed, this`approvals, this`trace, this`calls, this`draws, this`published
      ensures Valid()
      ensures
        var batch := Batch(order, old(published), limit);
        && Takeable(outbox, old(published), batch) && reached <= |batch|
        && Drained(rules, outbox, routes, workflows, batch, reached, old(Now()), Now(), AlwaysSucceeds(outcome), raised)
    {
      var batch := Batch(order, published, limit);
      BatchIsPending(order, published, limit);
      assert Takeable(outbox, published, batch);
      hide StateHolds, OutboxHolds, Registered, Known, Batch, RowDone, Draining, Drained, Takeable, AlwaysSucceeds,
           Routed, Distinct;
      raised, reached := false, 0;
      ghost var first, exact := Now(), AlwaysSucceeds(outcome);
      DrainingBegins(rules, outbox, routes, workflows, batch, first, exact);
      for i := 0 to |batch|
        invariant Valid() && Draining(rules, outbox, routes, workflows, batch, i, first, Now(), exact)
      {
        ghost var was := Now();
        TakeableAt(outbox, first.published, batch, i);
        raised := DrainOne(batch[i]);
        DrainingNext(rules, outbox, routes, workflows, batch, i, first, was, Now(), exact, raised);
        if raised {
          return true, i + 1;
        }
      }
      reached := |batch|;
      DrainingEnds(rules, outbox, routes, workflows, batch, first, Now(), exact);
    }

    /** `InMemoryApprovalStore.decide`: a pending approval is decided once, before it expires. */
    method Decide(id: string, decision: Decision, now: int) returns (ok: bool)
      requires Valid() && (decision.Approved? || decision.Rejected?)
      modifies this`approvals, this`trace
      ensures Valid()
      ensures ok <==> id in old(approvals) && old(approvals)[id].decision.Pending? && now < old(approvals)[id].expires
      ensures approvals ==
              if ok then old(approvals)[id := old(approvals)[id].(decision := decision)]
              else if id in old(approvals) && old(approvals)[id].decision.Pending? then
                old(approvals)[id := old(approvals)[id].(decision := Expired)]
              else old(approvals)
      ensures trace == old(trace) + (if ok && decision.Approved? then [Granted(old(approvals)[id], now)] else [])
      ensures ok && decision.Approved? ==> Spending(trace, Tries(), Some(id), Tries()) && old(approvals)[id].id == id
    {
      if id !in approvals || !approvals[id].decision.Pending? {
        return false;
      }
      var a := approvals[id];
      assert a.id == id;
      hide Registered, OutboxHolds, StateHolds, Spending;
      DecideStep(rules, Tries(), trace, processed, approvals, id, if now >= a.expires then Expired else decision, now);
      if now >= a.expires {
        approvals := approvals[id := a.(decision := Expired)];
        return false;
      }
      approvals := approvals[id := a.(decision := decision)];
      if decision.Approved? {
        trace := trace + [Granted(a, now)];
      }
      ok := true;
    }

    /** Even a policy that now denies, or a workflow that no longer matches, spends the approval. */
    method ApproveAndResume(id: string, now: int) returns (s: LoopState, ghost n: nat)
      requires Valid()
      modifies this`processed, this`approvals, this`trace, this`calls, this`draws
      ensures Valid()
      ensures
        if id !in old(approvals) || !old(approvals)[id].decision.Pending? then
          s == Raised && trace == old(trace) && approvals == old(approvals)
        else if now >= old(approvals)[id].expires then
          s == Raised && trace == old(trace) &&
            approvals == old(approvals)[id := old(approvals)[id].(decision := Expired)]
        else
          var a := old(approvals)[id];
          && id in approvals && approvals[id] == a.(decision := Approved)
          && if a.workflow !in workflows then s == Raised && trace == old(trace) + [Granted(a, now)]
             else
               var w := workflows[a.workflow];
               var e := ResumedEvent(a, w.trigger);
               && (s.Idle? <==> (w.id, e.id) in processed)
               && trace == old(trace) + [Granted(a, now)] + Acts(w, e, n, s.Idle?, Some(id))
    {
      ghost var a := if id in approvals then Some(approvals[id]) else None;
      assert forall w :: w in workflows ==> workflows[w].id == w;
      hide Registered, OnlyEvent, StateHolds, OutboxHolds, Spending, Handed, Acts, GateOf, GrantedFor, Known,
           Distinct;
      var ok := Decide(id, Approved, now);
      if !ok {
        return Raised, 0;
      }
      var request := approvals[id];
      if request.workflow !in workflows {
        return Raised, 0;
      }
      var w := workflows[request.workflow];
      var e := ResumedEvent(request, w.trigger);
      GrantHanded(trace, Tries(), a.value, now, w, e);
      s, n := RunWorkflow(request.workflow, e, Some(id));
    }

    /** The workflow is stored before its route is checked, so a refused route leaves it stored. */
    method RegisterWorkflow(w: Workflow) returns (ok: bool)
      requires Valid()
      modifies this`workflows, this`routes
      ensures Valid()
      ensures ok <==> w.id !in old(workflows) && w.id != "" && w.trigger.kind != ""
      ensures workflows == if w.id in old(workflows) then old(workflows) else old(workflows)[w.id := w]
      ensures routes == if ok then old(routes) + [w.id] else old(routes)
    {
      hide StateHolds, OutboxHolds;
      if w.id in workflows {
        return false;
      }
      workflows := workflows[w.id := w];
      if w.id == "" || w.trigger.kind == "" {
        return false;
      }
      routes := routes + [w.id];
      ok := true;
    }

    /** The status of a workflow is the application's to change. */
    method SetStatus(id: string, status: WorkflowStatus)
      requires Valid()
      modifies this`workflows
      ensures Valid()
      ensures workflows == if id in old(workflows) then old(workflows)[id := old(workflows)[id].(status := status)]
                           else old(workflows)
    {
      hide StateHolds, OutboxHolds;
      if id in workflows {
        workflows := workflows[id := workflows[id].(status := status)];
      }
    }

    /** An approval put into the shared store by somebody else, with or without an event. */
    method CreateApproval(request: Approval) returns (ok: bool)
      requires Valid() && request.decision.Pending?
      modifies this`approvals
      ensures Valid()
      ensures ok <==> request.id !in old(approvals)
      ensures approvals == if ok then old(approvals)[request.id := request] else old(approvals)
    {
      ok := request.id !in approvals;
      if ok {
        hide Safe, Registered, OutboxHolds, ProcessedHolds, GrantsHold;
        RequestStep(approvals, trace, request.id, request);
        approvals := approvals[request.id := request];
      }
    }

    /** `at` is where the row's creation time and id put it in the order of `pending`. */
    method AppendOutbox(o: OutboxEvent, at: nat) returns (ok: bool)
      requires Valid() && at <= |order|
      modifies this`order, this`outbox
      ensures Valid()
      ensures ok <==> o.id !in old(outbox)
      ensures outbox == if ok then old(outbox)[o.id := o] else old(outbox)
      ensures order == if ok then old(order)[..at] + [o.id] + old(order)[at..] else old(order)
    {
      hide StateHolds, Registered;
      ok := o.id !in outbox;
      if ok {
        InsertDistinct(order, at, o.id);
        outbox := outbox[o.id := o];
        order := order[..at] + [o.id] + order[at..];
      }
    }

    function Request(a: string, id: string, e: Envelope, draw: nat): Approval {
      Approval(a, e.tenant, e.workspace, id, e.id, Some(e), clock(draw) + ttl, Pending)
    }

  }

  ghost predicate AlwaysSucceeds(outcome: nat -> bool) {
    forall k: nat :: outcome(k)
  }

  /** The workflow has processed the event, or nothing stands between the two. */
  ghost predicate Takes(
    rules: seq<Rule>, workflows: map<string, Workflow>, w: string, e: Envelope, processed: set<(string, string)>) {
    (w, e.id) in processed || (w in workflows && GateOf(rules, workflows[w], e, false) == Open)
  }

  ghost predicate AllTake(
    rules: seq<Rule>, workflows: map<string, Workflow>, ids: seq<string>, e: Envelope,
    processed: set<(string, string)>) {
    forall k :: 0 <= k < |ids| ==> Takes(rules, workflows, ids[k], e, processed)
  }

  /** Whoever has processed the event afterwards could take it before. */
  ghost predicate OnlyTakers(
    rules: seq<Rule>, workflows: map<string, Workflow>, e: Envelope, before: set<(string, string)>,
    after: set<(string, string)>) {
    forall w :: (w, e.id) in after ==> Takes(rules, workflows, w, e, before)
  }

  /** And these of them, if they could, have. */
  ghost predicate TakersDone(
    rules: seq<Rule>, workflows: map<string, Workflow>, ids: seq<string>, e: Envelope, before: set<(string, string)>,
    after: set<(string, string)>) {
    forall k :: 0 <= k < |ids| && Takes(rules, workflows, ids[k], e, before) ==> (ids[k], e.id) in after
  }

  /** Some workflow that the event goes to raises on it, or asks for an approval. */
  ghost predicate Interrupts(rules: seq<Rule>, workflows: map<string, Workflow>, ids: seq<string>, e: Envelope) {
    exists k :: 0 <= k < |ids| && ids[k] in workflows && GateOf(rules, workflows[ids[k]], e, false) in {Throws, Asks}
  }

  lemma NobodyYet(rules: seq<Rule>, workflows: map<string, Workflow>, e: Envelope, processed: set<(string, string)>)
    ensures OnlyTakers(rules, workflows, e, processed, processed)
    ensures TakersDone(rules, workflows, [], e, processed, processed)
  {
    hide GateOf;
  }

  /** One more workflow of the route has run; `open` is what its gate said. */
  lemma TakerStep(
    rules: seq<Rule>, workflows: map<string, Workflow>, ids: seq<string>, e: Envelope, first: set<(string, string)>,
    before: set<(string, string)>, after: set<(string, string)>, w: string, s: LoopState)
    requires OnlyTakers(rules, workflows, e, first, before) && first <= before && w in workflows
    requires after == (if s.Idle? then before + {(w, e.id)} else before) && (s.Idle? <==> (w, e.id) in after)
    requires (w, e.id) !in before ==> Answers(GateOf(rules, workflows[w], e, false), s)
    ensures OnlyTakers(rules, workflows, e, first, after)
    ensures TakersDone(rules, workflows, ids, e, first, before) && !s.Recovering? ==>
              TakersDone(rules, workflows, ids + [w], e, first, after)
    ensures s.Raised? ==>
              !Takes(rules, workflows, w, e, first) && GateOf(rules, workflows[w], e, false) in {Throws, Asks}
  {
    hide GateOf;
  }

  /** The trace has grown, and the new actions are those of these workflows on this event. */
  ghost predicate ActedOnly(before: seq<Record>, after: seq<Record>, ids: seq<string>, e: Envelope) {
    && before <= after
    && forall n :: |before| <= n < |after| && after[n].Acted? ==> after[n].workflow.id in ids && after[n].event == e
  }

  lemma ActedWider(before: seq<Record>, after: seq<Record>, routes: seq<string>, n: nat, e: Envelope)
    requires n <= |routes| && ActedOnly(before, after, routes[..n], e)
    ensures ActedOnly(before, after, routes, e)
  {
  }

  lemma ActedAndPublished(
    before: seq<Record>, after: seq<Record>, routes: seq<string>, e: Envelope, to: seq<string>)
    requires ActedOnly(before, after, routes, e)
    ensures ActedOnly(before, after + [Published(e, to)], routes, e)
  {
  }

  lemma NoneActed(trace: seq<Record>, ids: seq<string>, e: Envelope)
    ensures ActedOnly(trace, trace, ids, e)
  {
  }

  lemma ActedMore(
    before: seq<Record>, after: seq<Record>, routes: seq<string>, i: nat, workflows: map<string, Workflow>,
    e: Envelope)
    requires i < |routes| && ActedOnly(before, after, routes[..i], e)
    ensures ActedOnly(before, after, routes[..i + 1], e)
  {
    assert routes[..i + 1] == routes[..i] + [routes[i]];
  }

  lemma ActedOne(
    before: seq<Record>, was: seq<Record>, after: seq<Record>, routes: seq<string>, i: nat,
    workflows: map<string, Workflow>, e: Envelope, n: nat, ok: bool)
    requires i < |routes| && Registered(workflows, routes) && ActedOnly(before, was, routes[..i + 1], e)
    requires routes[i] in workflows && after == was + Acts(workflows[routes[i]], e, n, ok, None)
    ensures ActedOnly(before, after, routes[..i + 1], e)
  {
    assert workflows[routes[i]].id == routes[i] && routes[..i + 1][i] == routes[i];
  }

  lemma NotAllTake(
    rules: seq<Rule>, workflows: map<string, Workflow>, routes: seq<string>, i: nat, e: Envelope,
    processed: set<(string, string)>)
    requires i < |routes| && Registered(workflows, routes) && Routes(workflows[routes[i]].trigger, e)
    requires !Takes(rules, workflows, routes[i], e, processed)
    requires GateOf(rules, workflows[routes[i]], e, false) in {Throws, Asks}
    ensures !AllTake(rules, workflows, Routed(routes, workflows, e), e, processed)
    ensures Interrupts(rules, workflows, Routed(routes, workflows, e), e)
  {
    hide Takes, GateOf;
    RoutedAreRoutes(routes, workflows, e);
    assert routes[i] in Routed(routes, workflows, e);
    var k :| 0 <= k < |Routed(routes, workflows, e)| && Routed(routes, workflows, e)[k] == routes[i];
  }

  lemma TakersAreAll(
    rules: seq<Rule>, workflows: map<string, Workflow>, ids: seq<string>, e: Envelope, before: set<(string, string)>,
    after: set<(string, string)>)
    requires OnlyTakers(rules, workflows, e, before, after)
    ensures AllProcessed(ids, e.id, after) ==> AllTake(rules, workflows, ids, e, before)
    ensures TakersDone(rules, workflows, ids, e, before, after) && AllTake(rules, workflows, ids, e, before) ==>
              AllProcessed(ids, e.id, after)
  {
    hide Takes;
  }

  /** Every new pair is about `event`. */
  ghost predicate OnlyEvent(before: set<(string, string)>, after: set<(string, string)>, event: string) {
    forall w, e :: (w, e) in after && e != event ==> (w, e) in before
  }

  /** One decision for each route taken, Idle exactly for the pairs that are processed. */
  ghost predicate Reports(
    decisions: seq<LoopState>, ids: seq<string>, event: string, processed: set<(string, string)>) {
    |decisions| == |ids| && forall k :: 0 <= k < |ids| ==> (decisions[k].Idle? <==> (ids[k], event) in processed)
  }

  lemma NothingRouted(
    routes: seq<string>, workflows: map<string, Workflow>, e: Envelope, processed: set<(string, string)>)
    requires Known(routes, workflows)
    ensures Routed(routes[..0], workflows, e) == [] && Reports([], [], e.id, processed)
    ensures OnlyEvent(processed, processed, e.id)
  {
  }

  lemma {:induction false} RoutedAreRoutes(routes: seq<string>, workflows: map<string, Workflow>, e: Envelope)
    requires Known(routes, workflows)
    ensures forall x :: x in Routed(routes, workflows, e) <==> x in routes && Routes(workflows[x].trigger, e)
  {
    if routes != [] {
      var rest := routes[..|routes| - 1];
      RoutedAreRoutes(rest, workflows, e);
      assert routes == rest + [routes[|routes| - 1]];
    }
  }

  /** Routing goes route by route and keeps their order. */
  lemma {:induction false} RoutedSplits(a: seq<string>, b: seq<string>, workflows: map<string, Workflow>, e: Envelope)
    requires Known(a, workflows) && Known(b, workflows)
    ensures Known(a + b, workflows) && Routed(a + b, workflows, e) == Routed(a, workflows, e) + Routed(b, workflows, e)
    decreases |b|
  {
    if b == [] {
      assert a + b == a;
    } else {
      RoutedSplits(a, b[..|b| - 1], workflows, e);
      assert (a + b)[..|a + b| - 1] == a + b[..|b| - 1];
    }
  }

  lemma RoutedStep(routes: seq<string>, i: nat, workflows: map<string, Workflow>, e: Envelope)
    requires i < |routes| && Registered(workflows, routes)
    ensures Known(routes[..i], workflows) && Known(routes[..i + 1], workflows)
    ensures
      var before := Routed(routes[..i], workflows, e);
      Routed(routes[..i + 1], workflows, e) == if Routes(workflows[routes[i]].trigger, e)
        then before + [routes[i]] else before
    ensures routes[i] !in Routed(routes[..i], workflows, e)
  {
    RoutedAreRoutes(routes[..i], workflows, e);
    assert routes[..i + 1][..i] == routes[..i];
  }

  lemma RoutedSome(routes: seq<string>, i: nat, workflows: map<string, Workflow>, e: Envelope)
    requires i < |routes| && Registered(workflows, routes) && Routes(workflows[routes[i]].trigger, e)
    ensures Routed(routes, workflows, e) != []
  {
    RoutedAreRoutes(routes, workflows, e);
    assert routes[i] in Routed(routes, workflows, e);
  }

  lemma NoApprovalHanded(
    rules: seq<Rule>, bound: nat, trace: seq<Record>, processed: set<(string, string)>,
    approvals: map<string, Approval>,
    w: Workflow, e: Envelope)
    requires StateHolds(rules, bound, trace, processed, approvals)
    ensures Handed(trace, bound, w, e, None)
  {
  }

  lemma OnlyEventStep(
    first: set<(string, string)>, before: set<(string, string)>, after: set<(string, string)>, w: string, event: string)
    requires OnlyEvent(first, before, event) && (after == before || after == before + {(w, event)})
    ensures OnlyEvent(first, after, event)
  {
  }

  lemma ReportStep(
    decisions: seq<LoopState>, ids: seq<string>, event: string, before: set<(string, string)>,
    after: set<(string, string)>,
    w: string, s: LoopState)
    requires Reports(decisions, ids, event, before) && w !in ids
    requires after == (if s.Idle? then before + {(w, event)} else before) && (s.Idle? <==> (w, event) in after)
    ensures Reports(decisions + [s], ids + [w], event, after)
  {
  }

  /** The rows `pending` returns; a negative limit is none. */
  function Batch(order: seq<string>, published: set<string>, limit: int): seq<string> {
    var rows := Unpublished(order, published);
    if 0 <= limit < |rows| then rows[..limit] else rows
  }

  lemma {:induction false} UnpublishedRows(order: seq<string>, published: set<string>)
    requires Distinct(order)
    ensures Distinct(Unpublished(order, published))
    ensures forall id :: id in Unpublished(order, published) <==> id in order && id !in published
  {
    if order != [] {
      UnpublishedRows(order[1..], published);
      assert order == [order[0]] + order[1..];
      assert order[0] !in order[1..];
    }
  }

  lemma {:induction false} UnpublishedSplits(order: seq<string>, published: set<string>, k: nat)
    requires k <= |order|
    ensures Unpublished(order, published) == Unpublished(order[..k], published) + Unpublished(order[k..], published)
  {
    if k > 0 {
      UnpublishedSplits(order[1..], published, k - 1);
      assert order[..k][1..] == order[1..][..k - 1] && order[1..][k - 1..] == order[k..];
    } else {
      assert order[k..] == order;
    }
  }

  /** The batch is the oldest unpublished rows: with a row every older one, all of them unless the limit is reached, and
      never more than the limit; a negative limit is none. */
  lemma BatchIsOldest(order: seq<string>, published: set<string>, limit: int)
    requires Distinct(order)
    ensures
      var batch := Batch(order, published, limit);
      && (limit >= 0 ==> |batch| <= limit)
      && (limit < 0 || |batch| < limit ==> forall id :: id in order && id !in published ==> id in batch)
      && forall i, j :: 0 <= i < j < |order| && order[j] in batch && order[i] !in published ==> order[i] in batch
  {
    UnpublishedRows(order, published);
    var batch := Batch(order, published, limit);
    forall i, j | 0 <= i < j < |order| && order[j] in batch && order[i] !in published ensures order[i] in batch {
      OlderIsIn(order, published, limit, i, j);
    }
  }

  lemma OlderIsIn(order: seq<string>, published: set<string>, limit: int, i: nat, j: nat)
    requires Distinct(order) && i < j < |order| && order[i] !in published
    requires order[j] in Batch(order, published, limit)
    ensures order[i] in Batch(order, published, limit)
  {
    var older := Unpublished(order[..j], published);
    UnpublishedSplits(order, published, j);
    UnpublishedRows(order[..j], published);
    assert order[..j][i] == order[i] && order[j] !in order[..j];
    hide Unpublished;
    var n :| 0 <= n < |older| && older[n] == order[i];
    var rows := Unpublished(order, published);
    assert rows[n] == order[i];
    if 0 <= limit < |rows| {
      var m :| 0 <= m < limit && rows[m] == order[j];
      assert m >= |older|;
      assert rows[..limit][n] == order[i];
    }
  }

  lemma BatchIsPending(order: seq<string>, published: set<string>, limit: int)
    requires Distinct(order)
    ensures Distinct(Batch(order, published, limit))
    ensures forall id :: id in Batch(order, published, limit) ==> id in order && id !in published
  {
    UnpublishedRows(order, published);
  }

  /** Published exactly where every workflow that the event is routed to has processed it. */
  ghost predicate Settled(
    ids: seq<string>, outbox: map<string, OutboxEvent>, routes: seq<string>, workflows: map<string, Workflow>,
    published: set<string>, processed: set<(string, string)>)
    requires Known(routes, workflows)
  {
    forall id :: id in ids ==>
      && id in outbox
      && var to := Routed(routes, workflows, FromOutbox(outbox[id]));
         (id in published <==> to != [] && AllProcessed(to, id, processed))
  }

  /** The event goes somewhere, and every workflow it goes to has processed it or can take it. A caller can see this
      before a drain. */
  ghost predicate Publishable(
    rules: seq<Rule>, outbox: map<string, OutboxEvent>, routes: seq<string>, workflows: map<string, Workflow>,
    id: string, processed: set<(string, string)>)
    requires Known(routes, workflows)
  {
    && id in outbox
    && var to := Routed(routes, workflows, FromOutbox(outbox[id]));
       to != [] && AllTake(rules, workflows, to, FromOutbox(outbox[id]), processed)
  }

  /** Whatever is newly published could be. */
  ghost predicate PublishedOnly(
    rules: seq<Rule>, outbox: map<string, OutboxEvent>, routes: seq<string>, workflows: map<string, Workflow>,
    processed: set<(string, string)>, before: set<string>, after: set<string>)
    requires Known(routes, workflows)
  {
    forall id :: id in after && id !in before ==> Publishable(rules, outbox, routes, workflows, id, processed)
  }

  /** Of these rows, exactly those that could be published are. */
  ghost predicate PublishedExactly(
    rules: seq<Rule>, outbox: map<string, OutboxEvent>, routes: seq<string>, workflows: map<string, Workflow>,
    processed: set<(string, string)>, ids: seq<string>, published: set<string>)
    requires Known(routes, workflows)
  {
    forall id :: id in ids ==> (id in published <==> Publishable(rules, outbox, routes, workflows, id, processed))
  }

  /** Every new pair is of a workflow and a row between which nothing stood. */
  ghost predicate OnlyOpened(
    rules: seq<Rule>, outbox: map<string, OutboxEvent>, workflows: map<string, Workflow>, before: set<(string, string)>,
    after: set<(string, string)>) {
    forall w, id :: (w, id) in after && (w, id) !in before ==>
      id in outbox && w in workflows && GateOf(rules, workflows[w], FromOutbox(outbox[id]), false) == Open
  }

  lemma NothingDrained(
    rules: seq<Rule>, outbox: map<string, OutboxEvent>, routes: seq<string>, workflows: map<string, Workflow>,
    processed: set<(string, string)>, published: set<string>)
    requires Known(routes, workflows)
    ensures PublishedOnly(rules, outbox, routes, workflows, processed, published, published)
    ensures PublishedExactly(rules, outbox, routes, workflows, processed, [], published)
    ensures OnlyOpened(rules, outbox, workflows, processed, processed) && OnlyEvents(processed, processed, [])
    ensures RowsTaken(rules, outbox, routes, workflows, [], processed, processed)
  {
  }

  /** Every new pair is about one of these events. */
  ghost predicate OnlyEvents(before: set<(string, string)>, after: set<(string, string)>, ids: seq<string>) {
    forall w, id :: id !in ids && (w, id) in after ==> (w, id) in before
  }

  /** What a drain cannot publish, no later drain can: nobody else takes the event in the meantime. */
  /** Of these rows, every workflow that could take one has. */
  ghost predicate RowsTaken(
    rules: seq<Rule>, outbox: map<string, OutboxEvent>, routes: seq<string>, workflows: map<string, Workflow>,
    ids: seq<string>, before: set<(string, string)>, after: set<(string, string)>)
    requires Known(routes, workflows)
  {
    forall id :: id in ids && id in outbox ==>
      var e := FromOutbox(outbox[id]);
      TakersDone(rules, workflows, Routed(routes, workflows, e), e, before, after)
  }

  ghost predicate Interrupted(
    rules: seq<Rule>, outbox: map<string, OutboxEvent>, routes: seq<string>, workflows: map<string, Workflow>,
    ids: seq<string>)
    requires Known(routes, workflows)
  {
    exists id :: id in ids && id in outbox
                 && Interrupts(rules, workflows, Routed(routes, workflows, FromOutbox(outbox[id])),
                   FromOutbox(outbox[id]))
  }

  /** Of the batch the first `n` rows have been worked on and no other; where that ended with an exception, it came from
      a gate of the last of them. */
  ghost predicate DrainedTo(
    rules: seq<Rule>, outbox: map<string, OutboxEvent>, routes: seq<string>, workflows: map<string, Workflow>,
    before: seq<Record>, after: seq<Record>, batch: seq<string>, raised: bool, n: nat)
    requires Known(routes, workflows)
  {
    && n <= |batch| && before <= after && (forall id :: id in batch ==> id in outbox)
    && (forall k :: |before| <= k < |after| && after[k].Acted? ==>
          exists i :: 0 <= i < n && after[k].event == FromOutbox(outbox[batch[i]]))
    && (raised ==>
          && n > 0
          && var e := FromOutbox(outbox[batch[n - 1]]);
             Interrupts(rules, workflows, Routed(routes, workflows, e), e))
  }

  lemma DrainedNone(
    rules: seq<Rule>, outbox: map<string, OutboxEvent>, routes: seq<string>, workflows: map<string, Workflow>,
    trace: seq<Record>, batch: seq<string>)
    requires Known(routes, workflows) && forall id :: id in batch ==> id in outbox
    ensures DrainedTo(rules, outbox, routes, workflows, trace, trace, batch, false, 0)
  {
  }

  lemma DrainedRow(
    rules: seq<Rule>, outbox: map<string, OutboxEvent>, routes: seq<string>, workflows: map<string, Workflow>,
    before: seq<Record>, was: seq<Record>, after: seq<Record>, batch: seq<string>, raised: bool, i: nat)
    requires Known(routes, workflows) && i < |batch| && batch[i] in outbox
    requires DrainedTo(rules, outbox, routes, workflows, before, was, batch, false, i)
    requires ActedOnly(was, after, routes, FromOutbox(outbox[batch[i]]))
    requires
      var e := FromOutbox(outbox[batch[i]]);
      raised ==> Interrupts(rules, workflows, Routed(routes, workflows, e), e)
    ensures DrainedTo(rules, outbox, routes, workflows, before, after, batch, raised, i + 1)
  {
    hide Interrupts, Routed, FromOutbox;
    forall k | |before| <= k < |after| && after[k].Acted?
      ensures exists j :: 0 <= j < i + 1 && after[k].event == FromOutbox(outbox[batch[j]])
    {
      if k < |was| {
        assert after[k] == was[k];
      } else {
        assert after[k].event == FromOutbox(outbox[batch[i]]);
      }
    }
  }

  lemma WhoInterrupts(
    rules: seq<Rule>, outbox: map<string, OutboxEvent>, routes: seq<string>, workflows: map<string, Workflow>,
    ids: seq<string>, i: nat)
    requires Known(routes, workflows) && i < |ids| && ids[i] in outbox
    requires Interrupts(rules, workflows, Routed(routes, workflows, FromOutbox(outbox[ids[i]])),
               FromOutbox(outbox[ids[i]]))
    ensures Interrupted(rules, outbox, routes, workflows, ids)
  {
    hide Interrupts, Routed;
    assert ids[i] in ids;
  }

  lemma RowsTakenNext(
    rules: seq<Rule>, outbox: map<string, OutboxEvent>, routes: seq<string>, workflows: map<string, Workflow>,
    ids: seq<string>,
    id: string, first: set<(string, string)>, before: set<(string, string)>, after: set<(string, string)>)
    requires Known(routes, workflows) && id in outbox && first <= before <= after
    ensures
      var e := FromOutbox(outbox[id]);
      && RowsTaken(rules, outbox, routes, workflows, ids, first, before)
      && TakersDone(rules, workflows, Routed(routes, workflows, e), e, before, after) ==>
        RowsTaken(rules, outbox, routes, workflows, ids + [id], first, after)
  {
    hide Routed, GateOf;
  }

  lemma StuckStays(
    rules: seq<Rule>, outbox: map<string, OutboxEvent>, routes: seq<string>, workflows: map<string, Workflow>,
    id: string, before: set<(string, string)>, after: set<(string, string)>)
    requires Known(routes, workflows) && id in outbox && outbox[id].id == id
    requires OnlyOpened(rules, outbox, workflows, before, after)
    ensures Publishable(rules, outbox, routes, workflows, id, after) ==>
              Publishable(rules, outbox, routes, workflows, id, before)
  {
    hide Routed, GateOf;
  }

  lemma OpenedNext(
    rules: seq<Rule>, outbox: map<string, OutboxEvent>, workflows: map<string, Workflow>,
    processed0: set<(string, string)>,
    processed: set<(string, string)>, processed': set<(string, string)>, id: string)
    requires id in outbox && outbox[id].id == id && OnlyOpened(rules, outbox, workflows, processed0, processed)
    requires OnlyEvent(processed, processed', id)
    requires OnlyTakers(rules, workflows, FromOutbox(outbox[id]), processed, processed')
    ensures OnlyOpened(rules, outbox, workflows, processed0, processed')
  {
    hide GateOf;
  }

  /** One row after those in `done`: what is known of the state before the first (`processed0`, `published0`) carries
      over. */
  lemma DrainedNext(
    rules: seq<Rule>, outbox: map<string, OutboxEvent>, routes: seq<string>, workflows: map<string, Workflow>,
    done: seq<string>, id: string, processed0: set<(string, string)>, published0: set<string>,
    processed: set<(string, string)>, published: set<string>, processed': set<(string, string)>,
    published': set<string>, exact: bool)
    requires Known(routes, workflows) && id in outbox && outbox[id].id == id && id !in done && id !in published
    requires processed0 <= processed <= processed' && OnlyEvent(processed, processed', id)
    requires OnlyEvents(processed0, processed, done)
    requires published' == published || published' == published + {id}
    requires id in published' ==> Publishable(rules, outbox, routes, workflows, id, processed)
    requires exact ==> (id in published' <==> Publishable(rules, outbox, routes, workflows, id, processed))
    requires PublishedOnly(rules, outbox, routes, workflows, processed0, published0, published)
    requires exact ==> PublishedExactly(rules, outbox, routes, workflows, processed0, done, published)
    ensures PublishedOnly(rules, outbox, routes, workflows, processed0, published0, published')
    ensures exact ==> PublishedExactly(rules, outbox, routes, workflows, processed0, done + [id], published')
    ensures OnlyEvents(processed0, processed', done + [id])
  {
    hide Routed, GateOf;
    forall w, x | x !in done + [id] && (w, x) in processed' ensures (w, x) in processed0 {
      assert x !in done && x != id;
    }
    assert Publishable(rules, outbox, routes, workflows, id, processed0) <==>
           Publishable(rules, outbox, routes, workflows, id, processed);
    hide Publishable;
  }

  ghost predicate Unroutable(
    ids: seq<string>, outbox: map<string, OutboxEvent>, routes: seq<string>, workflows: map<string, Workflow>)
    requires Known(routes, workflows)
  {
    forall id :: id in ids ==> id in outbox && Routed(routes, workflows, FromOutbox(outbox[id])) == []
  }

  ghost predicate Grew(before: set<string>, after: set<string>, ids: seq<string>) {
    before <= after && forall id :: id in after && id !in before ==> id in ids
  }

  /** What routing an event does: one decision for each route taken, idle exactly for processed pairs; new pairs are of
      this event and of workflows that take it; an exception comes from a gate. */
  ghost predicate RouteDone(
    rules: seq<Rule>, routes: seq<string>, workflows: map<string, Workflow>, e: Envelope, v: View, v': View,
    exact: bool, raised: bool, decisions: seq<LoopState>)
    requires Known(routes, workflows)
  {
    var to := Routed(routes, workflows, e);
    && v'.published == v.published && v.processed <= v'.processed && OnlyEvent(v.processed, v'.processed, e.id)
    && OnlyTakers(rules, workflows, e, v.processed, v'.processed) && ActedOnly(v.trace, v'.trace, routes, e)
    && (!raised ==> Reports(decisions, to, e.id, v'.processed))
    && (to == [] ==> !raised && v' == v)
    && (exact && AllTake(rules, workflows, to, e, v.processed) ==> !raised && AllProcessed(to, e.id, v'.processed))
    && (exact && !raised ==> TakersDone(rules, workflows, to, e, v.processed, v'.processed))
    && (raised ==> Interrupts(rules, workflows, to, e))
  }

  predicate AllIdle(decisions: seq<LoopState>) {
    decisions != [] && forall k :: 0 <= k < |decisions| ==> decisions[k].Idle?
  }

  lemma RowFinishes(
    rules: seq<Rule>, outbox: map<string, OutboxEvent>, routes: seq<string>, workflows: map<string, Workflow>,
    id: string, v: View, v': View, exact: bool, raised: bool, decisions: seq<LoopState>)
    requires Known(routes, workflows) && id in outbox && outbox[id].id == id
    requires RouteDone(rules, routes, workflows, FromOutbox(outbox[id]), v, v', exact, raised, decisions)
    ensures
      var e := FromOutbox(outbox[id]);
      var to := Routed(routes, workflows, e);
      var done := !raised && AllIdle(decisions);
      && (done ==> to != [] && AllProcessed(to, id, v'.processed))
      && RowDone(rules, outbox, routes, workflows, id, v,
                 if done then v'.(published := v'.published + {id}, trace := v'.trace + [Published(e, to)]) else v',
                 exact, raised)
  {
    var e := FromOutbox(outbox[id]);
    var to := Routed(routes, workflows, e);
    IdleIsProcessed(decisions, to, e.id, v'.processed, raised);
    assert Publishable(rules, outbox, routes, workflows, id, v.processed) <==>
           to != [] && AllTake(rules, workflows, to, e, v.processed);
    hide Routed, OnlyEvent, OnlyTakers, AllTake, TakersDone, Interrupts, ActedOnly, Reports, AllProcessed,
         Publishable, AllIdle, Known;
    TakersAreAll(rules, workflows, to, e, v.processed, v'.processed);
    ActedAndPublished(v.trace, v'.trace, routes, e, to);
  }

  lemma IdleIsProcessed(
    decisions: seq<LoopState>, to: seq<string>, event: string, processed: set<(string, string)>, raised: bool)
    requires !raised ==> Reports(decisions, to, event, processed)
    ensures !raised ==> (AllIdle(decisions) <==> to != [] && AllProcessed(to, event, processed))
  {
  }

  /** What one row of a drain does. It changes pairs of its event only, and those only by letting workflows take it; it
      is published if it went somewhere and every workflow has processed it then, which is so only if all of them took
      it beforehand or take it now, and exactly then if the actions succeed; an exception comes from a gate. */
  ghost predicate RowDone(
    rules: seq<Rule>, outbox: map<string, OutboxEvent>, routes: seq<string>, workflows: map<string, Workflow>,
    id: string, v: View, v': View, exact: bool, raised: bool)
    requires Known(routes, workflows) && id in outbox
  {
    var e := FromOutbox(outbox[id]);
    var to := Routed(routes, workflows, e);
    && v.processed <= v'.processed && OnlyEvent(v.processed, v'.processed, id)
    && OnlyTakers(rules, workflows, e, v.processed, v'.processed) && ActedOnly(v.trace, v'.trace, routes, e)
    && v'.published == v.published + (if !raised && to != [] && AllProcessed(to, id, v'.processed) then {id} else {})
    && (id in v'.published && id !in v.published ==>
          Publishable(rules, outbox, routes, workflows, id, v.processed))
    && (exact && Publishable(rules, outbox, routes, workflows, id, v.processed) ==> !raised && id in v'.published)
    && (exact && !raised ==> TakersDone(rules, workflows, to, e, v.processed, v'.processed))
    && (raised ==> Interrupts(rules, workflows, to, e))
    && (to == [] ==> !raised && v' == v)
  }

  /** The rows of a batch are there and not published yet. */
  ghost predicate Takeable(outbox: map<string, OutboxEvent>, published: set<string>, batch: seq<string>) {
    Distinct(batch) && forall id :: id in batch ==> id !in published && id in outbox && outbox[id].id == id
  }

  lemma TakeableAt(outbox: map<string, OutboxEvent>, published: set<string>, batch: seq<string>, i: nat)
    requires Takeable(outbox, published, batch) && i < |batch|
    ensures batch[i] in outbox && outbox[batch[i]].id == batch[i] && batch[i] !in published && batch[i] !in batch[..i]
  {
    assert batch[i] in batch;
  }

  /** The first `i` rows of the batch are done, without an exception. */
  ghost predicate Draining(
    rules: seq<Rule>, outbox: map<string, OutboxEvent>, routes: seq<string>, workflows: map<string, Workflow>,
    batch: seq<string>, i: nat, first: View, v: View, exact: bool)
    requires Known(routes, workflows)
  {
    && i <= |batch| && Takeable(outbox, first.published, batch) && first.processed <= v.processed
    && Grew(first.published, v.published, batch[..i])
    && Settled(batch[..i], outbox, routes, workflows, v.published, v.processed)
    && (Unroutable(batch, outbox, routes, workflows) ==> v == first)
    && OnlyOpened(rules, outbox, workflows, first.processed, v.processed)
    && OnlyEvents(first.processed, v.processed, batch[..i])
    && DrainedTo(rules, outbox, routes, workflows, first.trace, v.trace, batch, false, i)
    && PublishedOnly(rules, outbox, routes, workflows, first.processed, first.published, v.published)
    && (exact ==>
          && PublishedExactly(rules, outbox, routes, workflows, first.processed, batch[..i], v.published)
          && RowsTaken(rules, outbox, routes, workflows, batch[..i], first.processed, v.processed))
  }

  /** What a drain has done when it ends: published exactly the rows of the batch that went somewhere and are processed
      by every workflow they went to, which are, whatever the actions do, only rows that were publishable before, and
      exactly those if the actions succeed; or an exception ended it at row number `n`. */
  ghost predicate Drained(
    rules: seq<Rule>, outbox: map<string, OutboxEvent>, routes: seq<string>, workflows: map<string, Workflow>,
    batch: seq<string>, n: nat, first: View, v: View, exact: bool, raised: bool)
    requires Known(routes, workflows)
  {
    && (if raised then 0 < n <= |batch| else n == |batch|)
    && first.processed <= v.processed && Grew(first.published, v.published, batch)
    && (Unroutable(batch, outbox, routes, workflows) ==> !raised && v == first)
    && OnlyOpened(rules, outbox, workflows, first.processed, v.processed)
    && PublishedOnly(rules, outbox, routes, workflows, first.processed, first.published, v.published)
    && DrainedTo(rules, outbox, routes, workflows, first.trace, v.trace, batch, raised, n)
    && (raised ==> Interrupted(rules, outbox, routes, workflows, batch))
    && (!raised ==> Settled(batch, outbox, routes, workflows, v.published, v.processed))
    && (!raised && exact ==>
          && PublishedExactly(rules, outbox, routes, workflows, first.processed, batch, v.published)
          && RowsTaken(rules, outbox, routes, workflows, batch, first.processed, v.processed))
  }

  lemma DrainingBegins(
    rules: seq<Rule>, outbox: map<string, OutboxEvent>, routes: seq<string>, workflows: map<string, Workflow>,
    batch: seq<string>, v: View, exact: bool)
    requires Known(routes, workflows) && Takeable(outbox, v.published, batch)
    ensures Draining(rules, outbox, routes, workflows, batch, 0, v, v, exact)
  {
    hide Grew, Settled, Unroutable, OnlyOpened, OnlyEvents, DrainedTo, PublishedOnly, PublishedExactly, RowsTaken;
    assert batch[..0] == [];
    DrainedNone(rules, outbox, routes, workflows, v.trace, batch);
    NothingDrained(rules, outbox, routes, workflows, v.processed, v.published);
    SettledNone(outbox, routes, workflows, v.published, v.processed);
    GrewNone(v.published);
  }

  lemma DrainingNext(
    rules: seq<Rule>, outbox: map<string, OutboxEvent>, routes: seq<string>, workflows: map<string, Workflow>,
    batch: seq<string>, i: nat, first: View, v: View, v': View, exact: bool, raised: bool)
    requires Known(routes, workflows) && Draining(rules, outbox, routes, workflows, batch, i, first, v, exact)
    requires i < |batch| && batch[i] in outbox
    requires RowDone(rules, outbox, routes, workflows, batch[i], v, v', exact, raised)
    ensures !raised ==> Draining(rules, outbox, routes, workflows, batch, i + 1, first, v', exact)
    ensures raised ==> Drained(rules, outbox, routes, workflows, batch, i + 1, first, v', exact, true)
  {
    hide Routed, OnlyEvent, AllProcessed, Settled, FromOutbox, Grew, Unroutable, OnlyTakers, Publishable,
         PublishedOnly, PublishedExactly, OnlyOpened, OnlyEvents, RowsTaken, Interrupted, TakersDone, Interrupts,
         ActedOnly, DrainedTo, Takeable, Known;
    var id := batch[i];
    TakeableAt(outbox, first.published, batch, i);
    TakeableRows(outbox, first.published, batch);
    NextRow(first.published, v.published, batch, i, outbox, routes, workflows);
    DrainedRow(rules, outbox, routes, workflows, first.trace, v.trace, v'.trace, batch, raised, i);
    GrewStep(first.published, v.published, v'.published, batch, i);
    OpenedNext(rules, outbox, workflows, first.processed, v.processed, v'.processed, id);
    DrainedNext(rules, outbox, routes, workflows, batch[..i], id, first.processed, first.published, v.processed,
                v.published, v'.processed, v'.published, exact && !raised);
    if raised {
      WhoInterrupts(rules, outbox, routes, workflows, batch, i);
    } else {
      RowsTakenNext(rules, outbox, routes, workflows, batch[..i], id, first.processed, v.processed, v'.processed);
      SettledStep(batch[..i], id, outbox, routes, workflows, v.published, v.processed, v'.published, v'.processed);
    }
  }

  lemma TakeableRows(outbox: map<string, OutboxEvent>, published: set<string>, batch: seq<string>)
    requires Takeable(outbox, published, batch)
    ensures Distinct(batch) && forall id :: id in batch ==> id !in published && id in outbox
  {
  }

  lemma DrainingEnds(
    rules: seq<Rule>, outbox: map<string, OutboxEvent>, routes: seq<string>, workflows: map<string, Workflow>,
    batch: seq<string>, first: View, v: View, exact: bool)
    requires Known(routes, workflows)
    requires Draining(rules, outbox, routes, workflows, batch, |batch|, first, v, exact)
    ensures Drained(rules, outbox, routes, workflows, batch, |batch|, first, v, exact, false)
  {
    hide Settled, Grew, Unroutable, PublishedOnly, PublishedExactly, OnlyOpened, OnlyEvents, RowsTaken, DrainedTo;
    assert batch[..|batch|] == batch;
  }

  lemma NextRow(
    first: set<string>, published: set<string>, batch: seq<string>, i: nat, outbox: map<string, OutboxEvent>,
    routes: seq<string>, workflows: map<string, Workflow>)
    requires Distinct(batch) && i < |batch| && Grew(first, published, batch[..i]) && Known(routes, workflows)
    requires forall id :: id in batch ==> id !in first && id in outbox
    ensures batch[i] in outbox && batch[i] !in published && batch[i] !in batch[..i]
    ensures batch[..i + 1] == batch[..i] + [batch[i]]
    ensures Unroutable(batch, outbox, routes, workflows) ==>
              Routed(routes, workflows, FromOutbox(outbox[batch[i]])) == []
  {
    hide Routed;
    assert batch[i] in batch;
  }

  lemma GrewNone(s: set<string>)
    ensures Grew(s, s, [])
  {
  }

  lemma GrewStep(first: set<string>, before: set<string>, after: set<string>, batch: seq<string>, i: nat)
    requires i < |batch| && Grew(first, before, batch[..i]) && (after == before || after == before + {batch[i]})
    ensures Grew(first, after, batch[..i + 1]) && Grew(first, after, batch)
  {
  }

  lemma SettledNone(
    outbox: map<string, OutboxEvent>, routes: seq<string>, workflows: map<string, Workflow>, published: set<string>,
    processed: set<(string, string)>)
    requires Known(routes, workflows)
    ensures Settled([], outbox, routes, workflows, published, processed)
  {
  }

  lemma SettledStep(
    ids: seq<string>, id: string, outbox: map<string, OutboxEvent>, routes: seq<string>,
    workflows: map<string, Workflow>,
    published: set<string>, processed: set<(string, string)>, published': set<string>,
    processed': set<(string, string)>)
    requires Known(routes, workflows)
    requires Settled(ids, outbox, routes, workflows, published, processed) && id !in ids && id in outbox
    requires id !in published
    requires processed <= processed' && OnlyEvent(processed, processed', id)
    requires
      var to := Routed(routes, workflows, FromOutbox(outbox[id]));
      published' == published + (if to != [] && AllProcessed(to, id, processed') then {id} else {})
    ensures Settled(ids + [id], outbox, routes, workflows, published', processed')
  {
    hide Routed;
    forall x | x in ids
      ensures
        var to := Routed(routes, workflows, FromOutbox(outbox[x]));
        AllProcessed(to, x, processed) == AllProcessed(to, x, processed')
    {
    }
    hide AllProcessed;
  }

  lemma PublishStep(
    rules: seq<Rule>, bound: nat, trace: seq<Record>, processed: set<(string, string)>,
    approvals: map<string, Approval>,
    e: Envelope, to: seq<string>)
    requires StateHolds(rules, bound, trace, processed, approvals) && to != [] && AllProcessed(to, e.id, processed)
    ensures StateHolds(rules, bound, trace + [Published(e, to)], processed, approvals)
  {
    var r := Published(e, to);
    assert forall w :: w in to ==> Succeeded(trace, w, e.id);
    assert ApprovalsSpentOnce(trace, bound);
    forall x ensures WasGranted(trace + [r], x) == WasGranted(trace, x) {
      GrantedGrows(trace, r, x);
    }
    hide Safe, ProcessedHolds, GrantsHold, ApprovalsSpentOnce, WasGranted, Succeeded;
    SameGrantsHold(approvals, trace, trace + [r]);
    QuietKeepsProcessed(processed, trace, r);
    SpendingPublishes(trace, bound, r);
    QuietStep(rules, bound, trace, r);
  }

  lemma QuietKeepsProcessed(processed: set<(string, string)>, trace: seq<Record>, r: Record)
    requires ProcessedHolds(processed, trace) && !r.Acted?
    ensures ProcessedHolds(processed, trace + [r])
  {
    forall x, y ensures Succeeded(trace + [r], x, y) == Succeeded(trace, x, y) {
      SucceededGrows(trace, r, x, y);
    }
    hide Succeeded;
  }

  lemma DecisionKeepsGrants(
    approvals: map<string, Approval>, trace: seq<Record>, id: string, decision: Decision, now: int)
    requires GrantsHold(approvals, trace) && id in approvals && approvals[id].decision.Pending?
    ensures !WasGranted(trace, id)
    ensures
      var after := approvals[id := approvals[id].(decision := decision)];
      && GrantsHold(after, trace)
      && (decision.Approved? ==> GrantsHold(after, trace + [Granted(approvals[id], now)]))
  {
    forall x ensures WasGranted(trace + [Granted(approvals[id], now)], x) <==> WasGranted(trace, x) || x == id {
      GrantedGrows(trace, Granted(approvals[id], now), x);
    }
    hide WasGranted;
  }

  lemma QuietStep(rules: seq<Rule>, bound: nat, trace: seq<Record>, r: Record)
    requires Safe(rules, bound, trace) && !r.Acted? && ApprovalsSpentOnce(trace + [r], bound)
    requires r.Published? ==> r.routed != [] && forall w :: w in r.routed ==> Succeeded(trace, w, r.event.id)
    ensures Safe(rules, bound, trace + [r])
  {
    hide Authorised, PublishedAfterSuccess, SucceedsLast, ApprovalsSpentOnce, Succeeded;
    AuthorisedGrows(rules, trace, r);
    PublishedGrows(trace, r);
    NoSuccessYet(trace, r);
  }

  lemma DecideStep(
    rules: seq<Rule>, bound: nat, trace: seq<Record>, processed: set<(string, string)>,
    approvals: map<string, Approval>,
    id: string, decision: Decision, now: int)
    requires StateHolds(rules, bound, trace, processed, approvals) && id in approvals && approvals[id].decision.Pending?
    ensures
      var after := approvals[id := approvals[id].(decision := decision)];
      var t := trace + [Granted(approvals[id], now)];
      && StateHolds(rules, bound, trace, processed, after)
      && (decision.Approved? ==> StateHolds(rules, bound, t, processed, after) && Spending(t, bound, Some(id), bound))
  {
    var r := Granted(approvals[id], now);
    assert approvals[id].id == id && ApprovalsSpentOnce(trace, bound);
    hide Safe, ProcessedHolds, GrantsHold, ApprovalsSpentOnce, WasGranted, Spending;
    DecisionKeepsGrants(approvals, trace, id, decision, now);
    QuietKeepsProcessed(processed, trace, r);
    SpendingGrants(trace, bound, r);
    SpendingIsOnce(trace + [r], bound, Some(id), bound);
    QuietStep(rules, bound, trace, r);
  }

  lemma GrantHanded(trace: seq<Record>, bound: nat, a: Approval, now: int, w: Workflow, e: Envelope)
    requires trace != [] && trace[|trace| - 1] == Granted(a, now) && now < a.expires
    requires a.workflow == w.id && ResumedEvent(a, w.trigger) == e && Spending(trace, bound, Some(a.id), bound)
    ensures Handed(trace, bound, w, e, Some(a.id))
  {
    assert GrantedFor(trace[|trace| - 1], a.id, w, e);
  }

  lemma InsertDistinct(order: seq<string>, at: nat, id: string)
    requires Distinct(order) && id !in order && at <= |order|
    ensures Distinct(order[..at] + [id] + order[at..])
    ensures forall x :: x in order[..at] + [id] + order[at..] <==> x in order || x == id
  {
    var after := order[..at] + [id] + order[at..];
    forall i, j | 0 <= i < j < |after| ensures after[i] != after[j] {
      assert i < at ==> after[i] == order[i];
      assert j > at ==> after[j] == order[j - 1];
    }
    assert order == order[..at] + order[at..];
  }

  lemma RequestStep(approvals: map<string, Approval>, trace: seq<Record>, a: string, request: Approval)
    requires GrantsHold(approvals, trace) && a !in approvals && request.id == a
    ensures GrantsHold(approvals[a := request], trace)
  {
    hide WasGranted;
  }

  lemma HandedMayAct(
    rules: seq<Rule>, bound: nat, trace: seq<Record>, w: Workflow, e: Envelope, approval: Option<string>)
    requires Safe(rules, bound, trace) && Handed(trace, bound, w, e, approval) && !Succeeded(trace, w.id, e.id)
    requires GateOf(rules, w, e, approval.Some?) == Open
    ensures MayAct(rules, bound, trace, w, e, approval, bound)
  {
    hide Safe, Spending, Succeeded, Matches, ContextOf, Evaluate, GrantedFor;
  }

  lemma MayActIsSafe(
    rules: seq<Rule>, bound: nat, trace: seq<Record>, w: Workflow, e: Envelope, approval: Option<string>, spare: nat)
    requires MayAct(rules, bound, trace, w, e, approval, spare)
    ensures Safe(rules, bound, trace)
  {
  }

  lemma NothingGrows(trace: seq<Record>, w: string, e: string)
    ensures SameGrants(trace, trace) && SuccessesGrow(trace, trace, false, w, e)
  {
  }

  lemma GrowsTransitively(a: seq<Record>, b: seq<Record>, c: seq<Record>, more: bool, w: string, e: string)
    requires SameGrants(a, b) && SuccessesGrow(a, b, false, w, e)
    ensures SameGrants(b, c) ==> SameGrants(a, c)
    ensures SuccessesGrow(b, c, more, w, e) ==> SuccessesGrow(a, c, more, w, e)
  {
    hide WasGranted, Succeeded;
  }

  // ---------- What the gates come down to ----------

  /** Each answer of the gate, as a condition on the workflow, the event and the rules. */
  lemma GateMeans(rules: seq<Rule>, w: Workflow, e: Envelope, granted: bool)
    ensures GateOf(rules, w, e, granted) == Open <==>
            MeantFor(w, e) && SomeAdmits(rules, e) && (WantsApproval(e) ==> granted)
    ensures GateOf(rules, w, e, granted) == Asks <==>
            MeantFor(w, e) && SomeAdmits(rules, e) && WantsApproval(e) && !granted
    ensures GateOf(rules, w, e, granted) == Throws <==> MeantFor(w, e) && Unreadable(rules, e)
  {
    MatchesExactly(w, e);
    PermittedExactly(rules, e);
    hide Matches, MeantFor, Evaluate, SomeAdmits, WantsApproval, Unreadable, ContextOf;
  }

  /** The approval was granted before it expired, for this workflow and for the event it was requested for; one that
      was requested without an event stands for a bare event of the trigger's type. */
  ghost predicate GrantedInTime(r: Record, id: string, w: Workflow, e: Envelope) {
    && r.Granted? && r.request.id == id && r.request.workflow == w.id && r.at < r.request.expires
    && (r.request.event == Some(e)
        || (r.request.event == None
            && e == Envelope(r.request.eventId, r.request.tenant, r.request.workspace, w.trigger.kind, map[], Null)))
  }

  /** The event of an action call was meant for the workflow and admitted by some rule; unless it wanted no approval and
      lay within some rule's maximum there was an approval; and an approval that was used had been granted for it. */
  ghost predicate Deserved(rules: seq<Rule>, before: seq<Record>, r: Record)
    requires r.Acted?
  {
    && MeantFor(r.workflow, r.event) && SomeAdmits(rules, r.event)
    && (WantsApproval(r.event) || AboveEveryMaximum(rules, r.event) ==> r.approval.Some?)
    && (r.approval.Some? ==>
          exists k :: 0 <= k < |before| && GrantedInTime(before[k], r.approval.value, r.workflow, r.event))
  }

  ghost predicate AllDeserved(rules: seq<Rule>, trace: seq<Record>) {
    forall i :: 0 <= i < |trace| && trace[i].Acted? ==> Deserved(rules, trace[..i], trace[i])
  }

  lemma PermittedIsDeserved(rules: seq<Rule>, before: seq<Record>, r: Record)
    requires r.Acted? && Permitted(rules, before, r.workflow, r.event, r.approval)
    ensures Deserved(rules, before, r)
  {
    GateMeans(rules, r.workflow, r.event, r.approval.Some?);
    PermittedExactly(rules, r.event);
    if AboveEveryMaximum(rules, r.event) && !WantsApproval(r.event) {
      AboveEveryMaximumIsDenied(rules, r.event);
    }
    hide Matches, MeantFor, Evaluate, SomeAdmits, WantsApproval, ContextOf, AboveEveryMaximum;
    if r.approval.Some? {
      var k :| 0 <= k < |before| && GrantedFor(before[k], r.approval.value, r.workflow, r.event);
      assert GrantedInTime(before[k], r.approval.value, r.workflow, r.event);
    }
  }

  lemma SafeIsDeserved(rules: seq<Rule>, bound: nat, trace: seq<Record>)
    requires Safe(rules, bound, trace)
    ensures AllDeserved(rules, trace)
  {
    hide Permitted, Deserved;
    forall i | 0 <= i < |trace| && trace[i].Acted? ensures Deserved(rules, trace[..i], trace[i]) {
      PermittedIsDeserved(rules, trace[..i], trace[i]);
    }
  }

  // ---------- Every run ----------

  datatype Op =
    | OpRegister(workflow: Workflow)
    | OpSetStatus(id: string, status: WorkflowStatus)
    | OpRoute(event: Envelope)
    | OpAppend(row: OutboxEvent, at: nat)
    | OpDrain(limit: int)
    | OpCreateApproval(request: Approval)
    | OpApprove(approval: string, now: int)
    | OpReject(approval: string, now: int)

  /** Whatever is registered, routed, drained, approved and rejected, in whatever order and whatever the actions do. */
  method AllRuns(
    rules: seq<Rule>, maxIterations: nat, maxRetries: nat, ttl: int, outcome: nat -> bool, uuid: nat -> string,
    clock: nat -> int, ops: seq<Op>) returns (trace: seq<Record>)
    requires maxIterations >= 1 && ttl > 0
    ensures Safe(rules, if maxIterations <= maxRetries then maxIterations else maxRetries + 1, trace)
    ensures AllDeserved(rules, trace)
  {
    hide AllDeserved, Safe, Registered, OutboxHolds, ProcessedHolds, GrantsHold, Acts, GateOf, Routed, OnlyEvent,
         Settled, Reports, Batch;
    var o := new AutonomousOperations(rules, maxIterations, maxRetries, ttl, outcome, uuid, clock);
    for i := 0 to |ops|
      invariant o.Valid() && fresh(o)
      invariant o.rules == rules && o.maxIterations == maxIterations && o.maxRetries == maxRetries
    {
      match ops[i] {
        case OpRegister(w) => var ok := o.RegisterWorkflow(w);
        case OpSetStatus(w, status) => o.SetStatus(w, status);
        case OpRoute(e) => var raised, decisions, reached := o.Route(e);
        case OpAppend(row, at) => if at <= |o.order| { var ok := o.AppendOutbox(row, at); }
        case OpDrain(limit) => var raised, reached := o.DrainOutbox(limit);
        case OpCreateApproval(request) => var ok := o.CreateApproval(request.(decision := Pending));
        case OpApprove(id, now) => var s, n := o.ApproveAndResume(id, now);
        case OpReject(id, now) => var ok := o.Decide(id, Rejected, now);
      }
    }
    trace := o.trace;
    SafeIsDeserved(rules, o.Tries(), trace);
  }

  // ---------- Events that are never published ----------

  /** A row that is not publishable stays unpublished however often the outbox is drained, whatever the actions do: the
      condition is exact for all drains to come, not only for the next. */
  method UnpublishableStays(o: AutonomousOperations, id: string, limits: seq<int>)
    requires o.Valid() && id in o.outbox && id !in o.published
    requires !Publishable(o.rules, o.outbox, o.routes, o.workflows, id, o.processed)
    modifies o
    ensures o.Valid() && id !in o.published && old(o.processed) <= o.processed
    ensures o.outbox == old(o.outbox) && o.routes == old(o.routes) && o.workflows == old(o.workflows)
    ensures !Publishable(o.rules, o.outbox, o.routes, o.workflows, id, o.processed)
  {
    assert o.outbox[id].id == id;
    hide StateHolds, OutboxHolds, Registered, Known, Batch, Routed, Settled, Grew, Unroutable, Publishable,
         OnlyOpened, PublishedExactly, AlwaysSucceeds;
    for i := 0 to |limits|
      invariant o.Valid() && id !in o.published && old(o.processed) <= o.processed
      invariant o.outbox == old(o.outbox) && o.routes == old(o.routes) && o.workflows == old(o.workflows)
      invariant !Publishable(o.rules, o.outbox, o.routes, o.workflows, id, o.processed)
    {
      ghost var before := o.processed;
      var raised, reached := o.DrainOutbox(limits[i]);
      StuckStays(o.rules, o.outbox, o.routes, o.workflows, id, before, o.processed);
    }
  }

  /** The router looks at event type and source only. So a workflow of another tenant with the same trigger is one the
      event is routed to and that can never take it. */
  lemma ForeignTenantIsShut(rules: seq<Rule>, w: Workflow, e: Envelope)
    requires w.tenant != e.tenant
    ensures GateOf(rules, w, e, false) == Shut && GateOf(rules, w, e, true) == Shut
  {
  }

  lemma TwoRoutes(first: Workflow, second: Workflow, e: Envelope)
    requires first.id != second.id && Routes(first.trigger, e) && Routes(second.trigger, e)
    ensures
      var workflows := map[first.id := first, second.id := second];
      Known([first.id, second.id], workflows) && Routed([first.id, second.id], workflows, e) == [first.id, second.id]
  {
    var workflows, routes := map[first.id := first, second.id := second], [first.id, second.id];
    assert routes[..1] == [first.id] && routes[..1][..0] == [];
    assert Known(routes[..1], workflows) && Known(routes[..1][..0], workflows);
    assert Routed(routes[..1], workflows, e) == [first.id];
  }

  /** From a new system: the event's own workflow takes it and succeeds, a workflow of another tenant shares the
      trigger, and the event stays unpublished through every drain that follows. */
  method ForeignTenantBlocks(
    rules: seq<Rule>, maxIterations: nat, maxRetries: nat, ttl: int, outcome: nat -> bool, uuid: nat -> string,
    clock: nat -> int, mine: Workflow, theirs: Workflow, row: OutboxEvent, limit: int, limits: seq<int>)
    returns (processed: set<(string, string)>, published: set<string>)
    requires maxIterations >= 1 && ttl > 0 && AlwaysSucceeds(outcome) && limit != 0
    requires mine.id != "" && mine.trigger.kind != "" && theirs.id != "" && theirs.trigger.kind != ""
    requires mine.id != theirs.id
    requires GateOf(rules, mine, FromOutbox(row), false) == Open
    requires Routes(theirs.trigger, FromOutbox(row)) && theirs.tenant != row.tenant
    ensures (mine.id, row.id) in processed && row.id !in published
  {
    assert Routes(mine.trigger, FromOutbox(row));
    var o := TwoTenants(rules, maxIterations, maxRetries, ttl, outcome, uuid, clock, mine, theirs, row);
    hide StateHolds, OutboxHolds, Registered, Routed, GateOf, AlwaysSucceeds, Settled, Grew, Unroutable,
         PublishedExactly, OnlyOpened, Batch;
    OnlyRow(row.id, limit);
    TwoRoutes(mine, theirs, FromOutbox(row));
    ForeignTenantIsShut(rules, theirs, FromOutbox(row));
    OneTakesOneDoesNot(rules, o.outbox, mine, theirs, row);
    hide Publishable;
    var raised, reached := o.DrainOutbox(limit);
    assert (mine.id, row.id) in o.processed;
    StuckStays(rules, o.outbox, o.routes, o.workflows, row.id, {}, o.processed);
    UnpublishableStays(o, row.id, limits);
    processed, published := o.processed, o.published;
  }

  method TwoTenants(
    rules: seq<Rule>, maxIterations: nat, maxRetries: nat, ttl: int, outcome: nat -> bool, uuid: nat -> string,
    clock: nat -> int, mine: Workflow, theirs: Workflow, row: OutboxEvent) returns (o: AutonomousOperations)
    requires maxIterations >= 1 && ttl > 0
    requires mine.id != "" && mine.trigger.kind != "" && theirs.id != "" && theirs.trigger.kind != ""
    requires mine.id != theirs.id
    ensures fresh(o) && o.Valid() && o.rules == rules && o.outcome == outcome && o.published == {} && o.processed == {}
    ensures o.workflows == map[mine.id := mine, theirs.id := theirs] && o.routes == [mine.id, theirs.id]
    ensures o.order == [row.id] && o.outbox == map[row.id := row]
  {
    hide StateHolds, OutboxHolds, Registered;
    o := new AutonomousOperations(rules, maxIterations, maxRetries, ttl, outcome, uuid, clock);
    var ok := o.RegisterWorkflow(mine);
    ok := o.RegisterWorkflow(theirs);
    ok := o.AppendOutbox(row, 0);
  }

  lemma OnlyRow(id: string, limit: int)
    requires limit != 0
    ensures Batch([id], {}, limit) == [id]
  {
    assert [id][1..] == [] && Unpublished([], {}) == [];
    assert Unpublished([id], {}) == [id] + Unpublished([id][1..], {});
  }

  lemma OneTakesOneDoesNot(
    rules: seq<Rule>, outbox: map<string, OutboxEvent>, mine: Workflow, theirs: Workflow, row: OutboxEvent)
    requires outbox == map[row.id := row] && mine.id != theirs.id
    requires GateOf(rules, mine, FromOutbox(row), false) == Open
    requires GateOf(rules, theirs, FromOutbox(row), false) == Shut
    requires
      var workflows, routes := map[mine.id := mine, theirs.id := theirs], [mine.id, theirs.id];
      Known(routes, workflows) && Routed(routes, workflows, FromOutbox(row)) == routes
    ensures
      var workflows, routes := map[mine.id := mine, theirs.id := theirs], [mine.id, theirs.id];
      && !Publishable(rules, outbox, routes, workflows, row.id, {})
      && !Interrupted(rules, outbox, routes, workflows, [row.id])
      && forall after :: RowsTaken(rules, outbox, routes, workflows, [row.id], {}, after) ==> (mine.id, row.id) in after
  {
    hide GateOf, Routed;
    var workflows, routes := map[mine.id := mine, theirs.id := theirs], [mine.id, theirs.id];
    var e := FromOutbox(row);
    assert !Takes(rules, workflows, routes[1], e, {});
    assert Takes(rules, workflows, routes[0], e, {});
  }

  /** Over whole traces, approvals included: where an id always names the same envelope, a published event was accepted
      by every workflow it was routed to, and these share its tenant and workspace. */
  lemma PublishedOnlyIfAllRoutedMatch(
    rules: seq<Rule>, bound: nat, trace: seq<Record>, i: nat, w: string) returns (k: nat)
    requires Safe(rules, bound, trace) && i < |trace| && trace[i].Published? && w in trace[i].routed
    requires forall j :: 0 <= j < |trace| && trace[j].Acted? && trace[j].event.id == trace[i].event.id ==>
               trace[j].event == trace[i].event
    ensures k < i && trace[k].Acted? && trace[k].ok && trace[k].workflow.id == w
    ensures Matches(trace[k].workflow, trace[i].event)
    ensures trace[k].workflow.tenant == trace[i].event.tenant && trace[k].workflow.workspace == trace[i].event.workspace
  {
    hide ActsUnder, Evaluate;
    assert Succeeded(trace[..i], w, trace[i].event.id);
    k :| 0 <= k < i && ActsOn(trace[..i][k], w, trace[i].event.id) && trace[..i][k].ok;
    assert Permitted(rules, trace[..k], trace[k].workflow, trace[k].event, trace[k].approval);
  }
}
