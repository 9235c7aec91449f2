/** `ois/kernel/runtime.py`, `state.py` and `recovery.py`: the execution context and its status machine, recovery
    decisions, the idempotency cache, and one capability invocation.

    Everything outside the kernel (the registry, validation, the policy engine, cancellation and the capability itself)
    is an `Env`, one per call, chosen freely by whoever states a theorem. */
module Runtime {
  import opened Prelude
  import opened Planning

  datatype ExecutionStatus =
    | Received | Normalized | Understood | Classified | RiskAssessed | ContextRetrieved | Routed
    | Planned | PlanValidated | Authorized | Executing | Observing | Validating | UpdatingState
    | Checkpointing | Completed | ExecutionFailed | Recovering | Replanning | Escalated | Stopped

  predicate Terminal(s: ExecutionStatus) {
    s in {Completed, Stopped, Escalated}
  }

  datatype FailureClass = Transient | Parameter | Tool | PlanFailure | StateFailure | Permission | Safety | Unknown

  /** `ExecutionContext.last_failure` holds an enum member, but `from_dict` leaves the stored text in its place. */
  datatype FailureField = Member(failure: FailureClass) | Text(failure: FailureClass)

  datatype Snapshot = Snapshot(
    status: ExecutionStatus, retryCount: nat, recoveryAttempts: nat, lastFailure: Option<FailureField>,
    plan: Option<Tasks>)

  // ---------- Context checkpoints ----------

  /** `to_dict` reads `last_failure.value`, which plain text does not have. */
  predicate Serializable(c: Snapshot) {
    c.lastFailure.Some? ==> c.lastFailure.value.Member?
  }

  /** What `from_dict` builds from the dictionary that `to_dict` wrote for `c`. */
  function Restored(c: Snapshot): Snapshot {
    if c.lastFailure.Some? then c.(lastFailure := Some(Text(c.lastFailure.value.failure))) else c
  }

  /** A context that can be saved reads back as itself, and can be saved again, exactly when no failure was
      recorded. */
  lemma RoundTripExactlyWithoutFailure(c: Snapshot)
    requires Serializable(c)
    ensures Restored(c) == c <==> c.lastFailure.None?
    ensures Serializable(Restored(c)) <==> c.lastFailure.None?
  {
  }

  // ---------- Recovery ----------

  datatype Action = Retry | Correct | Fallback | Replan | Recover | Escalate | Stop

  datatype Policy = Policy(maxRetries: nat, maxRecoveryAttempts: nat)

  datatype Decision = Decision(failure: FailureClass, action: Action, retryAllowed: bool, terminal: bool)

  function Classify(p: Policy, f: FailureClass, retryCount: nat, recoveryAttempts: nat): Decision {
    match f
    case Transient =>
      var allowed := retryCount < p.maxRetries;
      Decision(f, if allowed then Retry else Escalate, allowed, !allowed)
    case Parameter => Decision(f, Correct, false, false)
    case Tool => Decision(f, Fallback, false, false)
    case PlanFailure => Decision(f, Replan, false, false)
    case StateFailure =>
      var allowed := recoveryAttempts < p.maxRecoveryAttempts;
      Decision(f, if allowed then Recover else Escalate, false, !allowed)
    case Permission => Decision(f, Escalate, false, false)
    case Safety => Decision(f, Stop, false, true)
    case Unknown => Decision(f, Escalate, false, false)
  }

  /** The status an action asks for, if it asks for one. */
  function TargetStatus(a: Action): Option<ExecutionStatus> {
    match a
    case Retry => Some(Recovering)
    case Recover => Some(Recovering)
    case Replan => Some(Replanning)
    case Escalate => Some(Escalated)
    case Stop => Some(Stopped)
    case _ => None
  }

  /** The context after `RecoveryPolicy.apply`, and whether the status change was refused. Counters move before the
      status does, so a refusal keeps them. */
  function Applied(p: Policy, c: Snapshot, f: FailureClass): (r: (Snapshot, bool))
  {
    var a := Classify(p, f, c.retryCount, c.recoveryAttempts).action;
    var counted := c.(
      lastFailure := Some(Member(f)),
      retryCount := c.retryCount + (if a == Retry then 1 else 0),
      recoveryAttempts := c.recoveryAttempts + (if a in {Recover, Replan} then 1 else 0));
    match TargetStatus(a)
    case None => (counted, false)
    case Some(s) => if Terminal(c.status) then (counted, true) else (counted.(status := s), false)
  }

  class ExecutionContext {
    const executionId: string
    var status: ExecutionStatus
    var retryCount: nat
    var recoveryAttempts: nat
    var lastFailure: Option<FailureField>
    var plan: Option<Tasks>

    constructor (executionId: string, c: Snapshot)
      ensures this.executionId == executionId && Now() == c
    {
      this.executionId := executionId;
      status, retryCount, recoveryAttempts := c.status, c.retryCount, c.recoveryAttempts;
      lastFailure, plan := c.lastFailure, c.plan;
    }

    function Now(): Snapshot
      reads this
    {
      Snapshot(status, retryCount, recoveryAttempts, lastFailure, plan)
    }

    /** False where the source raises ValueError. */
    method SetStatus(s: ExecutionStatus) returns (ok: bool)
      modifies this`status
      ensures ok == !Terminal(old(status))
      ensures status == if ok then s else old(status)
    {
      ok := status !in {Completed, Stopped, Escalated};
      if ok {
        status := s;
      }
    }

    method ApplyRecovery(p: Policy, f: FailureClass) returns (decision: Decision, refused: bool)
      modifies this`status, this`retryCount, this`recoveryAttempts, this`lastFailure
      ensures decision == Classify(p, f, old(retryCount), old(recoveryAttempts))
      ensures (Now(), refused) == Applied(p, old(Now()), f)
    {
      decision := Classify(p, f, retryCount, recoveryAttempts);
      lastFailure := Some(Member(f));
      var ok := true;
      match decision.action {
        case Retry =>
          retryCount := retryCount + 1;
          ok := SetStatus(Recovering);
        case Recover =>
          recoveryAttempts := recoveryAttempts + 1;
          ok := SetStatus(Recovering);
        case Replan =>
          recoveryAttempts := recoveryAttempts + 1;
          ok := SetStatus(Replanning);
        case Escalate =>
          ok := SetStatus(Escalated);
        case Stop =>
          ok := SetStatus(Stopped);
        case _ =>
      }
      refused := !ok;
    }
  }

  // ---------- Invocation results and the durable log ----------

  datatype ResultStatus =
    | ResultPending | ResultRunning | ResultSucceeded | ResultFailed | ResultCancelled | ResultTimedOut

  /** The two fields of an error dictionary that the kernel reads. A failure class that is not one of the enum's
      values counts as `Unknown`. */
  datatype ErrorInfo = ErrorInfo(failureClass: Option<FailureClass>, recoveryAction: Option<Action>)

  datatype Result = Result(invocationId: string, status: ResultStatus, output: string, error: Option<ErrorInfo>)

  datatype Reply = Returns(result: Result) | Throws | ThrowsCancellation

  datatype Env = Env(
    registered: bool, cancelledAtStart: bool, inputValid: bool, authorized: bool, cancelledBeforeInvoke: bool,
    reply: Reply, cancelledAfterInvoke: bool,
    outputValid: bool)

  datatype RuntimeError =
    | AlreadyCompleted | StatusRefused | CapabilityNotFound | InputInvalid | Denied
    | InvocationMismatch | OutputInvalid | NotSerializable

  datatype Outcome = Returned(result: Result) | Raised(error: RuntimeError)

  /** What survives a crash, in the order in which it happened: checkpoints written, capabilities called, results
      put into the idempotency store. */
  datatype Event =
    | Saved(snapshot: Snapshot)
    | Invoked(key: string)
    | Cached(key: string, result: Result)

  type Store = map<string, Result>

  /** The idempotency store after a run; the first result for a key stays. */
  function StoreAfter(base: Store, run: seq<Event>): Store {
    if run == [] then base
    else
      var s := StoreAfter(base, run[..|run| - 1]);
      match run[|run| - 1]
      case Cached(k, r) => if k in s then s else s[k := r]
      case _ => s
  }

  lemma {:induction false} StoreAfterConcat(base: Store, a: seq<Event>, b: seq<Event>)
    ensures StoreAfter(base, a + b) == StoreAfter(StoreAfter(base, a), b)
  {
    if b == [] {
      assert a + b == a;
    } else {
      StoreAfterConcat(base, a, b[..|b| - 1]);
      assert (a + b)[..|a + b| - 1] == a + b[..|b| - 1];
    }
  }

  // ---------- One invocation, in closed form ----------

  /** The durable events of a call, the result it put into the idempotency store, the context it leaves and how it
      ends. */
  datatype Effect = Effect(events: seq<Event>, put: Option<Result>, final: Snapshot, outcome: Outcome)

  function Stored(base: Store, key: string, put: Option<Result>): Store {
    if put.Some? && key !in base then base[key := put.value] else base
  }

  /** Storage that keeps contexts as JSON refuses a context whose failure is plain text; process memory does not
      mind. */
  predicate CanSave(json: bool, c: Snapshot) {
    json ==> Serializable(c)
  }

  function CancelledResult(key: string): Result {
    Result(key, ResultCancelled, "", Some(ErrorInfo(None, Some(Stop))))
  }

  function Cancel(json: bool, key: string, c: Snapshot): Effect {
    var stopped := c.(status := Stopped);
    if CanSave(json, c) then Effect([Saved(stopped)], None, stopped, Returned(CancelledResult(key)))
    else Effect([], None, stopped, Raised(NotSerializable))
  }

  lemma SavedCancel(json: bool, key: string, c: Snapshot)
    requires CanSave(json, c)
    ensures Cancel(json, key, c) == Cancel(false, key, c) && Cancel(json, key, c).put.None?
  {
  }

  /** A failed result that names a failure class goes through recovery. */
  predicate ReportsFailure(r: Result) {
    r.status == ResultFailed && r.error.Some? && r.error.value.failureClass.Some?
  }

  /** From the identity check of the result onwards. */
  function Conclude(key: string, c: Snapshot, r: Result, outputValid: bool): Effect {
    if r.invocationId != key then Effect([], None, c, Raised(InvocationMismatch))
    else if Terminal(c.status) then Effect([], None, c, Raised(StatusRefused))
    else if r.status == ResultSucceeded && !outputValid then
      Effect([], None, c.(status := Validating), Raised(OutputInvalid))
    else
      var saved := Saved(c.(status := Checkpointing));
      if r.status in {ResultSucceeded, ResultCancelled}
      then Effect([Cached(key, r), saved], Some(r), c.(status := Routed), Returned(r))
      else Effect([saved], None, c.(status := Routed), Returned(r))
  }

  function Preceded(before: seq<Event>, e: Effect): Effect {
    e.(events := before + e.events)
  }

  /** From the call of the capability onwards; `c` is the context as just checkpointed. */
  function Call(p: Policy, key: string, c: Snapshot, env: Env): Effect {
    var called := [Invoked(key)];
    match env.reply
    case ThrowsCancellation => Preceded(called, Cancel(false, key, c))
    case Throws =>
      var failed := c.(lastFailure := Some(Member(Tool)));
      Effect(called + [Saved(failed)], None, failed,
             Returned(Result(key, ResultFailed, "", Some(ErrorInfo(Some(Tool), Some(Fallback))))))
    case Returns(r) =>
      if env.cancelledAfterInvoke then Preceded(called, Cancel(false, key, c))
      else if ReportsFailure(r) then
        var f := r.error.value.failureClass.value;
        var action := Classify(p, f, c.retryCount, c.recoveryAttempts).action;
        var recovered := Applied(p, c, f).0;
        Preceded(called + [Saved(recovered)],
                 Conclude(key, recovered, r.(error := Some(r.error.value.(recoveryAction := Some(action)))),
                   env.outputValid))
      else Preceded(called, Conclude(key, c, r, env.outputValid))
  }

  function Expected(p: Policy, json: bool, key: string, c: Snapshot, cached: Option<Result>, env: Env): Effect {
    if c.status in {Completed, Stopped} then Effect([], None, c, Raised(AlreadyCompleted))
    else if c.status == Escalated then Effect([], None, c, Raised(StatusRefused))
    else if !env.registered then Effect([], None, c.(status := Normalized), Raised(CapabilityNotFound))
    else if env.cancelledAtStart then Cancel(json, key, c)
    else
      var validated := c.(status := PlanValidated);
      if !env.inputValid then Effect([], None, validated, Raised(InputInvalid))
      else if !env.authorized then Effect([], None, validated, Raised(Denied))
      else if cached.Some? then Effect([], None, validated, Returned(cached.value))
      else
        var running := c.(status := Executing);
        if !CanSave(json, c) then Effect([], None, running, Raised(NotSerializable))
        else if env.cancelledBeforeInvoke then Preceded([Saved(running)], Cancel(json, key, c))
        else Preceded([Saved(running)], Call(p, key, running, env))
  }

  class ExecutionRuntime {
    const policy: Policy
    const json: bool
    var log: seq<Event>
    var store: Store

    constructor (policy: Policy, json: bool, store: Store)
      ensures this.policy == policy && this.json == json && this.store == store && log == []
    {
      this.policy, this.json, this.store, log := policy, json, store, [];
    }

    /** `_save_checkpoint`; false where serialisation raises. */
    method Save(context: ExecutionContext) returns (ok: bool)
      modifies this`log
      ensures ok == CanSave(json, context.Now())
      ensures log == if ok then old(log) + [Saved(context.Now())] else old(log)
    {
      ok := !json || !(context.lastFailure.Some? && context.lastFailure.value.Text?);
      if ok {
        log := log + [Saved(context.Now())];
      }
    }

    /** `setdefault`, or `INSERT OR IGNORE`. */
    method Put(key: string, result: Result)
      modifies this
      ensures log == old(log) + [Cached(key, result)]
      ensures store == if key in old(store) then old(store) else old(store)[key := result]
    {
      log := log + [Cached(key, result)];
      if key !in store {
        store := store[key := result];
      }
    }

    method HandleCancellation(context: ExecutionContext, key: string) returns (outcome: Outcome)
      requires !Terminal(context.status)
      modifies this`log, context`status
      ensures
        var e := Cancel(json, key, old(context.Now()));
        log == old(log) + e.events && context.Now() == e.final && outcome == e.outcome
    {
      var ok := context.SetStatus(Stopped);
      assert ok;
      ok := Save(context);
      outcome := if ok then Returned(CancelledResult(key)) else Raised(NotSerializable);
    }

    method Finish(context: ExecutionContext, key: string, result: Result, outputValid: bool) returns (outcome: Outcome)
      requires CanSave(json, context.Now()) && key !in store
      modifies this, context`status
      ensures
        var e := Conclude(key, old(context.Now()), result, outputValid);
        && log == old(log) + e.events && context.Now() == e.final && outcome == e.outcome
        && store == Stored(old(store), key, e.put)
    {
      if result.invocationId != key {
        return Raised(InvocationMismatch);
      }
      var ok := context.SetStatus(Observing);
      if !ok {
        return Raised(StatusRefused);
      }
      ok := context.SetStatus(Validating);
      if result.status == ResultSucceeded && !outputValid {
        return Raised(OutputInvalid);
      }
      ok := context.SetStatus(UpdatingState);
      if result.status in {ResultSucceeded, ResultCancelled} {
        Put(key, result);
      }
      ok := context.SetStatus(Checkpointing);
      ok := Save(context);
      ok := context.SetStatus(Routed);
      outcome := Returned(result);
    }

    /** Applies recovery to a running invocation and checkpoints the outcome. */
    method RecoverFrom(context: ExecutionContext, f: FailureClass) returns (action: Action)
      requires context.status == Executing
      modifies this`log, context
      ensures action == Classify(policy, f, old(context.retryCount), old(context.recoveryAttempts)).action
      ensures context.Now() == Applied(policy, old(context.Now()), f).0
      ensures log == old(log) + [Saved(context.Now())]
    {
      var decision, refused := context.ApplyRecovery(policy, f);
      assert !refused;
      var ok := Save(context);
      action := decision.action;
    }

    method Invoke(context: ExecutionContext, key: string, env: Env) returns (outcome: Outcome)
      requires context.status == Executing && CanSave(json, context.Now()) && key !in store
      modifies this, context
      ensures
        var e := Call(policy, key, old(context.Now()), env);
        && log == old(log) + e.events && context.Now() == e.final && outcome == e.outcome
        && store == Stored(old(store), key, e.put)
    {
      SavedCancel(json, key, context.Now());
      hide Conclude, Cancel;
      log := log + [Invoked(key)];
      var action;
      if env.reply.ThrowsCancellation? || (env.reply.Returns? && env.cancelledAfterInvoke) {
        outcome := HandleCancellation(context, key);
        return;
      }
      if env.reply.Throws? {
        action := RecoverFrom(context, Tool);
        return Returned(Result(key, ResultFailed, "", Some(ErrorInfo(Some(Tool), Some(action)))));
      }
      var result := env.reply.result;
      if result.status == ResultFailed && result.error.Some? && result.error.value.failureClass.Some? {
        action := RecoverFrom(context, result.error.value.failureClass.value);
        result := result.(error := Some(result.error.value.(recoveryAction := Some(action))));
      }
      outcome := Finish(context, key, result, env.outputValid);
    }

    method Execute(context: ExecutionContext, key: string, env: Env) returns (outcome: Outcome)
      modifies this, context
      ensures
        var cached := if key in old(store) then Some(old(store)[key]) else None;
        var e := Expected(policy, json, key, old(context.Now()), cached, env);
        && log == old(log) + e.events && context.Now() == e.final && outcome == e.outcome
        && store == Stored(old(store), key, e.put)
    {
      if context.status in {Completed, Stopped} {
        return Raised(AlreadyCompleted);
      }
      var ok := context.SetStatus(Normalized);
      if !ok {
        return Raised(StatusRefused);
      }
      if !env.registered {
        return Raised(CapabilityNotFound);
      }
      ok := context.SetStatus(PlanValidated);
      if env.cancelledAtStart {
        outcome := HandleCancellation(context, key);
        return;
      }
      if !env.inputValid {
        return Raised(InputInvalid);
      }
      if !env.authorized {
        return Raised(Denied);
      }
      if key in store {
        return Returned(store[key]);
      }
      ok := context.SetStatus(Authorized);
      ok := context.SetStatus(Executing);
      ok := Save(context);
      if !ok {
        return Raised(NotSerializable);
      }
      if env.cancelledBeforeInvoke {
        outcome := HandleCancellation(context, key);
        return;
      }
      outcome := Invoke(context, key, env);
    }

    method Complete(context: ExecutionContext) returns (ok: bool)
      modifies this`log, context`status
      ensures ok <==> !Terminal(old(context.status)) && CanSave(json, old(context.Now()))
      ensures context.status == if Terminal(old(context.status)) then old(context.status) else Completed
      ensures log == if ok then old(log) + [Saved(context.Now())] else old(log)
    {
      ok := context.SetStatus(Completed);
      if ok {
        ok := Save(context);
      }
    }
  }

  // ---------- Terminal statuses over any mix of calls ----------

  datatype Request = RequestExecute(key: string, env: Env) | RequestComplete | RequestRecovery(failure: FailureClass)

  datatype World = World(context: Snapshot, store: Store, log: seq<Event>)

  /** The effect of one public call, as the contracts of `Execute`, `Complete` and `ApplyRecovery` state it. */
  function AfterRequest(p: Policy, json: bool, w: World, r: Request): World {
    match r
    case RequestExecute(key, env) =>
      var e := Expected(p, json, key, w.context, if key in w.store then Some(w.store[key]) else None, env);
      World(e.final, Stored(w.store, key, e.put), w.log + e.events)
    case RequestComplete =>
      var done := w.context.(status := Completed);
      if Terminal(w.context.status) then w
      else World(done, w.store, if CanSave(json, done) then w.log + [Saved(done)] else w.log)
    case RequestRecovery(f) => w.(context := Applied(p, w.context, f).0)
  }

  function AfterRequests(p: Policy, json: bool, w: World, rs: seq<Request>): World {
    if rs == [] then w
    else AfterRequest(p, json, AfterRequests(p, json, w, rs[..|rs| - 1]), rs[|rs| - 1])
  }

  /** COMPLETED, STOPPED and ESCALATED are absorbing over every mix of calls: the status stays, no capability is
      invoked, no checkpoint is written and no result is stored. */
  lemma {:induction false} TerminalIsAbsorbing(p: Policy, json: bool, w: World, rs: seq<Request>)
    requires Terminal(w.context.status)
    ensures
      var w' := AfterRequests(p, json, w, rs);
      w'.context.status == w.context.status && w'.log == w.log && w'.store == w.store
  {
    if rs != [] {
      TerminalIsAbsorbing(p, json, w, rs[..|rs| - 1]);
    }
  }

  /** A reported failure comes back as a result exactly when recovery neither escalates nor stops; in those two
      cases recovery has made the status terminal and the next status change is refused. */
  lemma ReportedFailureReturns(p: Policy, json: bool, key: string, c: Snapshot, env: Env)
    requires Replies(json, c, None, env) && env.reply.result.invocationId == key && ReportsFailure(env.reply.result)
    ensures
      var e := Expected(p, json, key, c, None, env);
      var action := Classify(p, env.reply.result.error.value.failureClass.value, c.retryCount,
        c.recoveryAttempts).action;
      && (e.outcome.Returned? <==> action !in {Escalate, Stop})
      && (action in {Escalate, Stop} ==>
            && e.outcome == Raised(StatusRefused) && Terminal(e.final.status)
            && |e.events| > 0 && e.events[|e.events| - 1] == Saved(e.final))
      && (e.outcome.Returned? ==> e.outcome.result.error.value.recoveryAction == Some(action))
  {
  }

  // ---------- One invocation, exactly ----------

  /** Registered, not cancelled, valid and authorised. */
  predicate Admitted(env: Env) {
    env.registered && !env.cancelledAtStart && env.inputValid && env.authorized
  }

  /** Nothing outside the kernel keeps the call from the capability. */
  predicate LetThrough(env: Env) {
    Admitted(env) && !env.cancelledBeforeInvoke
  }

  predicate Calls(json: bool, c: Snapshot, cached: Option<Result>, env: Env) {
    && c.status !in {Completed, Stopped, Escalated} && LetThrough(env) && cached.None?
    && (json && c.lastFailure.Some? ==> c.lastFailure.value.Member?)
  }

  /** The capability is called exactly when the execution is open, nothing is cached, the call is let through and the
      context can be saved first; and then once. */
  lemma InvokesExactly(p: Policy, json: bool, key: string, c: Snapshot, cached: Option<Result>, env: Env)
    ensures
      var events := Expected(p, json, key, c, cached, env).events;
      && (Invoked(key) in events <==> Calls(json, c, cached, env))
      && (forall i :: 0 <= i < |events| && events[i].Invoked? ==>
            events[i].key == key && i == 1 && events[0] == Saved(c.(status := Executing)))
  {
    if Calls(json, c, cached, env) {
      assert Expected(p, json, key, c, cached, env).events[1] == Invoked(key);
    }
  }

  /** The capability answered, and the answer was looked at. */
  predicate Replies(json: bool, c: Snapshot, cached: Option<Result>, env: Env) {
    Calls(json, c, cached, env) && env.reply.Returns? && !env.cancelledAfterInvoke
  }

  /** What becomes of a call whose reply reports a failure: the status it leaves, the action it names and whether the
      caller gets the result or an exception. */
  datatype Consequence = Consequence(status: ExecutionStatus, action: Action, returned: bool)

  function ConsequenceOf(f: FailureClass, retriesLeft: bool, recoveriesLeft: bool): Consequence {
    match f
    case Transient => if retriesLeft then Consequence(Routed, Retry, true) else Consequence(Escalated, Escalate, false)
    case Parameter => Consequence(Routed, Correct, true)
    case Tool => Consequence(Routed, Fallback, true)
    case PlanFailure => Consequence(Routed, Replan, true)
    case StateFailure =>
      if recoveriesLeft then Consequence(Routed, Recover, true) else Consequence(Escalated, Escalate, false)
    case Permission => Consequence(Escalated, Escalate, false)
    case Safety => Consequence(Stopped, Stop, false)
    case Unknown => Consequence(Escalated, Escalate, false)
  }

  function Consequently(p: Policy, c: Snapshot, r: Result): Consequence
    requires ReportsFailure(r)
  {
    ConsequenceOf(r.error.value.failureClass.value, c.retryCount < p.maxRetries,
                  c.recoveryAttempts < p.maxRecoveryAttempts)
  }

  /** A reported failure, class by class: a safety failure leaves the execution STOPPED; permission, unknown, and
      transient or state failures beyond their limits leave it ESCALATED, and all of these raise; the others come back
      as a result that names the action. A counter moves exactly where one is spent, and the failure is on record. */
  lemma FailureLeaves(p: Policy, json: bool, key: string, c: Snapshot, env: Env)
    requires Replies(json, c, None, env) && ReportsFailure(env.reply.result)
    requires env.reply.result.invocationId == key
    ensures
      var e, r := Expected(p, json, key, c, None, env), env.reply.result;
      var f, x := r.error.value.failureClass.value, Consequently(p, c, r);
      && e.final == c.(status := x.status, lastFailure := Some(Member(f)),
                       retryCount := c.retryCount + (if f == Transient && x.returned then 1 else 0),
                       recoveryAttempts := c.recoveryAttempts +
                         (if f == PlanFailure || (f == StateFailure && x.returned) then 1 else 0))
      && e.outcome == (if x.returned then Returned(r.(error := Some(r.error.value.(recoveryAction := Some(x.action)))))
                       else Raised(StatusRefused))
      && e.put.None?
      && var recovered := e.final.(status := if x.returned then StatusOf(x.action) else x.status);
         e.events == [Saved(c.(status := Executing)), Invoked(key), Saved(recovered)] +
           if x.returned then [Saved(e.final.(status := Checkpointing))] else []
  {
  }

  /** The status of a running call while it recovers. */
  function StatusOf(a: Action): ExecutionStatus {
    match a
    case Retry => Recovering
    case Recover => Recovering
    case Replan => Replanning
    case Escalate => Escalated
    case Stop => Stopped
    case Correct => Executing
    case Fallback => Executing
  }

  /** Which exception a call raises, if any: for each of them, when. */
  lemma RaisesExactly(p: Policy, json: bool, key: string, c: Snapshot, cached: Option<Result>, env: Env)
    ensures
      var o := Expected(p, json, key, c, cached, env).outcome;
      var open, replied := c.status !in {Completed, Stopped, Escalated}, Replies(json, c, cached, env);
      var savable := json && c.lastFailure.Some? ==> c.lastFailure.value.Member?;
      && (o == Raised(AlreadyCompleted) <==> c.status == Completed || c.status == Stopped)
      && (o == Raised(CapabilityNotFound) <==> open && !env.registered)
      && (o == Raised(InputInvalid) <==> open && env.registered && !env.cancelledAtStart && !env.inputValid)
      && (o == Raised(Denied) <==>
            open && env.registered && !env.cancelledAtStart && env.inputValid && !env.authorized)
      && (o == Raised(NotSerializable) <==>
            open && env.registered && !savable && (env.cancelledAtStart || (Admitted(env) && cached.None?)))
      && (o == Raised(InvocationMismatch) <==> replied && env.reply.result.invocationId != key)
      && (o == Raised(OutputInvalid) <==>
            && replied && env.reply.result.invocationId == key && env.reply.result.status == ResultSucceeded
            && !env.outputValid)
      && (o == Raised(StatusRefused) <==>
            || c.status == Escalated
            || (replied && env.reply.result.invocationId == key && ReportsFailure(env.reply.result)
                && !Consequently(p, c, env.reply.result).returned))
  {
  }

  /** What a refused call leaves: nothing is saved, called or stored, and the status shows how far it came. */
  lemma RefusalsLeave(p: Policy, json: bool, key: string, c: Snapshot, cached: Option<Result>, env: Env)
    ensures
      var e := Expected(p, json, key, c, cached, env);
      && (c.status in {Completed, Stopped, Escalated} ==> e.events == [] && e.put.None? && e.final == c)
      && (e.outcome == Raised(CapabilityNotFound) ==>
            e.events == [] && e.put.None? && e.final == c.(status := Normalized))
      && (e.outcome == Raised(InputInvalid) || e.outcome == Raised(Denied) ==>
            e.events == [] && e.put.None? && e.final == c.(status := PlanValidated))
      && (e.outcome == Raised(NotSerializable) ==>
            && e.events == [] && e.put.None?
            && e.final == c.(status := if env.cancelledAtStart then Stopped else Executing))
  {
  }

  /** A reply that reports no failure class: with another invocation's id, or as an invalid success, it is refused where
      it stands; otherwise it comes back as it is, after a checkpoint, kept or not. */
  lemma PlainRepliesLeave(p: Policy, json: bool, key: string, c: Snapshot, env: Env)
    requires Replies(json, c, None, env) && !ReportsFailure(env.reply.result)
    ensures
      var e, r := Expected(p, json, key, c, None, env), env.reply.result;
      var called := [Saved(c.(status := Executing)), Invoked(key)];
      if r.invocationId != key then e.final == c.(status := Executing) && e.events == called
      else if r.status == ResultSucceeded && !env.outputValid then
        e.final == c.(status := Validating) && e.events == called
      else
        && e.outcome == Returned(r) && e.final == c.(status := Routed)
        && e.events == called + (if e.put.Some? then [Cached(key, r)] else []) + [Saved(c.(status := Checkpointing))]
  {
  }

  /** The reply is one that is kept: it carries the invocation's id and is a valid success or a cancellation. */
  predicate Kept(env: Env, key: string, r: Result) {
    && env.reply == Returns(r) && !env.cancelledAfterInvoke && r.invocationId == key
    && (r.status == ResultCancelled || (r.status == ResultSucceeded && env.outputValid))
  }

  /** What a call puts into the idempotency store is the capability's own reply, and it does so exactly for replies that
      are kept. */
  lemma PutsExactly(p: Policy, json: bool, key: string, c: Snapshot, cached: Option<Result>, env: Env)
    ensures
      var e := Expected(p, json, key, c, cached, env);
      && (forall r :: e.put == Some(r) <==> Calls(json, c, cached, env) && Kept(env, key, r))
      && (forall k, r :: Cached(k, r) in e.events <==> k == key && e.put == Some(r))
      && (e.put.Some? ==> e.outcome == Returned(e.put.value) && e.final == c.(status := Routed))
      && (e.put.Some? ==> e.events == [Saved(c.(status := Executing)), Invoked(key), Cached(key, e.put.value),
                                       Saved(c.(status := Checkpointing))])
  {
    var e := Expected(p, json, key, c, cached, env);
    if e.put.Some? {
      assert e.events[2] == Cached(key, e.put.value);
    }
  }

  /** A cancellation that is noticed: before anything else, before the call, or while the capability worked. */
  predicate Cancelled(json: bool, c: Snapshot, cached: Option<Result>, env: Env) {
    && c.status !in {Completed, Stopped, Escalated} && env.registered
    && (|| env.cancelledAtStart
        || (Admitted(env) && cached.None? && env.cancelledBeforeInvoke)
        || (Calls(json, c, cached, env)
            && (env.reply.ThrowsCancellation? || (env.reply.Returns? && env.cancelledAfterInvoke))))
  }

  /** A noticed cancellation leaves the execution STOPPED, saved, and reports a cancelled result that asks for no
      retry; an exception of the capability comes back as a failed result with the action "fallback"; a stored result
      comes back as it is, with nothing saved or called. */
  lemma OtherReturns(p: Policy, json: bool, key: string, c: Snapshot, cached: Option<Result>, env: Env)
    ensures
      var e := Expected(p, json, key, c, cached, env);
      var open := c.status !in {Completed, Stopped, Escalated};
      var savable := json && c.lastFailure.Some? ==> c.lastFailure.value.Member?;
      && (Cancelled(json, c, cached, env) && savable ==>
            && e.final == c.(status := Stopped) && e.events != [] && e.events[|e.events| - 1] == Saved(e.final)
            && e.outcome == Returned(Result(key, ResultCancelled, "", Some(ErrorInfo(None, Some(Stop))))))
      && (Calls(json, c, cached, env) && env.reply.Throws? ==>
            && e.final == c.(status := Executing, lastFailure := Some(Member(Tool)))
            && e.events == [Saved(c.(status := Executing)), Invoked(key), Saved(e.final)]
            && e.outcome == Returned(Result(key, ResultFailed, "", Some(ErrorInfo(Some(Tool), Some(Fallback))))))
      && (open && Admitted(env) && cached.Some? ==>
            e == Effect([], None, c.(status := PlanValidated), Returned(cached.value)))
  {
  }

  /** The call succeeds exactly when the execution is open and a success is stored and the call admitted, or none is
      stored, the context can be saved, and the capability's own success is kept. */
  predicate Wins(json: bool, c: Snapshot, cached: Option<Result>, key: string, env: Env) {
    && c.status !in {Completed, Stopped, Escalated}
    && if cached.Some? then Admitted(env) && cached.value.status == ResultSucceeded
       else Calls(json, c, cached, env) && env.reply.Returns? && Kept(env, key, env.reply.result)
            && env.reply.result.status == ResultSucceeded
  }

  lemma SucceedsExactly(p: Policy, json: bool, key: string, c: Snapshot, cached: Option<Result>, env: Env)
    ensures
      var o := Expected(p, json, key, c, cached, env).outcome;
      && (o.Returned? && o.result.status == ResultSucceeded <==> Wins(json, c, cached, key, env))
      && (o.Returned? && o.result.status == ResultSucceeded ==>
            o.result == if cached.Some? then cached.value else env.reply.result)
  {
  }
}
