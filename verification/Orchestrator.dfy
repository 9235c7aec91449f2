/** `PlanOrchestrator.execute` of `ois/kernel/orchestrator.py`: batches, the inner retry loop and checkpoints. */
module Orchestrator {
  import opened Prelude
  import opened Planning
  import opened Runtime
  import opened RunLog
  import opened Checkpoints
  import opened TaskCalls

  // ---------- A run in progress ----------

  /** These tasks are marked READY. */
  ghost predicate StillReady(keep: set<string>, t: Tasks) {
    forall id :: id in keep ==> HasStatus(t, id, Ready)
  }

  /** ... in every checkpoint of the run. */
  ghost predicate KeptReady(keep: set<string>, run: seq<Event>) {
    forall i :: 0 <= i < |run| && run[i].Saved? && run[i].snapshot.plan.Some? ==>
      StillReady(keep, run[i].snapshot.plan.value)
  }

  /** The run so far is good, and the context `c` with plan `t` may be checkpointed next. */
  ghost predicate Live(
    base: Store, keep: set<string>, exec: string, run: seq<Event>, store: Store, c: Snapshot, t: Tasks) {
    && Good(base, exec, run) && store == StoreAfter(base, run) && QuietStore(store)
    && Serializable(c) && KeptReady(keep, run) && StillReady(keep, t)
    && var last := LastSaved(run);
       && last.Some? && Later(last.value, c.(plan := Some(t)))
       && NewlyBacked(store, exec, last.value.plan.value, t)
  }

  /** Every success that the run has put into the store stands in the plan, with its output. */
  ghost predicate Fulfilled(base: Store, exec: string, store: Store, t: Tasks) {
    forall id ::
      var key := InvocationId(exec, id);
      key in store && key !in base && store[key].status == ResultSucceeded ==>
        HasStatus(t, id, Succeeded) && t.nodes[id].output == store[key].output
  }

  /** Where the run stands on its course: what the oracle will still answer, where the run's events came from, and that
      its successes stand in the plan. */
  ghost predicate OnCourse(c: Course, oracle: Oracle, calls: nat, limit: nat, base: Store, exec: string,
                           run: seq<Event>, store: Store, s: Snapshot, t: Tasks) {
    && Smooth(c, oracle, store, s) && Steady(c, oracle, calls, limit, store, s) && Sourced(oracle, run, calls)
    && Fulfilled(base, exec, store, t)
  }

  /** The run has grown, and the log of the runtime by the same events. */
  ghost predicate Logged(log: seq<Event>, log': seq<Event>, run: seq<Event>, run': seq<Event>) {
    run <= run' && log' == log + run'[|run|..]
  }

  lemma LoggedTwice(
    log: seq<Event>, log': seq<Event>, log'': seq<Event>, run: seq<Event>, run': seq<Event>, run'': seq<Event>)
    requires Logged(log, log', run, run') && Logged(log', log'', run', run'')
    ensures Logged(log, log'', run, run'')
  {
    assert run'' == run' + run''[|run'|..];
  }

  /** The new invocations beyond `extra` are paid for by the retry counter, which stays within its limit. */
  ghost predicate Paid(run: seq<Event>, run': seq<Event>, retries: nat, retries': nat, extra: int, limit: nat) {
    && Invocations(run') + retries <= Invocations(run) + extra + retries'
    && retries <= retries' && (retries' > retries ==> retries' <= limit)
  }

  lemma NothingYet(log: seq<Event>, run: seq<Event>, retries: nat, limit: nat)
    ensures Logged(log, log, run, run) && Paid(run, run, retries, retries, 0, limit)
  {
  }

  lemma PaidTwice(
    run: seq<Event>, run': seq<Event>, run'': seq<Event>, r: nat, r': nat, r'': nat, extra: int, extra': int,
    limit: nat)
    requires Paid(run, run', r, r', extra, limit) && Paid(run', run'', r', r'', extra', limit)
    ensures Paid(run, run'', r, r'', extra + extra', limit)
  {
    hide Invocations;
  }

  lemma LiveSave(base: Store, keep: set<string>, exec: string, run: seq<Event>, store: Store, c: Snapshot, t: Tasks)
    requires Live(base, keep, exec, run, store, c, t) && c.plan == Some(t)
    ensures Live(base, keep, exec, run + [Saved(c)], store, c, t)
    ensures Invocations(run + [Saved(c)]) == Invocations(run)
    ensures LastSaved(run + [Saved(c)]) == Some(c)
  {
    Extend(base, exec, run, Saved(c));
  }

  lemma LiveStatus(
    base: Store, keep: set<string>, exec: string, run: seq<Event>, store: Store, c: Snapshot, t: Tasks,
    s: ExecutionStatus)
    requires Live(base, keep, exec, run, store, c, t) && !Terminal(c.status)
    ensures Live(base, keep, exec, run, store, c.(status := s), t)
  {
  }

  lemma LiveSaveAs(
    base: Store, keep: set<string>, exec: string, run: seq<Event>, store: Store, c: Snapshot, t: Tasks,
    s: ExecutionStatus, s': ExecutionStatus)
    requires Live(base, keep, exec, run, store, c, t) && c.plan == Some(t) && !Terminal(c.status)
    requires (Terminal(s) ==> s' == s)
    ensures
      var run' := run + [Saved(c.(status := s))];
      && Live(base, keep, exec, run', store, c.(status := s'), t) && Invocations(run') == Invocations(run)
  {
    LiveStatus(base, keep, exec, run, store, c, t, s);
    LiveSave(base, keep, exec, run, store, c.(status := s), t);
  }

  lemma LiveCached(
    base: Store, keep: set<string>, exec: string, run: seq<Event>, store: Store, c: Snapshot, t: Tasks,
    key: string, r: Result)
    requires Live(base, keep, exec, run, store, c, t) && key !in store && !SelfRetry(r)
    requires r.status in {ResultSucceeded, ResultCancelled} && run != [] && run[|run| - 1] == Invoked(key)
    ensures Live(base, keep, exec, run + [Cached(key, r)], store[key := r], c, t)
    ensures Invocations(run + [Cached(key, r)]) == Invocations(run)
  {
    assert GoodEvent(base, exec, run, Cached(key, r));
    hide Good, GoodEvent, StoreAfter, LastSaved, Invocations, Later, StillReady, Serializable, KeptReady, NewlyBacked,
         QuietStore;
    Extend(base, exec, run, Cached(key, r));
    StoreStep(store, exec, LastSaved(run).value.plan.value, t, key, r);
    KeptReadyGrows(keep, run, Cached(key, r));
  }

  lemma StoreStep(store: Store, exec: string, t: Tasks, t': Tasks, key: string, r: Result)
    requires QuietStore(store) && !WantsRetry(r) && key !in store && NewlyBacked(store, exec, t, t')
    ensures QuietStore(store[key := r]) && NewlyBacked(store[key := r], exec, t, t')
  {
    hide InvocationId, WantsRetry;
  }

  lemma KeptReadyGrows(keep: set<string>, run: seq<Event>, e: Event)
    requires KeptReady(keep, run) && (e.Saved? && e.snapshot.plan.Some? ==> StillReady(keep, e.snapshot.plan.value))
    ensures KeptReady(keep, run + [e])
  {
    hide StillReady;
  }

  lemma ConcludeKeepsLive(base: Store, keep: set<string>, exec: string, run: seq<Event>, store: Store, c: Snapshot,
                          t: Tasks,
                          key: string, r: Result, outputValid: bool)
    requires Live(base, keep, exec, run, store, c, t) && c.plan == Some(t) && key !in store && !SelfRetry(r)
    requires r.status in {ResultSucceeded, ResultCancelled} ==> run != [] && run[|run| - 1] == Invoked(key)
    ensures
      var e := Conclude(key, c, r, outputValid);
      && Live(base, keep, exec, run + e.events, Stored(store, key, e.put), e.final, t)
      && Invocations(run + e.events) == Invocations(run)
  {
    hide Live, StoreAfter, LastSaved, Invocations;
    var e := Conclude(key, c, r, outputValid);
    assert run + [] == run;
    if e.put.Some? {
      LiveCached(base, keep, exec, run, store, c, t, key, r);
      LiveSaveAs(base, keep, exec, run + [Cached(key, r)], store[key := r], c, t, Checkpointing, Routed);
      assert run + e.events == run + [Cached(key, r)] + [Saved(c.(status := Checkpointing))];
    } else if e.outcome.Returned? {
      LiveSaveAs(base, keep, exec, run, store, c, t, Checkpointing, Routed);
    } else if !Terminal(c.status) {
      LiveStatus(base, keep, exec, run, store, c, t, Validating);
    }
  }

  lemma CancelKeepsLive(
    base: Store, keep: set<string>, exec: string, run: seq<Event>, store: Store, c: Snapshot, t: Tasks, json: bool,
    key: string)
    requires Live(base, keep, exec, run, store, c, t) && c.plan == Some(t) && !Terminal(c.status)
    ensures
      var e := Cancel(json, key, c);
      && Live(base, keep, exec, run + e.events, store, e.final, t)
      && Invocations(run + e.events) == Invocations(run)
  {
    LiveSave(base, keep, exec, run, store, c.(status := Stopped), t);
  }

  lemma LiveInvoked(
    base: Store, keep: set<string>, exec: string, run: seq<Event>, store: Store, c: Snapshot, t: Tasks, id: string)
    requires Live(base, keep, exec, run, store, c, t) && LastSaved(run) == Some(c) && c.plan == Some(t)
    requires Runnable(t, id) && !Terminal(c.status) && InvocationId(exec, id) !in store
    ensures
      var run' := run + [Invoked(InvocationId(exec, id))];
      && Live(base, keep, exec, run', store, c, t) && Invocations(run') == Invocations(run) + 1
  {
    Extend(base, exec, run, Invoked(InvocationId(exec, id)));
  }

  lemma LiveRecovered(
    base: Store, keep: set<string>, exec: string, run: seq<Event>, store: Store, c: Snapshot, t: Tasks, p: Policy,
    f: FailureClass)
    requires Live(base, keep, exec, run, store, c, t) && c.plan == Some(t) && !Terminal(c.status)
    ensures
      var c' := Applied(p, c, f).0;
      && Live(base, keep, exec, run + [Saved(c')], store, c', t)
      && Invocations(run + [Saved(c')]) == Invocations(run)
  {
    LiveSave(base, keep, exec, run, store, Applied(p, c, f).0, t);
  }

  lemma CallKeepsLive(base: Store, keep: set<string>, exec: string, run: seq<Event>, store: Store, c: Snapshot,
                      t: Tasks,
                      p: Policy, id: string, env: Env)
    requires Live(base, keep, exec, run, store, c, t) && LastSaved(run) == Some(c) && c.plan == Some(t)
    requires Runnable(t, id) && c.status == Executing
    requires env.reply.Returns? ==> !SelfRetry(env.reply.result)
    requires InvocationId(exec, id) !in store
    ensures
      var key := InvocationId(exec, id);
      var e := Call(p, key, c, env);
      && Live(base, keep, exec, run + e.events, Stored(store, key, e.put), e.final, t)
      && Invocations(run + e.events) == Invocations(run) + 1
  {
    hide Live, StoreAfter, LastSaved, Invocations, InvocationId;
    var key := InvocationId(exec, id);
    var e := Call(p, key, c, env);
    LiveInvoked(base, keep, exec, run, store, c, t, id);
    var called := run + [Invoked(key)];
    match env.reply
    case ThrowsCancellation =>
      CancelKeepsLive(base, keep, exec, called, store, c, t, false, key);
      assert run + e.events == called + Cancel(false, key, c).events;
    case Throws =>
      LiveRecovered(base, keep, exec, called, store, c, t, p, Tool);
      assert run + e.events == called + [Saved(e.final)];
    case Returns(r) =>
      if env.cancelledAfterInvoke {
        CancelKeepsLive(base, keep, exec, called, store, c, t, false, key);
        assert run + e.events == called + Cancel(false, key, c).events;
      } else if ReportsFailure(r) {
        var f := r.error.value.failureClass.value;
        var recovered := Applied(p, c, f).0;
        var r' := r.(error :=
          Some(r.error.value.(recoveryAction := Some(Classify(p, f, c.retryCount, c.recoveryAttempts).action))));
        LiveRecovered(base, keep, exec, called, store, c, t, p, f);
        ConcludeKeepsLive(base, keep, exec, called + [Saved(recovered)], store, recovered, t, key, r', env.outputValid);
        assert run + e.events == called + [Saved(recovered)] + Conclude(key, recovered, r', env.outputValid).events;
      } else {
        ConcludeKeepsLive(base, keep, exec, called, store, c, t, key, r, env.outputValid);
        assert run + e.events == called + Conclude(key, c, r, env.outputValid).events;
      }
  }

  /** One runtime call inside a run: the run stays live and the capability is called at most once. */
  lemma ExecuteKeepsLive(base: Store, keep: set<string>, exec: string, run: seq<Event>, store: Store, c: Snapshot,
                         t: Tasks, p: Policy, json: bool, id: string, env: Env)
    requires Live(base, keep, exec, run, store, c, t) && c.plan == Some(t) && Runnable(t, id)
    requires env.reply.Returns? ==> !SelfRetry(env.reply.result)
    ensures
      var key := InvocationId(exec, id);
      var e := Expected(p, json, key, c, Lookup(store, key), env);
      && Live(base, keep, exec, run + e.events, Stored(store, key, e.put), e.final, t)
      && Invocations(run + e.events) <= Invocations(run) + 1
  {
    hide Live, StoreAfter, Invocations, InvocationId, Call, Cancel;
    var key := InvocationId(exec, id);
    var e := Expected(p, json, key, c, Lookup(store, key), env);
    LiveIsQuiet(base, keep, exec, run, store, c, t);
    if !Terminal(c.status) && env.registered && env.cancelledAtStart {
      CancelKeepsLive(base, keep, exec, run, store, c, t, json, key);
      NeverPut(json, key, c);
    } else if !Terminal(c.status) && env.registered && env.inputValid && env.authorized && key !in store {
      RunningKeepsLive(base, keep, exec, run, store, c, t, p, json, id, env);
    } else {
      assert run + e.events == run;
      if !Terminal(c.status) {
        LiveStatus(base, keep, exec, run, store, c, t, e.final.status);
      }
    }
  }

  lemma NeverPut(json: bool, key: string, c: Snapshot)
    ensures Cancel(json, key, c).put.None?
  {
  }

  /** From the checkpoint before the capability is called. */
  lemma RunningKeepsLive(base: Store, keep: set<string>, exec: string, run: seq<Event>, store: Store, c: Snapshot,
                         t: Tasks, p: Policy, json: bool, id: string, env: Env)
    requires Live(base, keep, exec, run, store, c, t) && c.plan == Some(t) && Runnable(t, id)
    requires env.reply.Returns? ==> !SelfRetry(env.reply.result)
    requires !Terminal(c.status) && InvocationId(exec, id) !in store
    requires env.registered && !env.cancelledAtStart && env.inputValid && env.authorized
    ensures
      var key := InvocationId(exec, id);
      var e := Expected(p, json, key, c, None, env);
      && Live(base, keep, exec, run + e.events, Stored(store, key, e.put), e.final, t)
      && Invocations(run + e.events) <= Invocations(run) + 1
  {
    hide Live, StoreAfter, Invocations, InvocationId, Call, Cancel, LastSaved, Runnable, SelfRetry;
    var key := InvocationId(exec, id);
    var e := Expected(p, json, key, c, None, env);
    var running := c.(status := Executing);
    LiveIsQuiet(base, keep, exec, run, store, c, t);
    LiveStatus(base, keep, exec, run, store, c, t, Executing);
    LiveSave(base, keep, exec, run, store, running, t);
    if env.cancelledBeforeInvoke {
      CancelKeepsLive(base, keep, exec, run + [Saved(running)], store, running, t, json, key);
      CancelForgetsStatus(json, key, c, Executing);
      assert run + e.events == run + [Saved(running)] + Cancel(json, key, running).events;
    } else {
      CallKeepsLive(base, keep, exec, run + [Saved(running)], store, running, t, p, id, env);
      assert run + e.events == run + [Saved(running)] + Call(p, key, running, env).events;
    }
  }

  lemma CancelForgetsStatus(json: bool, key: string, c: Snapshot, s: ExecutionStatus)
    ensures Cancel(json, key, c) == Cancel(json, key, c.(status := s)) && Cancel(json, key, c).put.None?
  {
  }

  /** The shared retry counter moves by at most one, within its limit, and does when the call asks for a retry. */
  lemma RetryCounts(p: Policy, json: bool, key: string, c: Snapshot, cached: Option<Result>, env: Env)
    requires env.reply.Returns? ==> !SelfRetry(env.reply.result)
    requires cached.Some? ==> !WantsRetry(cached.value)
    ensures
      var e := Expected(p, json, key, c, cached, env);
      && c.retryCount <= e.final.retryCount <= c.retryCount + 1
      && (e.final.retryCount > c.retryCount ==> e.final.retryCount <= p.maxRetries)
      && (e.outcome.Returned? && WantsRetry(e.outcome.result) ==> e.final.retryCount == c.retryCount + 1)
  {
  }

  /** A successful call leaves its result in the store and the context open. */
  lemma SuccessIsStored(p: Policy, json: bool, key: string, c: Snapshot, store: Store, env: Env)
    ensures
      var e := Expected(p, json, key, c, Lookup(store, key), env);
      var store' := Stored(store, key, e.put);
      && e.final.plan == c.plan
      && (e.outcome.Returned? && e.outcome.result.status == ResultSucceeded ==>
            key in store' && store'[key] == e.outcome.result && !Terminal(e.final.status))
      && (Succeeds(env, key) && AllSucceeded(store) && !Terminal(c.status) && CanSave(json, c) ==>
            e.outcome.Returned? && e.outcome.result.status == ResultSucceeded && AllSucceeded(store'))
  {
    var e := Expected(p, json, key, c, Lookup(store, key), env);
    if Succeeds(env, key) && AllSucceeded(store) && !Terminal(c.status) && CanSave(json, c) {
      OpenCallReturns(p, json, key, c, store, env);
    }
    hide AllSucceeded, Succeeds;
    assert e.put.Some? ==> key !in store && e.outcome == Returned(e.put.value);
    if e.put.Some? && e.put.value.status == ResultSucceeded && AllSucceeded(store) {
      OneMoreSuccess(store, key, e.put.value);
    }
  }

  lemma OpenCallReturns(p: Policy, json: bool, key: string, c: Snapshot, store: Store, env: Env)
    requires Succeeds(env, key) && AllSucceeded(store) && !Terminal(c.status) && CanSave(json, c)
    ensures
      var e := Expected(p, json, key, c, Lookup(store, key), env);
      e.outcome.Returned? && e.outcome.result.status == ResultSucceeded
  {
  }

  lemma OneMoreSuccess(store: Store, key: string, r: Result)
    requires AllSucceeded(store) && r.status == ResultSucceeded
    ensures AllSucceeded(store[key := r])
  {
  }

  /** The checkpoints of one call hold the plan it was made with; a call that succeeds leaves the execution open and
      the recorded failure alone. */
  lemma CallSaves(p: Policy, json: bool, key: string, c: Snapshot, store: Store, env: Env)
    ensures
      var e := Expected(p, json, key, c, Lookup(store, key), env);
      && (forall x :: x in e.events && x.Saved? ==> x.snapshot.plan == c.plan)
      && (Succeeds(env, key) && AllSucceeded(store) && !Terminal(c.status) && CanSave(json, c) ==>
            && e.final.lastFailure == c.lastFailure && !Terminal(e.final.status)
            && forall x :: x in e.events && x.Saved? ==>
                 x.snapshot.lastFailure == c.lastFailure && !Terminal(x.snapshot.status))
  {
  }

  lemma LiveIsQuiet(base: Store, keep: set<string>, exec: string, run: seq<Event>, store: Store, c: Snapshot, t: Tasks)
    requires Live(base, keep, exec, run, store, c, t)
    ensures QuietStore(store) && Serializable(c) && StillReady(keep, t)
  {
  }

  lemma LiveAdvance(
    base: Store, keep: set<string>, exec: string, run: seq<Event>, store: Store, c: Snapshot, t: Tasks, t': Tasks)
    requires Live(base, keep, exec, run, store, c, t) && Advances(t, t') && NewlyBacked(store, exec, t, t')
    requires StillReady(keep, t')
    ensures Live(base, keep, exec, run, store, c, t') && Live(base, keep, exec, run, store, c.(plan := Some(t')), t')
  {
    hide Good, StoreAfter;
  }

  // ---------- One task ----------

  /** Writes a task's new state into the plan and checkpoints it. */
  method Record(runtime: ExecutionRuntime, plan: ExecutionPlan, context: ExecutionContext, id: string, node: TaskNode,
                ghost base: Store, ghost keep: set<string>, ghost run: seq<Event>) returns (ghost run': seq<Event>)
    requires Live(base, keep, context.executionId, run, runtime.store, context.Now(), plan.tasks)
    requires id in plan.tasks.nodes && !Settled(plan.tasks.nodes[id].status) && id !in keep
    requires node == plan.tasks.nodes[id].(status := node.status, output := node.output)
    requires node.status == Succeeded ==>
               var key := InvocationId(context.executionId, id);
               key in runtime.store && runtime.store[key].status == ResultSucceeded &&
                 runtime.store[key].output == node.output
    modifies plan, context`plan, runtime`log
    ensures plan.tasks == old(plan.tasks).(nodes := old(plan.tasks).nodes[id := node])
    ensures context.plan == Some(plan.tasks)
    ensures run' == run + [Saved(context.Now())] && runtime.log == old(runtime.log) + [Saved(context.Now())]
    ensures Live(base, keep, context.executionId, run', runtime.store, context.Now(), plan.tasks)
    ensures Invocations(run') == Invocations(run)
  {
    hide Good, StoreAfter, Invocations, LastSaved, Live;
    ghost var c, t := context.Now(), plan.tasks;
    LiveIsQuiet(base, keep, context.executionId, run, runtime.store, c, t);
    plan.tasks := plan.tasks.(nodes := plan.tasks.nodes[id := node]);
    context.plan := Some(plan.tasks);
    LiveAdvance(base, keep, context.executionId, run, runtime.store, c, t, plan.tasks);
    LiveSave(base, keep, context.executionId, run, runtime.store, context.Now(), plan.tasks);
    LiveIsQuiet(base, keep, context.executionId, run, runtime.store, context.Now(), plan.tasks);
    var saved := runtime.Save(context);
    run' := run + [Saved(context.Now())];
  }

  /** One runtime call on behalf of task `id`. */
  method Attempt(runtime: ExecutionRuntime, context: ExecutionContext, id: string, oracle: Oracle, calls: nat,
                 ghost base: Store, ghost keep: set<string>, ghost run: seq<Event>, ghost t: Tasks)
    returns (outcome: Outcome, ghost run': seq<Event>)
    requires Live(base, keep, context.executionId, run, runtime.store, context.Now(), t)
    requires context.plan == Some(t) && Runnable(t, id) && Sourced(oracle, run, calls)
    requires
      var env := oracle(calls, InvocationId(context.executionId, id));
      env.reply.Returns? ==> !SelfRetry(env.reply.result)
    modifies runtime, context
    ensures Live(base, keep, context.executionId, run', runtime.store, context.Now(), t) && context.plan == Some(t)
    ensures run <= run' && runtime.log == old(runtime.log) + run'[|run|..]
    ensures Invocations(run') <= Invocations(run) + 1
    ensures old(context.retryCount) <= context.retryCount <= old(context.retryCount) + 1
    ensures context.retryCount > old(context.retryCount) ==> context.retryCount <= runtime.policy.maxRetries
    ensures outcome.Returned? && WantsRetry(outcome.result) ==> context.retryCount == old(context.retryCount) + 1
    ensures outcome.Returned? && outcome.result.status == ResultSucceeded ==>
              var key := InvocationId(context.executionId, id);
              key in runtime.store && runtime.store[key] == outcome.result && !Terminal(context.status)
    ensures SavedAs(run', |run|, t) && Sourced(oracle, run', calls + 1)
    ensures
      var key := InvocationId(context.executionId, id);
      OneCall(runtime.policy.maxRetries, key, old(context.Now()), old(runtime.store), oracle(calls, key), outcome,
              context.Now(), runtime.store)
    ensures
      var key := InvocationId(context.executionId, id);
      Succeeds(oracle(calls, key), key) && AllSucceeded(old(runtime.store)) && !Terminal(old(context.status)) ==>
              && outcome.Returned? && outcome.result.status == ResultSucceeded && AllSucceeded(runtime.store)
              && context.lastFailure == old(context.lastFailure) && CalmFrom(run', |run|, context.lastFailure)
  {
    hide Live, Invocations, InvocationId, Expected, SavedAs, CalmFrom, AllSucceeded, Sourced, OneCall, SelfRetry;
    var key := InvocationId(context.executionId, id);
    var env := oracle(calls, key);
    ghost var c, store := context.Now(), runtime.store;
    ExecuteKeepsLive(base, keep, context.executionId, run, store, c, t, runtime.policy, runtime.json, id, env);
    LiveIsQuiet(base, keep, context.executionId, run, store, c, t);
    RetryCounts(runtime.policy, runtime.json, key, c, Lookup(store, key), env);
    SuccessIsStored(runtime.policy, runtime.json, key, c, store, env);
    CallSaves(runtime.policy, runtime.json, key, c, store, env);
    CallTells(runtime.policy, runtime.json, key, c, store, env);
    SourcedCall(oracle, run, calls, runtime.policy, runtime.json, key, c, Lookup(store, key));
    ghost var events := Expected(runtime.policy, runtime.json, key, c, Lookup(store, key), env).events;
    NothingSaved(run, t, c.lastFailure);
    SavedMore(run, events, |run|, t, c.lastFailure);
    outcome := runtime.Execute(context, key, env);
    run' := run + events;
  }

  /** Calls the task, and again while recovery says "retry"; the shared retry counter is the termination measure. */
  method CallRepeatedly(runtime: ExecutionRuntime, context: ExecutionContext, id: string, oracle: Oracle, calls: nat,
                        ghost base: Store, ghost keep: set<string>, ghost run: seq<Event>, ghost t: Tasks,
                        ghost c: Course)
    returns (outcome: Outcome, calls': nat, ghost run': seq<Event>)
    requires Live(base, keep, context.executionId, run, runtime.store, context.Now(), t)
    requires context.plan == Some(t) && Runnable(t, id) && NoSelfRetry(oracle)
    requires Smooth(c, oracle, runtime.store, context.Now()) && Sourced(oracle, run, calls)
    modifies runtime, context
    ensures Live(base, keep, context.executionId, run', runtime.store, context.Now(), t) && context.plan == Some(t)
    ensures Logged(old(runtime.log), runtime.log, run, run')
    ensures Paid(run, run', old(context.retryCount), context.retryCount, 1, runtime.policy.maxRetries)
    ensures !(outcome.Returned? && WantsRetry(outcome.result))
    ensures outcome.Returned? && outcome.result.status == ResultSucceeded ==>
              var key := InvocationId(context.executionId, id);
              key in runtime.store && runtime.store[key] == outcome.result && !Terminal(context.status)
    ensures SavedAs(run', |run|, t) && Smooth(c, oracle, runtime.store, context.Now()) && Sourced(oracle, run', calls')
    ensures Tried(oracle, InvocationId(context.executionId, id), calls, calls', old(context.status),
                  old(context.retryCount), old(runtime.store), runtime.policy.maxRetries, outcome, context.Now(),
                  runtime.store)
    ensures c.smooth ==>
              outcome.Returned? && outcome.result.status == ResultSucceeded && CalmFrom(run', |run|, c.failure)
  {
    hide Invocations, Live, InvocationId, Runnable, AllSucceeded, SelfRetry, Succeeds, SavedAs, CalmFrom, Sourced,
         Tried, OneCall;
    ghost var exec, key, limit := context.executionId, InvocationId(context.executionId, id), runtime.policy.maxRetries;
    ghost var c0, store0 := context.Now(), runtime.store;
    outcome, run' := Attempt(runtime, context, id, oracle, calls, base, keep, run, t);
    TriedOnce(oracle, key, calls, c0, store0, limit, outcome, context.Now(), runtime.store);
    calls' := calls + 1;
    assert c.smooth ==> outcome.Returned? && outcome.result.status == ResultSucceeded;
    while outcome.Returned? && WantsRetry(outcome.result)
      invariant Live(base, keep, exec, run', runtime.store, context.Now(), t) && context.plan == Some(t)
      invariant run <= run' && runtime.log == old(runtime.log) + run'[|run|..]
      invariant Invocations(run') + old(context.retryCount) <=
                Invocations(run) + context.retryCount + if outcome.Returned? && WantsRetry(outcome.result) then 0 else 1
      invariant old(context.retryCount) <= context.retryCount
      invariant context.retryCount > old(context.retryCount) ==> context.retryCount <= runtime.policy.maxRetries
      invariant outcome.Returned? && WantsRetry(outcome.result) ==> context.retryCount > old(context.retryCount)
      invariant outcome.Returned? && outcome.result.status == ResultSucceeded ==>
                  var key := InvocationId(exec, id);
                  key in runtime.store && runtime.store[key] == outcome.result && !Terminal(context.status)
      invariant SavedAs(run', |run|, t) && Smooth(c, oracle, runtime.store, context.Now())
      invariant Sourced(oracle, run', calls')
      invariant Tried(oracle, key, calls, calls', c0.status, c0.retryCount, store0, limit, outcome, context.Now(),
                      runtime.store)
      invariant c.smooth ==>
                  outcome.Returned? && outcome.result.status == ResultSucceeded && CalmFrom(run', |run|, c.failure)
      decreases if outcome.Returned? && WantsRetry(outcome.result)
        then 1 + runtime.policy.maxRetries - context.retryCount else 0
    {
      ghost var before, o, s, store := run', outcome, context.Now(), runtime.store;
      outcome, run' := Attempt(runtime, context, id, oracle, calls', base, keep, run', t);
      SavedLonger(run, before, run', t);
      TriedAgain(oracle, key, calls, calls', c0.status, c0.retryCount, store0, limit, o, s, store, outcome,
                 context.Now(), runtime.store);
      calls' := calls' + 1;
    }
  }

  /** The loop body for one ready task: mark it RUNNING, call it, and record SUCCEEDED or FAILED. */
  method RunTask(runtime: ExecutionRuntime, plan: ExecutionPlan, context: ExecutionContext, id: string,
                 oracle: Oracle, calls: nat, ghost base: Store, ghost keep: set<string>, ghost run: seq<Event>,
                 ghost c: Course)
    returns (failed: bool, calls': nat, ghost run': seq<Event>)
    requires HasStatus(plan.tasks, id, Ready) && id !in keep
    requires forall d :: Edge(plan.tasks, id, d) ==> HasStatus(plan.tasks, d, Succeeded)
    requires Live(base, keep, context.executionId, run, runtime.store, context.Now(), plan.tasks)
    requires NoSelfRetry(oracle)
    requires OnCourse(c, oracle, calls, runtime.policy.maxRetries, base, context.executionId, run, runtime.store,
                      context.Now(), plan.tasks)
    modifies runtime, plan, context
    ensures id in plan.tasks.nodes
    ensures plan.tasks == old(plan.tasks).(nodes := old(plan.tasks).nodes[id := plan.tasks.nodes[id]])
    ensures plan.tasks.nodes[id] ==
            old(plan.tasks).nodes[id].(
              status := if failed then Failed else Succeeded, output := plan.tasks.nodes[id].output)
    ensures failed ==> plan.tasks.nodes[id].output == old(plan.tasks).nodes[id].output
    ensures Live(base, keep, context.executionId, run', runtime.store, context.Now(), plan.tasks)
    ensures Logged(old(runtime.log), runtime.log, run, run')
    ensures Paid(run, run', old(context.retryCount), context.retryCount, 1, runtime.policy.maxRetries)
    ensures context.plan == Some(plan.tasks)
    ensures !failed ==> !Terminal(context.status)
    ensures Verdict(oracle, InvocationId(context.executionId, id), calls, calls', old(context.status),
                    old(context.retryCount), old(runtime.store), runtime.policy.maxRetries, failed,
                    plan.tasks.nodes[id].output)
    ensures OnCourse(c, oracle, calls', runtime.policy.maxRetries, base, context.executionId, run', runtime.store,
                     context.Now(), plan.tasks)
    ensures c.smooth || c.steady ==> !failed
    ensures Segment(run, run', SetStatus(old(plan.tasks), id, Running), plan.tasks, c)
  {
    hide Invocations, Live, InvocationId, NoSelfRetry, Obliging, AllSucceeded, SavedAs, CalmFrom, Segment, Sourced,
         Tried, Verdict, Steady, Fulfilled, Smooth;
    ghost var exec, key, limit := context.executionId, InvocationId(context.executionId, id), runtime.policy.maxRetries;
    ghost var store0 := runtime.store;
    run' := Record(runtime, plan, context, id, plan.tasks.nodes[id].(status := Running), base, keep, run);
    SourcedSave(oracle, run, context.Now(), calls);
    PlanAside(c, oracle, calls, limit, store0, old(context.Now()), context.plan);
    ghost var t, s1 := plan.tasks, context.Now();
    assert t == SetStatus(old(plan.tasks), id, Running);
    forall d | Edge(t, id, d) ensures HasStatus(t, d, Succeeded) {
      assert Edge(old(plan.tasks), id, d);
    }

    var outcome;
    outcome, calls', run' := CallRepeatedly(runtime, context, id, oracle, calls, base, keep, run', t, c);
    failed := !(outcome.Returned? && outcome.result.status == ResultSucceeded);
    var node := plan.tasks.nodes[id];
    node := if failed then node.(status := Failed) else node.(status := Succeeded, output := outcome.result.output);
    ghost var called, s2 := run', context.Now();
    TriedVerdict(c, oracle, key, calls, calls', s1, store0, limit, outcome, s2, runtime.store, node.output);
    run' := Record(runtime, plan, context, id, node, base, keep, run');
    SourcedSave(oracle, called, context.Now(), calls');
    PlanAside(c, oracle, calls', limit, runtime.store, s2, context.plan);
    FulfilledStep(base, exec, store0, old(plan.tasks), id, outcome, runtime.store, plan.tasks);
    Joined(run, s1, called, context.Now(), t, plan.tasks, c);
  }

  lemma PlanAside(
    c: Course, oracle: Oracle, calls: nat, limit: nat, store: Store, s: Snapshot, plan: Option<Tasks>)
    ensures Smooth(c, oracle, store, s) ==> Smooth(c, oracle, store, s.(plan := plan))
    ensures Steady(c, oracle, calls, limit, store, s) ==> Steady(c, oracle, calls, limit, store, s.(plan := plan))
  {
  }

  lemma SourcedSave(oracle: Oracle, run: seq<Event>, s: Snapshot, calls: nat)
    requires Sourced(oracle, run, calls)
    ensures Sourced(oracle, run + [Saved(s)], calls)
  {
    SourcedSaves(oracle, run, [Saved(s)], calls);
  }

  /** What the calls of a task tell about it. */
  lemma TriedVerdict(
    c: Course, oracle: Oracle, key: string, from: nat, to: nat, s: Snapshot, store: Store, limit: nat, o: Outcome,
    s': Snapshot, store': Store, output: string)
    requires Steady(c, oracle, from, limit, store, s) && !AsksRetry(o) && (Success(o) ==> !Terminal(s'.status))
    requires Success(o) ==> output == o.result.output
    requires Tried(oracle, key, from, to, s.status, s.retryCount, store, limit, o, s', store')
    ensures c.steady ==> Success(o)
    ensures Steady(c, oracle, to, limit, store', s')
    ensures Verdict(oracle, key, from, to, s.status, s.retryCount, store, limit, !Success(o), output)
    ensures store' == store || (key !in store && o.Returned? && store' == store[key := o.result])
  {
    SteadyWins(c, oracle, key, from, to, s, store, limit, o, s', store');
    hide Steady, AsksRetry, Hiccup, TaskWins, Success;
  }

  lemma FulfilledStep(
    base: Store, exec: string, store: Store, t: Tasks, id: string, o: Outcome, store': Store, t': Tasks)
    requires Fulfilled(base, exec, store, t) && HasStatus(t, id, Ready) && id in t'.nodes
    requires
      var key := InvocationId(exec, id);
      store' == store || (key !in store && o.Returned? && store' == store[key := o.result])
    requires t' == t.(nodes := t.nodes[id := t'.nodes[id]])
    requires Success(o) ==> t'.nodes[id].status == Succeeded && t'.nodes[id].output == o.result.output
    ensures Fulfilled(base, exec, store', t')
  {
    forall x
      ensures
        var key := InvocationId(exec, x);
        key in store' && key !in base && store'[key].status == ResultSucceeded ==>
          HasStatus(t', x, Succeeded) && t'.nodes[x].output == store'[key].output
    {
      if InvocationId(exec, x) == InvocationId(exec, id) {
        InvocationIdInjective(exec, x, id);
      }
      hide InvocationId;
    }
  }

  // ---------- One batch ----------

  /** The first `k` tasks of the batch have been settled and nothing else has changed. */
  ghost predicate BatchRan(t: Tasks, t': Tasks, ready: seq<string>, k: nat)
    requires k <= |ready|
  {
    && t'.order == t.order && t'.nodes.Keys == t.nodes.Keys
    && forall id :: id in t.nodes ==>
         if id in ready[..k]
         then t'.nodes[id].status in {Succeeded, Failed}
              && (t'.nodes[id].status == Failed ==> t'.nodes[id].output == t.nodes[id].output)
              && t'.nodes[id] == t.nodes[id].(status := t'.nodes[id].status, output := t'.nodes[id].output)
         else t'.nodes[id] == t.nodes[id]
  }

  /** A batch: its tasks are marked READY, none is one of those kept READY, and their dependencies have succeeded. */
  ghost predicate Startable(t: Tasks, ready: seq<string>, keep: set<string>) {
    && Distinct(ready) && (forall id :: id in ready ==> HasStatus(t, id, Ready) && id !in keep)
    && (forall id, d :: id in ready && Edge(t, id, d) ==> HasStatus(t, d, Succeeded))
  }

  ghost predicate SomeFailed(t: Tasks, ids: seq<string>) {
    exists id :: id in ids && HasStatus(t, id, Failed)
  }

  method RunBatch(runtime: ExecutionRuntime, plan: ExecutionPlan, context: ExecutionContext, ready: seq<string>,
                  oracle: Oracle, calls: nat, ghost base: Store, ghost keep: set<string>, ghost run: seq<Event>,
                  ghost c: Course, ghost marks: seq<Mark>)
    returns (batchFailed: bool, calls': nat, ghost run': seq<Event>, ghost marks': seq<Mark>)
    requires Startable(plan.tasks, ready, keep)
    requires Live(base, keep, context.executionId, run, runtime.store, context.Now(), plan.tasks)
    requires NoSelfRetry(oracle) && keep == ReadySet(c.t0)
    requires OnCourse(c, oracle, calls, runtime.policy.maxRetries, base, context.executionId, run, runtime.store,
                      context.Now(), plan.tasks)
    requires BatchGoes(run, c, marks, marks, false, plan.tasks, ready, 0)
    modifies runtime, plan, context
    ensures BatchRan(old(plan.tasks), plan.tasks, ready, |ready|)
    ensures batchFailed <==> SomeFailed(plan.tasks, ready)
    ensures Live(base, keep, context.executionId, run', runtime.store, context.Now(), plan.tasks)
    ensures Logged(old(runtime.log), runtime.log, run, run')
    ensures Paid(run, run', old(context.retryCount), context.retryCount, |ready|, runtime.policy.maxRetries)
    ensures ready != [] ==> context.plan == Some(plan.tasks)
    ensures ready != [] && !batchFailed ==> !Terminal(context.status)
    ensures OnCourse(c, oracle, calls', runtime.policy.maxRetries, base, context.executionId, run', runtime.store,
                     context.Now(), plan.tasks)
    ensures c.smooth || c.steady ==> !batchFailed
    ensures BatchGoes(run', c, marks, marks', batchFailed, plan.tasks, ready, |ready|)
  {
    hide Live, Invocations, NoSelfRetry, OnCourse, Verdict, BatchGoes, Segment, ReadySet, Edge, Distinct, Startable,
         Terminal;
    batchFailed, calls', run', marks' := false, calls, run, marks;
    ghost var t := plan.tasks;
    assert BatchRan(t, t, ready, 0) && !SomeFailed(t, ready[..0]);
    hide BatchRan, SomeFailed, Logged, Paid;
    NothingYet(runtime.log, run, context.retryCount, runtime.policy.maxRetries);
    var i := 0;
    while i < |ready|
      invariant 0 <= i <= |ready|
      invariant BatchRan(t, plan.tasks, ready, i)
      invariant batchFailed <==> SomeFailed(plan.tasks, ready[..i])
      invariant Live(base, keep, context.executionId, run', runtime.store, context.Now(), plan.tasks)
      invariant Logged(old(runtime.log), runtime.log, run, run')
      invariant Paid(run, run', old(context.retryCount), context.retryCount, i, runtime.policy.maxRetries)
      invariant i > 0 ==> context.plan == Some(plan.tasks)
      invariant !batchFailed ==> (i == 0 && context.status == old(context.status)) || !Terminal(context.status)
      invariant OnCourse(c, oracle, calls', runtime.policy.maxRetries, base, context.executionId, run', runtime.store,
                         context.Now(), plan.tasks)
      invariant c.smooth || c.steady ==> !batchFailed
      invariant BatchGoes(run', c, marks, marks', batchFailed, plan.tasks, ready, i)
    {
      var id := ready[i];
      BatchNext(t, plan.tasks, ready, i, keep);
      var failed;
      ghost var t1, before, log, retries := plan.tasks, run', runtime.log, context.retryCount;
      failed, calls', run' := RunTask(runtime, plan, context, id, oracle, calls', base, keep, run', c);
      BatchStep(t, t1, plan.tasks, ready, i);
      LoggedTwice(old(runtime.log), log, runtime.log, run, before, run');
      PaidTwice(run, before, run', old(context.retryCount), retries, context.retryCount, i, 1,
          runtime.policy.maxRetries);
      BatchTakesNext(before, run', c, marks, marks', batchFailed, t1, plan.tasks, ready, i, failed);
      marks' := marks' + [Mark(|before|, id, Rest(ready, i + 1))];
      batchFailed := batchFailed || failed;
      i := i + 1;
    }
    assert ready[..i] == ready;
  }

  /** The next task of the batch is still READY and its dependencies are still SUCCEEDED. */
  lemma BatchNext(t: Tasks, t1: Tasks, ready: seq<string>, i: nat, keep: set<string>)
    requires i < |ready| && Startable(t, ready, keep) && BatchRan(t, t1, ready, i)
    ensures Distinct(ready) && HasStatus(t1, ready[i], Ready) && ready[i] in t.nodes && ready[i] !in keep
    ensures forall d :: Edge(t1, ready[i], d) ==> HasStatus(t1, d, Succeeded)
  {
    var id := ready[i];
    assert id in ready && HasStatus(t, id, Ready) && id !in ready[..i];
    assert t1.nodes[id] == t.nodes[id];
    forall d | Edge(t1, id, d) ensures HasStatus(t1, d, Succeeded) {
      assert Edge(t, id, d) && d !in ready && d !in ready[..i];
      assert t1.nodes[d] == t.nodes[d];
    }
  }

  lemma BatchStep(t: Tasks, t1: Tasks, t2: Tasks, ready: seq<string>, i: nat)
    requires i < |ready| && Distinct(ready) && ready[i] in t.nodes
    requires BatchRan(t, t1, ready, i) && ready[i] in t2.nodes
    requires t2 == t1.(nodes := t1.nodes[ready[i] := t2.nodes[ready[i]]])
    requires t2.nodes[ready[i]].status in {Succeeded, Failed}
    requires t2.nodes[ready[i]] ==
             t1.nodes[ready[i]].(status := t2.nodes[ready[i]].status, output := t2.nodes[ready[i]].output)
    requires t2.nodes[ready[i]].status == Failed ==> t2.nodes[ready[i]].output == t1.nodes[ready[i]].output
    ensures BatchRan(t, t2, ready, i + 1)
    ensures SomeFailed(t2, ready[..i + 1]) <==> SomeFailed(t1, ready[..i]) || HasStatus(t2, ready[i], Failed)
  {
    assert ready[..i + 1] == ready[..i] + [ready[i]];
    assert ready[i] !in ready[..i];
    if id :| id in ready[..i] && HasStatus(t1, id, Failed) {
      assert HasStatus(t2, id, Failed);
    }
    if id :| id in ready[..i + 1] && HasStatus(t2, id, Failed) {
      assert id == ready[i] || HasStatus(t1, id, Failed);
    }
  }

  // ---------- A whole run ----------

  ghost function PendingSet(t: Tasks): set<string> {
    set id | id in t.nodes && t.nodes[id].status == Pending
  }

  /** Only pending tasks have changed, each to SUCCEEDED or FAILED. */
  ghost predicate Ran(t0: Tasks, t: Tasks) {
    && t.order == t0.order && t.nodes.Keys == t0.nodes.Keys
    && forall id :: id in t0.nodes ==>
         || t.nodes[id] == t0.nodes[id]
         || (t0.nodes[id].status == Pending && t.nodes[id].status in {Succeeded, Failed}
             && (t.nodes[id].status == Failed ==> t.nodes[id].output == t0.nodes[id].output)
             && t.nodes[id] == t0.nodes[id].(status := t.nodes[id].status, output := t.nodes[id].output))
  }

  /** No task that ran has failed, and each ran after all of its dependencies had succeeded. */
  ghost predicate RanCleanly(t0: Tasks, t: Tasks) {
    && Ran(t0, t)
    && forall id :: id in t0.nodes && t.nodes[id] != t0.nodes[id] ==>
         t.nodes[id].status == Succeeded && forall d :: Edge(t0, id, d) ==> HasStatus(t, d, Succeeded)
  }

  /** The tasks stand as they must for a run to be able to finish: only PENDING, SUCCEEDED and SKIPPED, and no
      pending task waits for a skipped one. */
  ghost predicate CanFinish(t: Tasks) {
    && (forall id :: id in t.nodes ==> t.nodes[id].status in {Pending, Succeeded, Skipped})
    && (forall id, d :: Edge(t, id, d) && HasStatus(t, id, Pending) ==> !HasStatus(t, d, Skipped))
  }

  /** The net effect of a batch: exactly the eligible tasks are settled. */
  ghost predicate BatchNet(t: Tasks, t2: Tasks, ready: seq<string>) {
    && t2.order == t.order && t2.nodes.Keys == t.nodes.Keys
    && (forall id :: id in ready ==>
          && Eligible(t, id) && t2.nodes[id].status in {Succeeded, Failed}
          && (t2.nodes[id].status == Failed ==> t2.nodes[id].output == t.nodes[id].output)
          && t2.nodes[id] == t.nodes[id].(status := t2.nodes[id].status, output := t2.nodes[id].output))
    && (forall id :: id in t.nodes && id !in ready ==> t2.nodes[id] == t.nodes[id] && !Eligible(t, id))
  }

  lemma BatchNetEffect(t: Tasks, t1: Tasks, t2: Tasks, ready: seq<string>)
    requires WellFormed(t) && ready == EligibleIn(t, t.order)
    requires MarkedReady(t, t1, ready) && BatchRan(t1, t2, ready, |ready|)
    ensures BatchNet(t, t2, ready) && Distinct(ready)
  {
    EligibleInMembers(t, t.order);
    assert ready[..|ready|] == ready;
  }

  lemma BatchOutcome(t0: Tasks, t: Tasks, t2: Tasks, ready: seq<string>)
    requires RanCleanly(t0, t) && BatchNet(t, t2, ready)
    ensures Ran(t0, t2)
    ensures !SomeFailed(t2, ready) ==> RanCleanly(t0, t2)
  {
    if !SomeFailed(t2, ready) {
      forall id, d | id in t0.nodes && t2.nodes[id] != t0.nodes[id] && Edge(t0, id, d)
        ensures HasStatus(t2, d, Succeeded) {
        assert HasStatus(t, d, Succeeded) by {
          if id in ready {
            assert Eligible(t, id) && d in t.nodes[id].dependencies;
          } else {
            assert t.nodes[id] != t0.nodes[id];
          }
        }
        assert d !in ready;
      }
    }
  }

  lemma BatchShrinksPending(t: Tasks, t2: Tasks, ready: seq<string>)
    requires BatchNet(t, t2, ready) && Distinct(ready)
    ensures |PendingSet(t2)| + |ready| == |PendingSet(t)|
  {
    var done := set id | id in ready;
    assert PendingSet(t) == PendingSet(t2) + done && PendingSet(t2) !! done;
    DistinctSize(ready);
  }

  lemma {:induction false} DistinctSize(s: seq<string>)
    requires Distinct(s)
    ensures |set x | x in s| == |s|
  {
    if s != [] {
      var front := s[..|s| - 1];
      DistinctSize(front);
      assert (set x | x in s) == (set x | x in front) + {s[|s| - 1]};
    }
  }

  lemma RanKeepsShape(t0: Tasks, t: Tasks, order: seq<string>)
    requires WellFormed(t0) && KnownDependencies(t0) && Topological(t0, order) && Covers(t0, order)
    requires Ran(t0, t)
    ensures WellFormed(t) && KnownDependencies(t) && Topological(t, order) && Covers(t, order)
  {
    assert forall a, b :: Edge(t, a, b) <==> Edge(t0, a, b);
  }

  /** Nothing eligible is left although the run could finish: impossible before completion. */
  lemma NeverStuck(t0: Tasks, t: Tasks, order: seq<string>)
    requires WellFormed(t) && KnownDependencies(t) && Topological(t, order) && Covers(t, order)
    requires RanCleanly(t0, t) && CanFinish(t0) && !IsComplete(t)
    ensures EligibleIn(t, t.order) != []
  {
    EligibleInMembers(t, t.order);
    assert forall x :: x in t.nodes ==> t.nodes[x].status in {Pending, Succeeded, Skipped};
    forall x, d | Edge(t, x, d) && HasStatus(t, x, Pending) ensures !HasStatus(t, d, Skipped) {
      assert Edge(t0, x, d) && HasStatus(t0, x, Pending);
    }
    var id := ProgressPossible(t, order);
    assert id in EligibleIn(t, t.order);
  }

  lemma CompleteMeansCouldFinish(t0: Tasks, t: Tasks)
    requires RanCleanly(t0, t) && IsComplete(t)
    ensures CanFinish(t0)
  {
    forall id, d | Edge(t0, id, d) && HasStatus(t0, id, Pending) ensures !HasStatus(t0, d, Skipped) {
      assert t.nodes[id] != t0.nodes[id];
    }
  }

  lemma LiveStart(base: Store, keep: set<string>, exec: string, c: Snapshot, t: Tasks)
    requires c.plan == Some(t) && Serializable(c) && QuietStore(base) && StillReady(keep, t)
    ensures Live(base, keep, exec, [Saved(c)], base, c, t) && Invocations([Saved(c)]) == 0
  {
    assert [] + [Saved(c)] == [Saved(c)];
    Extend(base, exec, [], Saved(c));
  }

  datatype RunOutcome =
    | Finished
    | Halted
    | InvalidPlan(error: PlanError)
    | NotSavable
    | PlanHasFailed
    | PlanBlocked
    | CompletionRefused

  /** What one call of `execute` did: the plan before and after, the events it added and how it ended. */
  ghost predicate RunMeans(
    t0: Tasks, t: Tasks, status0: ExecutionStatus, status: ExecutionStatus, outcome: RunOutcome) {
    && Ran(t0, t)
    && (CanFinish(t0) ==> !outcome.PlanHasFailed? && !outcome.PlanBlocked?)
    && match outcome
       case Finished => IsComplete(t) && CanFinish(t0) && RanCleanly(t0, t) && status == Completed
       case Halted => FailedWhilePending(t0, t)
       case CompletionRefused => IsComplete(t) && t == t0 && Terminal(status0) && status == status0
       case PlanHasFailed =>
         (exists id :: HasStatus(t, id, Failed)) && !IsComplete(t) && NoneEligible(t) && RanCleanly(t0, t)
       case PlanBlocked =>
         (forall id :: !HasStatus(t, id, Failed)) && !IsComplete(t) && NoneEligible(t) && RanCleanly(t0, t)
       case _ => t == t0
  }

  function Excess(limit: nat, used: nat): nat {
    if used < limit then limit - used else 0
  }

  /** Runs the batch `ready`, whose tasks have just been marked in the plan `t`. */
  method RunReady(runtime: ExecutionRuntime, plan: ExecutionPlan, context: ExecutionContext, ready: seq<string>,
                  oracle: Oracle,
                  calls: nat, ghost base: Store, ghost keep: set<string>, ghost run: seq<Event>, ghost t: Tasks,
                  ghost c: Course, ghost marks: seq<Mark>)
    returns (batchFailed: bool, calls': nat, ghost run': seq<Event>, ghost marks': seq<Mark>)
    requires RanCleanly(c.t0, t) && WellFormed(t) && ready == EligibleIn(t, t.order) && ready != []
    requires MarkedReady(t, plan.tasks, ready)
    requires Live(base, keep, context.executionId, run, runtime.store, context.Now(), t)
    requires NoSelfRetry(oracle) && keep == ReadySet(c.t0)
    requires OnCourse(c, oracle, calls, runtime.policy.maxRetries, base, context.executionId, run, runtime.store,
                      context.Now(), t)
    requires Accounted(run, c, marks, false) && (marks == [] ==> t == c.t0)
    modifies runtime, plan, context
    ensures Live(base, keep, context.executionId, run', runtime.store, context.Now(), plan.tasks)
    ensures Logged(old(runtime.log), runtime.log, run, run')
    ensures Ran(c.t0, plan.tasks) && context.plan == Some(plan.tasks)
    ensures if batchFailed then FailedWhilePending(c.t0, plan.tasks)
            else RanCleanly(c.t0, plan.tasks) && !Terminal(context.status)
    ensures |PendingSet(plan.tasks)| < |PendingSet(t)|
    ensures Paid(run, run', old(context.retryCount), context.retryCount,
                 |PendingSet(t)| - |PendingSet(plan.tasks)|, runtime.policy.maxRetries)
    ensures OnCourse(c, oracle, calls', runtime.policy.maxRetries, base, context.executionId, run', runtime.store,
                     context.Now(), plan.tasks)
    ensures c.smooth || c.steady ==> !batchFailed
    ensures Accounted(run', c, marks', batchFailed) && marks' != []
  {
    hide Invocations, OnCourse, NoSelfRetry, Live, RanCleanly, Ran, EligibleIn, BatchRan, MarkedReady, PendingSet,
         Accounted, BatchGoes, ReadySet, Steps, Marked, InBatches, FirstBatch, Eligible, ListsEligible, Startable,
         SomeFailed, HasStatus, WellFormed, FailedWhilePending, Terminal, Logged, Paid;
    ghost var t1 := plan.tasks;
    AccountedParts(run, c, marks);
    EligibleAre(t, ready);
    CleanSteps(c.t0, t);
    MarkingKeepsLive(base, keep, context.executionId, run, runtime.store, context.Now(), t, t1, ready);
    MarkingKeepsCourse(c, oracle, calls, runtime.policy.maxRetries, base, context.executionId, run, runtime.store,
                       context.Now(), t, t1, ready);
    BatchOpens(run, c, marks, t, t1, ready);
    batchFailed, calls', run', marks' := RunBatch(runtime, plan, context, ready, oracle, calls, base, keep, run, c,
        marks);
    BatchAccounted(run', c, marks, marks', batchFailed, t, plan.tasks, ready);
    AfterBatch(c.t0, t, t1, plan.tasks, ready);
  }

  /** One pass of the outer loop: collect the ready tasks and run them. */
  method Round(runtime: ExecutionRuntime, plan: ExecutionPlan, context: ExecutionContext, oracle: Oracle, calls: nat,
               ghost base: Store, ghost keep: set<string>, ghost run: seq<Event>, ghost order: seq<string>,
               ghost c: Course, ghost marks: seq<Mark>)
    returns (stuck: bool, batchFailed: bool, calls': nat, ghost run': seq<Event>, ghost marks': seq<Mark>)
    requires WellFormed(c.t0) && KnownDependencies(c.t0) && Topological(c.t0, order) && Covers(c.t0, order)
    requires RanCleanly(c.t0, plan.tasks) && !IsComplete(plan.tasks)
    requires Live(base, keep, context.executionId, run, runtime.store, context.Now(), plan.tasks)
    requires context.plan == Some(plan.tasks)
    requires NoSelfRetry(oracle) && keep == ReadySet(c.t0)
    requires OnCourse(c, oracle, calls, runtime.policy.maxRetries, base, context.executionId, run, runtime.store,
                      context.Now(), plan.tasks)
    requires Accounted(run, c, marks, false) && (marks == [] ==> plan.tasks == c.t0)
    modifies runtime, plan, context
    ensures Live(base, keep, context.executionId, run', runtime.store, context.Now(), plan.tasks)
    ensures Logged(old(runtime.log), runtime.log, run, run')
    ensures context.plan == Some(plan.tasks)
    ensures stuck ==>
              && !batchFailed && plan.tasks == old(plan.tasks) && run' == run && context.Now() == old(context.Now())
              && !CanFinish(c.t0)
              && marks' == marks && NoneEligible(old(plan.tasks))
    ensures !stuck ==>
              && marks' != [] && |PendingSet(plan.tasks)| < |PendingSet(old(plan.tasks))| && Ran(c.t0, plan.tasks)
              && if batchFailed then FailedWhilePending(c.t0, plan.tasks)
                 else RanCleanly(c.t0, plan.tasks) && !Terminal(context.status)
    ensures Paid(run, run', old(context.retryCount), context.retryCount,
                 |PendingSet(old(plan.tasks))| - |PendingSet(plan.tasks)|, runtime.policy.maxRetries)
    ensures OnCourse(c, oracle, calls', runtime.policy.maxRetries, base, context.executionId, run', runtime.store,
                     context.Now(), plan.tasks)
    ensures c.smooth || c.steady ==> !batchFailed
    ensures Accounted(run', c, marks', batchFailed)
  {
    hide Invocations, OnCourse, NoSelfRetry, Live, IsComplete, Topological, Covers, CanFinish, RanCleanly, Ran,
         EligibleIn, MarkedReady, PendingSet, Accounted, NoneEligible, ReadySet, Eligible, ListsEligible, WellFormed,
         KnownDependencies, FailedWhilePending, Terminal, Logged, Paid, HasStatus;
    ghost var t := plan.tasks;
    NothingYet(runtime.log, run, context.retryCount, runtime.policy.maxRetries);
    RanCleanlyRan(c.t0, t);
    RanKeepsShape(c.t0, t, order);
    var ready := plan.ReadyTasks();
    calls', run', marks', batchFailed, stuck := calls, run, marks, false, ready == [];
    if stuck {
      EligibleAre(t, ready);
      if CanFinish(c.t0) {
        NeverStuck(c.t0, t, order);
        assert false;
      }
      NothingMarked(t, plan.tasks);
      return;
    }
    batchFailed, calls', run', marks' :=
      RunReady(runtime, plan, context, ready, oracle, calls, base, keep, run, t, c, marks);
  }

  lemma AfterBatch(t0: Tasks, t: Tasks, t1: Tasks, t2: Tasks, ready: seq<string>)
    requires RanCleanly(t0, t) && WellFormed(t) && ready == EligibleIn(t, t.order) && ready != []
    requires MarkedReady(t, t1, ready) && BatchRan(t1, t2, ready, |ready|)
    ensures Ran(t0, t2) && |PendingSet(t2)| + |ready| == |PendingSet(t)|
    ensures if SomeFailed(t2, ready) then FailedWhilePending(t0, t2) else RanCleanly(t0, t2)
  {
    hide RanCleanly, Ran, EligibleIn, BatchRan, MarkedReady, PendingSet, SomeFailed, BatchNet, FailedWhilePending,
         WellFormed;
    BatchNetEffect(t, t1, t2, ready);
    BatchOutcome(t0, t, t2, ready);
    BatchShrinksPending(t, t2, ready);
    if SomeFailed(t2, ready) {
      FailedWasPending(t0, t, t2, ready);
    }
  }

  ghost predicate FailedWhilePending(t0: Tasks, t: Tasks) {
    exists id :: HasStatus(t0, id, Pending) && HasStatus(t, id, Failed)
  }

  lemma EligibleAre(t: Tasks, ready: seq<string>)
    requires WellFormed(t) && ready == EligibleIn(t, t.order)
    ensures ListsEligible(t, ready) && (ready == [] ==> NoneEligible(t))
  {
    EligibleInMembers(t, t.order);
  }

  lemma CleanSteps(t0: Tasks, t: Tasks)
    requires RanCleanly(t0, t)
    ensures Steps(t0, t, false) && ReadySet(t) == ReadySet(t0)
  {
  }

  lemma AccountedParts(run: seq<Event>, c: Course, marks: seq<Mark>)
    requires Accounted(run, c, marks, false)
    ensures Marked(run, c, marks, false) && InBatches(marks) && FirstBatch(c.t0, marks)
  {
  }

  lemma RanCleanlyRan(t0: Tasks, t: Tasks)
    requires RanCleanly(t0, t)
    ensures Ran(t0, t)
  {
  }

  lemma NothingMarked(t: Tasks, t1: Tasks)
    requires MarkedReady(t, t1, [])
    ensures t1 == t
  {
    assert t1.nodes == t.nodes;
  }

  lemma FailedWasPending(t0: Tasks, t: Tasks, t2: Tasks, ready: seq<string>)
    requires RanCleanly(t0, t) && BatchNet(t, t2, ready)
    requires SomeFailed(t2, ready)
    ensures FailedWhilePending(t0, t2)
  {
    var id :| id in ready && HasStatus(t2, id, Failed);
    assert Eligible(t, id);
    assert HasStatus(t0, id, Pending);
  }

  /** The outer loop, from the first checkpoint to the last. */
  method Drive(runtime: ExecutionRuntime, plan: ExecutionPlan, context: ExecutionContext, oracle: Oracle,
               ghost base: Store, ghost keep: set<string>, ghost order: seq<string>, ghost c: Course)
    returns (outcome: RunOutcome, ghost run: seq<Event>, ghost batches: nat, ghost marks: seq<Mark>)
    requires WellFormed(plan.tasks) && KnownDependencies(plan.tasks)
    requires Topological(plan.tasks, order) && Covers(plan.tasks, order)
    requires runtime.store == base && QuietStore(base) && Serializable(context.Now()) && StillReady(keep, plan.tasks)
    requires context.plan == Some(plan.tasks) && NoSelfRetry(oracle)
    requires c.t0 == plan.tasks && keep == ReadySet(c.t0)
    requires OnCourse(c, oracle, 0, runtime.policy.maxRetries, base, context.executionId, [], runtime.store,
                      context.Now(), plan.tasks)
    modifies runtime, plan, context
    ensures !outcome.InvalidPlan? && !outcome.NotSavable?
    ensures RunMeans(old(plan.tasks), plan.tasks, old(context.status), context.status, outcome)
    ensures Logged(old(runtime.log), runtime.log, [Saved(old(context.Now()))], run)
    ensures Live(base, keep, context.executionId, run, runtime.store, context.Now(), plan.tasks)
    ensures batches <= |PendingSet(old(plan.tasks))|
    ensures Invocations(run) <= |PendingSet(old(plan.tasks))| +
              Excess(runtime.policy.maxRetries, old(context.retryCount))
    ensures c.smooth || c.steady ==> !outcome.Halted? && AllSucceeded(runtime.store)
    ensures Traceable(oracle, run) && Fulfilled(base, context.executionId, runtime.store, plan.tasks)
    ensures outcome.Finished? ==> LastSaved(run) == Some(context.Now()) && context.plan == Some(plan.tasks)
    ensures IsComplete(c.t0) && Terminal(old(context.status)) ==> run == [Saved(old(context.Now()))]
    ensures Accounted(run, c, marks, outcome.Halted?)
    ensures marks == [] ==> IsComplete(c.t0) || NoneEligible(c.t0)
  {
    hide Good, StoreAfter, Invocations, NoSelfRetry, Ran, RanCleanly, RunMeans, Accounted, NoneEligible, ReadySet,
         Steps, OnCourse, Traceable, Fulfilled, Logged, Paid, Excess, Live, Topological, Covers, KnownDependencies,
         QuietStore, IsComplete, HasFailed, CanFinish, PendingSet, WellFormed, AllSucceeded, StillReady, LastSaved,
         Terminal, Serializable, FailedWhilePending;
    ghost var t0, c0, exec := plan.tasks, context.Now(), context.executionId;
    NothingHappened(base, exec, t0, c0.status);
    LiveStart(base, keep, exec, c0, t0);
    CourseCalm(c, oracle, 0, runtime.policy.maxRetries, base, exec, [], base, c0, t0);
    CourseSave(c, oracle, 0, runtime.policy.maxRetries, base, exec, [], base, c0, t0);
    StartAccounted(c, c0);
    run, batches, marks := [Saved(c0)], 0, [];
    assert [] + run == run;
    NothingYet(runtime.log, run, context.retryCount, runtime.policy.maxRetries);
    var calls := 0;
    while !IsComplete(plan.tasks)
      invariant RanCleanly(t0, plan.tasks)
      invariant context.plan == Some(plan.tasks)
      invariant Live(base, keep, exec, run, runtime.store, context.Now(), plan.tasks)
      invariant Logged(old(runtime.log), runtime.log, [Saved(c0)], run)
      invariant batches + |PendingSet(plan.tasks)| <= |PendingSet(t0)|
      invariant Paid([Saved(c0)], run, c0.retryCount, context.retryCount,
                     |PendingSet(t0)| - |PendingSet(plan.tasks)|, runtime.policy.maxRetries)
      invariant !Terminal(context.status) || (plan.tasks == t0 && context.status == c0.status)
      invariant OnCourse(c, oracle, calls, runtime.policy.maxRetries, base, exec, run, runtime.store, context.Now(),
                         plan.tasks)
      invariant Accounted(run, c, marks, false) && (marks == [] ==> plan.tasks == t0)
      invariant IsComplete(t0) ==> plan.tasks == t0 && run == [Saved(c0)] && context.status == c0.status
      decreases |PendingSet(plan.tasks)|
    {
      var stuck, batchFailed;
      ghost var before, log, retries, t := run, runtime.log, context.retryCount, plan.tasks;
      stuck, batchFailed, calls, run, marks :=
        Round(runtime, plan, context, oracle, calls, base, keep, run, order, c, marks);
      LoggedTwice(old(runtime.log), log, runtime.log, [Saved(c0)], before, run);
      PaidTwice([Saved(c0)], before, run, c0.retryCount, retries, context.retryCount,
                |PendingSet(t0)| - |PendingSet(t)|, |PendingSet(t)| - |PendingSet(plan.tasks)|,
                  runtime.policy.maxRetries);
      PaidWithin(c0, run, context.retryCount, |PendingSet(t0)| - |PendingSet(plan.tasks)|, runtime.policy.maxRetries);
      CourseCalm(c, oracle, calls, runtime.policy.maxRetries, base, exec, run, runtime.store, context.Now(),
          plan.tasks);
      if stuck {
        outcome := if HasFailed(plan.tasks) then PlanHasFailed else PlanBlocked;
        Meaning(t0, plan.tasks, c0.status, context.status, outcome);
        return;
      }
      batches := batches + 1;
      if batchFailed {
        Meaning(t0, plan.tasks, c0.status, context.status, Halted);
        return Halted, run, batches, marks;
      }
    }
    PaidWithin(c0, run, context.retryCount, |PendingSet(t0)| - |PendingSet(plan.tasks)|, runtime.policy.maxRetries);
    CourseCalm(c, oracle, calls, runtime.policy.maxRetries, base, exec, run, runtime.store, context.Now(), plan.tasks);
    ghost var log, before := runtime.log, run;
    var completed;
    completed, run := WrapUp(runtime, plan, context, oracle, base, keep, run, c, marks);
    LoggedTwice(old(runtime.log), log, runtime.log, [Saved(c0)], before, run);
    outcome := if completed then Finished else CompletionRefused;
    Meaning(t0, plan.tasks, c0.status, context.status, outcome);
  }

  lemma PaidWithin(s: Snapshot, run: seq<Event>, retries: nat, extra: int, limit: nat)
    requires Paid([Saved(s)], run, s.retryCount, retries, extra, limit)
    ensures Invocations(run) <= extra + Excess(limit, s.retryCount)
  {
    assert [Saved(s)][..0] == [];
    assert Invocations([Saved(s)]) == 0;
  }

  /** `complete` on a plan that is complete, and its checkpoint. */
  method WrapUp(runtime: ExecutionRuntime, plan: ExecutionPlan, context: ExecutionContext, ghost oracle: Oracle,
                ghost base: Store, ghost keep: set<string>, ghost run: seq<Event>, ghost c: Course,
                ghost marks: seq<Mark>)
    returns (completed: bool, ghost run': seq<Event>)
    requires Live(base, keep, context.executionId, run, runtime.store, context.Now(), plan.tasks)
    requires context.plan == Some(plan.tasks) && IsComplete(plan.tasks) && RanCleanly(c.t0, plan.tasks)
    requires Accounted(run, c, marks, false) && Traceable(oracle, run)
    requires (c.smooth ==> context.lastFailure == c.failure)
    modifies runtime`log, context`status
    ensures completed <==> !Terminal(old(context.status))
    ensures context.status == if completed then Completed else old(context.status)
    ensures run' == if completed then run + [Saved(context.Now())] else run
    ensures Logged(old(runtime.log), runtime.log, run, run') && Invocations(run') == Invocations(run)
    ensures Live(base, keep, context.executionId, run', runtime.store, context.Now(), plan.tasks)
    ensures Accounted(run', c, marks, false) && Traceable(oracle, run')
    ensures completed ==> LastSaved(run') == Some(context.Now())
  {
    hide Live, Invocations, LastSaved, Accounted, Traceable, IsComplete, RanCleanly, Steps;
    ghost var exec, last := context.executionId, context.Now();
    LiveIsQuiet(base, keep, exec, run, runtime.store, last, plan.tasks);
    run' := run;
    completed := runtime.Complete(context);
    if completed {
      LiveStatus(base, keep, exec, run, runtime.store, last, plan.tasks, Completed);
      CleanSteps(c.t0, plan.tasks);
      EndAccounted(run, c, marks, context.Now());
      LiveSave(base, keep, exec, run, runtime.store, context.Now(), plan.tasks);
      TraceableSave(oracle, run, context.Now());
      run' := run + [Saved(context.Now())];
    }
  }

  lemma LoggedAll(log: seq<Event>, log': seq<Event>, s: Snapshot, run: seq<Event>)
    requires Logged(log + [Saved(s)], log', [Saved(s)], run)
    ensures log' == log + run && run != [] && run[0] == Saved(s)
  {
    assert run == [Saved(s)] + run[1..];
  }

  ghost predicate Traceable(oracle: Oracle, run: seq<Event>) {
    exists calls: nat :: Sourced(oracle, run, calls)
  }

  lemma TraceableSave(oracle: Oracle, run: seq<Event>, s: Snapshot)
    requires Traceable(oracle, run)
    ensures Traceable(oracle, run + [Saved(s)])
  {
    var calls: nat :| Sourced(oracle, run, calls);
    SourcedSave(oracle, run, s, calls);
  }

  lemma CourseCalm(c: Course, oracle: Oracle, calls: nat, limit: nat, base: Store, exec: string, run: seq<Event>,
                   store: Store, s: Snapshot, t: Tasks)
    requires OnCourse(c, oracle, calls, limit, base, exec, run, store, s, t)
    ensures c.smooth ==> s.lastFailure == c.failure && !Terminal(s.status)
    ensures c.smooth || c.steady ==> AllSucceeded(store)
    ensures Traceable(oracle, run) && Fulfilled(base, exec, store, t)
  {
    hide Sourced, Fulfilled;
  }

  lemma CourseSave(c: Course, oracle: Oracle, calls: nat, limit: nat, base: Store, exec: string, run: seq<Event>,
                   store: Store, s: Snapshot, t: Tasks)
    requires OnCourse(c, oracle, calls, limit, base, exec, run, store, s, t)
    ensures OnCourse(c, oracle, calls, limit, base, exec, run + [Saved(s)], store, s, t)
  {
    hide Smooth, Steady, Sourced, Fulfilled;
    SourcedSave(oracle, run, s, calls);
  }

  lemma MarkingKeepsCourse(c: Course, oracle: Oracle, calls: nat, limit: nat, base: Store, exec: string,
                           run: seq<Event>, store: Store, s: Snapshot, t: Tasks, t1: Tasks, ready: seq<string>)
    requires OnCourse(c, oracle, calls, limit, base, exec, run, store, s, t)
    requires WellFormed(t) && ready == EligibleIn(t, t.order) && MarkedReady(t, t1, ready)
    ensures OnCourse(c, oracle, calls, limit, base, exec, run, store, s, t1)
  {
    hide Smooth, Steady, Sourced, InvocationId;
    EligibleInMembers(t, t.order);
    hide EligibleIn;
  }

  ghost predicate BearsWith(oracle: Oracle, retries: nat, limit: nat, hiccups: set<nat>) {
    Bearable(oracle, hiccups, 0) && RoomFor(hiccups, 0, retries, limit)
  }

  /** The course of a run that starts open and with nothing but successes in the store: smooth when every call succeeds,
      steady when every call succeeds except for transient failures that the retry limit has room for. */
  ghost function CourseOf(t0: Tasks, oracle: Oracle, store: Store, s: Snapshot, limit: nat): Course {
    var fair := AllSucceeded(store) && !Terminal(s.status);
    var bears := exists hiccups :: BearsWith(oracle, s.retryCount, limit, hiccups);
    Course(t0, Obliging(oracle) && fair, s.lastFailure, bears && fair,
           if bears then var hiccups :| BearsWith(oracle, s.retryCount, limit, hiccups); hiccups else {})
  }

  /** The run is admissible throughout and the store is what it left there. */
  ghost predicate Lawful(base: Store, exec: string, run: seq<Event>, store: Store) {
    Good(base, exec, run) && store == StoreAfter(base, run) && QuietStore(store)
  }

  ghost predicate Bounded(t0: Tasks, run: seq<Event>, batches: nat, limit: nat, retries: nat) {
    && batches <= |PendingSet(t0)| <= |t0.nodes|
    && Invocations(run) <= |PendingSet(t0)| + Excess(limit, retries)
  }

  /** Every checkpoint is accounted for, and some task was started unless none could be. */
  ghost predicate Accounting(t0: Tasks, c: Course, run: seq<Event>, marks: seq<Mark>, outcome: RunOutcome) {
    Accounted(run, c, marks, outcome.Halted?) && (marks == [] ==> IsComplete(t0) || NoneEligible(t0))
  }

  /** Every success that the run stored is recorded in the plan, with its output. */
  ghost predicate Recorded(exec: string, run: seq<Event>, t: Tasks) {
    forall id, r :: Cached(InvocationId(exec, id), r) in run && r.status == ResultSucceeded ==>
      HasStatus(t, id, Succeeded) && t.nodes[id].output == r.output
  }

  lemma CachedWasNew(base: Store, exec: string, run: seq<Event>, i: nat)
    requires Good(base, exec, run) && i < |run| && run[i].Cached?
    ensures run[i].key !in StoreAfter(base, run[..i])
  {
    hide Later, NewlyBacked, Runnable, StoreAfter;
    assert GoodEvent(base, exec, run[..i], run[i]);
  }

  lemma CachedIsStored(base: Store, exec: string, run: seq<Event>, key: string, r: Result)
    requires Good(base, exec, run) && Cached(key, r) in run
    ensures key !in base && key in StoreAfter(base, run) && StoreAfter(base, run)[key] == r
  {
    hide Good, GoodEvent;
    var i :| 0 <= i < |run| && run[i] == Cached(key, r);
    CachedWasNew(base, exec, run, i);
    assert run[..i + 1][..i] == run[..i] && run[..|run|] == run && run[..0] == [];
    assert StoreAfter(base, run[..i + 1])[key] == r && StoreAfter(base, []) == base;
    hide StoreAfter;
    StoreGrows(base, exec, run, 0, i);
    StoreGrows(base, exec, run, i + 1, |run|);
  }

  lemma FulfilledIsRecorded(base: Store, exec: string, run: seq<Event>, t: Tasks)
    requires Good(base, exec, run) && Fulfilled(base, exec, StoreAfter(base, run), t)
    ensures Recorded(exec, run, t)
  {
    hide Good, StoreAfter;
    forall id, r | Cached(InvocationId(exec, id), r) in run && r.status == ResultSucceeded
      ensures HasStatus(t, id, Succeeded) && t.nodes[id].output == r.output
    {
      CachedIsStored(base, exec, run, InvocationId(exec, id), r);
    }
  }

  /** What one call of `execute` did. It starts with context `s0` and store `base` on course `c`, and ends with context
      `s`, plan `t` and `store`: the log is admissible and bounded; it begins with the plan as given, unless nothing
      was saved at all; tasks READY at the start stay READY; every checkpoint is accounted for; a completed plan ends
      the log; every capability call comes from a runtime call that was let through, every success is the capability's
      own and is recorded in the plan; and when everything succeeds, or fails only transiently and within the retry
      limit, the run finishes exactly when the plan could be finished. */
  ghost predicate Report(
    c: Course, oracle: Oracle, s0: Snapshot, base: Store, exec: string, run: seq<Event>, marks: seq<Mark>, batches: nat,
    outcome: RunOutcome, t: Tasks, s: Snapshot, store: Store, limit: nat)
  {
    && RunMeans(c.t0, t, s0.status, s.status, outcome) && (run == [] <==> outcome.InvalidPlan? || outcome.NotSavable?)
    && (run != [] ==> run[0] == Saved(s0.(plan := Some(c.t0))) && Accounting(c.t0, c, run, marks, outcome))
    && Lawful(base, exec, run, store) && Bounded(c.t0, run, batches, limit, s0.retryCount)
    && KeptReady(ReadySet(c.t0), run) && Traceable(oracle, run) && Recorded(exec, run, t)
    && (outcome.Finished? ==> LastSaved(run) == Some(s) && s.plan == Some(t))
    && (IsComplete(c.t0) && Terminal(s0.status) ==> |run| <= 1)
    && ((c.smooth || c.steady) && run != [] ==>
          (outcome.Finished? <==> CanFinish(c.t0)) && !outcome.Halted? && AllSucceeded(store))
  }

  lemma NothingReported(
    c: Course, oracle: Oracle, s0: Snapshot, base: Store, exec: string, outcome: RunOutcome, s: Snapshot, limit: nat)
    requires (outcome.InvalidPlan? || outcome.NotSavable?) && s.status == s0.status && QuietStore(base)
    ensures Report(c, oracle, s0, base, exec, [], [], 0, outcome, c.t0, s, base, limit)
  {
    NothingHappened(base, exec, c.t0, s0.status);
    assert Sourced(oracle, [], 0);
  }

  /** From the first checkpoint of a validated plan on. */
  method Launch(
    runtime: ExecutionRuntime, plan: ExecutionPlan, context: ExecutionContext, oracle: Oracle,
    ghost order: seq<string>)
    returns (outcome: RunOutcome, ghost run: seq<Event>, ghost batches: nat, ghost marks: seq<Mark>)
    requires WellFormed(plan.tasks) && KnownDependencies(plan.tasks) && Topological(plan.tasks, order)
    requires Covers(plan.tasks, order)
    requires runtime.json || Serializable(context.Now())
    requires NoSelfRetry(oracle) && QuietStore(runtime.store)
    modifies runtime, plan, context
    ensures !outcome.InvalidPlan? && (outcome.NotSavable? <==> !Serializable(old(context.Now())))
    ensures runtime.log == old(runtime.log) + run && (runtime.json || Serializable(context.Now()))
    ensures Report(CourseOf(old(plan.tasks), oracle, old(runtime.store), old(context.Now()), runtime.policy.maxRetries),
                   oracle, old(context.Now()), old(runtime.store),
                   context.executionId, run, marks, batches, outcome, plan.tasks, context.Now(), runtime.store,
                   runtime.policy.maxRetries)
  {
    ghost var t0, s0, base, exec := plan.tasks, context.Now(), runtime.store, context.executionId;
    ghost var keep, c := ReadySet(plan.tasks), CourseOf(plan.tasks, oracle, runtime.store, context.Now(),
        runtime.policy.maxRetries);
    hide CourseOf, Accounted, NoneEligible, IsComplete, OnCourse, Fulfilled, Traceable, Recorded, Logged,
         Serializable, Terminal, ReadySet, NoSelfRetry, Live, RunMeans, Topological, Covers, WellFormed, QuietStore,
         KnownDependencies, Report;
    CourseBegins(t0, oracle, base, exec, s0, runtime.policy.maxRetries);
    SavableExactly(runtime.json, s0, t0);
    context.plan := Some(plan.tasks);
    var saved := runtime.Save(context);
    if !saved {
      NothingReported(c, oracle, s0, base, exec, NotSavable, context.Now(), runtime.policy.maxRetries);
      return NotSavable, [], 0, [];
    }
    outcome, run, batches, marks := Drive(runtime, plan, context, oracle, base, keep, order, c);
    LoggedAll(old(runtime.log), runtime.log, s0.(plan := Some(t0)), run);
    LiveIsGood(base, keep, exec, run, runtime.store, context.Now(), plan.tasks);
    FulfilledIsRecorded(base, exec, run, plan.tasks);
    DriveReported(c, oracle, s0, base, exec, run, marks, batches, outcome, plan.tasks, context.Now(), runtime.store,
                  runtime.policy.maxRetries);
  }

  lemma DriveReported(
    c: Course, oracle: Oracle, s0: Snapshot, base: Store, exec: string, run: seq<Event>, marks: seq<Mark>, batches: nat,
    outcome: RunOutcome, t: Tasks, s: Snapshot, store: Store, limit: nat)
    requires !outcome.InvalidPlan? && !outcome.NotSavable? && RunMeans(c.t0, t, s0.status, s.status, outcome)
    requires run != [] && run[0] == Saved(s0.(plan := Some(c.t0)))
    requires Good(base, exec, run) && store == StoreAfter(base, run) && QuietStore(store)
    requires KeptReady(ReadySet(c.t0), run)
    requires batches <= |PendingSet(c.t0)| && Invocations(run) <= |PendingSet(c.t0)| + Excess(limit, s0.retryCount)
    requires c.smooth || c.steady ==> !outcome.Halted? && AllSucceeded(store) && !Terminal(s0.status)
    requires Traceable(oracle, run) && Recorded(exec, run, t)
    requires outcome.Finished? ==> LastSaved(run) == Some(s) && s.plan == Some(t)
    requires IsComplete(c.t0) && Terminal(s0.status) ==> |run| <= 1
    requires Accounted(run, c, marks, outcome.Halted?) && (marks == [] ==> IsComplete(c.t0) || NoneEligible(c.t0))
    ensures Report(c, oracle, s0, base, exec, run, marks, batches, outcome, t, s, store, limit)
  {
    hide RunMeans, Good, StoreAfter, QuietStore, KeptReady, ReadySet, Invocations, Excess, AllSucceeded, LastSaved,
         IsComplete, Accounted, NoneEligible, CanFinish, PendingSet, Traceable, Recorded;
    NothingHappened(base, exec, c.t0, s0.status);
    if c.smooth || c.steady {
      FinishedExactlyWhenPossible(c.t0, t, s0.status, s.status, outcome);
    }
  }

  lemma SavableExactly(json: bool, s: Snapshot, t: Tasks)
    requires json || Serializable(s)
    ensures Serializable(s) <==> CanSave(json, s.(plan := Some(t)))
    ensures Serializable(s) <==> Serializable(s.(plan := Some(t)))
  {
  }

  lemma CourseBegins(t0: Tasks, oracle: Oracle, base: Store, exec: string, s: Snapshot, limit: nat)
    ensures
      var c := CourseOf(t0, oracle, base, s, limit);
      && OnCourse(c, oracle, 0, limit, base, exec, [], base, s.(plan := Some(t0)), t0) && c.t0 == t0
      && (c.smooth || c.steady ==> !Terminal(s.status)) && StillReady(ReadySet(t0), t0)
  {
    hide Bearable, RoomFor, AllSucceeded, Obliging;
  }

  /** `PlanOrchestrator.execute`. */
  method Execute(runtime: ExecutionRuntime, plan: ExecutionPlan, context: ExecutionContext, oracle: Oracle)
    returns (outcome: RunOutcome, ghost run: seq<Event>, ghost batches: nat, ghost marks: seq<Mark>)
    requires WellFormed(plan.tasks)
    requires runtime.json || Serializable(context.Now())
    requires NoSelfRetry(oracle) && QuietStore(runtime.store)
    modifies runtime, plan, context
    ensures outcome.InvalidPlan? <==> !Validated(old(plan.tasks))
    ensures outcome.NotSavable? <==> Validated(old(plan.tasks)) && !Serializable(old(context.Now()))
    ensures runtime.log == old(runtime.log) + run && (runtime.json || Serializable(context.Now()))
    ensures Report(CourseOf(old(plan.tasks), oracle, old(runtime.store), old(context.Now()), runtime.policy.maxRetries),
                   oracle, old(context.Now()), old(runtime.store),
                   context.executionId, run, marks, batches, outcome, plan.tasks, context.Now(), runtime.store,
                   runtime.policy.maxRetries)
  {
    ghost var c := CourseOf(plan.tasks, oracle, runtime.store, context.Now(), runtime.policy.maxRetries);
    hide Serializable, NoSelfRetry, Topological, Covers, WellFormed, QuietStore, Validated, KnownDependencies,
         Acyclic, Report;
    ghost var order;
    var error;
    error, order := Validate(plan.tasks);
    if error.Some? {
      outcome := InvalidPlan(error.value);
      NothingReported(c, oracle, context.Now(), runtime.store, context.executionId, outcome, context.Now(),
          runtime.policy.maxRetries);
      return outcome, [], 0, [];
    }
    outcome, run, batches, marks := Launch(runtime, plan, context, oracle, order);
  }

  lemma FinishedExactlyWhenPossible(
    t0: Tasks, t: Tasks, status0: ExecutionStatus, status: ExecutionStatus, outcome: RunOutcome)
    requires RunMeans(t0, t, status0, status, outcome) && !Terminal(status0)
    requires !outcome.InvalidPlan? && !outcome.NotSavable? && !outcome.Halted?
    ensures outcome.Finished? <==> CanFinish(t0)
  {
    hide CanFinish, Ran, RanCleanly;
  }

  lemma Meaning(t0: Tasks, t: Tasks, status0: ExecutionStatus, status: ExecutionStatus, outcome: RunOutcome)
    requires outcome.Halted? ==> Ran(t0, t) && FailedWhilePending(t0, t)
    requires outcome.PlanHasFailed? || outcome.PlanBlocked? ==>
               && RanCleanly(t0, t) && !IsComplete(t) && !CanFinish(t0) && NoneEligible(t)
               && (outcome.PlanHasFailed? <==> HasFailed(t))
    requires outcome.Finished? ==> RanCleanly(t0, t) && IsComplete(t) && status == Completed
    requires outcome.CompletionRefused? ==> t == t0 && IsComplete(t) && Terminal(status0) && status == status0
    requires !outcome.InvalidPlan? && !outcome.NotSavable?
    ensures RunMeans(t0, t, status0, status, outcome)
  {
    if HasFailed(t) {
      var id :| id in t.nodes && t.nodes[id].status == Failed;
      assert HasStatus(t, id, Failed);
    }
    if outcome.Finished? {
      CompleteMeansCouldFinish(t0, t);
    }
  }

  lemma NothingHappened(base: Store, exec: string, t: Tasks, s: ExecutionStatus)
    ensures RanCleanly(t, t)
    ensures forall e :: RunMeans(t, t, s, s, InvalidPlan(e))
    ensures RunMeans(t, t, s, s, NotSavable)
    ensures Good(base, exec, []) && StoreAfter(base, []) == base && Invocations([]) == 0
    ensures |PendingSet(t)| <= |t.nodes| && forall limit, retries :: Bounded(t, [], 0, limit, retries)
  {
    SubsetSize(PendingSet(t), t.nodes.Keys);
  }

  lemma LiveIsGood(base: Store, keep: set<string>, exec: string, run: seq<Event>, store: Store, c: Snapshot, t: Tasks)
    requires Live(base, keep, exec, run, store, c, t)
    ensures Good(base, exec, run) && store == StoreAfter(base, run) && QuietStore(store) && Serializable(c)
    ensures KeptReady(keep, run)
  {
  }

  lemma MarkingKeepsLive(
    base: Store, keep: set<string>, exec: string, run: seq<Event>, store: Store, c: Snapshot, t: Tasks, t1: Tasks,
    ready: seq<string>)
    requires WellFormed(t) && Live(base, keep, exec, run, store, c, t)
    requires ready == EligibleIn(t, t.order) && MarkedReady(t, t1, ready)
    ensures Live(base, keep, exec, run, store, c, t1)
    ensures Startable(t1, ready, keep)
  {
    hide Live;
    LiveIsQuiet(base, keep, exec, run, store, c, t);
    MarkedTasks(t, t1, ready, keep);
    assert NewlyBacked(store, exec, t, t1);
    hide EligibleIn, MarkedReady, NewlyBacked, Advances, StillReady, Startable;
    LiveAdvance(base, keep, exec, run, store, c, t, t1);
  }

  lemma MarkedTasks(t: Tasks, t1: Tasks, ready: seq<string>, keep: set<string>)
    requires WellFormed(t) && ready == EligibleIn(t, t.order) && MarkedReady(t, t1, ready) && StillReady(keep, t)
    ensures Startable(t1, ready, keep)
    ensures Advances(t, t1) && StillReady(keep, t1) && forall id :: HasStatus(t1, id, Succeeded) ==>
              HasStatus(t, id, Succeeded)
  {
    EligibleInMembers(t, t.order);
    hide EligibleIn, Distinct;
    MarkedDependencies(t, t1, ready);
    MarkedAdvances(t, t1, ready, keep);
    hide Edge, Advances;
  }

  lemma MarkedDependencies(t: Tasks, t1: Tasks, ready: seq<string>)
    requires MarkedReady(t, t1, ready) && forall id :: id in ready ==> Eligible(t, id)
    ensures forall id, d :: id in ready && Edge(t1, id, d) ==> HasStatus(t1, d, Succeeded)
  {
    forall id, d | id in ready && Edge(t1, id, d) ensures HasStatus(t1, d, Succeeded) {
      assert Eligible(t, id) && d in t.nodes[id].dependencies && t.nodes[d].status == Succeeded;
      assert d !in ready;
    }
  }

  lemma MarkedAdvances(t: Tasks, t1: Tasks, ready: seq<string>, keep: set<string>)
    requires MarkedReady(t, t1, ready) && StillReady(keep, t) && forall id :: id in ready ==> Eligible(t, id)
    ensures Advances(t, t1) && StillReady(keep, t1)
  {
  }

  // ---------- Consequences ----------

  /** A run over tasks that are all PENDING or SUCCEEDED is never blocked: it ends complete, or with a failed task;
      and no task is left READY or RUNNING. */
  lemma PendingOrSucceededNeverBlocks(t0: Tasks, t: Tasks, s0: ExecutionStatus, s: ExecutionStatus, outcome: RunOutcome)
    requires forall id :: id in t0.nodes ==> t0.nodes[id].status in {Pending, Succeeded}
    requires RunMeans(t0, t, s0, s, outcome)
    ensures !outcome.PlanBlocked? && !outcome.PlanHasFailed?
    ensures outcome.Finished? ==> s == Completed && forall id :: id in t.nodes ==> t.nodes[id].status == Succeeded
    ensures outcome.Halted? ==> exists id :: HasStatus(t, id, Failed)
    ensures forall id :: id in t.nodes ==> t.nodes[id].status !in {Ready, Running}
  {
    assert CanFinish(t0);
    if outcome.Halted? {
      var id :| HasStatus(t0, id, Pending) && HasStatus(t, id, Failed);
    }
  }

  // ---------- Why capabilities must not write their own "retry" ----------

  /** The context and the store after `n` calls of one task, to each of which the world answers with `env`. */
  function AfterCalls(
    p: Policy, json: bool, key: string, c: Snapshot, store: Store, env: Env, n: nat): (Snapshot, Store) {
    if n == 0 then (c, store)
    else
      var (c', store') := AfterCalls(p, json, key, c, store, env, n - 1);
      var e := Expected(p, json, key, c', Lookup(store', key), env);
      (e.final, Stored(store', key, e.put))
  }

  /** After `n` calls, the next one sends the inner loop round again. */
  ghost predicate AsksAgain(p: Policy, json: bool, key: string, c: Snapshot, store: Store, env: Env, n: nat) {
    var (c', store') := AfterCalls(p, json, key, c, store, env, n);
    var e := Expected(p, json, key, c', Lookup(store', key), env);
    e.outcome.Returned? && WantsRetry(e.outcome.result)
  }

  lemma SelfRetryOnce(p: Policy, json: bool, key: string, c: Snapshot, store: Store, env: Env)
    requires Replies(json, c, None, env) && env.reply.result.invocationId == key && SelfRetry(env.reply.result)
    requires key in store ==> WantsRetry(store[key])
    ensures
      var e := Expected(p, json, key, c, Lookup(store, key), env);
      var store' := Stored(store, key, e.put);
      && e.outcome.Returned? && WantsRetry(e.outcome.result) && Replies(json, e.final, None, env)
      && e.final.retryCount == c.retryCount && (key in store' ==> WantsRetry(store'[key]))
  {
  }

  /** Such a result is either not kept, and the capability is called again, or (if CANCELLED) kept, and the loop
      turns on the cached copy; the retry counter never moves. */
  lemma {:induction false} SelfRetryNeverStops(
    p: Policy, json: bool, key: string, c: Snapshot, store: Store, env: Env, n: nat)
    requires Replies(json, c, None, env) && env.reply.result.invocationId == key && SelfRetry(env.reply.result)
    requires key in store ==> WantsRetry(store[key])
    ensures
      var (c', store') := AfterCalls(p, json, key, c, store, env, n);
      && Replies(json, c', None, env) && c'.retryCount == c.retryCount && (key in store' ==> WantsRetry(store'[key]))
    ensures AsksAgain(p, json, key, c, store, env, n)
  {
    hide Expected, Replies, SelfRetry, WantsRetry;
    if n > 0 {
      SelfRetryNeverStops(p, json, key, c, store, env, n - 1);
    }
    var (c', store') := AfterCalls(p, json, key, c, store, env, n);
    if n > 0 {
      var (d, kept) := AfterCalls(p, json, key, c, store, env, n - 1);
      SelfRetryOnce(p, json, key, d, kept, env);
    }
    SelfRetryOnce(p, json, key, c', store', env);
  }

  /** Otherwise each turn of the loop has moved the counter. */
  lemma {:induction false} TurnsAreCounted(
    p: Policy, json: bool, key: string, c: Snapshot, store: Store, env: Env, n: nat)
    requires env.reply.Returns? ==> !SelfRetry(env.reply.result)
    requires key in store ==> !WantsRetry(store[key])
    requires forall k :: 0 <= k < n ==> AsksAgain(p, json, key, c, store, env, k)
    ensures
      var (c', store') := AfterCalls(p, json, key, c, store, env, n);
      && c'.retryCount == c.retryCount + n && (n > 0 ==> c'.retryCount <= p.maxRetries)
      && (key in store' ==> !WantsRetry(store'[key]))
  {
    if n > 0 {
      hide Expected, WantsRetry, SelfRetry;
      TurnsAreCounted(p, json, key, c, store, env, n - 1);
      assert AsksAgain(p, json, key, c, store, env, n - 1);
      var (d, kept) := AfterCalls(p, json, key, c, store, env, n - 1);
      RetryCounts(p, json, key, d, Lookup(kept, key), env);
      KeptIsQuiet(p, json, key, d, Lookup(kept, key), env);
    }
  }

  lemma KeptIsQuiet(p: Policy, json: bool, key: string, c: Snapshot, cached: Option<Result>, env: Env)
    requires env.reply.Returns? ==> !SelfRetry(env.reply.result)
    ensures var e := Expected(p, json, key, c, cached, env); e.put.Some? ==> !WantsRetry(e.put.value)
  {
  }

  /** For an answer that reaches the loop, the inner loop turns for ever exactly when the capability wrote "retry"
      into a result that recovery does not overwrite. */
  lemma LoopIsEndlessExactlyOnSelfRetry(p: Policy, json: bool, key: string, c: Snapshot, store: Store, env: Env)
    requires Replies(json, c, None, env) && env.reply.result.invocationId == key && key !in store
    ensures (forall n: nat :: AsksAgain(p, json, key, c, store, env, n)) <==> SelfRetry(env.reply.result)
  {
    hide AsksAgain;
    if SelfRetry(env.reply.result) {
      forall n: nat ensures AsksAgain(p, json, key, c, store, env, n) {
        SelfRetryNeverStops(p, json, key, c, store, env, n);
      }
    } else if forall n: nat :: AsksAgain(p, json, key, c, store, env, n) {
      TurnsAreCounted(p, json, key, c, store, env, p.maxRetries + 1);
    }
  }
}
