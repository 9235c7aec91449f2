/** The runtime calls that `PlanOrchestrator.execute` (`ois/kernel/orchestrator.py`) makes for a task, given what the
    world outside answers: what each of them tells, where the events of a run come from, and what a task comes to. */
module TaskCalls {
  import opened Prelude
  import opened Planning
  import opened Runtime
  import opened RunLog
  import opened Checkpoints

  /** The world outside, per runtime call: the number of the call and the invocation id. */
  type Oracle = (nat, string) -> Env

  /** A capability that writes "retry" into a result which recovery will not overwrite. */
  predicate SelfRetry(r: Result) {
    WantsRetry(r) && !ReportsFailure(r)
  }

  ghost predicate NoSelfRetry(oracle: Oracle) {
    forall n, key :: oracle(n, key).reply.Returns? ==> !SelfRetry(oracle(n, key).reply.result)
  }

  ghost predicate QuietStore(store: Store) {
    forall k :: k in store ==> !WantsRetry(store[k])
  }

  predicate Succeeds(env: Env, key: string) {
    && env.registered && !env.cancelledAtStart && env.inputValid && env.authorized
    && !env.cancelledBeforeInvoke && !env.cancelledAfterInvoke && env.outputValid
    && env.reply.Returns? && env.reply.result.invocationId == key
    && env.reply.result.status == ResultSucceeded
  }

  /** Every invocation succeeds. */
  ghost predicate Obliging(oracle: Oracle) {
    forall n, key :: Succeeds(oracle(n, key), key)
  }

  ghost predicate AllSucceeded(store: Store) {
    forall k :: k in store ==> store[k].status == ResultSucceeded
  }

  /** A smooth course is one where everything has succeeded so far and will. */
  ghost predicate Smooth(c: Course, oracle: Oracle, store: Store, s: Snapshot) {
    c.smooth ==> Obliging(oracle) && AllSucceeded(store) && !Terminal(s.status) && s.lastFailure == c.failure
  }

  /** A transient failure, reported as such. */
  predicate Hiccup(env: Env, key: string) {
    && LetThrough(env) && env.reply.Returns? && !env.cancelledAfterInvoke && env.reply.result.invocationId == key
    && env.reply.result.status == ResultFailed && env.reply.result.error.Some?
    && env.reply.result.error.value.failureClass == Some(Transient)
  }

  /** From call number `calls` on, every call succeeds or is one of the hiccups. */
  ghost predicate Bearable(oracle: Oracle, hiccups: set<nat>, calls: nat) {
    forall n: nat, key :: n >= calls ==>
      Succeeds(oracle(n, key), key) || (n in hiccups && Hiccup(oracle(n, key), key))
  }

  /** The hiccups still to come. */
  ghost function Ahead(hiccups: set<nat>, calls: nat): set<nat> {
    set n | n in hiccups && n >= calls
  }

  ghost predicate RoomFor(hiccups: set<nat>, calls: nat, retries: nat, limit: nat) {
    Ahead(hiccups, calls) == {} || |Ahead(hiccups, calls)| + retries <= limit
  }

  /** On a steady course, what is to come is bearable and the retry limit has room for it. */
  ghost predicate Steady(c: Course, oracle: Oracle, calls: nat, limit: nat, store: Store, s: Snapshot) {
    c.steady ==>
      && Bearable(oracle, c.hiccups, calls) && RoomFor(c.hiccups, calls, s.retryCount, limit)
      && AllSucceeded(store) && !Terminal(s.status)
  }

  function Lookup(store: Store, key: string): Option<Result> {
    if key in store then Some(store[key]) else None
  }

  lemma SubsetSize<T>(a: set<T>, b: set<T>)
    requires a <= b
    ensures |a| <= |b|
  {
    assert b == a + (b - a);
  }

  // ---------- Where events come from ----------

  /** Every capability call and every stored result of the run comes from a runtime call of its own, in order and
      numbered below `calls`, that was let through; and what was stored is what the capability answered. */
  ghost predicate Sourced(oracle: Oracle, run: seq<Event>, calls: nat)
    decreases |run|
  {
    if run == [] then true
    else
      var rest := run[..|run| - 1];
      match run[|run| - 1]
      case Saved(_) => Sourced(oracle, rest, calls)
      case Invoked(key) => exists n: nat :: n < calls && LetThrough(oracle(n, key)) && Sourced(oracle, rest, n)
      case Cached(key, r) =>
        && rest != [] && rest[|rest| - 1] == Invoked(key)
        && exists n: nat ::
             && n < calls && LetThrough(oracle(n, key)) && Kept(oracle(n, key), key, r)
             && Sourced(oracle, rest[..|rest| - 1], n)
  }

  lemma {:induction false} SourcedLater(oracle: Oracle, run: seq<Event>, calls: nat, calls': nat)
    requires Sourced(oracle, run, calls) && calls <= calls'
    ensures Sourced(oracle, run, calls')
    decreases |run|
  {
    if run != [] && run[|run| - 1].Saved? {
      SourcedLater(oracle, run[..|run| - 1], calls, calls');
    }
  }

  lemma {:induction false} SourcedSaves(oracle: Oracle, run: seq<Event>, more: seq<Event>, calls: nat)
    requires Sourced(oracle, run, calls) && forall i :: 0 <= i < |more| ==> more[i].Saved?
    ensures Sourced(oracle, run + more, calls)
  {
    if more == [] {
      assert run + more == run;
    } else {
      SourcedSaves(oracle, run, more[..|more| - 1], calls);
      assert (run + more)[..|run + more| - 1] == run + more[..|more| - 1];
    }
  }

  lemma SourcedInvoked(oracle: Oracle, run: seq<Event>, key: string, calls: nat)
    requires Sourced(oracle, run, calls) && LetThrough(oracle(calls, key))
    ensures Sourced(oracle, run + [Invoked(key)], calls + 1)
    ensures forall r :: Kept(oracle(calls, key), key, r) ==>
              Sourced(oracle, run + [Invoked(key)] + [Cached(key, r)], calls + 1)
  {
    hide LetThrough, Kept;
    Prefixes(run, Invoked(key));
    forall r | Kept(oracle(calls, key), key, r)
      ensures Sourced(oracle, run + [Invoked(key)] + [Cached(key, r)], calls + 1)
    {
      Prefixes(run + [Invoked(key)], Cached(key, r));
    }
  }

  /** One runtime call, number `calls`, whose answer is the oracle's. */
  lemma SourcedCall(oracle: Oracle, run: seq<Event>, calls: nat, p: Policy, json: bool, key: string, c: Snapshot,
                    cached: Option<Result>)
    requires Sourced(oracle, run, calls)
    ensures Sourced(oracle, run + Expected(p, json, key, c, cached, oracle(calls, key)).events, calls + 1)
  {
    var env := oracle(calls, key);
    InvokesExactly(p, json, key, c, cached, env);
    PutsExactly(p, json, key, c, cached, env);
    var e := Expected(p, json, key, c, cached, env);
    hide Expected, Sourced, LetThrough, Kept;
    if Calls(json, c, cached, env) {
      SourcedSaves(oracle, run, e.events[..1], calls);
      SourcedInvoked(oracle, run + e.events[..1], key, calls);
      var called := run + e.events[..1] + [Invoked(key)];
      if e.put.Some? {
        var kept := called + [Cached(key, e.put.value)];
        SourcedSaves(oracle, kept, e.events[3..], calls + 1);
        assert run + e.events == kept + e.events[3..];
      } else {
        SourcedSaves(oracle, called, e.events[2..], calls + 1);
        assert run + e.events == called + e.events[2..];
      }
    } else {
      SourcedSaves(oracle, run, e.events, calls);
      SourcedLater(oracle, run + e.events, calls, calls + 1);
    }
  }

  /** A capability whose calls are never let through (not registered, cancelled, invalid or not authorised) is never
      called. */
  lemma {:induction false} NeverLetThroughNeverInvoked(oracle: Oracle, run: seq<Event>, calls: nat, key: string)
    requires Sourced(oracle, run, calls) && forall n: nat :: n < calls ==> !LetThrough(oracle(n, key))
    ensures Invoked(key) !in run
    decreases |run|
  {
    if run != [] {
      var rest := run[..|run| - 1];
      assert run == rest + [run[|run| - 1]];
      match run[|run| - 1]
      case Saved(_) => NeverLetThroughNeverInvoked(oracle, rest, calls, key);
      case Invoked(k) =>
        var n: nat :| n < calls && LetThrough(oracle(n, k)) && Sourced(oracle, rest, n);
        NeverLetThroughNeverInvoked(oracle, rest, n, key);
      case Cached(k, r) =>
        var n: nat :| n < calls && LetThrough(oracle(n, k)) && Sourced(oracle, rest[..|rest| - 1], n);
        NeverLetThroughNeverInvoked(oracle, rest[..|rest| - 1], n, key);
        assert rest == rest[..|rest| - 1] + [Invoked(k)];
    }
  }

  /** Every result that the run stored is one that the capability gave for that very invocation. */
  lemma {:induction false} StoredWasAnswered(oracle: Oracle, run: seq<Event>, calls: nat, key: string, r: Result)
    returns (n: nat)
    requires Sourced(oracle, run, calls) && Cached(key, r) in run
    ensures n < calls && LetThrough(oracle(n, key)) && Kept(oracle(n, key), key, r)
    decreases |run|
  {
    var rest := run[..|run| - 1];
    assert run == rest + [run[|run| - 1]];
    if run[|run| - 1] == Cached(key, r) {
      n :| n < calls && LetThrough(oracle(n, key)) && Kept(oracle(n, key), key, r);
    } else {
      match run[|run| - 1]
      case Saved(_) => n := StoredWasAnswered(oracle, rest, calls, key, r);
      case Invoked(k) =>
        var m: nat :| m < calls && Sourced(oracle, rest, m);
        n := StoredWasAnswered(oracle, rest, m, key, r);
      case Cached(k, x) =>
        var m: nat :| m < calls && Sourced(oracle, rest[..|rest| - 1], m);
        assert rest == rest[..|rest| - 1] + [Invoked(k)];
        n := StoredWasAnswered(oracle, rest[..|rest| - 1], m, key, r);
    }
  }

  // ---------- What one task comes to ----------

  predicate Success(o: Outcome) {
    o.Returned? && o.result.status == ResultSucceeded
  }

  predicate AsksRetry(o: Outcome) {
    o.Returned? && WantsRetry(o.result)
  }

  /** A call for a task succeeds on a stored success if it is admitted, and otherwise if the capability succeeds. */
  predicate TaskWins(status: ExecutionStatus, store: Store, key: string, env: Env) {
    && !Terminal(status)
    && if key in store then Admitted(env) && store[key].status == ResultSucceeded else Succeeds(env, key)
  }

  /** What one runtime call of a task tells: success exactly when the task wins, a retry exactly on a hiccup within the
      limit, and nothing new in the store but what it returns. */
  ghost predicate OneCall(
    limit: nat, key: string, c: Snapshot, store: Store, env: Env, o: Outcome, c': Snapshot, store': Store) {
    && (Success(o) <==> TaskWins(c.status, store, key, env))
    && (Success(o) ==>
          c'.retryCount == c.retryCount && o.result == if key in store then store[key] else env.reply.result)
    && (AsksRetry(o) <==> !Terminal(c.status) && key !in store && Hiccup(env, key) && c.retryCount < limit)
    && (AsksRetry(o) ==> !Terminal(c'.status) && store' == store && c'.retryCount == c.retryCount + 1)
    && (store' == store || (key !in store && o.Returned? && store' == store[key := o.result]))
  }

  lemma CallTells(p: Policy, json: bool, key: string, c: Snapshot, store: Store, env: Env)
    requires Serializable(c) && QuietStore(store) && (env.reply.Returns? ==> !SelfRetry(env.reply.result))
    ensures
      var e := Expected(p, json, key, c, Lookup(store, key), env);
      OneCall(p.maxRetries, key, c, store, env, e.outcome, e.final, Stored(store, key, e.put))
  {
    SucceedsExactly(p, json, key, c, Lookup(store, key), env);
    PutsExactly(p, json, key, c, Lookup(store, key), env);
    RetriesExactly(p, json, key, c, Lookup(store, key), env);
    SuccessKeepsCount(p, json, key, c, Lookup(store, key), env);
    hide Expected, WantsRetry, SelfRetry;
  }

  lemma RetriesExactly(p: Policy, json: bool, key: string, c: Snapshot, cached: Option<Result>, env: Env)
    requires Serializable(c) && (env.reply.Returns? ==> !SelfRetry(env.reply.result))
    requires cached.Some? ==> !WantsRetry(cached.value)
    ensures
      var e := Expected(p, json, key, c, cached, env);
      && (AsksRetry(e.outcome) <==>
            !Terminal(c.status) && cached.None? && Hiccup(env, key) && c.retryCount < p.maxRetries)
      && (AsksRetry(e.outcome) ==>
            !Terminal(e.final.status) && e.put.None? && e.final.retryCount == c.retryCount + 1)
  {
  }

  lemma SuccessKeepsCount(p: Policy, json: bool, key: string, c: Snapshot, cached: Option<Result>, env: Env)
    ensures
      var e := Expected(p, json, key, c, cached, env);
      Success(e.outcome) ==> e.final.retryCount == c.retryCount
  {
  }

  /** A task that began with `status`, `retries` and `store` has made the calls numbered `from` to before `to`, of which
      the last came out as `o`: all but the last were hiccups that the limit had room for. */
  ghost predicate Tried(
    oracle: Oracle, key: string, from: nat, to: nat, status: ExecutionStatus, retries: nat, store: Store, limit: nat,
    o: Outcome, c: Snapshot, store': Store)
  {
    && from < to && (forall n :: from <= n < to - 1 ==> Hiccup(oracle(n, key), key))
    && (from < to - 1 ==> !Terminal(status) && key !in store && retries + (to - 1 - from) <= limit)
    && (AsksRetry(o) <==>
          && !Terminal(status) && key !in store && Hiccup(oracle(to - 1, key), key)
          && retries + (to - 1 - from) < limit)
    && (AsksRetry(o) ==> !Terminal(c.status) && store' == store && c.retryCount == retries + (to - from))
    && (Success(o) <==> TaskWins(status, store, key, oracle(to - 1, key)))
    && (Success(o) ==>
          && c.retryCount == retries + (to - 1 - from)
          && o.result == if key in store then store[key] else oracle(to - 1, key).reply.result)
    && (store' == store || (key !in store && o.Returned? && store' == store[key := o.result]))
  }

  lemma TriedOnce(oracle: Oracle, key: string, n: nat, c: Snapshot, store: Store, limit: nat, o: Outcome, c': Snapshot,
                  store': Store)
    requires OneCall(limit, key, c, store, oracle(n, key), o, c', store')
    ensures Tried(oracle, key, n, n + 1, c.status, c.retryCount, store, limit, o, c', store')
  {
    hide AsksRetry, Success, Hiccup, TaskWins;
  }

  lemma TriedAgain(
    oracle: Oracle, key: string, from: nat, to: nat, status: ExecutionStatus, retries: nat, store: Store, limit: nat,
    o: Outcome, c: Snapshot, store': Store, o': Outcome, c': Snapshot, store'': Store)
    requires Tried(oracle, key, from, to, status, retries, store, limit, o, c, store') && AsksRetry(o)
    requires OneCall(limit, key, c, store', oracle(to, key), o', c', store'')
    ensures Tried(oracle, key, from, to + 1, status, retries, store, limit, o', c', store'')
  {
    hide AsksRetry, Success, Hiccup, Succeeds;
  }

  /** What a task came to: it was called again exactly after hiccups that the retry limit had room for, and it failed
      exactly when its last call did not win. */
  ghost predicate Verdict(
    oracle: Oracle, key: string, from: nat, to: nat, status: ExecutionStatus, retries: nat, store: Store, limit: nat,
    failed: bool, output: string)
  {
    && from < to && (forall n :: from <= n < to - 1 ==> Hiccup(oracle(n, key), key))
    && (from < to - 1 ==> !Terminal(status) && key !in store && retries + (to - 1 - from) <= limit)
    && !(!Terminal(status) && key !in store && Hiccup(oracle(to - 1, key), key) && retries + (to - 1 - from) < limit)
    && (failed <==> !TaskWins(status, store, key, oracle(to - 1, key)))
    && (!failed ==> output == if key in store then store[key].output else oracle(to - 1, key).reply.result.output)
  }

  /** In particular transient failures within the limit, followed by a success, end in success, with the output of that
      call and after exactly that many retries. */
  lemma TransientThenSuccess(
    oracle: Oracle, key: string, from: nat, to: nat, status: ExecutionStatus, retries: nat, store: Store, limit: nat,
    failed: bool, output: string, k: nat)
    requires Verdict(oracle, key, from, to, status, retries, store, limit, failed, output)
    requires !Terminal(status) && key !in store && retries + k <= limit
    requires (forall n :: from <= n < from + k ==> Hiccup(oracle(n, key), key)) && Succeeds(oracle(from + k, key), key)
    ensures !failed && to == from + k + 1 && output == oracle(from + k, key).reply.result.output
  {
    assert !Hiccup(oracle(from + k, key), key);
    hide Hiccup, Succeeds;
    assert to - 1 == from + k;
  }

  // ---------- On a steady course ----------

  lemma {:induction false} HiccupsPass(hiccups: set<nat>, from: nat, to: nat)
    requires from <= to && forall n :: from <= n < to ==> n in hiccups
    ensures |Ahead(hiccups, from)| == |Ahead(hiccups, to)| + (to - from)
  {
    if from < to {
      HiccupsPass(hiccups, from, to - 1);
      assert Ahead(hiccups, to - 1) == Ahead(hiccups, to) + {to - 1};
    }
  }

  lemma AheadShrinks(hiccups: set<nat>, n: nat)
    ensures Ahead(hiccups, n + 1) <= Ahead(hiccups, n) && |Ahead(hiccups, n + 1)| <= |Ahead(hiccups, n)|
  {
    SubsetSize(Ahead(hiccups, n + 1), Ahead(hiccups, n));
  }

  lemma SuccessIsNoHiccup(env: Env, key: string)
    ensures !(Succeeds(env, key) && Hiccup(env, key))
  {
  }

  /** On a steady course a task wins. */
  lemma SteadyWins(
    c: Course, oracle: Oracle, key: string, from: nat, to: nat, s: Snapshot, store: Store, limit: nat,
    o: Outcome, s': Snapshot, store': Store)
    requires Steady(c, oracle, from, limit, store, s) && !AsksRetry(o)
    requires Tried(oracle, key, from, to, s.status, s.retryCount, store, limit, o, s', store')
    requires Success(o) ==> !Terminal(s'.status)
    ensures c.steady ==> Success(o)
    ensures Steady(c, oracle, to, limit, store', s')
  {
    if c.steady {
      forall n | from <= n < to - 1 ensures n in c.hiccups {
        assert Hiccup(oracle(n, key), key);
        SuccessIsNoHiccup(oracle(n, key), key);
      }
      HiccupsPass(c.hiccups, from, to - 1);
      var last := oracle(to - 1, key);
      hide AsksRetry, Success, Ahead;
      if !Succeeds(last, key) {
        assert to - 1 in c.hiccups && Hiccup(last, key);
        HiccupsPass(c.hiccups, from, to);
        hide Hiccup;
        assert key in store && Success(o);
      } else {
        assert Admitted(last);
      }
      AheadShrinks(c.hiccups, to - 1);
    }
  }
}
