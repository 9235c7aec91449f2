/** What the durable log of one execution may contain. `Good` is closed under prefixes, so it speaks about a crash
    after any event; `CrashRecovery.Resume` continues from such a prefix. */
module RunLog {
  import opened Prelude
  import opened Planning
  import opened Runtime

  /** The stable invocation identity `execution_id:task_id`. */
  function InvocationId(executionId: string, taskId: string): string {
    executionId + ":" + taskId
  }

  lemma InvocationIdInjective(e: string, a: string, b: string)
    requires InvocationId(e, a) == InvocationId(e, b)
    ensures a == b
  {
    assert InvocationId(e, a)[|e| + 1..] == a;
    assert InvocationId(e, b)[|e| + 1..] == b;
  }

  function LastSaved(run: seq<Event>): Option<Snapshot> {
    if run == [] then None
    else if run[|run| - 1].Saved? then Some(run[|run| - 1].snapshot)
    else LastSaved(run[..|run| - 1])
  }

  function Invocations(run: seq<Event>): nat {
    if run == [] then 0
    else Invocations(run[..|run| - 1]) + (if run[|run| - 1].Invoked? then 1 else 0)
  }

  /** A later checkpoint of the same execution: settled tasks and a terminal status are kept. */
  ghost predicate Later(s: Snapshot, s': Snapshot) {
    && s.plan.Some? && s'.plan.Some? && Advances(s.plan.value, s'.plan.value)
    && s.retryCount <= s'.retryCount
    && (Terminal(s.status) ==> s'.status == s.status)
  }

  /** Every task that became SUCCEEDED has its output in the idempotency store. */
  ghost predicate NewlyBacked(store: Store, exec: string, t: Tasks, t': Tasks) {
    forall id :: HasStatus(t', id, Succeeded) && !HasStatus(t, id, Succeeded) ==>
      var key := InvocationId(exec, id);
      key in store && store[key].status == ResultSucceeded && store[key].output == t'.nodes[id].output
  }

  /** The condition of the orchestrator's inner loop. */
  predicate WantsRetry(r: Result) {
    r.status != ResultSucceeded && r.error.Some? && r.error.value.recoveryAction == Some(Retry)
  }

  ghost predicate Runnable(t: Tasks, id: string) {
    HasStatus(t, id, Running) && forall d :: Edge(t, id, d) ==> HasStatus(t, d, Succeeded)
  }

  ghost predicate GoodEvent(base: Store, exec: string, prefix: seq<Event>, e: Event) {
    var store := StoreAfter(base, prefix);
    var last := LastSaved(prefix);
    match e
    case Saved(s) =>
      && s.plan.Some? && Serializable(s)
      && (last.Some? ==> Later(last.value, s) && NewlyBacked(store, exec, last.value.plan.value, s.plan.value))
    case Invoked(key) =>
      && key !in store
      && last.Some? && last.value.plan.Some? && !Terminal(last.value.status)
      && exists id :: key == InvocationId(exec, id) && Runnable(last.value.plan.value, id)
    case Cached(key, r) =>
      && key !in store && r.status in {ResultSucceeded, ResultCancelled} && !WantsRetry(r)
      && prefix != [] && prefix[|prefix| - 1] == Invoked(key)
  }

  /** Every event was admissible when it happened. */
  ghost predicate Good(base: Store, exec: string, run: seq<Event>) {
    forall i :: 0 <= i < |run| ==> GoodEvent(base, exec, run[..i], run[i])
  }

  // ---------- Extending and cutting a run ----------

  lemma Extend(base: Store, exec: string, run: seq<Event>, e: Event)
    requires Good(base, exec, run) && GoodEvent(base, exec, run, e)
    ensures Good(base, exec, run + [e])
    ensures LastSaved(run + [e]) == if e.Saved? then Some(e.snapshot) else LastSaved(run)
    ensures Invocations(run + [e]) == Invocations(run) + if e.Invoked? then 1 else 0
    ensures StoreAfter(base, run + [e]) ==
            if e.Cached? && e.key !in StoreAfter(base, run) then StoreAfter(base, run)[e.key := e.result]
              else StoreAfter(base, run)
  {
    var r := run + [e];
    assert r[..|r| - 1] == run;
    forall i | 0 <= i < |r| ensures GoodEvent(base, exec, r[..i], r[i]) {
      if i < |run| {
        assert r[..i] == run[..i];
      }
    }
  }

  lemma CrashKeepsGood(base: Store, exec: string, run: seq<Event>, k: nat)
    requires Good(base, exec, run) && k <= |run|
    ensures Good(base, exec, run[..k])
  {
    forall i | 0 <= i < k ensures GoodEvent(base, exec, run[..k][..i], run[..k][i]) {
      assert run[..k][..i] == run[..i];
    }
  }

  lemma {:induction false} LastSavedConcat(a: seq<Event>, b: seq<Event>)
    ensures LastSaved(a + b) == if LastSaved(b).Some? then LastSaved(b) else LastSaved(a)
  {
    if b == [] {
      assert a + b == a;
    } else {
      assert (a + b)[..|a + b| - 1] == a + b[..|b| - 1];
      LastSavedConcat(a, b[..|b| - 1]);
    }
  }

  lemma {:induction false} FirstSavedStays(b: seq<Event>, k: nat)
    requires b != [] && b[0].Saved? && 0 < k <= |b|
    ensures LastSaved(b[..k]).Some?
  {
    assert b[..k][..k - 1] == b[..k - 1];
    if k > 1 {
      FirstSavedStays(b, k - 1);
    }
  }

  /** A resumed run, which starts with a checkpoint, continues the log it was resumed from. */
  lemma Glue(base: Store, exec: string, a: seq<Event>, b: seq<Event>)
    requires Good(base, exec, a) && Good(StoreAfter(base, a), exec, b)
    requires b != [] ==> b[0].Saved? && GoodEvent(base, exec, a, b[0])
    ensures Good(base, exec, a + b)
  {
    var r := a + b;
    forall i | 0 <= i < |r| ensures GoodEvent(base, exec, r[..i], r[i]) {
      if i < |a| {
        assert r[..i] == a[..i];
      } else if i == |a| {
        assert r[..i] == a;
      } else {
        var k := i - |a|;
        assert r[..i] == a + b[..k];
        StoreAfterConcat(base, a, b[..k]);
        LastSavedConcat(a, b[..k]);
        FirstSavedStays(b, k);
        assert GoodEvent(StoreAfter(base, a), exec, b[..k], b[k]);
      }
    }
  }

  // ---------- What a good log promises ----------

  lemma LaterTransitive(a: Snapshot, b: Snapshot, c: Snapshot)
    requires Later(a, b) && Later(b, c)
    ensures Later(a, c)
  {
  }

  lemma SavedIsLater(base: Store, exec: string, prefix: seq<Event>, s: Snapshot)
    requires GoodEvent(base, exec, prefix, Saved(s)) && LastSaved(prefix).Some?
    ensures Later(LastSaved(prefix).value, s)
  {
    hide Later, NewlyBacked;
  }

  /** Checkpoints only move forward. */
  lemma {:induction false} SnapshotsAdvance(base: Store, exec: string, run: seq<Event>, i: nat, j: nat)
    requires Good(base, exec, run) && i < j <= |run| && run[i].Saved?
    ensures LastSaved(run[..j]).Some?
    ensures LastSaved(run[..j]).value == run[i].snapshot || Later(run[i].snapshot, LastSaved(run[..j]).value)
  {
    hide GoodEvent, Later;
    assert run[..j][..j - 1] == run[..j - 1];
    if i < j - 1 {
      SnapshotsAdvance(base, exec, run, i, j - 1);
      assert GoodEvent(base, exec, run[..j - 1], run[j - 1]);
      var last := LastSaved(run[..j - 1]).value;
      if run[j - 1].Saved? {
        SavedIsLater(base, exec, run[..j - 1], run[j - 1].snapshot);
        if last != run[i].snapshot {
          LaterTransitive(run[i].snapshot, last, run[j - 1].snapshot);
        }
      }
    }
  }

  /** Results in the store are never replaced and never disappear. */
  lemma {:induction false} StoreGrows(base: Store, exec: string, run: seq<Event>, i: nat, j: nat)
    requires i <= j <= |run|
    ensures forall k :: k in StoreAfter(base, run[..i]) ==>
              k in StoreAfter(base, run[..j]) && StoreAfter(base, run[..j])[k] == StoreAfter(base, run[..i])[k]
  {
    if i < j {
      StoreGrows(base, exec, run, i, j - 1);
      assert run[..j][..j - 1] == run[..j - 1];
    }
  }

  /** A task that some checkpoint records as SUCCEEDED is never invoked afterwards, whatever crashes and resumes lie
      between. */
  lemma SucceededNeverInvokedAgain(base: Store, exec: string, run: seq<Event>, i: nat, j: nat, id: string)
    requires Good(base, exec, run) && i < j < |run|
    requires run[i].Saved? && HasStatus(run[i].snapshot.plan.value, id, Succeeded)
    ensures run[j] != Invoked(InvocationId(exec, id))
  {
    SnapshotsAdvance(base, exec, run, i, j);
    if run[j] == Invoked(InvocationId(exec, id)) {
      assert GoodEvent(base, exec, run[..j], run[j]);
      var t := LastSaved(run[..j]).value.plan.value;
      var x :| InvocationId(exec, id) == InvocationId(exec, x) && Runnable(t, x);
      InvocationIdInjective(exec, id, x);
    }
  }

  /** Once the idempotency store holds a result, the capability is never called again and the result stays what it
      was. */
  lemma CachedNeverInvokedAgain(base: Store, exec: string, run: seq<Event>, i: nat, j: nat, key: string)
    requires Good(base, exec, run) && i <= j < |run| && key in StoreAfter(base, run[..i])
    ensures run[j] != Invoked(key) && !(run[j].Cached? && run[j].key == key)
    ensures key in StoreAfter(base, run) && StoreAfter(base, run)[key] == StoreAfter(base, run[..i])[key]
  {
    StoreGrows(base, exec, run, i, j);
    assert GoodEvent(base, exec, run[..j], run[j]);
    StoreGrows(base, exec, run, i, |run|);
    assert run[..|run|] == run;
  }

  /** After a terminal checkpoint no capability is called and the status stays. */
  lemma TerminalCheckpointIsFinal(base: Store, exec: string, run: seq<Event>, i: nat, j: nat)
    requires Good(base, exec, run) && i < j < |run| && run[i].Saved? && Terminal(run[i].snapshot.status)
    ensures !run[j].Invoked?
    ensures run[j].Saved? ==> run[j].snapshot.status == run[i].snapshot.status
  {
    SnapshotsAdvance(base, exec, run, i, j);
    assert GoodEvent(base, exec, run[..j], run[j]);
  }
}
