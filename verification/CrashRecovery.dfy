/** Resuming a plan from its checkpoint, and whole histories of runs cut short by crashes. */
module CrashRecovery {
  import opened Prelude
  import opened Planning
  import opened Runtime
  import opened RunLog
  import opened Checkpoints
  import opened TaskCalls
  import opened Orchestrator

  /** The plan after `_normalize_interrupted_tasks`. */
  function Normalized(t: Tasks): Tasks {
    t.(nodes := map id | id in t.nodes ::
         if t.nodes[id].status == Running then t.nodes[id].(status := Pending) else t.nodes[id])
  }

  method NormalizeInterruptedTasks(plan: ExecutionPlan)
    requires WellFormed(plan.tasks)
    modifies plan
    ensures plan.tasks == Normalized(old(plan.tasks)) && WellFormed(plan.tasks)
  {
    ghost var t := plan.tasks;
    var i := 0;
    while i < |plan.tasks.order|
      invariant 0 <= i <= |t.order|
      invariant NormalizedUpTo(t, plan.tasks, i)
    {
      NormalizeOne(t, plan.tasks, i);
      var id := plan.tasks.order[i];
      if plan.tasks.nodes[id].status == Running {
        plan.tasks := SetStatus(plan.tasks, id, Pending);
      }
      i := i + 1;
    }
    assert t.order[..i] == t.order;
    assert plan.tasks.nodes == Normalized(t).nodes;
  }

  ghost predicate NormalizedUpTo(t: Tasks, t': Tasks, i: nat)
    requires i <= |t.order|
  {
    && t'.order == t.order && t'.nodes.Keys == t.nodes.Keys
    && forall id :: id in t.nodes ==>
         t'.nodes[id] == if id in t.order[..i] then Normalized(t).nodes[id] else t.nodes[id]
  }

  lemma NormalizeOne(t: Tasks, t': Tasks, i: nat)
    requires WellFormed(t) && i < |t.order| && NormalizedUpTo(t, t', i)
    ensures t.order[i] in t'.nodes
    ensures NormalizedUpTo(
              t, if t'.nodes[t.order[i]].status == Running then SetStatus(t', t.order[i], Pending) else t', i + 1)
  {
    assert t.order[..i + 1] == t.order[..i] + [t.order[i]];
    assert t.order[i] !in t.order[..i];
  }

  lemma NormalizedKeepsShape(t: Tasks)
    requires WellFormed(t)
    ensures WellFormed(Normalized(t)) && Advances(t, Normalized(t))
    ensures Validated(t) ==> Validated(Normalized(t))
    ensures ReadySet(t) == ReadySet(Normalized(t))
  {
    assert forall a, b :: Edge(Normalized(t), a, b) <==> Edge(t, a, b);
    if Validated(t) {
      forall w ensures !IsCycle(Normalized(t), w) {
        assert !IsCycle(t, w);
        if IsWalk(Normalized(t), w) {
          assert IsWalk(t, w);
        }
      }
    }
  }

  /** The condition on a checkpoint under which its resumption can complete. READY, FAILED and BLOCKED tasks rule it
      out, and so does interrupted or pending work behind a skipped task. */
  ghost predicate Resumable(t: Tasks) {
    && (forall id :: id in t.nodes ==> t.nodes[id].status in {Pending, Running, Succeeded, Skipped})
    && (forall id, d :: Edge(t, id, d) && t.nodes[id].status in {Pending, Running} ==> !HasStatus(t, d, Skipped))
  }

  lemma ResumableIsCanFinish(t: Tasks)
    ensures Resumable(t) <==> CanFinish(Normalized(t))
  {
    var n := Normalized(t);
    assert forall a, b :: Edge(n, a, b) <==> Edge(t, a, b);
    if CanFinish(n) {
      forall id | id in t.nodes ensures t.nodes[id].status in {Pending, Running, Succeeded, Skipped} {
        assert n.nodes[id].status in {Pending, Succeeded, Skipped};
      }
      forall id, d | Edge(t, id, d) && t.nodes[id].status in {Pending, Running} ensures !HasStatus(t, d, Skipped) {
        assert Edge(n, id, d) && HasStatus(n, id, Pending);
      }
    }
    if Resumable(t) {
      forall id, d | Edge(n, id, d) && HasStatus(n, id, Pending) ensures !HasStatus(n, d, Skipped) {
        assert Edge(t, id, d);
      }
    }
  }

  datatype ResumeOutcome = CheckpointNotFound | NoPlan | CorruptPlan(error: PlanError) | Resumed(outcome: RunOutcome)

  /** Plans with the same tasks, kept in another order: JSON storage sorts the keys. */
  ghost predicate Reordered(t: Tasks, order: seq<string>) {
    Distinct(order) && forall id :: id in order <==> id in t.nodes
  }

  /** The checkpoint a restart would load. */
  ghost predicate HasPlan(log: seq<Event>, t: Tasks) {
    LastSaved(log).Some? && LastSaved(log).value.plan == Some(t)
  }

  /** The first checkpoint of a resumed run is the loaded one with interrupted tasks reset, and tasks that were
      READY stay READY in every checkpoint of the run. */
  ghost predicate Continues(log: seq<Event>, order: seq<string>, run: seq<Event>) {
    && run != [] && LastSaved(log).Some? && LastSaved(log).value.plan.Some?
    && var s := LastSaved(log).value;
       && run[0] == Saved(s.(plan := Some(Normalized(s.plan.value).(order := order))))
       && KeptReady(ReadySet(s.plan.value), run)
  }

  lemma ReorderKeeps(t: Tasks, order: seq<string>)
    requires Reordered(t, order)
    ensures
      var t' := t.(order := order);
      && (WellFormed(t) ==> WellFormed(t')) && (Validated(t) <==> Validated(t'))
      && (Resumable(t) <==> Resumable(t')) && ReadySet(t) == ReadySet(t')
      && Normalized(t') == Normalized(t).(order := order)
  {
    var t' := t.(order := order);
    assert forall a, b :: Edge(t', a, b) <==> Edge(t, a, b);
    forall w ensures IsCycle(t, w) <==> IsCycle(t', w) {
      assert IsWalk(t, w) <==> IsWalk(t', w);
    }
    assert Acyclic(t) <==> Acyclic(t');
    assert Resumable(t) ==> Resumable(t');
    assert Resumable(t') ==> Resumable(t);
  }

  lemma FinishedMeans(t0: Tasks, t: Tasks, s0: ExecutionStatus, s: ExecutionStatus, outcome: RunOutcome)
    requires RunMeans(t0, t, s0, s, outcome)
    ensures outcome.Finished? ==> CanFinish(t0)
  {
  }

  // ---------- Which checkpoints are fatal ----------

  /** A crash that leaves this checkpoint ends every hope of completion exactly when the batch has later siblings
      still READY, or a task has failed. */
  lemma CrashIsFatalExactlyWithLaterSiblings(run: seq<Event>, c: Course, marks: seq<Mark>, failures: bool, k: nat)
    requires CanFinish(c.t0) && Marked(run, c, marks, failures) && k < |run| && run[k].Saved?
    ensures run[k].snapshot.plan.Some?
    ensures Resumable(run[k].snapshot.plan.value) <==> Waiting(marks, k) == {} && !HasFailed(run[k].snapshot.plan.value)
  {
    hide Waiting;
    assert Holds(run[k].snapshot, c, ReadySet(c.t0) + Waiting(marks, k), failures);
    assert ReadySet(c.t0) == {};
    hide Marked;
    StepsResumable(c.t0, run[k].snapshot.plan.value, failures);
  }

  lemma StepsResumable(t0: Tasks, p: Tasks, failures: bool)
    requires CanFinish(t0) && Steps(t0, p, failures)
    ensures Resumable(p) <==> ReadySet(p) == {} && !HasFailed(p)
  {
    forall id | id in p.nodes ensures p.nodes[id].status in {Pending, Ready, Running, Succeeded, Skipped, Failed} {
      assert p.nodes[id] == t0.nodes[id] || p.nodes[id] != t0.nodes[id];
    }
    forall id, d | Edge(p, id, d) && p.nodes[id].status in {Pending, Running} ensures !HasStatus(p, d, Skipped) {
      assert Edge(t0, id, d) && HasStatus(t0, id, Pending);
    }
    if ReadySet(p) == {} && !HasFailed(p) {
      forall id | id in p.nodes ensures p.nodes[id].status in {Pending, Running, Succeeded, Skipped} {
        assert id !in ReadySet(p);
      }
    }
    if id :| id in ReadySet(p) {
      assert p.nodes[id].status == Ready;
    }
  }

  /** Such checkpoints are written by every run whose first batch has two tasks. */
  lemma WideBatchesHaveFatalCheckpoints(
    t0: Tasks, c: Course, run: seq<Event>, marks: seq<Mark>, outcome: RunOutcome, a: string, b: string) returns (k: nat)
    requires Accounting(t0, c, run, marks, outcome) && c.t0 == t0 && CanFinish(t0)
    requires a != b && Eligible(t0, a) && Eligible(t0, b)
    ensures k < |run| && run[k].Saved? && run[k].snapshot.plan.Some? && !Resumable(run[k].snapshot.plan.value)
  {
    assert !IsComplete(t0);
    k := marks[0].at;
    assert StartsAt(run, marks[0]);
    FirstWaiting(marks, |run|);
    assert (a == marks[0].task || a in marks[0].later) && (b == marks[0].task || b in marks[0].later);
    CrashIsFatalExactlyWithLaterSiblings(run, c, marks, outcome.Halted?, k);
  }

  lemma {:induction false} FirstWaiting(marks: seq<Mark>, end: nat)
    requires MarksInOrder(marks, end) && marks != []
    ensures Waiting(marks, marks[0].at) == marks[0].later
  {
    if |marks| > 1 {
      FirstWaiting(marks[..|marks| - 1], end);
    }
  }

  // ---------- Resuming ----------

  ghost predicate Sound(t: Tasks) {
    && (forall id :: id in t.nodes ==> t.nodes[id].status in {Pending, Ready, Running, Succeeded, Skipped})
    && (forall id, d :: Edge(t, id, d) && t.nodes[id].status in {Pending, Ready, Running} ==> !HasStatus(t, d, Skipped))
  }

  /** A checkpoint of a history in which everything succeeds: nothing has failed or stands behind a skipped task, no
      failure is on record, and the execution is open until its plan is complete. */
  ghost predicate Undisturbed(s: Snapshot) {
    s.plan.Some? && Sound(s.plan.value) && Calm(s, None)
  }

  ghost predicate AllUndisturbed(run: seq<Event>) {
    forall k :: 0 <= k < |run| && run[k].Saved? ==> Undisturbed(run[k].snapshot)
  }

  lemma SoundResumable(t: Tasks)
    requires Sound(t)
    ensures Resumable(t) <==> ReadySet(t) == {}
    ensures Sound(Normalized(t)) && ReadySet(Normalized(t)) == ReadySet(t)
  {
    assert forall a, b :: Edge(Normalized(t), a, b) <==> Edge(t, a, b);
    if id :| id in t.nodes && t.nodes[id].status == Ready {
      assert id in ReadySet(t);
    } else {
      assert ReadySet(t) == {};
    }
  }

  lemma StepsSound(t0: Tasks, p: Tasks)
    requires Sound(t0) && Steps(t0, p, false)
    ensures Sound(p)
  {
    forall id, d | Edge(p, id, d) && p.nodes[id].status in {Pending, Ready, Running} ensures !HasStatus(p, d, Skipped) {
      assert Edge(t0, id, d) && t0.nodes[id].status in {Pending, Ready, Running};
    }
  }

  lemma MarkedUndisturbed(run: seq<Event>, c: Course, marks: seq<Mark>)
    requires Marked(run, c, marks, false) && c.smooth && c.failure == None && Sound(c.t0)
    ensures AllUndisturbed(run)
  {
    hide Waiting, Sound, Steps, ReadySet, StartsAt, MarksInOrder, Calm;
    forall k | 0 <= k < |run| && run[k].Saved? ensures Undisturbed(run[k].snapshot) {
      assert Holds(run[k].snapshot, c, ReadySet(c.t0) + Waiting(marks, k), false);
      StepsSound(c.t0, run[k].snapshot.plan.value);
    }
  }

  ghost predicate EndsComplete(run: seq<Event>) {
    LastSaved(run).Some? && LastSaved(run).value.plan.Some? && IsComplete(LastSaved(run).value.plan.value)
  }

  ghost predicate Named(t: Tasks) {
    forall id :: id in t.nodes ==> t.nodes[id].taskId == id
  }

  /** What a resume makes of an undisturbed checkpoint when everything succeeds. */
  ghost predicate SmoothlyResumed(log: seq<Event>, run: seq<Event>, store: Store) {
    forall t :: HasPlan(log, t) && Named(t) && Validated(t) && Undisturbed(LastSaved(log).value) ==>
      && run != [] && AllSucceeded(store) && AllUndisturbed(run)
      && (EndsComplete(run) <==> ReadySet(t) == {})
  }

  lemma NothingToResume(log: seq<Event>, run: seq<Event>, store: Store)
    requires forall t :: HasPlan(log, t) ==> !(Named(t) && Validated(t))
    ensures SmoothlyResumed(log, run, store)
  {
  }

  /** An open checkpoint: the run is smooth. */
  lemma OpenSmoothlyResumed(
    log: seq<Event>, s: Snapshot, t0: Tasks, t: Tasks, c: Course, run: seq<Event>, marks: seq<Mark>,
    outcome: RunOutcome, store: Store, last: Snapshot, status: ExecutionStatus)
    requires LastSaved(log) == Some(s) && s.plan.Some? && !Terminal(s.status) && run != [] && AllSucceeded(store)
    requires c.t0 == t0 && c.smooth && c.failure == s.lastFailure && !outcome.Halted?
    requires Accounting(t0, c, run, marks, outcome) && KeptReady(ReadySet(t0), run) && run[0].Saved?
    requires outcome.Finished? <==> CanFinish(t0)
    requires RunMeans(t0, t, s.status, status, outcome)
    requires outcome.Finished? ==> LastSaved(run) == Some(last) && last.plan == Some(t)
    requires ReadySet(t0) == ReadySet(s.plan.value)
    requires (Undisturbed(s) ==> Sound(t0) && (CanFinish(t0) <==> ReadySet(t0) == {}))
    ensures SmoothlyResumed(log, run, store)
  {
    if Undisturbed(s) {
      MarkedUndisturbed(run, c, marks);
      if !outcome.Finished? {
        NeverComplete(ReadySet(t0), run);
      }
    }
  }

  /** Tasks that stay READY keep every checkpoint incomplete. */
  lemma NeverComplete(keep: set<string>, run: seq<Event>)
    requires KeptReady(keep, run) && keep != {}
    ensures !EndsComplete(run)
  {
    if LastSaved(run).Some? && LastSaved(run).value.plan.Some? {
      var i := LastSavedIsAnEvent(run);
      var id :| id in keep;
      assert HasStatus(run[i].snapshot.plan.value, id, Ready);
    }
  }

  /** A completed checkpoint: nothing is left to do. */
  lemma ClosedSmoothlyResumed(log: seq<Event>, s: Snapshot, first: Snapshot, t: Tasks, run: seq<Event>, store: Store)
    requires LastSaved(log) == Some(s) && s.plan == Some(t) && AllSucceeded(store)
    requires run == [Saved(first)] && Terminal(s.status) && (Undisturbed(s) ==> Undisturbed(first))
    requires first.status == s.status
    ensures SmoothlyResumed(log, run, store)
  {
    if Undisturbed(s) {
      assert run[..0] == [] && LastSaved(run) == Some(first);
      assert IsComplete(t) && IsComplete(first.plan.value);
      assert ReadySet(t) == {};
    }
  }

  lemma EndOfResume(
    log: seq<Event>, s: Snapshot, order: seq<string>, s0: Snapshot, last: Snapshot, c: Course, t: Tasks,
    run: seq<Event>, marks: seq<Mark>, outcome: RunOutcome, base: Store, store: Store)
    requires LastSaved(log) == Some(s) && s.plan.Some? && Reordered(s.plan.value, order) && Serializable(s)
    requires s0 == s || (s0 == Restored(s) && s.lastFailure.Some?)
    requires c.t0 == Normalized(s.plan.value.(order := order)) && (c.smooth <==> !Terminal(s0.status))
    requires c.failure == s0.lastFailure
    requires outcome.NotSavable? <==> !Serializable(s0)
    requires run == [] <==> outcome.NotSavable?
    requires run != [] ==>
               && run[0] == Saved(s0.(plan := Some(c.t0))) && KeptReady(ReadySet(c.t0), run)
               && Accounting(c.t0, c, run, marks, outcome)
               && (c.smooth ==> (outcome.Finished? <==> CanFinish(c.t0)) && !outcome.Halted? && AllSucceeded(store))
    requires RunMeans(c.t0, t, s0.status, last.status, outcome)
    requires outcome.Finished? ==> LastSaved(run) == Some(last) && last.plan == Some(t)
    requires IsComplete(c.t0) && Terminal(s0.status) ==> |run| <= 1
    requires AllSucceeded(base) && store == StoreAfter(base, run)
    ensures SmoothlyResumed(log, run, store)
  {
    if Undisturbed(s) {
      ReadiedAlike(s.plan.value, order, c.t0);
      if Terminal(s.status) {
        assert run == [Saved(s0.(plan := Some(c.t0)))] && run[..0] == [];
        assert StoreAfter(base, run) == base;
        ClosedSmoothlyResumed(log, s, s0.(plan := Some(c.t0)), s.plan.value, run, store);
      } else {
        hide Accounting, RunMeans, KeptReady, ReadySet, CanFinish, AllSucceeded, SmoothlyResumed, LastSaved, Sound;
        OpenSmoothlyResumed(log, s, c.t0, t, c, run, marks, outcome, store, last, last.status);
      }
    }
  }

  lemma ReadiedAlike(t: Tasks, order: seq<string>, t0: Tasks)
    requires Sound(t) && Reordered(t, order) && t0 == Normalized(t.(order := order))
    ensures Sound(t0) && ReadySet(t0) == ReadySet(t) && (CanFinish(t0) <==> ReadySet(t0) == {})
    ensures IsComplete(t) ==> IsComplete(t0)
  {
    var d := t.(order := order);
    assert forall a, b :: Edge(d, a, b) <==> Edge(t, a, b);
    assert Sound(d);
    SoundResumable(d);
    ResumableIsCanFinish(d);
  }

  /** `PlanOrchestrator.resume` in a process that holds the durable log and the durable store. */
  method Resume(runtime: ExecutionRuntime, exec: string, order: seq<string>, oracle: Oracle)
    returns (outcome: ResumeOutcome, ghost run: seq<Event>)
    requires forall t :: HasPlan(runtime.log, t) ==> Reordered(t, order)
    requires LastSaved(runtime.log).Some? ==> Serializable(LastSaved(runtime.log).value)
    requires NoSelfRetry(oracle) && QuietStore(runtime.store)
    modifies runtime
    ensures runtime.log == old(runtime.log) + run
    ensures Good(old(runtime.store), exec, run)
    ensures runtime.store == StoreAfter(old(runtime.store), run) && QuietStore(runtime.store)
    ensures run != [] ==> Continues(old(runtime.log), order, run)
    ensures forall t :: HasPlan(old(runtime.log), t) && outcome == Resumed(Finished) ==> Resumable(t)
    ensures forall t :: HasPlan(old(runtime.log), t) && WellFormed(t) && Validated(t) ==>
              var s := LastSaved(old(runtime.log)).value;
              && (runtime.json && s.lastFailure.Some? ==> outcome == Resumed(NotSavable))
              && (!(runtime.json && s.lastFailure.Some?) && !Terminal(s.status)
                  && Obliging(oracle) && AllSucceeded(old(runtime.store)) ==>
                    (outcome == Resumed(Finished) <==> Resumable(t)))
    ensures Obliging(oracle) && AllSucceeded(old(runtime.store)) ==>
              SmoothlyResumed(old(runtime.log), run, runtime.store)
  {
    hide Good, Obliging, AllSucceeded, NoSelfRetry, QuietStore, RunMeans, PendingSet, Invocations, StoreAfter,
         LastSaved, Validated, WellFormed, Resumable, CanFinish, Normalized, KeptReady, ReadySet, SmoothlyResumed,
         Accounting, CourseOf, IsComplete, Named, Traceable, Recorded;
    run := [];
    NothingHappened(runtime.store, exec, Tasks([], map[]), Received);
    if LastSaved(runtime.log).None? {
      NothingToResume(runtime.log, run, runtime.store);
      return CheckpointNotFound, run;
    }
    var s := LastSaved(runtime.log).value;
    var context := new ExecutionContext(exec, if runtime.json then Restored(s) else s);
    if s.plan.None? {
      NothingToResume(runtime.log, run, runtime.store);
      return NoPlan, run;
    }
    assert HasPlan(runtime.log, s.plan.value);
    var dict := s.plan.value.(order := order);
    var error, plan := FromDict(dict);
    ReorderKeeps(s.plan.value, order);
    assert WellFormed(dict) <==> Named(s.plan.value) by { NamedIsWellFormed(s.plan.value, order); }
    if error.Some? {
      NothingToResume(runtime.log, run, runtime.store);
      return CorruptPlan(error.value), run;
    }
    NormalizeInterruptedTasks(plan);
    NormalizedKeepsShape(dict);
    ResumableIsCanFinish(dict);
    var result;
    ghost var batches, t0, marks, s0 := 0, plan.tasks, [], context.Now();
    result, run, batches, marks := Orchestrator.Execute(runtime, plan, context, oracle);
    CourseIs(t0, oracle, old(runtime.store), s0, runtime.policy.maxRetries);
    FinishedMeans(t0, plan.tasks, s0.status, context.status, result);
    if Obliging(oracle) && AllSucceeded(old(runtime.store)) {
      EndOfResume(old(runtime.log), s, order, s0, context.Now(),
                  CourseOf(t0, oracle, old(runtime.store), s0,
                      runtime.policy.maxRetries), plan.tasks, run, marks, result,
                  old(runtime.store), runtime.store);
    }
    outcome := Resumed(result);
  }

  lemma NamedIsWellFormed(t: Tasks, order: seq<string>)
    requires Reordered(t, order)
    ensures WellFormed(t.(order := order)) <==> Named(t)
  {
  }

  lemma CourseIs(t0: Tasks, oracle: Oracle, store: Store, s: Snapshot, limit: nat)
    ensures
      var c := CourseOf(t0, oracle, store, s, limit);
      && c.t0 == t0 && c.failure == s.lastFailure
      && (c.smooth <==> Obliging(oracle) && AllSucceeded(store) && !Terminal(s.status))
  {
  }

  // ---------- Whole histories ----------

  lemma {:induction false} QuietAfter(base: Store, exec: string, run: seq<Event>)
    requires Good(base, exec, run) && QuietStore(base)
    ensures QuietStore(StoreAfter(base, run))
  {
    if run != [] {
      CrashKeepsGood(base, exec, run, |run| - 1);
      QuietAfter(base, exec, run[..|run| - 1]);
      assert GoodEvent(base, exec, run[..|run| - 1], run[|run| - 1]);
    }
  }

  lemma {:induction false} LastSavedIsAnEvent(run: seq<Event>) returns (i: nat)
    requires LastSaved(run).Some?
    ensures i < |run| && run[i] == Saved(LastSaved(run).value)
  {
    if run[|run| - 1].Saved? {
      i := |run| - 1;
    } else {
      i := LastSavedIsAnEvent(run[..|run| - 1]);
    }
  }

  /** The checkpoint that a crash leaves behind belongs to the submitted plan. */
  lemma LoadedPlan(base: Store, exec: string, log: seq<Event>, t0: Tasks)
    requires Good(base, exec, log) && LastSaved(log).Some?
    requires log[0].Saved? && log[0].snapshot.plan == Some(t0)
    ensures LastSaved(log).value.plan.Some? && Serializable(LastSaved(log).value)
    ensures LastSaved(log).value.plan.value.nodes.Keys == t0.nodes.Keys
    ensures
      var t := LastSaved(log).value.plan.value;
      (Named(t0) ==> Named(t)) && (Validated(t0) ==> Validated(t))
  {
    hide Validated, Named;
    var i := LastSavedIsAnEvent(log);
    assert GoodEvent(base, exec, log[..i], log[i]);
    assert log[..|log|] == log;
    SnapshotsAdvance(base, exec, log, 0, |log|);
    AdvancesKeeps(t0, LastSaved(log).value.plan.value);
  }

  lemma AdvancesKeeps(t0: Tasks, t: Tasks)
    requires t == t0 || Advances(t0, t)
    ensures (Named(t0) ==> Named(t)) && (Validated(t0) ==> Validated(t))
  {
    assert forall a, b :: Edge(t, a, b) <==> Edge(t0, a, b);
    if Validated(t0) {
      forall w ensures !IsCycle(t, w) {
        assert !IsCycle(t0, w);
        if IsWalk(t, w) {
          assert IsWalk(t0, w);
        }
      }
    }
  }

  lemma ResumeGlues(base: Store, exec: string, a: seq<Event>, order: seq<string>, b: seq<Event>)
    requires Good(base, exec, a) && Good(StoreAfter(base, a), exec, b)
    requires b != [] ==> Continues(a, order, b) && Serializable(LastSaved(a).value)
    ensures Good(base, exec, a + b)
  {
    if b != [] {
      var t := LastSaved(a).value.plan.value;
      assert Advances(t, Normalized(t).(order := order));
      assert GoodEvent(base, exec, a, b[0]);
    }
    Glue(base, exec, a, b);
  }

  /** Tasks that were READY in the checkpoint resumed at position `s` are READY in every later checkpoint, so none
      of those checkpoints holds a complete plan. */
  ghost predicate Frozen(log: seq<Event>, s: nat)
    requires s <= |log|
  {
    LastSaved(log[..s]).Some? && LastSaved(log[..s]).value.plan.Some? ==>
      KeptReady(ReadySet(LastSaved(log[..s]).value.plan.value), log[s..])
  }

  lemma FrozenAfterCrash(log: seq<Event>, s: nat, k: nat)
    requires s <= k <= |log| && Frozen(log, s)
    ensures Frozen(log[..k], s)
  {
    assert log[..k][..s] == log[..s];
    assert forall i :: 0 <= i < k - s ==> log[..k][s..][i] == log[s..][i];
  }

  lemma FrozenAfterResume(a: seq<Event>, s: nat, order: seq<string>, b: seq<Event>)
    requires s <= |a| && (Frozen(a, s) || s == |a|)
    requires b != [] ==> Continues(a, order, b)
    ensures Frozen(a + b, s)
  {
    assert (a + b)[..s] == a[..s];
    assert (a + b)[s..] == a[s..] + b;
    assert a == a[..s] + a[s..];
    LastSavedConcat(a[..s], a[s..]);
    if LastSaved(a[..s]).Some? && LastSaved(a[..s]).value.plan.Some? && b != [] {
      var keep := ReadySet(LastSaved(a[..s]).value.plan.value);
      if LastSaved(a[s..]).Some? {
        var i := LastSavedIsAnEvent(a[s..]);
        assert StillReady(keep, LastSaved(a).value.plan.value);
      }
      assert keep <= ReadySet(LastSaved(a).value.plan.value);
    }
  }

  ghost predicate AllFrozen(log: seq<Event>, resumes: set<nat>) {
    forall s :: s in resumes ==> s <= |log| && Frozen(log, s)
  }

  lemma NoneFrozen(log: seq<Event>)
    ensures AllFrozen(log, {})
  {
  }

  lemma AllFrozenAfterCrash(log: seq<Event>, resumes: set<nat>, k: nat)
    requires AllFrozen(log, resumes) && k <= |log|
    ensures AllFrozen(log[..k], set s | s in resumes && s <= k)
  {
    hide Frozen;
    forall s | s in resumes && s <= k ensures Frozen(log[..k], s) {
      FrozenAfterCrash(log, s, k);
    }
  }

  lemma AllFrozenAfterResume(log: seq<Event>, resumes: set<nat>, order: seq<string>, run: seq<Event>)
    requires AllFrozen(log, resumes) && (run != [] ==> Continues(log, order, run))
    ensures AllFrozen(log + run, resumes + {|log|})
  {
    hide Frozen, Continues;
    forall s | s in resumes + {|log|} ensures s <= |log + run| && Frozen(log + run, s) {
      FrozenAfterResume(log, s, order, run);
    }
  }

  /** The resume at position `s` found a checkpoint, and no READY task in it. */
  ghost predicate Continuable(log: seq<Event>, s: nat) {
    && s <= |log| && LastSaved(log[..s]).Some? && LastSaved(log[..s]).value.plan.Some?
    && ReadySet(LastSaved(log[..s]).value.plan.value) == {}
  }

  /** Everything has succeeded so far, and the history is complete exactly if every resume found a checkpoint
      without READY tasks. */
  ghost predicate SmoothHistory(base: Store, log: seq<Event>, resumes: set<nat>) {
    && AllUndisturbed(log) && AllSucceeded(StoreAfter(base, log)) && (0 in resumes ==> log == [])
    && (EndsComplete(log) <==> forall s :: s in resumes ==> Continuable(log, s))
  }

  lemma ReadyPersists(log: seq<Event>, s: nat)
    requires s <= |log| && Frozen(log, s) && AllUndisturbed(log) && LastSaved(log[..s]).Some?
    ensures LastSaved(log).Some? && LastSaved(log[..s]).value.plan.Some? && LastSaved(log).value.plan.Some?
    ensures ReadySet(LastSaved(log).value.plan.value) == {} ==> Continuable(log, s)
  {
    var before, after := log[..s], log[s..];
    assert log == before + after;
    LastSavedConcat(before, after);
    var i := LastSavedIsAnEvent(before);
    assert log[i] == before[i];
    var keep := ReadySet(LastSaved(before).value.plan.value);
    if LastSaved(after).Some? {
      var j := LastSavedIsAnEvent(after);
      assert after[j] == log[s + j] && StillReady(keep, after[j].snapshot.plan.value);
      assert keep <= ReadySet(LastSaved(log).value.plan.value);
    }
  }

  lemma AllUndisturbedConcat(a: seq<Event>, b: seq<Event>)
    requires AllUndisturbed(a) && AllUndisturbed(b)
    ensures AllUndisturbed(a + b)
  {
    hide Undisturbed;
  }

  /** A crash after `k` events keeps what was undisturbed. */
  lemma SmoothCrash(base: Store, exec: string, log: seq<Event>, k: nat)
    requires AllUndisturbed(log) && AllSucceeded(StoreAfter(base, log)) && k <= |log|
    ensures AllUndisturbed(log[..k]) && AllSucceeded(StoreAfter(base, log[..k]))
  {
    hide Undisturbed;
    StoreGrows(base, exec, log, k, |log|);
    assert log[..|log|] == log;
  }

  /** A crash and the resume after it, in a history whose resumes are all frozen. */
  lemma SmoothRestart(
    base: Store, log: seq<Event>, resumes: set<nat>, run: seq<Event>, store: Store, t: Option<Tasks>)
    requires AllUndisturbed(log) && AllFrozen(log, resumes) && (0 in resumes ==> log == [])
    requires log != [] ==> log[0].Saved?
    requires store == StoreAfter(StoreAfter(base, log), run)
    requires t.None? ==> log == [] && run == [] && AllSucceeded(store)
    requires t.Some? ==>
               && HasPlan(log, t.value) && run != [] && AllSucceeded(store) && AllUndisturbed(run)
               && LastSaved(run).Some? && (EndsComplete(run) <==> ReadySet(t.value) == {})
    ensures SmoothHistory(base, log + run, resumes + {|log|})
  {
    var log', resumes' := log + run, resumes + {|log|};
    StoreAfterConcat(base, log, run);
    if t.None? {
      assert log' == [] && !Continuable(log', 0);
    } else {
      AllUndisturbedConcat(log, run);
      LastSavedConcat(log, run);
      assert log'[..|log|] == log && log != [];
      assert Continuable(log', |log|) <==> ReadySet(t.value) == {};
      if ReadySet(t.value) == {} {
        forall s | s in resumes ensures Continuable(log', s) {
          assert 0 < s <= |log|;
          FirstSavedStays(log, s);
          ReadyPersists(log, s);
          assert log'[..s] == log[..s];
        }
      }
    }
  }

  datatype Restart = Restart(crashAfter: nat, order: seq<string>, oracle: Oracle)

  /** The log of a history of `t0`: good, starting with the plan as submitted, with READY tasks frozen at every
      resume. */
  ghost predicate History(base: Store, exec: string, t0: Tasks, log: seq<Event>, resumes: set<nat>) {
    && Good(base, exec, log) && (log != [] ==> log[0].Saved? && log[0].snapshot.plan == Some(t0))
    && AllFrozen(log, resumes)
  }

  /** A crash after some number of durable events, and a resume in a fresh process. */
  method CrashAndResume(policy: Policy, json: bool, exec: string, base: Store, t0: Tasks, log: seq<Event>,
                        resumes: set<nat>,
                        restart: Restart)
    returns (log': seq<Event>, resumes': set<nat>)
    requires History(base, exec, t0, log, resumes) && QuietStore(base) && WellFormed(t0)
    requires NoSelfRetry(restart.oracle) && Reordered(t0, restart.order)
    ensures History(base, exec, t0, log', resumes')
    ensures Obliging(restart.oracle) && Validated(t0) && SmoothHistory(base, log, resumes) ==>
              SmoothHistory(base, log', resumes')
  {
    hide Good, NoSelfRetry, QuietStore, AllFrozen, StoreAfter, LastSaved, Validated, Resumable, Obliging, Normalized,
         WellFormed, SmoothHistory, SmoothlyResumed, AllUndisturbed, AllSucceeded;
    var k := if restart.crashAfter < |log| then restart.crashAfter else |log|;
    var cut, left := log[..k], (set s | s in resumes && s <= k);
    AllFrozenAfterCrash(log, resumes, k);
    CrashKeepsGood(base, exec, log, k);
    QuietAfter(base, exec, cut);
    var runtime := new ExecutionRuntime(policy, json, StoreAfter(base, cut));
    runtime.log := cut;
    NonemptyLog(cut);
    if cut != [] {
      FirstSavedStays(cut, |cut|);
      assert cut[..|cut|] == cut;
      LoadedPlan(base, exec, cut, t0);
    }
    var resumed;
    ghost var run;
    resumed, run := Resume(runtime, exec, restart.order, restart.oracle);
    ResumeGlues(base, exec, cut, restart.order, run);
    AllFrozenAfterResume(cut, left, restart.order, run);
    log', resumes' := runtime.log, left + {k};
    if Obliging(restart.oracle) && Validated(t0) && SmoothHistory(base, log, resumes) {
      NamedOf(t0);
      SmoothStep(base, exec, t0, log, resumes, k, cut, left, run, runtime.store);
    }
  }

  lemma NamedOf(t: Tasks)
    requires WellFormed(t)
    ensures Named(t)
  {
  }

  lemma SmoothStep(base: Store, exec: string, t0: Tasks, log: seq<Event>, resumes: set<nat>, k: nat, cut: seq<Event>,
                   left: set<nat>, run: seq<Event>, store: Store)
    requires SmoothHistory(base, log, resumes) && k <= |log| && cut == log[..k]
    requires left == (set s | s in resumes && s <= k)
    requires Good(base, exec, cut) && AllFrozen(cut, left) && Named(t0) && Validated(t0)
    requires cut != [] ==> cut[0].Saved? && cut[0].snapshot.plan == Some(t0)
    requires store == StoreAfter(StoreAfter(base, cut), run) && (cut == [] ==> run == [])
    requires AllSucceeded(StoreAfter(base, cut)) ==> SmoothlyResumed(cut, run, store)
    requires run != [] ==> run[0].Saved?
    ensures SmoothHistory(base, cut + run, left + {k})
  {
    SmoothCrash(base, exec, log, k);
    if cut == [] {
      SmoothRestart(base, cut, left, run, store, None);
    } else {
      FirstSavedStays(cut, |cut|);
      assert cut[..|cut|] == cut;
      LoadedPlan(base, exec, cut, t0);
      var i := LastSavedIsAnEvent(cut);
      var t := LastSaved(cut).value.plan.value;
      assert HasPlan(cut, t) && Undisturbed(LastSaved(cut).value);
      FirstSavedStays(run, |run|);
      assert run[..|run|] == run;
      SmoothRestart(base, cut, left, run, store, Some(t));
    }
  }

  /** Any history: a first run of a plan, then any number of crashes, each after any number of durable events, each
      followed by a resume in a fresh process. The log of the whole history is good, and READY tasks are frozen from
      every resume onwards. Where every capability succeeds, the plan ends complete exactly when no resume that is part
      of the history started from a checkpoint with a READY task. */
  method AnyHistory(policy: Policy, json: bool, exec: string, base: Store, t0: Tasks, c: Snapshot,
                    oracle: Oracle, restarts: seq<Restart>)
    returns (log: seq<Event>, resumes: set<nat>)
    requires WellFormed(t0) && Serializable(c) && QuietStore(base) && NoSelfRetry(oracle)
    requires forall i :: 0 <= i < |restarts| ==> NoSelfRetry(restarts[i].oracle) && Reordered(t0, restarts[i].order)
    ensures History(base, exec, t0, log, resumes)
    ensures Obliging(oracle) && (forall i :: 0 <= i < |restarts| ==> Obliging(restarts[i].oracle)) && AllSucceeded(base)
            && Validated(t0) && CanFinish(t0) && !Terminal(c.status) && c.lastFailure.None? ==>
              SmoothHistory(base, log, resumes)
  {
    hide NoSelfRetry, QuietStore, RunMeans, Validated, Obliging, CanFinish, KeptReady, AllSucceeded, History,
         SmoothHistory, WellFormed, Accounting, Bounded, Lawful, CourseOf, Terminal, Traceable, Recorded;
    var runtime := new ExecutionRuntime(policy, json, base);
    var context := new ExecutionContext(exec, c);
    var plan := new ExecutionPlan();
    plan.tasks := t0;
    var outcome;
    ghost var batches, marks;
    ghost var run;
    outcome, run, batches, marks := Orchestrator.Execute(runtime, plan, context, oracle);
    assert [] + run == run;
    log, resumes := runtime.log, {};
    CourseIs(t0, oracle, base, c, policy.maxRetries);
    FirstRun(base, exec, t0, c, CourseOf(t0, oracle, base, c, policy.maxRetries), plan.tasks, context.Now(), run, marks,
             outcome, runtime.store);
    ghost var smooth := Obliging(oracle) && AllSucceeded(base) && Validated(t0) && CanFinish(t0) && !Terminal(c.status)
                        && c.lastFailure.None?;
    for n := 0 to |restarts|
      invariant History(base, exec, t0, log, resumes)
      invariant smooth && (forall i :: 0 <= i < n ==> Obliging(restarts[i].oracle)) ==>
                  SmoothHistory(base, log, resumes)
    {
      log, resumes := CrashAndResume(policy, json, exec, base, t0, log, resumes, restarts[n]);
    }
  }

  lemma FirstRun(
    base: Store, exec: string, t0: Tasks, s: Snapshot, c: Course, t: Tasks, last: Snapshot, run: seq<Event>,
    marks: seq<Mark>, outcome: RunOutcome, store: Store)
    requires Lawful(base, exec, run, store) && c.t0 == t0 && c.failure == s.lastFailure
    requires run != [] ==> run[0] == Saved(s.(plan := Some(t0))) && Accounting(t0, c, run, marks, outcome)
    requires c.smooth && run != [] ==> (outcome.Finished? <==> CanFinish(t0)) && !outcome.Halted? && AllSucceeded(store)
    requires outcome.Finished? ==> LastSaved(run) == Some(last) && last.plan == Some(t)
    requires RunMeans(t0, t, s.status, last.status, outcome)
    ensures History(base, exec, t0, run, {})
    ensures c.smooth && run != [] && CanFinish(t0) && s.lastFailure.None? ==> SmoothHistory(base, run, {})
  {
    if c.smooth && run != [] && CanFinish(t0) && s.lastFailure.None? {
      assert Sound(t0);
      MarkedUndisturbed(run, c, marks);
    }
  }

  lemma NonemptyLog(log: seq<Event>)
    ensures LastSaved(log).Some? ==> log != []
  {
  }
}
