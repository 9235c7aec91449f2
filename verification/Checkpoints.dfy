/** What the checkpoints of one orchestrator run (`ois/kernel/orchestrator.py:25-97`) hold: which tasks stand READY
    in them, and so from which of them the plan can still be finished. */
module Checkpoints {
  import opened Prelude
  import opened Planning
  import opened Runtime
  import opened RunLog

  /** The start of a task: where its RUNNING checkpoint is in the log, and the siblings its batch has still to start. */
  datatype Mark = Mark(at: nat, task: string, later: set<string>)

  /** A run from the plan `t0`; `smooth` when every capability call of it succeeds, and then `failure`, the failure
      on record at its start, stays on record; `steady` when every call succeeds except that those numbered in `hiccups`
      may fail transiently, and the retry limit has room for them. */
  datatype Course =
    Course(t0: Tasks, smooth: bool, failure: Option<FailureField>, steady: bool, hiccups: set<nat>)

  /** `p` is `t0` with some pending tasks marked, started or settled. */
  ghost predicate Steps(t0: Tasks, p: Tasks, failures: bool) {
    && p.nodes.Keys == t0.nodes.Keys
    && forall id :: id in t0.nodes && p.nodes[id] != t0.nodes[id] ==>
         && t0.nodes[id].status == Pending
         && p.nodes[id] == t0.nodes[id].(status := p.nodes[id].status, output := p.nodes[id].output)
         && (p.nodes[id].status in {Ready, Running, Succeeded} || (failures && p.nodes[id].status == Failed))
  }

  /** A smooth run neither records a failure nor ends its execution before the plan is complete. */
  ghost predicate Calm(s: Snapshot, failure: Option<FailureField>) {
    && s.lastFailure == failure
    && (Terminal(s.status) ==> s.status == Completed && s.plan.Some? && IsComplete(s.plan.value))
  }

  ghost predicate Holds(s: Snapshot, c: Course, ready: set<string>, failures: bool) {
    && s.plan.Some? && Steps(c.t0, s.plan.value, failures) && ReadySet(s.plan.value) == ready
    && (c.smooth ==> Calm(s, c.failure))
  }

  ghost predicate StartsAt(run: seq<Event>, m: Mark) {
    && m.at < |run| && run[m.at].Saved? && run[m.at].snapshot.plan.Some?
    && HasStatus(run[m.at].snapshot.plan.value, m.task, Running)
  }

  ghost predicate MarksInOrder(marks: seq<Mark>, end: nat) {
    && (forall i :: 0 <= i < |marks| ==> marks[i].at < end)
    && (forall i, j :: 0 <= i < j < |marks| ==> marks[i].at < marks[j].at)
  }

  /** The siblings that wait at position `k`: those of the last start up to there. */
  function Waiting(marks: seq<Mark>, k: nat): set<string> {
    if marks == [] then {}
    else if marks[|marks| - 1].at <= k then marks[|marks| - 1].later
    else Waiting(marks[..|marks| - 1], k)
  }

  /** Every checkpoint of the run, accounted for: READY in it are the tasks that were READY from the beginning, and
      the siblings still to be started. */
  ghost predicate Marked(run: seq<Event>, c: Course, marks: seq<Mark>, failures: bool) {
    && MarksInOrder(marks, |run|) && (forall i :: 0 <= i < |marks| ==> StartsAt(run, marks[i]))
    && (forall k :: 0 <= k < |run| && run[k].Saved? ==>
          Holds(run[k].snapshot, c, ReadySet(c.t0) + Waiting(marks, k), failures))
  }

  /** The siblings that a start leaves READY are exactly those that the next starts take, one by one. */
  ghost predicate InBatches(marks: seq<Mark>) {
    forall i :: 0 <= i < |marks| && marks[i].later != {} ==>
      && i + 1 < |marks| && marks[i + 1].task in marks[i].later
      && marks[i + 1].later == marks[i].later - {marks[i + 1].task}
  }

  /** The first batch starts every task that is eligible in the initial plan, and no other. */
  ghost predicate FirstBatch(t0: Tasks, marks: seq<Mark>) {
    marks != [] ==> forall id :: id == marks[0].task || id in marks[0].later <==> Eligible(t0, id)
  }

  // ---------- One task ----------

  /** Every checkpoint from position `from` on holds the plan `t`. */
  ghost predicate SavedAs(run: seq<Event>, from: nat, t: Tasks) {
    forall k :: from <= k < |run| && run[k].Saved? ==> run[k].snapshot.plan == Some(t)
  }

  /** ... and shows an open execution with this failure on record. */
  ghost predicate CalmFrom(run: seq<Event>, from: nat, failure: Option<FailureField>) {
    forall k :: from <= k < |run| && run[k].Saved? ==>
      run[k].snapshot.lastFailure == failure && !Terminal(run[k].snapshot.status)
  }

  /** The log of one task: its RUNNING checkpoint, checkpoints of its calls with the same plan `t1`, and the settled
      one with `t2`. */
  ghost predicate Segment(run: seq<Event>, run': seq<Event>, t1: Tasks, t2: Tasks, c: Course) {
    && run <= run' && |run| + 2 <= |run'| && run'[|run|].Saved? && run'[|run'| - 1].Saved?
    && SavedAs(run'[..|run'| - 1], |run|, t1) && run'[|run'| - 1].snapshot.plan == Some(t2)
    && (c.smooth ==> CalmFrom(run', |run|, c.failure))
  }

  lemma SavedMore(run: seq<Event>, more: seq<Event>, from: nat, t: Tasks, failure: Option<FailureField>)
    requires from <= |run| && forall e :: e in more && e.Saved? ==> e.snapshot.plan == Some(t)
    ensures SavedAs(run, from, t) ==> SavedAs(run + more, from, t)
    ensures
      var calm := forall e :: e in more && e.Saved? ==>
        e.snapshot.lastFailure == failure && !Terminal(e.snapshot.status);
      calm && CalmFrom(run, from, failure) ==> CalmFrom(run + more, from, failure)
  {
  }

  lemma NothingSaved(run: seq<Event>, t: Tasks, failure: Option<FailureField>)
    ensures SavedAs(run, |run|, t) && CalmFrom(run, |run|, failure)
  {
  }

  lemma SavedLonger(run: seq<Event>, before: seq<Event>, after: seq<Event>, t: Tasks)
    requires |run| <= |before| && before <= after && SavedAs(before, |run|, t) && SavedAs(after, |before|, t)
    ensures SavedAs(after, |run|, t)
  {
  }

  lemma Joined(run: seq<Event>, s1: Snapshot, calls: seq<Event>, s2: Snapshot, t1: Tasks, t2: Tasks, c: Course)
    requires run + [Saved(s1)] <= calls && SavedAs(calls, |run| + 1, t1) && s1.plan == Some(t1) && s2.plan == Some(t2)
    requires c.smooth ==>
               && CalmFrom(calls, |run| + 1, c.failure) && s1.lastFailure == c.failure && !Terminal(s1.status)
               && s2.lastFailure == c.failure && !Terminal(s2.status)
    ensures Segment(run, calls + [Saved(s2)], t1, t2, c)
  {
    var run' := calls + [Saved(s2)];
    assert run'[..|run'| - 1] == calls && calls[|run|] == (run + [Saved(s1)])[|run|];
    assert run <= run';
  }

  lemma StepOne(t0: Tasks, t: Tasks, id: string, n: TaskNode, failures: bool)
    requires Steps(t0, t, failures) && HasStatus(t, id, Ready) && id !in ReadySet(t0)
    requires n == t.nodes[id].(status := n.status, output := n.output)
    requires n.status in {Running, Succeeded} || (failures && n.status == Failed)
    ensures
      var t' := t.(nodes := t.nodes[id := n]);
      Steps(t0, t', failures) && ReadySet(t') == ReadySet(t) - {id}
  {
  }

  lemma FailuresGrow(run: seq<Event>, c: Course, marks: seq<Mark>, failures: bool, failures': bool)
    requires Marked(run, c, marks, failures) && (failures ==> failures')
    ensures Marked(run, c, marks, failures')
  {
    hide Waiting, StartsAt, MarksInOrder, Calm;
  }

  /** The log after one more task. */
  lemma TaskMarked(
    run: seq<Event>, run': seq<Event>, c: Course, marks: seq<Mark>, failures: bool, t1: Tasks, t2: Tasks, id: string,
    later: set<string>)
    requires Marked(run, c, marks, failures) && Segment(run, run', t1, t2, c) && HasStatus(t1, id, Running)
    requires Steps(c.t0, t1, failures) && Steps(c.t0, t2, failures)
    requires ReadySet(t1) == ReadySet(c.t0) + later && ReadySet(t2) == ReadySet(c.t0) + later
    ensures Marked(run', c, marks + [Mark(|run|, id, later)], failures)
  {
    var m := Mark(|run|, id, later);
    MarksStart(run, run', marks, m, t1);
    hide Steps, ReadySet, StartsAt, MarksInOrder, Waiting;
    forall k | 0 <= k < |run'| && run'[k].Saved?
      ensures Holds(run'[k].snapshot, c, ReadySet(c.t0) + Waiting(marks + [m], k), failures)
    {
      WaitingStep(marks, m, k);
      if k < |run| {
        assert run'[k] == run[k];
      } else {
        SegmentHolds(run, run', c, t1, t2, ReadySet(c.t0) + later, failures, k);
      }
      hide Holds;
    }
    hide Holds;
  }

  lemma WaitingStep(marks: seq<Mark>, m: Mark, k: nat)
    ensures Waiting(marks + [m], k) == if m.at <= k then m.later else Waiting(marks, k)
  {
    Prefixes(marks, m);
  }

  lemma MarksStart(run: seq<Event>, run': seq<Event>, marks: seq<Mark>, m: Mark, t1: Tasks)
    requires MarksInOrder(marks, |run|) && (forall i :: 0 <= i < |marks| ==> StartsAt(run, marks[i]))
    requires run <= run' && m.at == |run| < |run'| && run'[m.at].Saved? && run'[m.at].snapshot.plan == Some(t1)
    requires HasStatus(t1, m.task, Running)
    ensures
      var marks' := marks + [m];
      MarksInOrder(marks', |run'|) && forall i :: 0 <= i < |marks'| ==> StartsAt(run', marks'[i])
  {
    forall i | 0 <= i < |marks| ensures StartsAt(run', marks[i]) {
      assert StartsAt(run, marks[i]);
    }
    hide HasStatus;
  }

  lemma SegmentHolds(
    run: seq<Event>, run': seq<Event>, c: Course, t1: Tasks, t2: Tasks, ready: set<string>, failures: bool, k: nat)
    requires Segment(run, run', t1, t2, c) && |run| <= k < |run'| && run'[k].Saved?
    requires Steps(c.t0, t1, failures) && Steps(c.t0, t2, failures) && ReadySet(t1) == ready == ReadySet(t2)
    ensures Holds(run'[k].snapshot, c, ready, failures)
  {
    hide Steps, ReadySet;
  }

  // ---------- One batch ----------

  function Rest(ready: seq<string>, i: nat): set<string>
    requires i <= |ready|
  {
    set id | id in ready[i..]
  }

  /** The first `i` tasks of the batch have been started, in order. */
  ghost predicate BatchMarks(before: seq<Mark>, marks: seq<Mark>, ready: seq<string>, i: nat)
    requires i <= |ready|
  {
    && before <= marks && |marks| == |before| + i
    && forall k :: |before| <= k < |marks| ==>
         marks[k].task == ready[k - |before|] && marks[k].later == Rest(ready, k - |before| + 1)
  }

  /** A batch in progress: `t` is the plan, `marks` the starts so far. */
  ghost predicate BatchGoes(
    run: seq<Event>, c: Course, before: seq<Mark>, marks: seq<Mark>, failures: bool, t: Tasks, ready: seq<string>,
    i: nat)
    requires i <= |ready|
  {
    && Marked(run, c, marks, failures) && BatchMarks(before, marks, ready, i)
    && Steps(c.t0, t, failures) && ReadySet(t) == ReadySet(c.t0) + Rest(ready, i)
  }

  lemma RestStep(ready: seq<string>, i: nat)
    requires Distinct(ready) && i < |ready|
    ensures Rest(ready, i) == Rest(ready, i + 1) + {ready[i]} && ready[i] !in Rest(ready, i + 1)
  {
    assert ready[i..] == [ready[i]] + ready[i + 1..];
  }

  /** The plan while the task runs and after it was settled. */
  lemma TaskPlans(t0: Tasks, t: Tasks, t2: Tasks, id: string, rest: set<string>, failures: bool, failed: bool)
    requires Steps(t0, t, failures) && HasStatus(t, id, Ready) && id !in ReadySet(t0) && id in t2.nodes
    requires t2 == t.(nodes := t.nodes[id := t2.nodes[id]])
    requires t2.nodes[id] == t.nodes[id].(status := if failed then Failed else Succeeded, output := t2.nodes[id].output)
    requires ReadySet(t) == ReadySet(t0) + (rest + {id}) && id !in rest
    ensures
      var t1, f := SetStatus(t, id, Running), failures || failed;
      && HasStatus(t1, id, Running) && Steps(t0, t1, f) && Steps(t0, t2, f)
      && ReadySet(t1) == ReadySet(t0) + rest && ReadySet(t2) == ReadySet(t0) + rest
  {
    var t1, f := SetStatus(t, id, Running), failures || failed;
    StepsGrow(t0, t, failures, f);
    StepOne(t0, t, id, t1.nodes[id], f);
    StepOne(t0, t, id, t2.nodes[id], f);
    hide Steps, ReadySet;
    assert ReadySet(t0) + (rest + {id}) - {id} == ReadySet(t0) + rest;
  }

  lemma BatchMarksStep(before: seq<Mark>, marks: seq<Mark>, ready: seq<string>, i: nat, at: nat)
    requires i < |ready| && BatchMarks(before, marks, ready, i)
    ensures BatchMarks(before, marks + [Mark(at, ready[i], Rest(ready, i + 1))], ready, i + 1)
  {
    hide Rest;
  }

  lemma BatchTakesNext(
    run: seq<Event>, run': seq<Event>, c: Course, before: seq<Mark>, marks: seq<Mark>, failures: bool, t: Tasks,
    t2: Tasks, ready: seq<string>, i: nat, failed: bool)
    requires Distinct(ready) && i < |ready| && BatchGoes(run, c, before, marks, failures, t, ready, i)
    requires HasStatus(t, ready[i], Ready) && ready[i] !in ReadySet(c.t0) && ready[i] in t2.nodes
    requires t2 == t.(nodes := t.nodes[ready[i] := t2.nodes[ready[i]]])
    requires t2.nodes[ready[i]] ==
             t.nodes[ready[i]].(status := if failed then Failed else Succeeded, output := t2.nodes[ready[i]].output)
    requires Segment(run, run', SetStatus(t, ready[i], Running), t2, c)
    ensures BatchGoes(
              run', c, before, marks + [Mark(|run|, ready[i], Rest(ready, i + 1))],
              failures || failed, t2, ready, i + 1)
  {
    assert ready[i] in t.nodes;
    hide Rest, Distinct, Marked, Segment, Steps, ReadySet, HasStatus, BatchMarks, SetStatus;
    RestStep(ready, i);
    TaskPlans(c.t0, t, t2, ready[i], Rest(ready, i + 1), failures, failed);
    FailuresGrow(run, c, marks, failures, failures || failed);
    TaskMarked(
      run, run', c, marks, failures || failed, SetStatus(t, ready[i], Running), t2, ready[i], Rest(ready, i + 1));
    BatchMarksStep(before, marks, ready, i, |run|);
  }

  lemma StepsGrow(t0: Tasks, t: Tasks, failures: bool, failures': bool)
    requires Steps(t0, t, failures) && (failures ==> failures')
    ensures Steps(t0, t, failures')
  {
  }

  /** A whole batch of newly marked tasks keeps the log in batches. */
  lemma BatchCloses(c: Course, before: seq<Mark>, marks: seq<Mark>, ready: seq<string>)
    requires InBatches(before) && BatchMarks(before, marks, ready, |ready|) && Distinct(ready)
    ensures InBatches(marks)
  {
    forall i | 0 <= i < |marks| && marks[i].later != {}
      ensures i + 1 < |marks| && marks[i + 1].task in marks[i].later
      ensures marks[i + 1].later == marks[i].later - {marks[i + 1].task}
    {
      if i < |before| {
        assert before[i] == marks[i] && before[i + 1] == marks[i + 1];
      } else {
        assert i - |before| + 1 < |ready|;
        RestStep(ready, i - |before| + 1);
      }
    }
  }

  lemma NobodyWaits(marks: seq<Mark>, k: nat)
    requires InBatches(marks) && (marks != [] ==> marks[|marks| - 1].at <= k)
    ensures Waiting(marks, k) == {}
  {
  }

  // ---------- A whole run ----------

  ghost predicate Accounted(run: seq<Event>, c: Course, marks: seq<Mark>, failures: bool) {
    Marked(run, c, marks, failures) && InBatches(marks) && FirstBatch(c.t0, marks)
  }

  /** `ready` names exactly the eligible tasks, each once. */
  ghost predicate ListsEligible(t: Tasks, ready: seq<string>) {
    Distinct(ready) && forall id :: id in ready <==> Eligible(t, id)
  }

  ghost predicate NoneEligible(t: Tasks) {
    forall id :: !Eligible(t, id)
  }

  lemma StartAccounted(c: Course, s: Snapshot)
    requires s.plan == Some(c.t0) && (c.smooth ==> s.lastFailure == c.failure && !Terminal(s.status))
    ensures Accounted([Saved(s)], c, [], false)
  {
    assert Steps(c.t0, c.t0, false);
  }

  /** Marking eligible tasks opens a batch. */
  lemma BatchOpens(run: seq<Event>, c: Course, marks: seq<Mark>, t: Tasks, t1: Tasks, ready: seq<string>)
    requires Marked(run, c, marks, false) && Steps(c.t0, t, false) && ReadySet(t) == ReadySet(c.t0)
    requires MarkedReady(t, t1, ready) && ListsEligible(t, ready)
    ensures BatchGoes(run, c, marks, marks, false, t1, ready, 0)
  {
    hide Marked;
    assert ready[0..] == ready;
    assert ReadySet(t1) == ReadySet(t) + Rest(ready, 0);
  }

  /** Settling its tasks closes it. */
  lemma BatchAccounted(
    run: seq<Event>, c: Course, before: seq<Mark>, marks: seq<Mark>, failures: bool, t: Tasks, t2: Tasks,
    ready: seq<string>)
    requires BatchGoes(run, c, before, marks, failures, t2, ready, |ready|) && ListsEligible(t, ready) && ready != []
    requires InBatches(before) && FirstBatch(c.t0, before) && (before == [] ==> t == c.t0)
    ensures Accounted(run, c, marks, failures) && marks != []
  {
    BatchCloses(c, before, marks, ready);
    hide Marked, InBatches, Steps, ReadySet, Eligible;
    if before == [] {
      assert marks[0].task == ready[0] && marks[0].later == Rest(ready, 1);
      assert ready == [ready[0]] + ready[1..];
    } else {
      assert marks[0] == before[0];
    }
  }

  /** The last checkpoint of a run that completes its plan. */
  lemma EndAccounted(run: seq<Event>, c: Course, marks: seq<Mark>, s: Snapshot)
    requires Accounted(run, c, marks, false) && s.plan.Some? && Steps(c.t0, s.plan.value, false)
    requires ReadySet(s.plan.value) == ReadySet(c.t0) && (c.smooth ==> Calm(s, c.failure))
    ensures Accounted(run + [Saved(s)], c, marks, false)
  {
    NobodyWaits(marks, |run|);
    hide Steps, ReadySet, Waiting, Calm, HasStatus;
    forall i | 0 <= i < |marks| ensures StartsAt(run + [Saved(s)], marks[i]) {
      assert StartsAt(run, marks[i]);
    }
  }
}
