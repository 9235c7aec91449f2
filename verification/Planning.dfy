/** The plan of `ois/kernel/planning.py`: tasks with dependencies, the depth-first cycle check, readiness and
    completion, and the checkpoint form of a plan. */
module Planning {

  import opened Prelude

  datatype TaskStatus = Pending | Ready | Running | Succeeded | Failed | Blocked | Skipped

  datatype TaskNode = TaskNode(
    taskId: string, capabilityId: string, dependencies: seq<string>, status: TaskStatus,
    output: string)

  /** A Python dictionary from task id to task: a map that remembers insertion order. */
  datatype Tasks = Tasks(order: seq<string>, nodes: map<string, TaskNode>)

  datatype PlanError = DuplicateTask | KeyMismatch | UnknownDependency | CyclicPlan

  ghost predicate WellFormed(t: Tasks) {
    && Distinct(t.order)
    && (forall id :: id in t.order <==> id in t.nodes)
    && (forall id :: id in t.nodes ==> t.nodes[id].taskId == id)
  }

  function SetStatus(t: Tasks, id: string, s: TaskStatus): Tasks
    requires id in t.nodes
  {
    t.(nodes := t.nodes[id := t.nodes[id].(status := s)])
  }

  ghost predicate HasStatus(t: Tasks, id: string, s: TaskStatus) {
    id in t.nodes && t.nodes[id].status == s
  }

  // ---------- What validation means ----------

  ghost predicate KnownDependencies(t: Tasks) {
    forall id, d :: id in t.nodes && d in t.nodes[id].dependencies ==> d in t.nodes
  }

  ghost predicate Edge(t: Tasks, a: string, b: string) {
    a in t.nodes && b in t.nodes[a].dependencies
  }

  /** Every task of the walk depends on the next one. */
  ghost predicate IsWalk(t: Tasks, w: seq<string>) {
    forall i :: 0 <= i < |w| - 1 ==> Edge(t, w[i], w[i + 1])
  }

  ghost predicate IsCycle(t: Tasks, w: seq<string>) {
    |w| >= 2 && w[0] == w[|w| - 1] && IsWalk(t, w)
  }

  ghost predicate Acyclic(t: Tasks) {
    forall w :: !IsCycle(t, w)
  }

  /** What `validate` promises: dependencies name tasks and the relation has no cycle. */
  ghost predicate Validated(t: Tasks) {
    KnownDependencies(t) && Acyclic(t)
  }

  /** Every task is listed after all of its dependencies. */
  ghost predicate Topological(t: Tasks, o: seq<string>) {
    forall i, d :: 0 <= i < |o| && Edge(t, o[i], d) ==> d in o[..i]
  }

  ghost predicate Covers(t: Tasks, o: seq<string>) {
    forall id :: id in t.nodes ==> id in o
  }

  lemma {:induction false} TopologicalWalkDescends(
    t: Tasks, o: seq<string>, w: seq<string>, k: nat) returns (i: nat, j: nat)
    requires Topological(t, o) && IsWalk(t, w) && |w| > 0 && k < |w| && w[0] in o
    ensures i < |o| && j < |o| && o[i] == w[0] && o[j] == w[k] && j + k <= i
  {
    if k == 0 {
      i :| 0 <= i < |o| && o[i] == w[0];
      j := i;
    } else {
      var m: nat;
      i, m := TopologicalWalkDescends(t, o, w, k - 1);
      assert Edge(t, w[k - 1], w[k - 1 + 1]);
      j :| 0 <= j < m && o[..m][j] == w[k];
    }
  }

  /** The least position of `w[0]` in the order cannot be above itself. */
  lemma TopologicalIsAcyclic(t: Tasks, o: seq<string>)
    requires Topological(t, o) && Covers(t, o)
    ensures Acyclic(t)
  {
    forall w | IsCycle(t, w) ensures false {
      assert Edge(t, w[0], w[1]);
      assert o[..|o|] == o;
      NoCycleBelow(t, o, w, |o|);
    }
  }

  /** No prefix of a topological order mentions the start of a cycle. */
  lemma {:induction false} NoCycleBelow(t: Tasks, o: seq<string>, w: seq<string>, n: nat)
    requires Topological(t, o) && IsCycle(t, w) && n <= |o|
    ensures w[0] !in o[..n]
  {
    if n > 0 {
      NoCycleBelow(t, o, w, n - 1);
      if o[n - 1] == w[0] {
        PrefixTopological(t, o, n);
        var i, j := TopologicalWalkDescends(t, o[..n], w, |w| - 1);
      }
      assert o[..n] == o[..n - 1] + [o[n - 1]];
    }
  }

  lemma PrefixTopological(t: Tasks, o: seq<string>, n: nat)
    requires Topological(t, o) && n <= |o|
    ensures Topological(t, o[..n])
  {
    forall i, d | 0 <= i < |o[..n]| && Edge(t, o[..n][i], d) ensures d in o[..n][..i] {
      assert o[..n][..i] == o[..i];
    }
  }

  // ---------- The depth-first cycle check ----------

  /** The two sets that the nested `visit` function of `_validate_cycles` shares. The ghost fields record the call
      stack and the order in which tasks were finished. */
  class CycleCheck {
    var visiting: set<string>
    var visited: set<string>
    ghost var stack: seq<string>
    ghost var done: seq<string>

    ghost predicate Valid(t: Tasks)
      reads this
    {
      && visiting == (set x | x in stack)
      && visited == (set x | x in done)
      && visiting !! visited
      && visiting <= t.nodes.Keys && visited <= t.nodes.Keys
      && IsWalk(t, stack)
      && Topological(t, done)
    }

    constructor ()
      ensures forall t :: Valid(t)
      ensures stack == [] && done == []
    {
      visiting, visited, stack, done := {}, {}, [], [];
    }

    /** Returns true where the source raises CyclicPlanError. */
    method Visit(t: Tasks, taskId: string) returns (cyclic: bool)
      requires KnownDependencies(t) && taskId in t.nodes
      requires Valid(t)
      requires stack != [] ==> Edge(t, stack[|stack| - 1], taskId)
      modifies this
      ensures cyclic ==> !Acyclic(t)
      ensures !cyclic ==> Valid(t) && visiting == old(visiting) && stack == old(stack)
      ensures !cyclic ==> old(visited) <= visited && taskId in visited
      decreases t.nodes.Keys - visiting - visited
    {
      if taskId in visiting {
        StackClosesCycle(t, stack, taskId);
        return true;
      }
      if taskId in visited {
        return false;
      }
      visiting := visiting + {taskId};
      stack := stack + [taskId];
      var deps := t.nodes[taskId].dependencies;
      var i := 0;
      while i < |deps|
        invariant 0 <= i <= |deps|
        invariant Valid(t) && stack == old(stack) + [taskId] && visiting == old(visiting) + {taskId}
        invariant old(visited) <= visited
        invariant forall k :: 0 <= k < i ==> deps[k] in visited
      {
        assert Edge(t, taskId, deps[i]);
        assert taskId in t.nodes.Keys - old(visiting) - old(visited);
        cyclic := Visit(t, deps[i]);
        if cyclic {
          return;
        }
        i := i + 1;
      }
      visiting := visiting - {taskId};
      stack := old(stack);
      ghost var before := done;
      visited := visited + {taskId};
      done := done + [taskId];
      FinishedLast(t, before, taskId);
      cyclic := false;
    }
  }

  lemma StackClosesCycle(t: Tasks, stack: seq<string>, id: string)
    requires IsWalk(t, stack) && id in stack && Edge(t, stack[|stack| - 1], id)
    ensures !Acyclic(t)
  {
    var k :| 0 <= k < |stack| && stack[k] == id;
    var w := stack[k..] + [id];
    forall i | 0 <= i < |w| - 1 ensures Edge(t, w[i], w[i + 1]) {
      if k + i < |stack| - 1 {
        assert Edge(t, stack[k + i], stack[k + i + 1]);
      }
    }
    assert IsCycle(t, w);
  }

  lemma FinishedLast(t: Tasks, done: seq<string>, id: string)
    requires Topological(t, done)
    requires forall d :: Edge(t, id, d) ==> d in done
    ensures Topological(t, done + [id])
  {
    var o := done + [id];
    forall i, d | 0 <= i < |o| && Edge(t, o[i], d) ensures d in o[..i] {
      assert o[..i] == done[..i];
      if i == |done| { assert done[..i] == done; }
    }
  }

  /** `ExecutionPlan.validate`. Success also yields a topological order, which the progress argument of the
      orchestrator uses. */
  method Validate(t: Tasks) returns (error: Option<PlanError>, ghost order: seq<string>)
    requires WellFormed(t)
    ensures error.None? <==> Validated(t)
    ensures error == Some(UnknownDependency) <==> !KnownDependencies(t)
    ensures error == Some(CyclicPlan) <==> KnownDependencies(t) && !Acyclic(t)
    ensures error.None? ==> Topological(t, order) && Covers(t, order)
  {
    order := [];
    var i := 0;
    while i < |t.order|
      invariant 0 <= i <= |t.order|
      invariant forall k, d :: 0 <= k < i && d in t.nodes[t.order[k]].dependencies ==> d in t.nodes
    {
      var deps := t.nodes[t.order[i]].dependencies;
      var j := 0;
      while j < |deps|
        invariant 0 <= j <= |deps|
        invariant forall m :: 0 <= m < j ==> deps[m] in t.nodes
      {
        if deps[j] !in t.nodes {
          return Some(UnknownDependency), [];
        }
        j := j + 1;
      }
      i := i + 1;
    }
    assert KnownDependencies(t);

    var walk := new CycleCheck();
    i := 0;
    while i < |t.order|
      invariant 0 <= i <= |t.order|
      invariant walk.Valid(t) && walk.stack == []
      invariant forall k :: 0 <= k < i ==> t.order[k] in walk.visited
    {
      var cyclic := walk.Visit(t, t.order[i]);
      if cyclic {
        return Some(CyclicPlan), [];
      }
      i := i + 1;
    }
    order := walk.done;
    TopologicalIsAcyclic(t, order);
    error := None;
  }

  // ---------- The mutable plan ----------

  /** A pending task all of whose dependencies have succeeded. */
  predicate Eligible(t: Tasks, id: string) {
    && id in t.nodes && t.nodes[id].status == Pending
    && forall d :: d in t.nodes[id].dependencies ==> d in t.nodes && t.nodes[d].status == Succeeded
  }

  function EligibleIn(t: Tasks, ids: seq<string>): seq<string> {
    if ids == [] then []
    else EligibleIn(t, ids[..|ids| - 1]) + (if Eligible(t, ids[|ids| - 1]) then [ids[|ids| - 1]] else [])
  }

  lemma {:induction false} EligibleInMembers(t: Tasks, ids: seq<string>)
    requires Distinct(ids)
    ensures forall id :: id in EligibleIn(t, ids) <==> id in ids && Eligible(t, id)
    ensures Distinct(EligibleIn(t, ids))
  {
    if ids != [] {
      EligibleInMembers(t, ids[..|ids| - 1]);
      assert ids == ids[..|ids| - 1] + [ids[|ids| - 1]];
    }
  }

  /** The plan after `ready_tasks` has marked the eligible tasks. */
  ghost predicate MarkedReady(t: Tasks, t': Tasks, ready: seq<string>) {
    && t'.order == t.order && t'.nodes.Keys == t.nodes.Keys
    && forall id :: id in t.nodes ==>
         t'.nodes[id] == if id in ready then t.nodes[id].(status := Ready) else t.nodes[id]
  }

  class ExecutionPlan {
    var tasks: Tasks

    constructor ()
      ensures tasks == Tasks([], map[])
    {
      tasks := Tasks([], map[]);
    }

    method AddTask(task: TaskNode) returns (error: Option<PlanError>)
      requires WellFormed(tasks)
      modifies this
      ensures WellFormed(tasks)
      ensures error.Some? <==> task.taskId in old(tasks).nodes
      ensures error.Some? ==> error == Some(DuplicateTask) && tasks == old(tasks)
      ensures error.None? ==> tasks == Tasks(old(tasks).order + [task.taskId], old(tasks).nodes[task.taskId := task])
    {
      if task.taskId in tasks.nodes {
        return Some(DuplicateTask);
      }
      tasks := Tasks(tasks.order + [task.taskId], tasks.nodes[task.taskId := task]);
      error := None;
    }

    method ReadyTasks() returns (ready: seq<string>)
      requires WellFormed(tasks) && KnownDependencies(tasks)
      modifies this
      ensures WellFormed(tasks)
      ensures ready == EligibleIn(old(tasks), old(tasks).order)
      ensures MarkedReady(old(tasks), tasks, ready)
    {
      ready := [];
      ghost var t0 := tasks;
      assert MarkedReady(t0, tasks, []) && EligibleIn(t0, []) == [] && t0.order[..0] == [];
      hide Eligible, EligibleIn, MarkedReady;
      var i := 0;
      while i < |tasks.order|
        invariant 0 <= i <= |t0.order|
        invariant ready == EligibleIn(t0, t0.order[..i])
        invariant tasks.order == t0.order && tasks.nodes.Keys == t0.nodes.Keys
        invariant MarkedReady(t0, tasks, ready)
      {
        var id := tasks.order[i];
        EligibleStep(t0, i);
        MarkOne(t0, tasks, ready, id);
        if Eligible(tasks, id) {
          tasks := SetStatus(tasks, id, Ready);
          ready := ready + [id];
        }
        i := i + 1;
      }
      assert t0.order[..i] == t0.order;
      MarkedWellFormed(t0, tasks, ready);
    }
  }

  lemma EligibleStep(t: Tasks, i: nat)
    requires WellFormed(t) && i < |t.order|
    ensures EligibleIn(t, t.order[..i + 1]) ==
            EligibleIn(t, t.order[..i]) + (if Eligible(t, t.order[i]) then [t.order[i]] else [])
    ensures t.order[i] !in EligibleIn(t, t.order[..i])
    ensures forall id :: id in EligibleIn(t, t.order[..i]) ==> Eligible(t, id)
  {
    EligibleInMembers(t, t.order[..i]);
    assert t.order[..i + 1][..i] == t.order[..i];
    hide Eligible;
  }

  lemma MarkedWellFormed(t: Tasks, t': Tasks, ready: seq<string>)
    requires WellFormed(t) && MarkedReady(t, t', ready)
    ensures WellFormed(t')
  {
  }

  lemma MarkOne(t0: Tasks, t: Tasks, ready: seq<string>, id: string)
    requires MarkedReady(t0, t, ready) && id in t0.nodes && id !in ready
    requires forall r :: r in ready ==> Eligible(t0, r)
    ensures Eligible(t, id) <==> Eligible(t0, id)
    ensures MarkedReady(t0, SetStatus(t, id, Ready), ready + [id])
  {
    assert forall d :: d in t0.nodes ==> (t.nodes[d].status == Succeeded <==> t0.nodes[d].status == Succeeded);
  }

  predicate IsComplete(t: Tasks) {
    forall id :: id in t.nodes ==> t.nodes[id].status in {Succeeded, Skipped}
  }

  predicate HasFailed(t: Tasks) {
    exists id :: id in t.nodes && t.nodes[id].status == Failed
  }

  /** `ExecutionPlan.from_dict` on a stored mapping, whose keys may disagree with the task ids. */
  method FromDict(d: Tasks) returns (error: Option<PlanError>, plan: ExecutionPlan)
    requires Distinct(d.order) && forall id :: id in d.order <==> id in d.nodes
    ensures error.None? <==> WellFormed(d) && Validated(d)
    ensures error == Some(KeyMismatch) <==> !WellFormed(d)
    ensures fresh(plan) && (error.None? ==> plan.tasks == d)
  {
    plan := new ExecutionPlan();
    var i := 0;
    while i < |d.order|
      invariant 0 <= i <= |d.order|
      invariant WellFormed(plan.tasks) && fresh(plan)
      invariant plan.tasks.order == d.order[..i]
      invariant forall id :: id in plan.tasks.nodes ==> id in d.nodes && plan.tasks.nodes[id] == d.nodes[id]
    {
      var id := d.order[i];
      assert id !in d.order[..i];
      if d.nodes[id].taskId != id {
        return Some(KeyMismatch), plan;
      }
      error := plan.AddTask(d.nodes[id]);
      assert d.order[..i + 1] == d.order[..i] + [id];
      i := i + 1;
    }
    assert d.order[..i] == d.order;
    assert plan.tasks.nodes == d.nodes;
    ghost var order;
    error, order := Validate(plan.tasks);
  }

  // ---------- Progress between two states of one plan ----------

  predicate Settled(s: TaskStatus) {
    s in {Succeeded, Failed, Blocked, Skipped}
  }

  ghost function ReadySet(t: Tasks): set<string> {
    set id | id in t.nodes && t.nodes[id].status == Ready
  }

  /** The same tasks, and no settled task was touched. */
  ghost predicate Advances(t: Tasks, t': Tasks) {
    && t'.nodes.Keys == t.nodes.Keys
    && forall id :: id in t.nodes ==>
         && t'.nodes[id].(status := t.nodes[id].status, output := t.nodes[id].output) == t.nodes[id]
         && (Settled(t.nodes[id].status) ==> t'.nodes[id] == t.nodes[id])
  }

  /** When nothing stands in the way (only pending, succeeded and skipped tasks, and no pending task waits for a
      skipped one), an incomplete validated plan has an eligible task. */
  lemma ProgressPossible(t: Tasks, o: seq<string>) returns (id: string)
    requires Topological(t, o) && Covers(t, o) && KnownDependencies(t)
    requires forall x :: x in t.nodes ==> t.nodes[x].status in {Pending, Succeeded, Skipped}
    requires forall x, d :: Edge(t, x, d) && HasStatus(t, x, Pending) ==> !HasStatus(t, d, Skipped)
    requires !IsComplete(t)
    ensures Eligible(t, id)
  {
    var x :| x in t.nodes && t.nodes[x].status == Pending;
    var k :| 0 <= k < |o| && o[k] == x;
    id := FirstPending(t, o, k);
  }

  lemma {:induction false} FirstPending(t: Tasks, o: seq<string>, k: nat) returns (id: string)
    requires Topological(t, o) && KnownDependencies(t)
    requires forall x :: x in t.nodes ==> t.nodes[x].status in {Pending, Succeeded, Skipped}
    requires forall x, d :: Edge(t, x, d) && HasStatus(t, x, Pending) ==> !HasStatus(t, d, Skipped)
    requires k < |o| && HasStatus(t, o[k], Pending)
    ensures Eligible(t, id)
  {
    if Eligible(t, o[k]) {
      id := o[k];
    } else {
      var d :| d in t.nodes[o[k]].dependencies && t.nodes[d].status != Succeeded;
      assert Edge(t, o[k], d);
      var j :| 0 <= j < k && o[..k][j] == d;
      id := FirstPending(t, o, j);
    }
  }
}
