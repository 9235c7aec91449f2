/** The idempotency keys of durable runs (`ois/autonomy/durable.py`): five parts joined with colons, unique among
    runs. */
module RunKeys {
  import opened Prelude
  import opened Policy
  import opened DurableEngine

  predicate Plain(s: string) {
    ':' !in s
  }

  lemma FirstPart(a: string, x: string, b: string, y: string)
    requires Plain(a) && Plain(b) && a + ":" + x == b + ":" + y
    ensures a == b && x == y
  {
    var s := a + ":" + x;
    assert s == b + ":" + y;
    assert s[|a|] == ':' && s[|b|] == ':';
    assert a == s[..|a|] && b == s[..|b|] && x == s[|a| + 1..] && y == s[|b| + 1..];
  }

  lemma KeyParts(i: Identity)
    ensures Key(i) == i.tenant + ":" + (i.workspace + ":" + (i.workflow + ":" + (i.version + ":" + i.event)))
  {
  }

  /** Keys tell identities apart as long as tenant, workspace, workflow and version hold no colon. */
  lemma KeysDistinguish(i: Identity, j: Identity)
    requires Key(i) == Key(j)
    requires Plain(i.tenant) && Plain(i.workspace) && Plain(i.workflow) && Plain(i.version)
    requires Plain(j.tenant) && Plain(j.workspace) && Plain(j.workflow) && Plain(j.version)
    ensures i == j
  {
    hide Key;
    KeyParts(i);
    KeyParts(j);
    FirstPart(i.tenant, i.workspace + ":" + (i.workflow + ":" + (i.version + ":" + i.event)),
              j.tenant, j.workspace + ":" + (j.workflow + ":" + (j.version + ":" + j.event)));
    FirstPart(i.workspace, i.workflow + ":" + (i.version + ":" + i.event), j.workspace,
        j.workflow + ":" + (j.version + ":" + j.event));
    FirstPart(i.workflow, i.version + ":" + i.event, j.workflow, j.version + ":" + j.event);
    FirstPart(i.version, i.event, j.version, j.event);
  }

  // ---------- Exactly which identities share a key ----------

  ghost predicate AllPlain(i: Identity) {
    Plain(i.tenant) && Plain(i.workspace) && Plain(i.workflow) && Plain(i.version) && Plain(i.event)
  }

  function Colons(s: string): nat {
    if s == [] then 0 else (if s[0] == ':' then 1 else 0) + Colons(s[1..])
  }

  lemma {:induction false} ColonsConcat(a: string, b: string)
    ensures Colons(a + b) == Colons(a) + Colons(b)
  {
    if a == [] {
      assert a + b == b;
    } else {
      assert (a + b)[1..] == a[1..] + b;
      ColonsConcat(a[1..], b);
    }
  }

  lemma {:induction false} PlainHasNone(s: string)
    ensures Plain(s) <==> Colons(s) == 0
  {
    if s != [] {
      PlainHasNone(s[1..]);
      assert s == [s[0]] + s[1..];
    }
  }

  lemma ColonJoin(a: string, b: string)
    ensures Colons(a + ":" + b) == Colons(a) + 1 + Colons(b)
  {
    ColonsConcat(a + ":", b);
    ColonsConcat(a, ":");
    assert ":"[1..] == "";
  }

  lemma KeyColons(i: Identity)
    ensures Colons(Key(i)) ==
            4 + Colons(i.tenant) + Colons(i.workspace) + Colons(i.workflow) + Colons(i.version) + Colons(i.event)
  {
    hide Colons;
    ColonJoin(i.tenant, i.workspace);
    ColonJoin(i.tenant + ":" + i.workspace, i.workflow);
    ColonJoin(i.tenant + ":" + i.workspace + ":" + i.workflow, i.version);
    ColonJoin(i.tenant + ":" + i.workspace + ":" + i.workflow + ":" + i.version, i.event);
  }

  lemma PlainKeyIsUnique(i: Identity, j: Identity)
    requires AllPlain(i) && Key(j) == Key(i)
    ensures j == i
  {
    hide Key, Colons;
    KeyColons(i);
    KeyColons(j);
    PlainHasNone(i.tenant);
    PlainHasNone(i.workspace);
    PlainHasNone(i.workflow);
    PlainHasNone(i.version);
    PlainHasNone(i.event);
    PlainHasNone(j.tenant);
    PlainHasNone(j.workspace);
    PlainHasNone(j.workflow);
    PlainHasNone(j.version);
    KeysDistinguish(i, j);
  }

  lemma SplitAtColon(s: string) returns (x: string, y: string)
    requires !Plain(s)
    ensures s == x + ":" + y
  {
    var k :| 0 <= k < |s| && s[k] == ':';
    x, y := s[..k], s[k + 1..];
  }

  /** Moving the border between two neighbouring parts to another colon gives another identity with the same key. */
  lemma Resplit(i: Identity) returns (j: Identity)
    requires !AllPlain(i)
    ensures j != i && Key(j) == Key(i)
  {
    var x, y;
    if !Plain(i.tenant) {
      x, y := SplitAtColon(i.tenant);
      j := i.(tenant := x, workspace := y + ":" + i.workspace);
      assert |j.tenant| < |i.tenant| && j.tenant + ":" + j.workspace == i.tenant + ":" + i.workspace;
    } else if !Plain(i.workspace) {
      x, y := SplitAtColon(i.workspace);
      j := i.(workspace := x, workflow := y + ":" + i.workflow);
      assert |j.workspace| < |i.workspace|;
      assert i.tenant + ":" + j.workspace + ":" + j.workflow == i.tenant + ":" + i.workspace + ":" + i.workflow;
    } else if !Plain(i.workflow) {
      x, y := SplitAtColon(i.workflow);
      j := i.(workflow := x, version := y + ":" + i.version);
      assert |j.workflow| < |i.workflow|;
      var front := i.tenant + ":" + i.workspace + ":";
      assert front + j.workflow + ":" + j.version == front + i.workflow + ":" + i.version;
    } else if !Plain(i.version) {
      x, y := SplitAtColon(i.version);
      j := i.(version := x, event := y + ":" + i.event);
      assert |j.version| < |i.version|;
      var front := i.tenant + ":" + i.workspace + ":" + i.workflow + ":";
      assert front + j.version + ":" + j.event == front + i.version + ":" + i.event;
    } else {
      x, y := SplitAtColon(i.event);
      j := i.(version := i.version + ":" + x, event := y);
      assert |i.version| < |j.version|;
      var front := i.tenant + ":" + i.workspace + ":" + i.workflow + ":";
      assert front + j.version + ":" + j.event == front + i.version + ":" + i.event;
    }
  }

  /** An identity has its key to itself exactly when no part of it holds a colon. */
  lemma KeyIsOwnExactlyWithoutColons(i: Identity)
    ensures (forall j :: Key(j) == Key(i) ==> j == i) <==> AllPlain(i)
  {
    hide Key, AllPlain;
    if AllPlain(i) {
      forall j | Key(j) == Key(i) ensures j == i {
        PlainKeyIsUnique(i, j);
      }
    } else {
      var j := Resplit(i);
    }
  }

  // ---------- What a shared key does ----------

  /** For an identity that has no run, `create` refuses a matching call exactly when a run has its key or the
      drawn id. */
  lemma CreateIsRefusedExactly(db: Database, w: Workflow, e: Envelope, worker: string, runId: string)
    requires Matches(w, e) && IdentityOf(w, e) !in db.runs
    ensures Create(db, Start(w, e, worker), runId).phase.Over? <==>
            exists j :: j in db.runs && (Key(j) == Key(IdentityOf(w, e)) || db.runs[j].id == runId)
    ensures Create(db, Start(w, e, worker), runId).phase.Over? ==> Create(db, Start(w, e, worker), runId).db == db
  {
  }

  /** And for good: once a run has its key, an identity never gets a run of its own and `execute` is never called for
      it, whatever happens afterwards. */
  method SharedKeyIsRefusedForGood(e: Engine, i: Identity, j: Identity, ops: seq<Op>)
    requires e.Valid() && j in e.db.runs && Key(i) == Key(j) && i != j
    modifies e
    ensures e.Valid() && i !in e.db.runs
    ensures forall n :: 0 <= n < |e.trace| && e.trace[n].Ran? ==> e.trace[n].ticket.run.identity != i
  {
    hide Safe, ThreadsOk, RanBelow, Key;
    AnySteps(e, ops);
    assert RunsUnique(e.db.runs) && j in e.db.runs && RanHeld(e.db.runs, e.trace);
  }
}
