/** `ois/infrastructure/postgres_execution.py`: durable idempotency claims and the outbox entry staged with them. A
    transaction is one step; an exception inside it undoes all of it. */
module IdempotencyClaims {
  import opened Prelude

  datatype Claim = Claim(fingerprint: string, result: Option<string>)

  datatype Entry = Entry(invocation: string, key: string, request: string)

  datatype Event =
    | Won(invocation: string, fingerprint: string)
    | Replayed(invocation: string, fingerprint: string)
    | Clashed(invocation: string, fingerprint: string)
    | Finished(invocation: string, result: string)
    | Dropped(invocation: string)
    | Staged(invocation: string)

  /** The standing claim on an invocation, read off the trace. */
  function Standing(trace: seq<Event>, inv: string): Option<Claim> {
    if trace == [] then None
    else
      var before := Standing(trace[..|trace| - 1], inv);
      var e := trace[|trace| - 1];
      if e.invocation != inv then before
      else match e
        case Won(_, f) => Some(Claim(f, None))
        case Finished(_, r) => if before.Some? then Some(before.value.(result := Some(r))) else before
        case Dropped(_) => None
        case _ => before
  }

  ghost predicate Admissible(before: seq<Event>, e: Event) {
    var s := Standing(before, e.invocation);
    match e
    case Won(_, _) => s.None?
    case Replayed(_, f) => s.Some? && s.value.fingerprint == f
    case Clashed(_, f) => s.Some? && s.value.fingerprint != f
    case Finished(_, _) => s.Some? && s.value.result.None?
    case Dropped(_) => s.Some? && s.value.result.None?
    case Staged(_) => Staged(e.invocation) !in before
  }

  ghost predicate ClaimsSafe(trace: seq<Event>) {
    forall i :: 0 <= i < |trace| ==> Admissible(trace[..i], trace[i])
  }

  /** The table is what the trace says. */
  ghost predicate Mirrors(claims: map<string, Claim>, trace: seq<Event>) {
    forall i :: (if i in claims then Some(claims[i]) else None) == Standing(trace, i)
  }

  function Updated(claims: map<string, Claim>, e: Event): map<string, Claim> {
    match e
    case Won(i, f) => claims[i := Claim(f, None)]
    case Finished(i, r) => if i in claims then claims[i := claims[i].(result := Some(r))] else claims
    case Dropped(i) => claims - {i}
    case _ => claims
  }

  lemma Step(claims: map<string, Claim>, trace: seq<Event>, e: Event)
    requires ClaimsSafe(trace) && Mirrors(claims, trace) && Admissible(trace, e)
    ensures ClaimsSafe(trace + [e]) && Mirrors(Updated(claims, e), trace + [e])
  {
    var t := trace + [e];
    assert t[..|t| - 1] == trace;
    forall i | 0 <= i < |t| ensures Admissible(t[..i], t[i]) {
      if i < |trace| {
        assert t[..i] == trace[..i];
      }
    }
    hide ClaimsSafe;
    forall i ensures (if i in Updated(claims, e) then Some(Updated(claims, e)[i]) else None) == Standing(t, i) {
      assert (if i in claims then Some(claims[i]) else None) == Standing(trace, i);
    }
  }

  /** Every staged invocation has an outbox entry, which nothing removes. */
  ghost predicate StagedBacked(trace: seq<Event>, outbox: map<string, Entry>) {
    forall i :: Staged(i) in trace ==> exists x :: x in outbox && outbox[x].invocation == i
  }

  lemma BackedStays(trace: seq<Event>, outbox: map<string, Entry>, e: Event)
    requires StagedBacked(trace, outbox) && !e.Staged?
    ensures StagedBacked(trace + [e], outbox)
  {
    forall i | Staged(i) in trace + [e] ensures Staged(i) in trace {
    }
  }

  datatype ClaimOutcome = First | Replay | FingerprintMismatch | StageConflict

  class ExecutionStore {
    var claims: map<string, Claim>
    var outbox: map<string, Entry>
    var trace: seq<Event>

    ghost predicate Valid()
      reads this
    {
      ClaimsSafe(trace) && Mirrors(claims, trace) && StagedBacked(trace, outbox)
    }

    constructor ()
      ensures Valid() && claims == map[] && outbox == map[] && trace == []
    {
      claims, outbox, trace := map[], map[], [];
    }

    /** True for the first claimant, False for a matching replay, an error for another fingerprint. */
    method ClaimIdempotency(inv: string, fingerprint: string) returns (outcome: ClaimOutcome)
      requires Valid()
      modifies this`claims, this`trace
      ensures Valid() && !outcome.StageConflict?
      ensures outcome.First? <==> inv !in old(claims)
      ensures outcome.Replay? <==> inv in old(claims) && old(claims)[inv].fingerprint == fingerprint
      ensures claims == if outcome.First? then old(claims)[inv := Claim(fingerprint, None)] else old(claims)
      ensures trace == old(trace) + [match outcome
                                     case First => Won(inv, fingerprint)
                                     case Replay => Replayed(inv, fingerprint)
                                     case _ => Clashed(inv, fingerprint)]
    {
      var event;
      if inv !in claims {
        outcome, event := First, Won(inv, fingerprint);
      } else if claims[inv].fingerprint != fingerprint {
        outcome, event := FingerprintMismatch, Clashed(inv, fingerprint);
      } else {
        outcome, event := Replay, Replayed(inv, fingerprint);
      }
      Step(claims, trace, event);
      BackedStays(trace, outbox, event);
      hide ClaimsSafe, Mirrors, StagedBacked;
      if outcome.First? {
        claims := claims[inv := Claim(fingerprint, None)];
      }
      trace := trace + [event];
    }

    /** Fails unless the claim is pending. */
    method CompleteIdempotency(inv: string, result: string) returns (ok: bool)
      requires Valid()
      modifies this`claims, this`trace
      ensures Valid()
      ensures ok <==> inv in old(claims) && old(claims)[inv].result.None?
      ensures claims == if ok then old(claims)[inv := old(claims)[inv].(result := Some(result))] else old(claims)
      ensures trace == if ok then old(trace) + [Finished(inv, result)] else old(trace)
    {
      ok := inv in claims && claims[inv].result.None?;
      if ok {
        Step(claims, trace, Finished(inv, result));
        BackedStays(trace, outbox, Finished(inv, result));
        hide ClaimsSafe, Mirrors, StagedBacked;
        claims := claims[inv := claims[inv].(result := Some(result))];
        trace := trace + [Finished(inv, result)];
      }
    }

    method GetResult(inv: string) returns (result: Option<string>)
      requires Valid()
      ensures result == if Standing(trace, inv).Some? then Standing(trace, inv).value.result else None
    {
      result := if inv in claims then claims[inv].result else None;
    }

    /** Deletes a pending claim and nothing else; in particular not the staged outbox entry. */
    method ReleaseIdempotency(inv: string)
      requires Valid()
      modifies this`claims, this`trace
      ensures Valid()
      ensures
        var hit := inv in old(claims) && old(claims)[inv].result.None?;
        && claims == (if hit then old(claims) - {inv} else old(claims))
        && trace == if hit then old(trace) + [Dropped(inv)] else old(trace)
    {
      if inv in claims && claims[inv].result.None? {
        Step(claims, trace, Dropped(inv));
        BackedStays(trace, outbox, Dropped(inv));
        hide ClaimsSafe, Mirrors, StagedBacked;
        claims := claims - {inv};
        trace := trace + [Dropped(inv)];
      }
    }

    /** The claim and the outbox entry together, or neither: a clash on any unique outbox column rolls the claim
        back. */
    method ClaimAndStageOutbox(inv: string, fingerprint: string, effect: string, key: string, request: string)
      returns (outcome: ClaimOutcome)
      requires Valid()
      modifies this
      ensures Valid()
      ensures
        var clash := effect in old(outbox) ||
          exists x :: x in old(outbox) && (old(outbox)[x].invocation == inv || old(outbox)[x].key == key);
        && (outcome.First? <==> inv !in old(claims) && !clash)
        && (outcome.StageConflict? <==> inv !in old(claims) && clash)
        && (outcome.Replay? <==> inv in old(claims) && old(claims)[inv].fingerprint == fingerprint)
      ensures outcome.First? ==>
                && claims == old(claims)[inv := Claim(fingerprint, None)]
                && outbox == old(outbox)[effect := Entry(inv, key, request)]
                && trace == old(trace) + [Won(inv, fingerprint), Staged(inv)]
      ensures !outcome.First? ==> claims == old(claims) && outbox == old(outbox)
      ensures outcome.StageConflict? ==> trace == old(trace)
      ensures outcome.Replay? ==> trace == old(trace) + [Replayed(inv, fingerprint)]
      ensures outcome.FingerprintMismatch? ==> trace == old(trace) + [Clashed(inv, fingerprint)]
    {
      hide ClaimsSafe, Standing;
      if inv in claims {
        outcome := ClaimIdempotency(inv, fingerprint);
        return;
      }
      if effect in outbox || exists x :: x in outbox && (outbox[x].invocation == inv || outbox[x].key == key) {
        return StageConflict;
      }
      outcome := ClaimIdempotency(inv, fingerprint);
      ghost var before := trace;
      Step(claims, trace, Staged(inv));
      trace := trace + [Staged(inv)];
      ghost var entries := outbox;
      outbox := outbox[effect := Entry(inv, key, request)];
      forall i | Staged(i) in trace ensures exists x :: x in outbox && outbox[x].invocation == i {
        if Staged(i) in before {
          var x :| x in entries && entries[x].invocation == i;
          assert outbox[x] == entries[x];
        } else {
          assert outbox[effect].invocation == i;
        }
      }
    }
  }

  // ---------- Every run ----------

  datatype Op =
    | OpClaim(inv: string, fingerprint: string)
    | OpComplete(inv: string, result: string)
    | OpRelease(inv: string)
    | OpClaimAndStage(inv: string, fingerprint: string, effect: string, key: string, request: string)

  method AllRuns(ops: seq<Op>) returns (trace: seq<Event>)
    ensures ClaimsSafe(trace)
  {
    hide ClaimsSafe, Standing, Mirrors;
    var s := new ExecutionStore();
    for i := 0 to |ops|
      invariant s.Valid() && fresh(s)
    {
      match ops[i] {
        case OpClaim(v, f) => var outcome := s.ClaimIdempotency(v, f);
        case OpComplete(v, r) => var ok := s.CompleteIdempotency(v, r);
        case OpRelease(v) => s.ReleaseIdempotency(v);
        case OpClaimAndStage(v, f, x, k, r) => var outcome := s.ClaimAndStageOutbox(v, f, x, k, r);
      }
    }
    trace := s.trace;
  }

  /** A claim stands, with its fingerprint, until it is released. */
  lemma {:induction false} ClaimStands(trace: seq<Event>, i: nat, j: nat)
    requires ClaimsSafe(trace) && i < j <= |trace| && trace[i].Won?
    requires forall k :: i < k < j ==> trace[k] != Dropped(trace[i].invocation)
    ensures Standing(trace[..j], trace[i].invocation).Some?
    ensures Standing(trace[..j], trace[i].invocation).value.fingerprint == trace[i].fingerprint
  {
    hide Admissible;
    if i < j - 1 {
      ClaimStands(trace, i, j - 1);
      assert Admissible(trace[..j - 1], trace[j - 1]);
      assert trace[..j - 1] + [trace[j - 1]] == trace[..j];
      StandsStep(trace[..j - 1], trace[j - 1], trace[i].invocation);
    } else {
      assert trace[..j][..j - 1] == trace[..j - 1];
    }
  }

  lemma StandsStep(before: seq<Event>, e: Event, invocation: string)
    requires Admissible(before, e) && Standing(before, invocation).Some? && e != Dropped(invocation)
    ensures Standing(before + [e], invocation).Some?
    ensures Standing(before + [e], invocation).value.fingerprint == Standing(before, invocation).value.fingerprint
  {
    assert (before + [e])[..|before|] == before;
  }

  /** Between a successful claim and its release no other claim of the invocation succeeds; a claim with the same
      fingerprint is a replay and one with another fingerprint fails. */
  lemma ExclusiveUntilReleased(trace: seq<Event>, i: nat, j: nat)
    requires ClaimsSafe(trace) && i < j < |trace| && trace[i].Won? && trace[j].invocation == trace[i].invocation
    requires forall k :: i < k < j ==> trace[k] != Dropped(trace[i].invocation)
    ensures !trace[j].Won?
    ensures trace[j].Replayed? ==> trace[j].fingerprint == trace[i].fingerprint
    ensures trace[j].Clashed? ==> trace[j].fingerprint != trace[i].fingerprint
  {
    ClaimStands(trace, i, j);
    assert Admissible(trace[..j], trace[j]);
  }

  /** A COMPLETED result never changes and never disappears. */
  lemma {:induction false} ResultIsForever(trace: seq<Event>, i: nat, j: nat)
    requires ClaimsSafe(trace) && i < j <= |trace| && trace[i].Finished?
    ensures Standing(trace[..j], trace[i].invocation).Some?
    ensures Standing(trace[..j], trace[i].invocation).value.result == Some(trace[i].result)
    ensures j < |trace| && trace[j].invocation == trace[i].invocation ==>
              !trace[j].Won? && !trace[j].Finished? && !trace[j].Dropped?
  {
    assert trace[..j][..j - 1] == trace[..j - 1];
    assert Admissible(trace[..j - 1], trace[j - 1]);
    if i < j - 1 {
      ResultIsForever(trace, i, j - 1);
    }
    if j < |trace| {
      assert Admissible(trace[..j], trace[j]);
    }
  }

  /** An invocation is staged at most once for all time, even when its claim is released in between. */
  lemma StagedOnce(trace: seq<Event>, i: nat, j: nat)
    requires ClaimsSafe(trace) && i < j < |trace| && trace[i].Staged?
    ensures trace[j] != trace[i]
  {
    assert trace[..j][i] == trace[i];
    assert Admissible(trace[..j], trace[j]);
  }

  /** So in every store an invocation that was ever staged can never be claimed-and-staged afresh: once its claim is
      gone, the attempt always fails. */
  method StagedIsNeverStagedAgain(s: ExecutionStore, inv: string, f: string, x: string, k: string, r: string)
    returns (outcome: ClaimOutcome)
    requires s.Valid() && Staged(inv) in s.trace
    modifies s
    ensures s.Valid() && !outcome.First? && s.claims == old(s.claims) && s.outbox == old(s.outbox)
    ensures outcome.StageConflict? <==> inv !in old(s.claims)
  {
    var y :| y in s.outbox && s.outbox[y].invocation == inv;
    hide ClaimsSafe, Standing, Mirrors, StagedBacked;
    outcome := s.ClaimAndStageOutbox(inv, f, x, k, r);
  }

  /** And releasing a claim just staged, in whatever store, strands the invocation. */
  method ReleasedStageIsStranded(
    s: ExecutionStore, inv: string, f: string, x: string, k: string, r: string, f': string, x': string, k': string,
    r': string)
    returns (first: ClaimOutcome, again: ClaimOutcome)
    requires s.Valid()
    modifies s
    ensures s.Valid() && (first.First? ==> again.StageConflict?)
  {
    hide ClaimsSafe, Standing, Mirrors, StagedBacked;
    first := s.ClaimAndStageOutbox(inv, f, x, k, r);
    again := first;
    if first.First? {
      s.ReleaseIdempotency(inv);
      assert s.trace[|s.trace| - 2] == Staged(inv);
      again := StagedIsNeverStagedAgain(s, inv, f', x', k', r');
    }
  }
}
