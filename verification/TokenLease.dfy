/** Redis leases with fencing tokens. `ScriptLease` is the one-script lease of
    `ois/kernel/production_resilience.py`; `TwoStepLease` is the INCR-then-SET lease of
    `production/ois_production_kernel.py`. A Lua script is one step; keys may expire at any time. */
module TokenLease {
  import opened Prelude

  datatype Holder = Holder(nonce: string, token: nat)

  datatype Event =
    | Granted(holder: Holder)
    | Passed(holder: Holder)
    | Accepted(token: nat)

  function LastGrant(trace: seq<Event>): Option<Holder> {
    if trace == [] then None
    else if trace[|trace| - 1].Granted? then Some(trace[|trace| - 1].holder)
    else LastGrant(trace[..|trace| - 1])
  }

  ghost predicate TokensIncrease(trace: seq<Event>) {
    forall i, j :: 0 <= i < j < |trace| && trace[i].Granted? && trace[j].Granted? ==>
      trace[i].holder.token < trace[j].holder.token
  }

  /** A lease passes `assert_current` only while it is the latest one granted. */
  ghost predicate OnlyLatestPasses(trace: seq<Event>) {
    forall i :: 0 <= i < |trace| && trace[i].Passed? ==> LastGrant(trace[..i]) == Some(trace[i].holder)
  }

  /** The protected resource refuses a token smaller than one it has accepted. */
  ghost predicate ResourceMonotone(trace: seq<Event>) {
    forall i, j :: 0 <= i < j < |trace| && trace[i].Accepted? && trace[j].Accepted? ==> trace[i].token <= trace[j].token
  }

  ghost predicate TokenSafe(trace: seq<Event>) {
    TokensIncrease(trace) && OnlyLatestPasses(trace) && ResourceMonotone(trace)
  }

  class ScriptLease {
    var held: Option<Holder>
    var sequence: nat
    var highest: nat
    var trace: seq<Event>

    ghost predicate Valid()
      reads this
    {
      && TokenSafe(trace)
      && (held.Some? ==> LastGrant(trace) == held)
      && (forall i :: 0 <= i < |trace| && trace[i].Granted? ==> trace[i].holder.token <= sequence)
      && (forall i :: 0 <= i < |trace| && trace[i].Accepted? ==> trace[i].token <= highest)
    }

    constructor ()
      ensures Valid() && trace == [] && held == None && sequence == 0 && highest == 0
    {
      held, sequence, highest, trace := None, 0, 0, [];
    }

    /** ACQUIRE_LUA: existence check, INCR and HSET in one script. */
    method Acquire(nonce: string) returns (lease: Option<Holder>)
      requires Valid()
      modifies this
      ensures Valid() && highest == old(highest)
      ensures lease.Some? <==> old(held).None?
      ensures lease.None? ==> held == old(held) && sequence == old(sequence) && trace == old(trace)
      ensures lease.Some? ==>
                && lease == Some(Holder(nonce, old(sequence) + 1)) && held == lease && sequence == old(sequence) + 1
                && trace == old(trace) + [Granted(lease.value)]
    {
      if held.Some? {
        return None;
      }
      sequence := sequence + 1;
      held := Some(Holder(nonce, sequence));
      Prefixes(trace, Granted(held.value));
      LastGrantStep(trace, Granted(held.value));
      trace := trace + [Granted(held.value)];
      lease := held;
    }

    /** RENEW_LUA only moves the expiry, which the model leaves open. */
    method Renew(nonce: string) returns (ok: bool)
      ensures ok <==> held.Some? && held.value.nonce == nonce
    {
      ok := held.Some? && held.value.nonce == nonce;
    }

    method Release(nonce: string)
      requires Valid()
      modifies this`held
      ensures Valid()
      ensures held == if old(held).Some? && old(held).value.nonce == nonce then None else old(held)
    {
      if held.Some? && held.value.nonce == nonce {
        held := None;
      }
    }

    method Expire()
      requires Valid()
      modifies this`held
      ensures Valid() && held == None
    {
      held := None;
    }

    method AssertCurrent(lease: Holder) returns (ok: bool)
      requires Valid()
      modifies this`trace
      ensures Valid()
      ensures ok <==> held == Some(lease)
      ensures trace == if ok then old(trace) + [Passed(lease)] else old(trace)
    {
      ok := held.Some? && held.value.nonce == lease.nonce && held.value.token == lease.token;
      if ok {
        Prefixes(trace, Passed(lease));
        LastGrantStep(trace, Passed(lease));
        trace := trace + [Passed(lease)];
      }
    }

    /** A mutation whose predicate applies the token, as `execute_fenced_transaction` demands. */
    method ProtectedWrite(token: nat) returns (ok: bool)
      requires Valid()
      modifies this`trace, this`highest
      ensures Valid()
      ensures ok <==> token >= old(highest)
      ensures highest == (if ok then token else old(highest))
      ensures trace == if ok then old(trace) + [Accepted(token)] else old(trace)
    {
      ok := token >= highest;
      if ok {
        Prefixes(trace, Accepted(token));
        LastGrantStep(trace, Accepted(token));
        highest := token;
        trace := trace + [Accepted(token)];
      }
    }
  }

  lemma LastGrantStep(trace: seq<Event>, e: Event)
    ensures LastGrant(trace + [e]) == if e.Granted? then Some(e.holder) else LastGrant(trace)
  {
    Prefixes(trace, e);
  }

  datatype Op =
    | OpAcquire(nonce: string)
    | OpRelease(nonce: string)
    | OpExpire
    | OpAssertCurrent(lease: Holder)
    | OpWrite(token: nat)

  /** Every interleaving, with workers that pause anywhere between a check and a write. */
  method AllRuns(ops: seq<Op>) returns (trace: seq<Event>)
    ensures TokenSafe(trace)
  {
    var s := new ScriptLease();
    for i := 0 to |ops|
      invariant s.Valid() && fresh(s)
    {
      var ok, lease;
      match ops[i] {
        case OpAcquire(n) => lease := s.Acquire(n);
        case OpRelease(n) => s.Release(n);
        case OpExpire => s.Expire();
        case OpAssertCurrent(l) => ok := s.AssertCurrent(l);
        case OpWrite(t) => ok := s.ProtectedWrite(t);
      }
    }
    trace := s.trace;
  }

  lemma {:induction false} LastGrantIsLatest(trace: seq<Event>, b: nat, k: nat)
    requires TokensIncrease(trace) && b < k <= |trace| && trace[b].Granted?
    ensures LastGrant(trace[..k]).Some? && LastGrant(trace[..k]).value.token >= trace[b].holder.token
  {
    assert trace[..k][..k - 1] == trace[..k - 1];
    if b < k - 1 && !trace[k - 1].Granted? {
      LastGrantIsLatest(trace, b, k - 1);
    }
  }

  /** A superseded lease never passes `assert_current` again. */
  lemma SupersededNeverPasses(trace: seq<Event>, a: nat, b: nat, k: nat)
    requires TokenSafe(trace) && a < b < k < |trace| && trace[a].Granted? && trace[b].Granted?
    ensures trace[k] != Passed(trace[a].holder)
  {
    LastGrantIsLatest(trace, b, k);
  }

  /** The resource never takes the write of an older holder after the write of a newer one. */
  lemma OlderNeverAfterNewer(trace: seq<Event>, a: nat, b: nat, i: nat, j: nat)
    requires TokenSafe(trace) && a < b < |trace| && trace[a].Granted? && trace[b].Granted?
    requires i < |trace| && j < |trace| && trace[i] == Accepted(trace[b].holder.token)
    requires trace[j] == Accepted(trace[a].holder.token)
    ensures j < i
  {
    assert trace[a].holder.token < trace[b].holder.token;
  }

  // ---------- INCR, then SET NX ----------

  datatype Move =
    | Drew(token: nat)
    | Took(owner: string, token: nat)
    | Freed

  function Holding(trace: seq<Move>): Option<nat> {
    if trace == [] then None
    else match trace[|trace| - 1]
      case Took(_, t) => Some(t)
      case Freed => None
      case Drew(_) => Holding(trace[..|trace| - 1])
  }

  ghost predicate DrawsIncrease(trace: seq<Move>) {
    forall i, j :: 0 <= i < j < |trace| && trace[i].Drew? && trace[j].Drew? ==> trace[i].token < trace[j].token
  }

  ghost predicate TakenOnce(trace: seq<Move>) {
    forall i, j :: 0 <= i < j < |trace| && trace[i].Took? && trace[j].Took? ==> trace[i].token != trace[j].token
  }

  ghost predicate DrawnBefore(trace: seq<Move>, i: nat)
    requires i < |trace| && trace[i].Took?
  {
    exists d :: 0 <= d < i && trace[d] == Drew(trace[i].token)
  }

  ghost predicate TwoStepSafe(trace: seq<Move>) {
    && DrawsIncrease(trace) && TakenOnce(trace)
    && (forall i :: 0 <= i < |trace| && trace[i].Took? ==> DrawnBefore(trace, i) && Holding(trace[..i]) == None)
  }

  class TwoStepLease {
    var counter: nat
    var value: Option<(string, nat)>
    var drawn: set<nat>
    var trace: seq<Move>

    ghost predicate Valid()
      reads this
    {
      && TwoStepSafe(trace)
      && Holding(trace) == (if value.Some? then Some(value.value.1) else None)
      && (forall i :: 0 <= i < |trace| && trace[i].Drew? ==> trace[i].token <= counter)
      && (forall i :: 0 <= i < |trace| && trace[i].Took? ==> trace[i].token !in drawn && trace[i].token <= counter)
      && AllDrawn(drawn, trace)
    }

    constructor ()
      ensures Valid() && counter == 0 && value == None && drawn == {} && trace == []
    {
      counter, value, drawn, trace := 0, None, {}, [];
    }

    /** The INCR half of `acquire`. */
    method Draw() returns (token: nat)
      requires Valid()
      modifies this`counter, this`drawn, this`trace
      ensures Valid() && token == old(counter) + 1 && counter == token
      ensures drawn == old(drawn) + {token} && trace == old(trace) + [Drew(token)]
    {
      hide TwoStepSafe, AllDrawn, Holding;
      counter := counter + 1;
      token := counter;
      MoveStep(trace, Drew(token));
      DrawnStays(drawn, trace, Drew(token));
      trace := trace + [Drew(token)];
      drawn := drawn + {token};
    }

    /** The SET NX half, for a token drawn before and not yet tried. */
    method Take(owner: string, token: nat) returns (ok: bool)
      requires Valid()
      modifies this`value, this`drawn, this`trace
      ensures Valid()
      ensures ok <==> token in old(drawn) && old(value).None?
      ensures drawn == old(drawn) - {token}
      ensures value == if ok then Some((owner, token)) else old(value)
      ensures trace == if ok then old(trace) + [Took(owner, token)] else old(trace)
    {
      hide TwoStepSafe, AllDrawn, Holding, DrawnBefore;
      ok := token in drawn && value.None?;
      if ok {
        DrawnStays(drawn, trace, Took(owner, token));
        MoveStep(trace, Took(owner, token));
        value := Some((owner, token));
        trace := trace + [Took(owner, token)];
      }
      FewerDrawn(drawn, drawn - {token}, trace);
      drawn := drawn - {token};
    }

    /** The release script compares owner and token; expiry needs neither. */
    method Free(expired: bool, owner: string, token: nat)
      requires Valid()
      modifies this`value, this`trace
      ensures Valid()
      ensures
        var hit := old(value).Some? && (expired || old(value) == Some((owner, token)));
        value == (if hit then None else old(value)) && trace == if hit then old(trace) + [Freed] else old(trace)
    {
      if value.Some? && (expired || value == Some((owner, token))) {
        hide TwoStepSafe, AllDrawn, Holding;
        value := None;
        MoveStep(trace, Freed);
        DrawnStays(drawn, trace, Freed);
        trace := trace + [Freed];
      }
    }
  }

  ghost predicate AllDrawn(drawn: set<nat>, trace: seq<Move>) {
    forall t :: t in drawn ==> exists d :: 0 <= d < |trace| && trace[d] == Drew(t)
  }

  lemma DrawnStays(drawn: set<nat>, trace: seq<Move>, m: Move)
    requires AllDrawn(drawn, trace)
    ensures AllDrawn(if m.Drew? then drawn + {m.token} else drawn, trace + [m])
    ensures m.Took? && m.token in drawn ==> DrawnBefore(trace + [m], |trace|)
  {
    forall t | t in drawn ensures exists d :: 0 <= d < |trace| && (trace + [m])[d] == Drew(t) {
      var d :| 0 <= d < |trace| && trace[d] == Drew(t);
      assert (trace + [m])[d] == Drew(t);
    }
    assert (trace + [m])[|trace|] == m;
  }

  lemma FewerDrawn(drawn: set<nat>, fewer: set<nat>, trace: seq<Move>)
    requires AllDrawn(drawn, trace) && fewer <= drawn
    ensures AllDrawn(fewer, trace)
  {
  }

  lemma MoveStep(trace: seq<Move>, m: Move)
    requires TwoStepSafe(trace)
    requires m.Drew? ==> forall i :: 0 <= i < |trace| && trace[i].Drew? ==> trace[i].token < m.token
    requires m.Took? ==> Holding(trace) == None && DrawnBefore(trace + [m], |trace|)
    requires m.Took? ==> forall i :: 0 <= i < |trace| && trace[i].Took? ==> trace[i].token != m.token
    ensures TwoStepSafe(trace + [m])
    ensures Holding(trace + [m]) == match m case Drew(_) => Holding(trace) case Took(_, t) => Some(t) case Freed => None
  {
    var t := trace + [m];
    assert t[..|t| - 1] == trace;
    forall i | 0 <= i < |t| && t[i].Took? ensures DrawnBefore(t, i) && Holding(t[..i]) == None {
      if i < |trace| {
        assert t[..i] == trace[..i];
        var d :| 0 <= d < i && trace[d] == Drew(trace[i].token);
        assert t[d] == Drew(t[i].token);
      } else {
        assert t[..i] == trace;
      }
    }
  }

  datatype TwoStepOp = OpDraw | OpTake(owner: string, token: nat) | OpFree(expired: bool, owner: string, token: nat)

  method AllTwoStepRuns(ops: seq<TwoStepOp>) returns (trace: seq<Move>)
    ensures TwoStepSafe(trace)
  {
    var s := new TwoStepLease();
    for i := 0 to |ops|
      invariant s.Valid() && fresh(s)
    {
      var ok, token;
      match ops[i] {
        case OpDraw => token := s.Draw();
        case OpTake(o, t) => ok := s.Take(o, t);
        case OpFree(e, o, t) => s.Free(e, o, t);
      }
    }
    trace := s.trace;
  }

  lemma {:induction false} HeldUntilFreed(trace: seq<Move>, i: nat, j: nat)
    requires TwoStepSafe(trace) && i < j <= |trace| && trace[i].Took?
    requires forall k :: i < k < j ==> trace[k] != Freed
    ensures Holding(trace[..j]).Some?
  {
    assert trace[..j][..j - 1] == trace[..j - 1];
    if i < j - 1 {
      HeldUntilFreed(trace, i, j - 1);
    }
  }

  /** One holder at a time: between two grants the lease was released or expired. */
  lemma OneHolder(trace: seq<Move>, i: nat, j: nat)
    requires TwoStepSafe(trace) && i < j < |trace| && trace[i].Took? && trace[j].Took?
    ensures exists k :: i < k < j && trace[k] == Freed
  {
    if forall k :: i < k < j ==> trace[k] != Freed {
      HeldUntilFreed(trace, i, j);
    }
  }

  /** Grant order agrees with token order exactly where no acquirer was overtaken between its INCR and its SET: of
      two grants the later has the larger token if and only if it also drew later. */
  lemma GrantOrderExactlyWithoutOvertaking(trace: seq<Move>, i: nat, j: nat, di: nat, dj: nat)
    requires TwoStepSafe(trace) && i < j < |trace| && trace[i].Took? && trace[j].Took?
    requires di < |trace| && dj < |trace| && trace[di] == Drew(trace[i].token) && trace[dj] == Drew(trace[j].token)
    ensures trace[i].token < trace[j].token <==> di < dj
  {
    assert trace[i].token != trace[j].token;
  }

  /** Overtaking happens: the second holder carries the smaller token. */
  method GrantOrderCanFail() returns (trace: seq<Move>)
    ensures TwoStepSafe(trace)
    ensures trace == [Drew(1), Drew(2), Took("b", 2), Freed, Took("a", 1)]
  {
    hide TwoStepSafe, AllDrawn, Holding;
    var s := new TwoStepLease();
    var one := s.Draw();
    var two := s.Draw();
    var ok := s.Take("b", two);
    s.Free(false, "b", two);
    ok := s.Take("a", one);
    trace := s.trace;
  }

  // ---------- The retry loop around a protected operation ----------

  /** How one attempt of `execute_fenced_transaction` goes: ownership lost before the commit; an error that is not
      retried; a transient error; or a commit followed by the success record, which may fail in either way. An error
      may also reach the caller although the commit had `landed` on the server. */
  datatype Attempt =
    | OwnershipLost
    | OtherError(landed: bool)
    | TransientError(landed: bool, deadlinePassed: bool, sinkAvailable: bool)
    | Committed(recorded: bool, transient: bool, deadlinePassed: bool, sinkAvailable: bool)

  datatype TransactionOutcome = Done | Rejected | Raised | DeadLettered | SinkUnavailable

  /** The operation has taken effect in the database. */
  predicate Lands(a: Attempt) {
    a.Committed? || ((a.OtherError? || a.TransientError?) && a.landed)
  }

  /** It has, but the caller does not learn of it: the answer to the commit was lost, or the success record, which is
      appended inside the retried block after the commit, failed. */
  predicate LandsUnseen(a: Attempt) {
    Lands(a) && !(a.Committed? && a.recorded)
  }

  /** What makes the loop go round again, if attempts remain. */
  predicate Retryable(a: Attempt) {
    (a.TransientError? || (a.Committed? && !a.recorded && a.transient)) && !a.deadlinePassed && a.sinkAvailable
  }

  function Commits(attempt: nat -> Attempt, n: nat): nat {
    if n == 0 then 0 else Commits(attempt, n - 1) + (if Lands(attempt(n - 1)) then 1 else 0)
  }

  lemma {:induction false} CommitsBeforeLast(attempt: nat -> Attempt, n: nat)
    requires forall k :: 0 <= k < n ==> Retryable(attempt(k))
    ensures Commits(attempt, n) == 0 <==> forall k :: 0 <= k < n ==> !LandsUnseen(attempt(k))
  {
    if n > 0 {
      CommitsBeforeLast(attempt, n - 1);
      assert Retryable(attempt(n - 1));
    }
  }

  /** Attempts go on exactly while they are retryable and `max_retries` allows; the last one decides what the caller is
      told. The operation takes effect once when that is success and not at all otherwise, exactly when no attempt took
      effect unseen. */
  method ExecuteFencedTransaction(maxRetries: nat, attempt: nat -> Attempt)
    returns (outcome: TransactionOutcome, attempts: nat, commits: nat)
    ensures 1 <= attempts <= maxRetries + 1
    ensures forall n :: 0 <= n < attempts - 1 ==> Retryable(attempt(n))
    ensures attempts <= maxRetries ==> !Retryable(attempt(attempts - 1))
    ensures
      var last := attempt(attempts - 1);
      outcome ==
      if last.OwnershipLost? then Rejected
      else if last.Committed? && last.recorded then Done
      else if last.OtherError? || (last.Committed? && !last.transient) then Raised
      else if last.sinkAvailable then DeadLettered else SinkUnavailable
    ensures commits == Commits(attempt, attempts)
    ensures commits == (if outcome.Done? then 1 else 0) <==> forall n :: 0 <= n < attempts ==> !LandsUnseen(attempt(n))
  {
    var retryCount := 0;
    attempts, commits := 0, 0;
    while true
      invariant attempts == retryCount <= maxRetries
      invariant forall n :: 0 <= n < attempts ==> Retryable(attempt(n))
      invariant commits == Commits(attempt, attempts)
      decreases maxRetries - retryCount
    {
      CommitsBeforeLast(attempt, attempts);
      var a := attempt(attempts);
      attempts := attempts + 1;
      if a.OwnershipLost? {
        return Rejected, attempts, commits;
      }
      if Lands(a) {
        commits := commits + 1;
      }
      if a.Committed? && a.recorded {
        return Done, attempts, commits;
      }
      if a.OtherError? || (a.Committed? && !a.transient) {
        return Raised, attempts, commits;
      }
      retryCount := retryCount + 1;
      if retryCount > maxRetries || a.deadlinePassed {
        return if a.sinkAvailable then DeadLettered else SinkUnavailable, attempts, commits;
      }
      if !a.sinkAvailable {
        return SinkUnavailable, attempts, commits;
      }
    }
  }
}
