/** `ois/autonomy/policy.py`, `ois/autonomy/workflows.py` and the envelope of `ois/autonomy/events.py`: what a
    workflow reacts to and what the automation policy says about an event. */
module Policy {
  import opened Prelude
  import opened Values

  /** A missing `source_id` is Null. */
  datatype Envelope =
    Envelope(id: string, tenant: string, workspace: string, kind: string, payload: map<string, Value>, source: Value)

  datatype Trigger = Trigger(kind: string, source: Option<string>, conditions: map<string, Value>)

  datatype WorkflowStatus = Enabled | Paused | Disabled

  datatype Workflow =
    Workflow(id: string, version: string, tenant: string, workspace: string, trigger: Trigger, status: WorkflowStatus)

  function Get(m: map<string, Value>, key: string): Value {
    if key in m then m[key] else Null
  }

  predicate Truthy(v: Value) {
    match v
    case Null => false
    case Bool(b) => b
    case Number(n) => n != 0
    case Text(s) => s != ""
    case List(items) => items != []
    case Tuple(items) => items != []
    case Dict(entries) => entries != []
  }

  /** The part of the trigger that the router looks at. */
  predicate Routes(t: Trigger, e: Envelope) {
    t.kind == e.kind && (t.source.None? || Text(t.source.value) == e.source)
  }

  predicate Matches(w: Workflow, e: Envelope) {
    && w.status == Enabled && e.tenant == w.tenant && e.workspace == w.workspace
    && Routes(w.trigger, e)
    && forall key :: key in w.trigger.conditions ==> Get(e.payload, key) == w.trigger.conditions[key]
  }

  /** The workflow is enabled and the event is its tenant's, of its workspace, type and source, and as conditioned. */
  ghost predicate MeantFor(w: Workflow, e: Envelope) {
    && w.status == Enabled && w.tenant == e.tenant && w.workspace == e.workspace && w.trigger.kind == e.kind
    && (w.trigger.source.Some? ==> e.source == Text(w.trigger.source.value))
    && forall key :: key in w.trigger.conditions ==>
         if key in e.payload then e.payload[key] == w.trigger.conditions[key] else w.trigger.conditions[key] == Null
  }

  lemma MatchesExactly(w: Workflow, e: Envelope)
    ensures Matches(w, e) <==> MeantFor(w, e)
  {
  }

  datatype Risk = Low | Medium | High | Critical

  function Rank(r: Risk): nat {
    match r
    case Low => 0
    case Medium => 1
    case High => 2
    case Critical => 3
  }

  /** None where `RiskLevel(str(v))` raises. */
  function RiskOf(v: Value): Option<Risk> {
    if v == Text("low") then Some(Low)
    else if v == Text("medium") then Some(Medium)
    else if v == Text("high") then Some(High)
    else if v == Text("critical") then Some(Critical)
    else None
  }

  datatype Rule =
    Rule(id: string, kind: Option<string>, maximumRisk: Risk, allowSideEffects: bool, requiredTags: seq<string>)

  type Context = map<string, Value>

  function ContextOf(e: Envelope): Context {
    e.payload["event_type" := Text(e.kind)]
  }

  predicate NeedsApproval(c: Context) {
    Truthy(Get(c, "requires_approval"))
  }

  function ContextRisk(c: Context): Option<Risk> {
    RiskOf(if "risk_level" in c then c["risk_level"] else Text("low"))
  }

  function Tags(v: Value): seq<Value> {
    match v
    case List(items) => items
    case Tuple(items) => items
    case _ => []
  }

  predicate KindFits(r: Rule, c: Context) {
    r.kind.Some? ==> Get(c, "event_type") == Text(r.kind.value)
  }

  datatype Answer = Fits | Fails | Raises

  function Ask(r: Rule, c: Context): Answer {
    if !KindFits(r, c) then Fails
    else if ContextRisk(c).None? then Raises
    else if Rank(ContextRisk(c).value) > Rank(r.maximumRisk) && !NeedsApproval(c) then Fails
    else if Get(c, "side_effects") != Null && Get(c, "side_effects") != Text("none") && !r.allowSideEffects then Fails
    else if forall i :: 0 <= i < |r.requiredTags| ==> Text(r.requiredTags[i]) in Tags(Get(c, "tags")) then Fits
    else Fails
  }

  /** `rule` is the id of the first rule that fits. */
  datatype Verdict = Allow(rule: string) | ApprovalRequired(rule: string) | Deny | Error

  function Evaluate(rules: seq<Rule>, c: Context): Verdict {
    if rules == [] then Deny
    else
      match Ask(rules[0], c)
      case Raises => Error
      case Fails => Evaluate(rules[1..], c)
      case Fits => if NeedsApproval(c) then ApprovalRequired(rules[0].id) else Allow(rules[0].id)
  }

  ghost predicate SomeRule(rules: seq<Rule>, c: Context, a: Answer) {
    exists r :: r in rules && Ask(r, c) == a
  }

  lemma SomeRuleSplits(rules: seq<Rule>, c: Context, a: Answer)
    requires rules != []
    ensures SomeRule(rules, c, a) <==> Ask(rules[0], c) == a || SomeRule(rules[1..], c, a)
  {
    assert rules == [rules[0]] + rules[1..];
  }

  /** The scan stops at the first rule that fits or raises, yet its verdict is a matter of which rules there are: an
      unreadable risk level makes every rule that looks at it raise, and a readable one none. */
  lemma {:induction false} VerdictMeans(rules: seq<Rule>, c: Context)
    ensures Evaluate(rules, c).Error? <==> ContextRisk(c).None? && exists r :: r in rules && KindFits(r, c)
    ensures Evaluate(rules, c).Allow? <==> SomeRule(rules, c, Fits) && !NeedsApproval(c)
    ensures Evaluate(rules, c).ApprovalRequired? <==> SomeRule(rules, c, Fits) && NeedsApproval(c)
  {
    if rules != [] {
      VerdictMeans(rules[1..], c);
      SomeRuleSplits(rules, c, Fits);
      assert rules == [rules[0]] + rules[1..];
      if Ask(rules[0], c) == Raises {
        assert !exists r :: r in rules && Ask(r, c) == Fits;
      }
    }
  }

  /** The rule that a permission names is the first that fits, and every rule before it fails. */
  lemma {:induction false} FirstFitIsNamed(rules: seq<Rule>, c: Context) returns (k: nat)
    requires Evaluate(rules, c).Allow? || Evaluate(rules, c).ApprovalRequired?
    ensures k < |rules| && rules[k].id == Evaluate(rules, c).rule && Ask(rules[k], c) == Fits
    ensures forall j :: 0 <= j < k ==> Ask(rules[j], c) == Fails
  {
    if Ask(rules[0], c) == Fits {
      k := 0;
    } else {
      var i := FirstFitIsNamed(rules[1..], c);
      k := i + 1;
      assert forall j :: 0 < j < k ==> rules[j] == rules[1..][j - 1];
    }
  }

  /** Reordering rules can change which rule is named, never what is permitted. */
  lemma RuleOrderDoesNotMatter(a: seq<Rule>, b: seq<Rule>, c: Context)
    requires forall r :: r in a <==> r in b
    ensures Evaluate(a, c).Allow? == Evaluate(b, c).Allow?
    ensures Evaluate(a, c).ApprovalRequired? == Evaluate(b, c).ApprovalRequired?
    ensures Evaluate(a, c).Deny? == Evaluate(b, c).Deny?
  {
    VerdictMeans(a, c);
    VerdictMeans(b, c);
  }

  // ---------- What a permission means for the event ----------

  /** The risk levels as events name them, lowest first. */
  const LEVELS: seq<string> := ["low", "medium", "high", "critical"]

  /** The event states its risk as level number `n`; an event that says nothing about risk has the lowest. */
  predicate StatesRisk(e: Envelope, n: nat) {
    n < |LEVELS| && if "risk_level" in e.payload then e.payload["risk_level"] == Text(LEVELS[n]) else n == 0
  }

  /** Level number `n` is not above the maximum. */
  predicate Within(n: nat, maximum: Risk) {
    match maximum
    case Low => n == 0
    case Medium => n == 0 || n == 1
    case High => n == 0 || n == 1 || n == 2
    case Critical => n < |LEVELS|
  }

  /** Python's false values. */
  predicate Falsy(v: Value) {
    v in {Null, Bool(false), Number(0), Text(""), List([]), Tuple([]), Dict([])}
  }

  predicate WantsApproval(e: Envelope) {
    "requires_approval" in e.payload && !Falsy(e.payload["requires_approval"])
  }

  predicate WithoutSideEffects(e: Envelope) {
    "side_effects" in e.payload ==> e.payload["side_effects"] in {Null, Text("none")}
  }

  predicate Tagged(e: Envelope, tag: string) {
    && "tags" in e.payload
    && match e.payload["tags"]
       case List(items) => Text(tag) in items
       case Tuple(items) => Text(tag) in items
       case _ => false
  }

  ghost predicate Admits(r: Rule, e: Envelope, n: nat) {
    && (r.kind.None? || r.kind.value == e.kind) && (Within(n, r.maximumRisk) || WantsApproval(e))
    && (r.allowSideEffects || WithoutSideEffects(e)) && forall tag :: tag in r.requiredTags ==> Tagged(e, tag)
  }

  ghost predicate SomeAdmits(rules: seq<Rule>, e: Envelope) {
    exists r, n :: r in rules && StatesRisk(e, n) && Admits(r, e, n)
  }

  /** The event states a risk that is none of the levels, and some rule is for its type and so looks at it. */
  ghost predicate Unreadable(rules: seq<Rule>, e: Envelope) {
    (forall n :: !StatesRisk(e, n)) && exists r :: r in rules && (r.kind.None? || r.kind.value == e.kind)
  }

  lemma RiskIsStated(e: Envelope)
    ensures
      var risk := ContextRisk(ContextOf(e));
      && (forall n :: StatesRisk(e, n) ==> risk.Some? && Rank(risk.value) == n)
      && (risk.Some? ==> StatesRisk(e, Rank(risk.value)))
  {
    if "risk_level" in e.payload {
      assert ContextOf(e)["risk_level"] == e.payload["risk_level"];
      assert LEVELS[0] == "low" && LEVELS[1] == "medium" && LEVELS[2] == "high" && LEVELS[3] == "critical";
      LevelsDiffer();
    }
  }

  lemma LevelsDiffer()
    ensures forall i, j :: 0 <= i < j < |LEVELS| ==> LEVELS[i] != LEVELS[j]
  {
    assert "low"[0] == 'l' && "medium"[0] == 'm' && "high"[0] == 'h' && "critical"[0] == 'c';
  }

  lemma ApprovalIsWanted(e: Envelope)
    ensures NeedsApproval(ContextOf(e)) == WantsApproval(e)
  {
  }

  lemma TagsAreRead(e: Envelope, tag: string)
    ensures Text(tag) in Tags(Get(ContextOf(e), "tags")) <==> Tagged(e, tag)
  {
  }

  lemma RuleFitsExactly(r: Rule, e: Envelope)
    ensures Ask(r, ContextOf(e)) == Fits <==> exists n :: StatesRisk(e, n) && Admits(r, e, n)
  {
    RiskIsStated(e);
    ApprovalIsWanted(e);
    forall tag ensures Text(tag) in Tags(Get(ContextOf(e), "tags")) <==> Tagged(e, tag) {
      TagsAreRead(e, tag);
    }
    assert Get(ContextOf(e), "side_effects") == Get(e.payload, "side_effects");
    assert forall n: nat :: StatesRisk(e, n) ==> (Within(n, r.maximumRisk) <==> n <= Rank(r.maximumRisk));
    hide StatesRisk, WantsApproval, NeedsApproval, Tagged, Tags, ContextRisk;
  }

  /** An event is permitted exactly when some rule is for its type, has a maximum that its stated risk does not
      exceed (or the event wants an approval anyway), allows side effects if it has any, and asks only for tags it
      carries; an approval is asked for exactly when the event wants one; and a risk that cannot be read raises as soon
      as a rule looks at it. */
  lemma PermittedExactly(rules: seq<Rule>, e: Envelope)
    ensures
      var v := Evaluate(rules, ContextOf(e));
      && (v.Allow? <==> SomeAdmits(rules, e) && !WantsApproval(e))
      && (v.ApprovalRequired? <==> SomeAdmits(rules, e) && WantsApproval(e))
      && (v.Error? <==> Unreadable(rules, e)) && (v.Deny? <==> !SomeAdmits(rules, e) && !Unreadable(rules, e))
  {
    VerdictMeans(rules, ContextOf(e));
    ApprovalIsWanted(e);
    RiskIsStated(e);
    assert forall r :: KindFits(r, ContextOf(e)) <==> (r.kind.None? || r.kind.value == e.kind);
    forall r | r in rules ensures Ask(r, ContextOf(e)) == Fits <==> exists n :: StatesRisk(e, n) && Admits(r, e, n) {
      RuleFitsExactly(r, e);
    }
    hide Evaluate, Ask, ContextOf, StatesRisk, Admits, WantsApproval, NeedsApproval, KindFits, ContextRisk;
  }

  /** `r'` asks no more of an event than `r`. */
  ghost predicate Looser(r: Rule, r': Rule) {
    && (r'.kind.None? || r'.kind == r.kind) && (forall n :: Within(n, r.maximumRisk) ==> Within(n, r'.maximumRisk))
    && (r.allowSideEffects ==> r'.allowSideEffects) && forall tag :: tag in r'.requiredTags ==> tag in r.requiredTags
  }

  /** Raising a maximum, allowing side effects, dropping a required tag or adding rules never turns a permission into a
      denial, and never changes whether an approval is asked for. */
  lemma LooserRulesPermitMore(rules: seq<Rule>, rules': seq<Rule>, e: Envelope)
    requires forall r :: r in rules ==> exists r' :: r' in rules' && Looser(r, r')
    ensures Evaluate(rules, ContextOf(e)).Allow? ==> Evaluate(rules', ContextOf(e)).Allow?
    ensures Evaluate(rules, ContextOf(e)).ApprovalRequired? ==> Evaluate(rules', ContextOf(e)).ApprovalRequired?
  {
    PermittedExactly(rules, e);
    PermittedExactly(rules', e);
    if SomeAdmits(rules, e) {
      var r, n :| r in rules && StatesRisk(e, n) && Admits(r, e, n);
      var r' :| r' in rules' && Looser(r, r');
      hide Evaluate, ContextOf, StatesRisk, Within, WantsApproval, WithoutSideEffects, Tagged;
      assert Admits(r', e, n);
    }
  }

  /** `e'` is like `e` with no more risk, no more side effects and no fewer tags. */
  ghost predicate Milder(e: Envelope, e': Envelope) {
    && e'.kind == e.kind && WantsApproval(e') == WantsApproval(e)
    && (forall n :: StatesRisk(e, n) ==> exists m :: m <= n && StatesRisk(e', m))
    && (WithoutSideEffects(e) ==> WithoutSideEffects(e')) && forall tag :: Tagged(e, tag) ==> Tagged(e', tag)
  }

  lemma MilderEventsPass(rules: seq<Rule>, e: Envelope, e': Envelope)
    requires Milder(e, e')
    ensures Evaluate(rules, ContextOf(e)).Allow? ==> Evaluate(rules, ContextOf(e')).Allow?
    ensures Evaluate(rules, ContextOf(e)).ApprovalRequired? ==> Evaluate(rules, ContextOf(e')).ApprovalRequired?
  {
    PermittedExactly(rules, e);
    PermittedExactly(rules, e');
    if SomeAdmits(rules, e) {
      var r, n :| r in rules && StatesRisk(e, n) && Admits(r, e, n);
      var m :| m <= n && StatesRisk(e', m);
      hide Evaluate, ContextOf, StatesRisk, WantsApproval, WithoutSideEffects, Tagged;
      assert Within(n, r.maximumRisk) ==> Within(m, r.maximumRisk);
      assert Admits(r, e', m);
    }
  }

  /** No rule's maximum reaches the risk that the event states. */
  ghost predicate AboveEveryMaximum(rules: seq<Rule>, e: Envelope) {
    exists n :: StatesRisk(e, n) && forall r :: r in rules ==> !Within(n, r.maximumRisk)
  }

  /** Such an event is denied unless it wants an approval itself. */
  lemma AboveEveryMaximumIsDenied(rules: seq<Rule>, e: Envelope)
    requires AboveEveryMaximum(rules, e) && !WantsApproval(e)
    ensures Evaluate(rules, ContextOf(e)).Deny?
  {
    PermittedExactly(rules, e);
    hide Evaluate, ContextOf, WantsApproval, Within;
    var n :| StatesRisk(e, n) && forall r :: r in rules ==> !Within(n, r.maximumRisk);
    assert forall m :: StatesRisk(e, m) ==> m == n by {
      LevelsDiffer();
    }
  }
}
