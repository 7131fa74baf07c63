/** The permission gate (harness/permission/capability.go). */
module Permission {
  import opened Messages
  import opened Suspensions
  import opened ToolControl
  import opened GateChain

  datatype Decision = Allow | Ask | Deny

  const PERMISSION_KIND := "harness.permission.v1"

  /** What resolving and judging one call gives; an unresolved effect is a denial. */
  datatype Judgement = Judgement(decision: Decision, request: PermissionRequest, error: Option<string>)

  type Policy = ToolUse -> Judgement

  predicate CompleteRequest(request: PermissionRequest) {
    request.capability != "" && request.action != "" && request.resourceValid
  }

  /** What the tool's effect resolver says of a call; NoResolver is a tool that registered none. */
  datatype Effect = NoResolver | EffectFailed(error: string) | EffectOf(request: PermissionRequest)

  const NoRequest := PermissionRequest("", "", "", false)

  /** gate.resolve: a tool without a resolver is asked about under its own name. */
  function Resolve(effect: Effect, call: ToolUse): (PermissionRequest, Option<string>) {
    match effect
    case NoResolver => (PermissionRequest("tool", call.name, call.name, call.name != ""), None)
    case EffectFailed(error) => (NoRequest, Some(error))
    case EffectOf(request) =>
      if CompleteRequest(request) then (request, None)
      else (NoRequest, Some("effect resolver returned an incomplete canonical effect"))
  }

  /** How the gate judges a call: the policy's decision on its resolved request, and denial where there is none. */
  function JudgeCall(effect: Effect, evaluate: PermissionRequest -> Decision, call: ToolUse): Judgement {
    var (request, error) := Resolve(effect, call);
    Judgement(if error.Some? then Deny else evaluate(request), request, error)
  }

  function PolicyOf(effects: ToolUse -> Effect, evaluate: PermissionRequest -> Decision): Policy {
    (call: ToolUse) => JudgeCall(effects(call), evaluate, call)
  }

  /** Whatever a resolver returns, the operator is asked about complete requests only, unless the call has no name. */
  lemma AskedIsComplete(effects: ToolUse -> Effect, evaluate: PermissionRequest -> Decision, call: ToolUse)
    requires call.name != "" && PolicyOf(effects, evaluate)(call).decision == Ask
    ensures CompleteRequest(PolicyOf(effects, evaluate)(call).request)
  {
    assert |"tool"| > 0;
  }

  /** A call is still up for decision. */
  predicate Pending(current: BatchDecision, i: int) {
    0 <= i < |current.calls| && current.calls[i].kind == DispositionExecute
  }

  datatype Evaluated = Evaluated(index: nat, judgement: Judgement)

  /** The judgements of the still-executable calls among the first `n`, in call order. */
  function Judged(policy: Policy, calls: seq<ToolUse>, current: BatchDecision, n: nat): seq<Evaluated>
    requires |current.calls| == |calls| && n <= |calls|
  {
    if n == 0 then []
    else
      Judged(policy, calls, current, n - 1)
      + (if Pending(current, n - 1) then [Evaluated(n - 1, policy(calls[n - 1]))] else [])
  }

  /** Judgements refer to pending calls, in increasing order, and miss none. */
  predicate Covers(policy: Policy, calls: seq<ToolUse>, current: BatchDecision, n: nat, values: seq<Evaluated>)
    requires |current.calls| == |calls| && n <= |calls|
  {
    && (forall k :: 0 <= k < |values| ==>
          values[k].index < n && Pending(current, values[k].index) && values[k].judgement == policy(calls[values[k].index]))
    && (forall k, m :: 0 <= k < m < |values| ==> values[k].index < values[m].index)
    && (forall i :: 0 <= i < n && Pending(current, i) ==> exists k :: 0 <= k < |values| && values[k].index == i)
  }

  lemma {:induction false} JudgedCovers(policy: Policy, calls: seq<ToolUse>, current: BatchDecision, n: nat)
    requires |current.calls| == |calls| && n <= |calls|
    ensures Covers(policy, calls, current, n, Judged(policy, calls, current, n))
  {
    if n > 0 {
      JudgedCovers(policy, calls, current, n - 1);
      var before, values := Judged(policy, calls, current, n - 1), Judged(policy, calls, current, n);
      forall i | 0 <= i < n && Pending(current, i) ensures exists k :: 0 <= k < |values| && values[k].index == i {
        if i < n - 1 {
          var k :| 0 <= k < |before| && before[k].index == i;
          assert values[k].index == i;
        } else {
          assert values[|before|].index == i;
        }
      }
    }
  }

  predicate AnyJudged(values: seq<Evaluated>, decision: Decision) {
    exists k :: 0 <= k < |values| && values[k].judgement.decision == decision
  }

  function DenialText(j: Judgement): string {
    if j.decision != Deny then "Tool call skipped because another call in the atomic batch was denied."
    else if j.error.Some? then "Tool call denied because its canonical effect could not be resolved: " + j.error.value
    else "Tool call denied by permission policy."
  }

  function Denied(call: ToolUse, j: Judgement): Disposition {
    Disposition(DispositionReturn, Some(Executed(ToolResult(call.id, call.name, DenialText(j), true), OtherCause)), true)
  }

  const SuspendDisposition := Disposition(DispositionSuspend, None, false)

  function IdAt(calls: seq<ToolUse>, i: nat): string {
    if i < |calls| then calls[i].id else ""
  }

  /** IDs of the judged calls that ask (or do not), in call order. */
  function JudgedIds(calls: seq<ToolUse>, values: seq<Evaluated>, asked: bool): seq<string>
  {
    if values == [] then []
    else
      var last := values[|values| - 1];
      JudgedIds(calls, values[..|values| - 1], asked)
      + (if (last.judgement.decision == Ask) == asked then [IdAt(calls, last.index)] else [])
  }

  function AskedRequests(calls: seq<ToolUse>, values: seq<Evaluated>): seq<DeferredRequest>
  {
    if values == [] then []
    else
      var last := values[|values| - 1];
      AskedRequests(calls, values[..|values| - 1])
      + (if last.judgement.decision == Ask then [DeferredRequest(IdAt(calls, last.index), last.judgement.request)] else [])
  }

  /** The gate's three verdicts on a batch, call by call. */
  predicate GateResult(policy: Policy, calls: seq<ToolUse>, current: BatchDecision, next: BatchDecision)
    requires |current.calls| == |calls|
  {
    var values := Judged(policy, calls, current, |calls|);
    && |next.calls| == |calls|
    && if AnyJudged(values, Deny) then
         // One denial returns every undecided call, so that none of the batch executes.
         && next.deferral == current.deferral
         && forall i :: 0 <= i < |calls| ==>
              next.calls[i] == if Pending(current, i) then Denied(calls[i], policy(calls[i])) else current.calls[i]
       else if AnyJudged(values, Ask) then
         // One question suspends every undecided call.
         && next.deferral == Some(Deferral(PERMISSION_KIND,
              PermissionBatch(1, JudgedIds(calls, values, true), JudgedIds(calls, values, false), AskedRequests(calls, values))))
         && forall i :: 0 <= i < |calls| ==>
              next.calls[i] == if Pending(current, i) then SuspendDisposition else current.calls[i]
       else next == current
  }

  lemma DeniedFits(call: ToolUse, j: Judgement)
    ensures Fits(call, Denied(call, j)) && Denied(call, j).kind == DispositionReturn
  {
  }

  lemma NothingSuspended(calls: seq<ToolUse>, current: BatchDecision)
    requires Acceptable(calls, current) && current.deferral.None?
    ensures !Suspends(current) && forall i :: 0 <= i < |calls| ==> current.calls[i].kind != DispositionSuspend
  {
  }

  /** The gate narrows, the root driver accepts what it decides, and it suspends exactly when it asks without denying. */
  lemma GateNarrows(policy: Policy, calls: seq<ToolUse>, current: BatchDecision, next: BatchDecision)
    requires Acceptable(calls, current) && current.deferral.None? && GateResult(policy, calls, current, next)
    ensures Narrows(current, next) && Acceptable(calls, next)
    ensures var values := Judged(policy, calls, current, |calls|);
      Suspends(next) <==> AnyJudged(values, Ask) && !AnyJudged(values, Deny)
  {
    hide JudgedIds, AskedRequests, Judged;
    var values := Judged(policy, calls, current, |calls|);
    JudgedCovers(policy, calls, current, |calls|);
    NothingSuspended(calls, current);
    if AnyJudged(values, Deny) {
      forall i | 0 <= i < |calls| ensures Fits(calls[i], next.calls[i]) && next.calls[i].kind != DispositionSuspend {
        DeniedFits(calls[i], policy(calls[i]));
      }
    } else if AnyJudged(values, Ask) {
      var k :| 0 <= k < |values| && values[k].judgement.decision == Ask;
      assert next.calls[values[k].index].kind == DispositionSuspend;
      forall i | 0 <= i < |calls| ensures Fits(calls[i], next.calls[i]) {}
    }
  }

  /** Some call still up for decision is judged so. */
  predicate SomeJudged(policy: Policy, calls: seq<ToolUse>, current: BatchDecision, decision: Decision)
    requires |current.calls| == |calls|
  {
    exists i :: 0 <= i < |calls| && Pending(current, i) && policy(calls[i]).decision == decision
  }

  lemma {:induction false} JudgedSome(policy: Policy, calls: seq<ToolUse>, current: BatchDecision, decision: Decision)
    requires |current.calls| == |calls|
    ensures AnyJudged(Judged(policy, calls, current, |calls|), decision) <==> SomeJudged(policy, calls, current, decision)
  {
    hide Judged;
    var values := Judged(policy, calls, current, |calls|);
    JudgedCovers(policy, calls, current, |calls|);
    if SomeJudged(policy, calls, current, decision) {
      var i :| 0 <= i < |calls| && Pending(current, i) && policy(calls[i]).decision == decision;
      var k :| 0 <= k < |values| && values[k].index == i;
      assert values[k].judgement.decision == decision;
    }
  }

  /**
   * Read off the policy alone: an undecided call runs only if the policy allows every undecided call. One denial answers all of them with a
   * failure in their own name; otherwise one question suspends all of them. What was decided before stays.
   */
  lemma {:induction false} GateDecides(policy: Policy, calls: seq<ToolUse>, current: BatchDecision, next: BatchDecision, i: nat)
    requires |current.calls| == |calls| && GateResult(policy, calls, current, next) && i < |calls|
    ensures |next.calls| == |calls| && (!Pending(current, i) ==> next.calls[i] == current.calls[i])
    ensures Pending(current, i) ==>
      var d := next.calls[i];
      if SomeJudged(policy, calls, current, Deny) then
        d.kind == DispositionReturn && d.result.Some? && Identified(calls[i], d.result.value) && d.result.value.result.isError && d.continues
      else if SomeJudged(policy, calls, current, Ask) then d == Disposition(DispositionSuspend, None, false)
      else d == current.calls[i] && policy(calls[i]).decision == Allow
  {
    JudgedSome(policy, calls, current, Deny);
    JudgedSome(policy, calls, current, Ask);
    hide Judged, AnyJudged, JudgedIds, AskedRequests, DenialText;
  }

  /** The first pass: judge what is still executable. */
  method Judge(policy: Policy, calls: seq<ToolUse>, current: BatchDecision) returns (values: seq<Evaluated>, hasDeny: bool, hasAsk: bool)
    requires |current.calls| == |calls|
    ensures values == Judged(policy, calls, current, |calls|)
    ensures (hasDeny <==> AnyJudged(values, Deny)) && (hasAsk <==> AnyJudged(values, Ask))
  {
    values, hasDeny, hasAsk := [], false, false;
    for i := 0 to |calls|
      invariant values == Judged(policy, calls, current, i)
      invariant (hasDeny <==> AnyJudged(values, Deny)) && (hasAsk <==> AnyJudged(values, Ask))
    {
      if current.calls[i].kind != DispositionExecute {
        continue;
      }
      var j := policy(calls[i]);
      ghost var before := values;
      hasDeny := hasDeny || j.decision == Deny;
      hasAsk := hasAsk || j.decision == Ask;
      values := values + [Evaluated(i, j)];
      assert values[|before|].judgement == j;
      assert forall k :: 0 <= k < |before| ==> values[k] == before[k];
    }
  }

  /** The denying pass. */
  method DenyAll(policy: Policy, calls: seq<ToolUse>, current: BatchDecision, values: seq<Evaluated>) returns (dispositions: seq<Disposition>)
    requires |current.calls| == |calls| && Covers(policy, calls, current, |calls|, values)
    ensures |dispositions| == |calls|
    ensures forall i :: 0 <= i < |calls| ==>
      dispositions[i] == if Pending(current, i) then Denied(calls[i], policy(calls[i])) else current.calls[i]
  {
    hide Denied, Reached;
    NoneReached(values);
    dispositions := current.calls;
    for k := 0 to |values|
      invariant |dispositions| == |calls|
      invariant forall i :: 0 <= i < |calls| ==>
        dispositions[i] == if Reached(values, k, i) then Denied(calls[i], policy(calls[i])) else current.calls[i]
    {
      ReachedNext(values, k);
      var index, judgement := values[k].index, values[k].judgement;
      assert judgement == policy(calls[index]) && Pending(current, index);
      dispositions := dispositions[index := Denied(calls[index], judgement)];
    }
    AllReached(policy, calls, current, values);
  }

  /** The suspending pass: dispositions, and the batch an operator has to resolve. */
  method SuspendAll(policy: Policy, calls: seq<ToolUse>, current: BatchDecision, values: seq<Evaluated>)
      returns (dispositions: seq<Disposition>, payload: DeferralPayload)
    requires |current.calls| == |calls| && Covers(policy, calls, current, |calls|, values)
    ensures |dispositions| == |calls|
    ensures forall i :: 0 <= i < |calls| ==>
      dispositions[i] == if Pending(current, i) then SuspendDisposition else current.calls[i]
    ensures payload == PermissionBatch(1, JudgedIds(calls, values, true), JudgedIds(calls, values, false), AskedRequests(calls, values))
  {
    hide Reached;
    NoneReached(values);
    dispositions := current.calls;
    var required, preAllowed: seq<string>, requests: seq<DeferredRequest> := [], [], [];
    for k := 0 to |values|
      invariant |dispositions| == |calls|
      invariant forall i :: 0 <= i < |calls| ==>
        dispositions[i] == if Reached(values, k, i) then SuspendDisposition else current.calls[i]
      invariant required == JudgedIds(calls, values[..k], true) && preAllowed == JudgedIds(calls, values[..k], false)
      invariant requests == AskedRequests(calls, values[..k])
    {
      var value := values[k];
      assert values[..k + 1][..k] == values[..k];
      if value.judgement.decision == Ask {
        required := required + [calls[value.index].id];
        requests := requests + [DeferredRequest(calls[value.index].id, value.judgement.request)];
      } else {
        preAllowed := preAllowed + [calls[value.index].id];
      }
      ReachedNext(values, k);
      dispositions := dispositions[value.index := SuspendDisposition];
    }
    assert values[..|values|] == values;
    AllReached(policy, calls, current, values);
    payload := PermissionBatch(1, required, preAllowed, requests);
  }

  method EvaluateGate(policy: Policy, calls: seq<ToolUse>, current: BatchDecision) returns (next: BatchDecision)
    requires |current.calls| == |calls|
    ensures GateResult(policy, calls, current, next)
  {
    hide Judged, JudgedIds, AskedRequests, Covers, Denied, Pending, AnyJudged;
    var values, hasDeny, hasAsk := Judge(policy, calls, current);
    JudgedCovers(policy, calls, current, |calls|);
    if hasDeny {
      var denied := DenyAll(policy, calls, current, values);
      return current.(calls := denied);
    }
    if !hasAsk {
      return current;
    }
    var dispositions, payload := SuspendAll(policy, calls, current, values);
    next := BatchDecision(dispositions, Some(Deferral(PERMISSION_KIND, payload)));
  }

  predicate Reached(values: seq<Evaluated>, k: nat, i: int)
    requires k <= |values|
  {
    exists m :: 0 <= m < k && values[m].index == i
  }

  lemma NoneReached(values: seq<Evaluated>)
    ensures forall i :: !Reached(values, 0, i)
  {
  }

  lemma ReachedNext(values: seq<Evaluated>, k: nat)
    requires k < |values|
    ensures forall i :: Reached(values, k + 1, i) <==> Reached(values, k, i) || values[k].index == i
  {
  }

  lemma AllReached(policy: Policy, calls: seq<ToolUse>, current: BatchDecision, values: seq<Evaluated>)
    requires |current.calls| == |calls| && Covers(policy, calls, current, |calls|, values)
    ensures forall i :: 0 <= i < |calls| ==> (Reached(values, |values|, i) <==> Pending(current, i))
  {
  }
}
