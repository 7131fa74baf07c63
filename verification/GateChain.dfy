/** The capability gate chain: every middleware may only narrow what earlier ones decided (harness/capability/capability.go). */
module GateChain {
  import opened Messages
  import opened Suspensions
  import opened ToolControl

  /** None is a middleware error. */
  type Middleware = (seq<ToolUse>, BatchDecision) -> Option<BatchDecision>

  /** A call that is no longer executable keeps its disposition. */
  predicate Narrows(current: BatchDecision, next: BatchDecision) {
    && |current.calls| == |next.calls|
    && forall i :: 0 <= i < |next.calls| && current.calls[i].kind != DispositionExecute ==> next.calls[i] == current.calls[i]
  }

  /** validateNarrowing. */
  method CheckNarrowing(calls: seq<ToolUse>, current: BatchDecision, next: BatchDecision) returns (ok: bool)
    requires |current.calls| == |calls|
    ensures ok <==> Narrows(current, next) && Acceptable(calls, next)
  {
    if |next.calls| != |calls| {
      return false;
    }
    var hasSuspend := false;
    for i := 0 to |calls|
      invariant forall k :: 0 <= k < i ==> Fits(calls[k], next.calls[k])
      invariant forall k :: 0 <= k < i && current.calls[k].kind != DispositionExecute ==> next.calls[k] == current.calls[k]
      invariant hasSuspend <==> exists k :: 0 <= k < i && next.calls[k].kind == DispositionSuspend
    {
      var previous, candidate := current.calls[i], next.calls[i];
      if previous.kind != DispositionExecute && previous != candidate {
        return false;
      }
      match candidate.kind
      case DispositionExecute =>
        if candidate.result.Some? {
          return false;
        }
      case DispositionReturn =>
        if candidate.result.None? || candidate.result.value.result.toolUseId != calls[i].id
          || candidate.result.value.result.name != calls[i].name
        {
          return false;
        }
      case DispositionSuspend =>
        if candidate.result.Some? || candidate.continues {
          return false;
        }
        hasSuspend := true;
      case DispositionInvalid =>
        return false;
    }
    if hasSuspend {
      return next.deferral.Some? && next.deferral.value.kind != "";
    }
    return next.deferral.None?;
  }

  /** The chain from one decision on; the first deferral ends it. */
  function Chain(gates: seq<Middleware>, calls: seq<ToolUse>, current: BatchDecision): Option<BatchDecision>
    decreases gates
  {
    if gates == [] then Some(current)
    else
      match gates[0](calls, current)
      case None => None
      case Some(next) =>
        if !Narrows(current, next) || !Acceptable(calls, next) then None
        else if next.deferral.Some? then Some(next)
        else Chain(gates[1..], calls, next)
  }

  /**
   * Whatever the middleware does, a successful chain hands the root driver a decision it accepts, and no call that any
   * prefix of the chain had returned or suspended is decided differently at the end.
   */
  lemma {:induction false} ChainNarrows(gates: seq<Middleware>, calls: seq<ToolUse>, current: BatchDecision)
    requires Acceptable(calls, current)
    ensures Chain(gates, calls, current).Some? ==>
      Narrows(current, Chain(gates, calls, current).value) && Acceptable(calls, Chain(gates, calls, current).value)
    decreases gates
  {
    if gates != [] && gates[0](calls, current).Some? {
      var next := gates[0](calls, current).value;
      if Narrows(current, next) && Acceptable(calls, next) && next.deferral.None? {
        ChainNarrows(gates[1..], calls, next);
      }
    }
  }

  /** A suffix of the chain narrows what the prefix decided. */
  lemma {:induction false} ChainSplits(left: seq<Middleware>, right: seq<Middleware>, calls: seq<ToolUse>, current: BatchDecision)
    requires Acceptable(calls, current) && Chain(left + right, calls, current).Some?
    ensures Chain(left, calls, current).Some?
    ensures var mid := Chain(left, calls, current).value;
      Narrows(mid, Chain(left + right, calls, current).value)
    decreases left
  {
    if left == [] {
      assert left + right == right;
      ChainNarrows(right, calls, current);
    } else {
      assert (left + right)[0] == left[0] && (left + right)[1..] == left[1..] + right;
      var next := left[0](calls, current).value;
      if next.deferral.None? {
        ChainSplits(left[1..], right, calls, next);
      }
    }
  }

  /** composedGate.EvaluateBatch. */
  method EvaluateBatch(gates: seq<Middleware>, calls: seq<ToolUse>) returns (r: Option<BatchDecision>)
    ensures r == Chain(gates, calls, AllowAll(|calls|))
    ensures r.Some? ==> Acceptable(calls, r.value)
  {
    AllowAllAcceptable(calls);
    var current := AllowAll(|calls|);
    for i := 0 to |gates|
      invariant Acceptable(calls, current)
      invariant Chain(gates, calls, AllowAll(|calls|)) == Chain(gates[i..], calls, current)
    {
      assert gates[i..][1..] == gates[i + 1..];
      var next := gates[i](calls, current);
      if next.None? {
        return None;
      }
      var ok := CheckNarrowing(calls, current, next.value);
      if !ok {
        return None;
      }
      current := next.value;
      if current.deferral.Some? {
        return Some(current);
      }
    }
    return Some(current);
  }
}
