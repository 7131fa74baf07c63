/** Tool results, gate dispositions and the root driver's check of a gate decision (tool_control.go, tool_scheduler.go). */
module ToolControl {
  import opened Messages
  import opened Suspensions

  /** How a tool result failed, as far as the driver distinguishes: ModelRetry asks for another attempt. */
  datatype Cause = NoCause | RetryCause | OtherCause

  datatype Executed = Executed(result: ToolResult, cause: Cause)

  function ErrorResult(call: ToolUse, text: string, cause: Cause): Executed {
    Executed(ToolResult(call.id, call.name, text, true), if cause == NoCause then OtherCause else cause)
  }

  predicate Identified(call: ToolUse, result: Executed) {
    result.result.toolUseId == call.id && result.result.name == call.name
  }

  datatype DispositionKind = DispositionInvalid | DispositionExecute | DispositionReturn | DispositionSuspend

  datatype Disposition = Disposition(kind: DispositionKind, result: Option<Executed>, continues: bool)

  datatype BatchDecision = BatchDecision(calls: seq<Disposition>, deferral: Option<Deferral>)

  datatype GateOutcome = GateFailed(text: string) | Decided(decision: BatchDecision)

  /** One disposition fits its call. */
  predicate Fits(call: ToolUse, d: Disposition) {
    match d.kind
    case DispositionExecute => d.result.None?
    case DispositionReturn => d.result.Some? && Identified(call, d.result.value)
    case DispositionSuspend => d.result.None? && !d.continues
    case DispositionInvalid => false
  }

  predicate Suspends(decision: BatchDecision) {
    exists i :: 0 <= i < |decision.calls| && decision.calls[i].kind == DispositionSuspend
  }

  /** A decision the root driver accepts: one fitting disposition per call, and a deferral exactly when a call is suspended. */
  predicate Acceptable(calls: seq<ToolUse>, decision: BatchDecision) {
    && |decision.calls| == |calls|
    && (forall i :: 0 <= i < |calls| ==> Fits(calls[i], decision.calls[i]))
    && (Suspends(decision) ==> decision.deferral.Some? && decision.deferral.value.kind != "")
    && (!Suspends(decision) ==> decision.deferral.None?)
  }

  /** validateToolBatchDecision: None is a refused decision, otherwise whether the batch is suspended. */
  method ValidateDecision(calls: seq<ToolUse>, decision: BatchDecision) returns (r: Option<bool>)
    ensures r.Some? <==> Acceptable(calls, decision)
    ensures r.Some? ==> (r.value <==> Suspends(decision))
  {
    if |decision.calls| != |calls| {
      return None;
    }
    var hasSuspend := false;
    for i := 0 to |calls|
      invariant forall k :: 0 <= k < i ==> Fits(calls[k], decision.calls[k])
      invariant hasSuspend <==> exists k :: 0 <= k < i && decision.calls[k].kind == DispositionSuspend
    {
      var call, disposition := calls[i], decision.calls[i];
      match disposition.kind
      case DispositionExecute =>
        if disposition.result.Some? {
          return None;
        }
      case DispositionReturn =>
        if disposition.result.None? || !Identified(call, disposition.result.value) {
          return None;
        }
      case DispositionSuspend =>
        hasSuspend := true;
        if disposition.result.Some? || disposition.continues {
          return None;
        }
      case DispositionInvalid =>
        return None;
    }
    if hasSuspend {
      if decision.deferral.None? || decision.deferral.value.kind == "" {
        return None;
      }
      return Some(true);
    }
    if decision.deferral.Some? {
      return None;
    }
    return Some(false);
  }

  const ExecuteDisposition := Disposition(DispositionExecute, None, false)

  function AllowAll(count: nat): (decision: BatchDecision)
    ensures |decision.calls| == count
  {
    BatchDecision(seq(count, i requires 0 <= i < count => ExecuteDisposition), None)
  }

  lemma AllowAllAcceptable(calls: seq<ToolUse>)
    ensures Acceptable(calls, AllowAll(|calls|)) && !Suspends(AllowAll(|calls|))
  {
  }

  datatype ResumeAction = ResumeInvalid | ResumeExecute | ResumeReturn

  /** `input` None keeps the persisted arguments; `payload` is handler-owned resume data. */
  datatype ToolResumeDecision = ToolResumeDecision(
    callId: string, action: ResumeAction, input: Option<string>, result: Option<Executed>, payload: string)

  function CallIds(calls: seq<ToolUse>): (ids: seq<string>)
    ensures |ids| == |calls|
  {
    seq(|calls|, i requires 0 <= i < |calls| => calls[i].id)
  }
}
