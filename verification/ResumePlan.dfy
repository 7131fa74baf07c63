/** From a durable tool suspension and an operator's request to resume decisions (harness/runtime/resume.go). */
module ResumePlan {
  import opened Messages
  import opened Suspensions
  import opened ToolControl
  import opened Permission

  // ---------------------------------------------------------------------
  // What a well-formed suspension is.

  predicate Named(calls: seq<ToolUse>) {
    forall i :: 0 <= i < |calls| ==> calls[i].name != ""
  }

  predicate Subset(ids: seq<string>, of: seq<string>) {
    forall i :: 0 <= i < |ids| ==> ids[i] in of
  }

  predicate SoundTool(tool: ToolSuspension, id: string, kind: string) {
    && tool.version == 1 && tool.suspensionId == id && tool.deferral.kind == kind
    && tool.calls != [] && tool.executableIds != []
    && DistinctIds(tool.calls) && Named(tool.calls)
    && Distinct(tool.executableIds) && Subset(tool.executableIds, CallIds(tool.calls))
  }

  predicate SoundSuspension(s: Suspension, kind: string) {
    s.id != "" && kind != "" && s.kind == kind && s.payload.ToolPayload? && SoundTool(s.payload.tool, s.id, kind)
  }

  /** Required and pre-allowed calls split the executable ones. */
  predicate Partition(executable: seq<string>, required: seq<string>, preAllowed: seq<string>) {
    && Distinct(required) && Subset(required, executable)
    && Distinct(preAllowed) && Subset(preAllowed, executable)
    && (forall i :: 0 <= i < |preAllowed| ==> preAllowed[i] !in required)
    && (forall i :: 0 <= i < |executable| ==> executable[i] in required || executable[i] in preAllowed)
  }

  predicate SoundDeferral(s: Suspension) {
    && SoundSuspension(s, PERMISSION_KIND)
    && var payload := s.payload.tool.deferral.payload;
       && payload.PermissionBatch? && payload.version == 1 && payload.required != []
       && Partition(s.payload.tool.executableIds, payload.required, payload.preAllowed)
  }

  // ---------------------------------------------------------------------
  // The inspectors, loop by loop.

  /** Loops that insert each ID into a set and refuse repeats or strangers. */
  method CollectIds(ids: seq<string>, known: set<string>, excluded: set<string>) returns (r: Option<set<string>>)
    ensures r.Some? <==> Distinct(ids) && forall i :: 0 <= i < |ids| ==> ids[i] in known && ids[i] !in excluded
    ensures r.Some? ==> forall id :: id in r.value <==> id in ids
  {
    var seen: set<string> := {};
    for i := 0 to |ids|
      invariant forall k :: 0 <= k < i ==> ids[k] in known && ids[k] !in excluded
      invariant forall k, m :: 0 <= k < m < i ==> ids[k] != ids[m]
      invariant forall id :: id in seen <==> exists k :: 0 <= k < i && ids[k] == id
    {
      if ids[i] !in known || ids[i] in excluded || ids[i] in seen {
        assert ids[i] in seen ==> exists k :: 0 <= k < i && ids[k] == ids[i];
        return None;
      }
      seen := seen + {ids[i]};
    }
    return Some(seen);
  }

  method CollectCalls(calls: seq<ToolUse>) returns (r: Option<set<string>>)
    ensures r.Some? <==> DistinctIds(calls) && Named(calls)
    ensures r.Some? ==> forall id :: id in r.value <==> id in CallIds(calls)
  {
    var known: set<string> := {};
    for i := 0 to |calls|
      invariant forall k :: 0 <= k < i ==> calls[k].id != "" && calls[k].name != ""
      invariant forall k, m :: 0 <= k < m < i ==> calls[k].id != calls[m].id
      invariant forall id :: id in known <==> exists k :: 0 <= k < i && calls[k].id == id
    {
      if calls[i].id == "" || calls[i].name == "" || calls[i].id in known {
        assert calls[i].id in known ==> exists k :: 0 <= k < i && calls[k].id == calls[i].id;
        return None;
      }
      known := known + {calls[i].id};
    }
    forall id ensures id in known <==> id in CallIds(calls) {
      if k :| 0 <= k < |calls| && calls[k].id == id { assert CallIds(calls)[k] == id; }
    }
    return Some(known);
  }

  method InspectToolSuspension(s: Suspension, kind: string) returns (r: Option<ToolSuspension>)
    ensures r == if SoundSuspension(s, kind) then Some(s.payload.tool) else None
  {
    if s.id == "" || kind == "" || s.kind != kind || !s.payload.ToolPayload? {
      return None;
    }
    var root := s.payload.tool;
    if root.version != 1 || root.suspensionId != s.id || root.deferral.kind != kind || |root.calls| == 0 || |root.executableIds| == 0 {
      return None;
    }
    var known := CollectCalls(root.calls);
    if known.None? {
      return None;
    }
    var executable := CollectIds(root.executableIds, known.value, {});
    if executable.None? {
      return None;
    }
    return Some(root);
  }

  method InspectDeferred(s: Suspension) returns (r: Option<ToolSuspension>)
    ensures r == if SoundDeferral(s) then Some(s.payload.tool) else None
  {
    var root := InspectToolSuspension(s, PERMISSION_KIND);
    if root.None? {
      return None;
    }
    var tool := root.value;
    if !tool.deferral.payload.PermissionBatch? || tool.deferral.payload.version != 1 || |tool.deferral.payload.required| == 0 {
      return None;
    }
    var batch := tool.deferral.payload;
    var executable := set i | 0 <= i < |tool.executableIds| :: tool.executableIds[i];
    var required := CollectIds(batch.required, executable, {});
    if required.None? {
      return None;
    }
    var preAllowed := CollectIds(batch.preAllowed, executable, required.value);
    if preAllowed.None? {
      return None;
    }
    for i := 0 to |tool.executableIds|
      invariant forall k :: 0 <= k < i ==> tool.executableIds[k] in batch.required || tool.executableIds[k] in batch.preAllowed
    {
      var id := tool.executableIds[i];
      if id !in required.value && id !in preAllowed.value {
        return None;
      }
    }
    return Some(tool);
  }

  // ---------------------------------------------------------------------
  // Planning.

  function ResolutionFor(resolutions: seq<ToolResolution>, id: string): Option<ToolResolution> {
    if resolutions == [] then None
    else if resolutions[0].callId == id then Some(resolutions[0])
    else ResolutionFor(resolutions[1..], id)
  }

  function ResolutionIds(resolutions: seq<ToolResolution>): (ids: seq<string>)
    ensures |ids| == |resolutions|
  {
    seq(|resolutions|, i requires 0 <= i < |resolutions| => resolutions[i].callId)
  }

  /** Each required call resolved once, by a known action, and nothing else resolved. */
  predicate Complete(required: seq<string>, resolutions: seq<ToolResolution>) {
    && Distinct(ResolutionIds(resolutions)) && Subset(ResolutionIds(resolutions), required) && |resolutions| == |required|
    && forall i :: 0 <= i < |resolutions| ==> resolutions[i].callId != "" && resolutions[i].action != ResolutionInvalid
  }

  /** The call a suspension means by an executable ID. */
  function CallNamed(calls: seq<ToolUse>, id: string): Option<ToolUse> {
    if calls == [] then None else if calls[0].id == id then Some(calls[0]) else CallNamed(calls[1..], id)
  }

  function DecisionFor(call: ToolUse, resolution: Option<ToolResolution>): ToolResumeDecision {
    match resolution
    case None => ToolResumeDecision(call.id, ResumeExecute, None, None, "")
    case Some(r) =>
      match r.action
      case ResolutionApprove => ToolResumeDecision(call.id, ResumeExecute, r.overrideArgs, None, "")
      case ResolutionDeny =>
        ToolResumeDecision(call.id, ResumeReturn, None, Some(Executed(ToolResult(call.id, call.name,
          "Tool call denied: " + (if r.reason == "" then "denied by operator" else r.reason), true), OtherCause)), "")
      case ResolutionExternalResult =>
        ToolResumeDecision(call.id, ResumeReturn, None,
          Some(Executed(ToolResult(call.id, call.name, r.result.GetOr(""), false), NoCause)), "")
      case ResolutionInvalid => ToolResumeDecision(call.id, ResumeInvalid, None, None, "")
  }

  /**
   * A decision that does with the call what the operator said: runs it, on the arguments given for it if there are any, or answers it, with a
   * denial or with the result that was supplied.
   */
  predicate CarriesOut(call: ToolUse, r: ToolResolution, d: ToolResumeDecision) {
    && d.callId == call.id && d.payload == ""
    && match r.action
       case ResolutionApprove => d.action == ResumeExecute && d.input == r.overrideArgs && d.result.None?
       case ResolutionDeny =>
         && d.action == ResumeReturn && d.input.None? && d.result.Some? && Identified(call, d.result.value)
         && d.result.value.result.isError && d.result.value.cause != NoCause && EndsWith(d.result.value.result.content, r.reason)
       case ResolutionExternalResult =>
         && d.action == ResumeReturn && d.input.None? && d.result.Some? && Identified(call, d.result.value)
         && !d.result.value.result.isError && d.result.value.result.content == r.result.GetOr("") && d.result.value.cause == NoCause
       case ResolutionInvalid => false
  }

  predicate EndsWith(text: string, tail: string) {
    |tail| <= |text| && text[|text| - |tail|..] == tail
  }

  lemma DecisionCarriesOut(call: ToolUse, r: ToolResolution)
    requires r.action != ResolutionInvalid
    ensures CarriesOut(call, r, DecisionFor(call, Some(r)))
  {
  }

  /** The plan decides each executable call as the operator said, and lets those run about which nothing was said. */
  predicate PlanObeys(tool: ToolSuspension, resolutions: seq<ToolResolution>, decisions: seq<ToolResumeDecision>) {
    && |decisions| == |tool.executableIds|
    && forall i :: 0 <= i < |decisions| ==> DecidesAs(tool, resolutions, tool.executableIds[i], decisions[i])
  }

  predicate DecidesAs(tool: ToolSuspension, resolutions: seq<ToolResolution>, id: string, d: ToolResumeDecision) {
    exists call :: call in tool.calls && call.id == id
      && if id in ResolutionIds(resolutions) then exists r :: r in resolutions && r.callId == id && CarriesOut(call, r, d)
         else d == ToolResumeDecision(id, ResumeExecute, None, None, "")
  }

  lemma PlannedObeys(s: Suspension, request: ResumeRequest, decisions: seq<ToolResumeDecision>)
    requires Plannable(s, request) && Planned(s, request, decisions)
    ensures PlanObeys(s.payload.tool, request.resolutions, decisions)
  {
    hide CarriesOut, DecisionFor;
    var tool := s.payload.tool;
    forall i | 0 <= i < |decisions| ensures DecidesAs(tool, request.resolutions, tool.executableIds[i], decisions[i]) {
      PlannedOneObeys(tool, request.resolutions, tool.executableIds[i], decisions[i]);
    }
  }

  lemma PlannedOneObeys(tool: ToolSuspension, resolutions: seq<ToolResolution>, id: string, d: ToolResumeDecision)
    requires CallNamed(tool.calls, id).Some? && d == DecisionFor(CallNamed(tool.calls, id).value, ResolutionFor(resolutions, id))
    requires forall i :: 0 <= i < |resolutions| ==> resolutions[i].action != ResolutionInvalid
    ensures DecidesAs(tool, resolutions, id, d)
  {
    CallNamedFound(tool.calls, id);
    ResolutionForFound(resolutions, id);
    var call, found := CallNamed(tool.calls, id).value, ResolutionFor(resolutions, id);
    hide CarriesOut;
    if found.Some? {
      DecisionCarriesOut(call, found.value);
      hide DecisionFor;
      assert found.value in resolutions && CarriesOut(call, found.value, d);
    }
  }

  /** The request fits the suspension. */
  predicate Plannable(s: Suspension, request: ResumeRequest) {
    && request.suspensionId != "" && request.suspensionId == s.id
    && (request.prompt.Some? ==> request.prompt.value.role == RoleUser)
    && SoundDeferral(s) && Complete(s.payload.tool.deferral.payload.required, request.resolutions)
  }

  /** The plan: one decision per executable call, in call order. */
  predicate Planned(s: Suspension, request: ResumeRequest, decisions: seq<ToolResumeDecision>)
    requires s.payload.ToolPayload?
  {
    var tool := s.payload.tool;
    && |decisions| == |tool.executableIds|
    && forall i :: 0 <= i < |decisions| ==>
         && CallNamed(tool.calls, tool.executableIds[i]).Some?
         && decisions[i] == DecisionFor(CallNamed(tool.calls, tool.executableIds[i]).value,
                                        ResolutionFor(request.resolutions, tool.executableIds[i]))
  }

  lemma {:induction false} CallNamedFound(calls: seq<ToolUse>, id: string)
    ensures CallNamed(calls, id).Some? <==> id in CallIds(calls)
    ensures CallNamed(calls, id).Some? ==> CallNamed(calls, id).value in calls && CallNamed(calls, id).value.id == id
    decreases calls
  {
    if calls != [] {
      CallNamedFound(calls[1..], id);
      assert calls == [calls[0]] + calls[1..];
      assert CallIds(calls) == [calls[0].id] + CallIds(calls[1..]);
    }
  }

  lemma {:induction false} CallNamedExact(calls: seq<ToolUse>, call: ToolUse)
    requires DistinctIds(calls) && call in calls
    ensures CallNamed(calls, call.id) == Some(call)
    decreases calls
  {
    assert calls == [calls[0]] + calls[1..];
    if calls[0].id == call.id {
      var k :| 0 <= k < |calls| && calls[k] == call;
    } else {
      assert call in calls[1..];
      CallNamedExact(calls[1..], call);
    }
  }

  method CheckResolutions(required: seq<string>, resolutions: seq<ToolResolution>) returns (ok: bool)
    requires Distinct(required)
    ensures ok <==> Complete(required, resolutions)
  {
    hide Complete;
    var seen: set<string> := {};
    for i := 0 to |resolutions|
      invariant forall k :: 0 <= k < i ==> Usable(required, resolutions, k)
      invariant forall id :: id in seen <==> exists k :: 0 <= k < i && resolutions[k].callId == id
      invariant |seen| == i
    {
      var resolution := resolutions[i];
      if resolution.callId == "" || resolution.callId !in required {
        UnusableIncomplete(required, resolutions, i);
        return false;
      }
      if resolution.callId in seen {
        UnusableIncomplete(required, resolutions, i);
        return false;
      }
      if resolution.action == ResolutionInvalid {
        UnusableIncomplete(required, resolutions, i);
        return false;
      }
      seen := seen + {resolution.callId};
    }
    UsableComplete(required, resolutions);
    return |seen| == |required|;
  }

  /** A resolution of a required call, by a known action, that none before it resolves. */
  predicate Usable(required: seq<string>, resolutions: seq<ToolResolution>, i: nat)
    requires i < |resolutions|
  {
    && resolutions[i].callId != "" && resolutions[i].callId in required && resolutions[i].action != ResolutionInvalid
    && forall k :: 0 <= k < i ==> resolutions[k].callId != resolutions[i].callId
  }

  lemma UnusableIncomplete(required: seq<string>, resolutions: seq<ToolResolution>, i: nat)
    requires i < |resolutions| && !Usable(required, resolutions, i)
    ensures !Complete(required, resolutions)
  {
    var ids := ResolutionIds(resolutions);
    assert ids[i] == resolutions[i].callId;
    if k :| 0 <= k < i && resolutions[k].callId == resolutions[i].callId {
      assert ids[k] == ids[i];
    }
  }

  lemma UsableComplete(required: seq<string>, resolutions: seq<ToolResolution>)
    requires forall k :: 0 <= k < |resolutions| ==> Usable(required, resolutions, k)
    ensures Complete(required, resolutions) <==> |resolutions| == |required|
  {
    var ids := ResolutionIds(resolutions);
    forall k | 0 <= k < |ids| ensures ids[k] == resolutions[k].callId && Usable(required, resolutions, k) {}
  }

  method PlanResume(s: Suspension, request: ResumeRequest) returns (decisions: Option<seq<ToolResumeDecision>>)
    ensures decisions.Some? <==> Plannable(s, request)
    ensures decisions.Some? ==> Planned(s, request, decisions.value) && PlanObeys(s.payload.tool, request.resolutions, decisions.value)
  {
    hide DecidesAs;
    if request.suspensionId == "" || request.suspensionId != s.id {
      return None;
    }
    if request.prompt.Some? && request.prompt.value.role != RoleUser {
      return None;
    }
    var frontier := InspectDeferred(s);
    if frontier.None? {
      return None;
    }
    var tool := frontier.value;
    var ok := CheckResolutions(tool.deferral.payload.required, request.resolutions);
    if !ok {
      return None;
    }
    var planned: seq<ToolResumeDecision> := [];
    for i := 0 to |tool.executableIds|
      invariant |planned| == i
      invariant forall k :: 0 <= k < i ==>
        && CallNamed(tool.calls, tool.executableIds[k]).Some?
        && planned[k] == DecisionFor(CallNamed(tool.calls, tool.executableIds[k]).value,
                                     ResolutionFor(request.resolutions, tool.executableIds[k]))
    {
      var id := tool.executableIds[i];
      CallNamedFound(tool.calls, id);
      var call := CallNamed(tool.calls, id).value;
      planned := planned + [DecisionFor(call, ResolutionFor(request.resolutions, id))];
    }
    PlannedObeys(s, request, planned);
    return Some(planned);
  }

  lemma {:induction false} ResolutionForFound(resolutions: seq<ToolResolution>, id: string)
    ensures ResolutionFor(resolutions, id).Some? ==>
      ResolutionFor(resolutions, id).value in resolutions && ResolutionFor(resolutions, id).value.callId == id
    ensures ResolutionFor(resolutions, id).Some? <==> id in ResolutionIds(resolutions)
    decreases resolutions
  {
    if resolutions != [] {
      ResolutionForFound(resolutions[1..], id);
      assert resolutions == [resolutions[0]] + resolutions[1..];
      assert ResolutionIds(resolutions) == [resolutions[0].callId] + ResolutionIds(resolutions[1..]);
    }
  }

  lemma {:induction false} DistinctSize(ids: seq<string>)
    requires Distinct(ids)
    ensures |(set i | 0 <= i < |ids| :: ids[i])| == |ids|
    decreases |ids|
  {
    if ids != [] {
      var rest, last := ids[..|ids| - 1], ids[|ids| - 1];
      DistinctSize(rest);
      assert (set i | 0 <= i < |ids| :: ids[i]) == (set i | 0 <= i < |rest| :: rest[i]) + {last};
    }
  }

  /** As many distinct IDs as there are, all among them: every one of them. */
  lemma AllCovered(ids: seq<string>, of: seq<string>)
    requires Distinct(ids) && Distinct(of) && Subset(ids, of) && |ids| == |of|
    ensures forall id :: id in ids <==> id in of
  {
    var small, large := set i | 0 <= i < |ids| :: ids[i], set i | 0 <= i < |of| :: of[i];
    DistinctSize(ids);
    DistinctSize(of);
    assert small <= large by {
      forall id | id in small ensures id in large {
        var i :| 0 <= i < |ids| && ids[i] == id;
        assert ids[i] in of;
      }
    }
    assert |large - small| == |large| - |small|;
    assert large - small == {};
    forall id ensures id in ids <==> id in of {
      assert id in ids <==> id in small;
      assert id in of <==> id in large;
    }
  }

  /** A complete request resolves every required call: none of them executes without an approval. */
  lemma CompleteResolvesEach(required: seq<string>, resolutions: seq<ToolResolution>)
    requires Distinct(required) && Complete(required, resolutions)
    ensures forall i :: 0 <= i < |required| ==> ResolutionFor(resolutions, required[i]).Some?
  {
    AllCovered(ResolutionIds(resolutions), required);
    forall i | 0 <= i < |required| ensures ResolutionFor(resolutions, required[i]).Some? {
      ResolutionForFound(resolutions, required[i]);
    }
  }
}
