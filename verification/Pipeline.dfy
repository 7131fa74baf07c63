/** From the permission gate's suspension through inspection and planning back to the driver. */
module Pipeline {
  import opened Messages
  import opened Suspensions
  import opened ToolControl
  import opened GateChain
  import opened Permission
  import opened ResumePlan
  import opened Approvals

  lemma {:induction false} JudgedMembers(calls: seq<ToolUse>, values: seq<Evaluated>, asked: bool, id: string)
    ensures id in JudgedIds(calls, values, asked) <==>
      exists k :: 0 <= k < |values| && (values[k].judgement.decision == Ask) == asked && IdAt(calls, values[k].index) == id
    decreases |values|
  {
    if values != [] {
      var rest, last := values[..|values| - 1], values[|values| - 1];
      JudgedMembers(calls, rest, asked, id);
      if id in JudgedIds(calls, rest, asked) {
        var k :| 0 <= k < |rest| && (rest[k].judgement.decision == Ask) == asked && IdAt(calls, rest[k].index) == id;
        assert values[k] == rest[k];
      }
      if k :| 0 <= k < |values| && (values[k].judgement.decision == Ask) == asked && IdAt(calls, values[k].index) == id {
        if k < |rest| { assert rest[k] == values[k]; }
      }
    }
  }

  lemma SameIdSameIndex(calls: seq<ToolUse>, i: nat, j: nat)
    requires DistinctIds(calls) && i < |calls| && j < |calls| && calls[i].id == calls[j].id
    ensures i == j
  {
  }

  lemma {:induction false} JudgedDistinct(policy: Policy, calls: seq<ToolUse>, current: BatchDecision, n: nat, asked: bool)
    requires |current.calls| == |calls| && n <= |calls| && DistinctIds(calls)
    ensures Distinct(JudgedIds(calls, Judged(policy, calls, current, n), asked))
  {
    if n > 0 {
      var rest := Judged(policy, calls, current, n - 1);
      JudgedDistinct(policy, calls, current, n - 1, asked);
      JudgedCovers(policy, calls, current, n - 1);
      var values := Judged(policy, calls, current, n);
      if !Pending(current, n - 1) {
        assert values == rest;
      } else {
        assert values[..|values| - 1] == rest && values[|values| - 1].index == n - 1;
        JudgedMembers(calls, rest, asked, calls[n - 1].id);
        forall k | 0 <= k < |rest| ensures IdAt(calls, rest[k].index) != calls[n - 1].id {
          assert rest[k].index < n - 1;
        }
      }
    }
  }

  /** The suspension the driver builds for a gate deferral: every regular call is listed as executable. */
  predicate GateSuspension(s: Suspension, all: seq<ToolUse>, regular: seq<ToolUse>, deferral: Deferral) {
    && s.id != "" && s.kind == deferral.kind && s.payload.ToolPayload?
    && s.payload.tool.version == 1 && s.payload.tool.suspensionId == s.id && !s.payload.tool.handlerSuspension
    && s.payload.tool.calls == all && s.payload.tool.executableIds == CallIds(regular) && s.payload.tool.deferral == deferral
  }

  /** The regular calls of one assistant batch. */
  predicate Batch(all: seq<ToolUse>, regular: seq<ToolUse>) {
    && DistinctIds(all) && DistinctIds(regular)
    && forall i :: 0 <= i < |regular| ==> regular[i] in all
  }

  /** No earlier gate decided any call of the batch. */
  predicate AllPending(current: BatchDecision, count: nat) {
    forall i :: 0 <= i < count ==> Pending(current, i)
  }

  lemma PartitionIff(executable: seq<string>, required: seq<string>, preAllowed: seq<string>)
    requires Distinct(required) && Subset(required, executable) && Distinct(preAllowed) && Subset(preAllowed, executable)
    requires forall i :: 0 <= i < |preAllowed| ==> preAllowed[i] !in required
    ensures Partition(executable, required, preAllowed)
      <==> forall i :: 0 <= i < |executable| ==> executable[i] in required || executable[i] in preAllowed
  {
  }

  lemma JudgedPartition(policy: Policy, calls: seq<ToolUse>, current: BatchDecision)
    requires |current.calls| == |calls| && DistinctIds(calls)
    ensures var values := Judged(policy, calls, current, |calls|);
      Partition(CallIds(calls), JudgedIds(calls, values, true), JudgedIds(calls, values, false))
      <==> AllPending(current, |calls|)
  {
    var values := Judged(policy, calls, current, |calls|);
    var required, preAllowed := JudgedIds(calls, values, true), JudgedIds(calls, values, false);
    JudgedCovers(policy, calls, current, |calls|);
    JudgedDistinct(policy, calls, current, |calls|, true);
    JudgedDistinct(policy, calls, current, |calls|, false);
    JudgedSplits(policy, calls, current, values);
  }

  lemma JudgedSplits(policy: Policy, calls: seq<ToolUse>, current: BatchDecision, values: seq<Evaluated>)
    requires |current.calls| == |calls| && DistinctIds(calls) && Covers(policy, calls, current, |calls|, values)
    requires Distinct(JudgedIds(calls, values, true)) && Distinct(JudgedIds(calls, values, false))
    ensures Partition(CallIds(calls), JudgedIds(calls, values, true), JudgedIds(calls, values, false))
      <==> AllPending(current, |calls|)
  {
    hide Judged, JudgedIds, Pending, Partition, DistinctIds, Distinct, Covers;
    var required, preAllowed := JudgedIds(calls, values, true), JudgedIds(calls, values, false);
    forall i | 0 <= i < |required| ensures required[i] in CallIds(calls) { JudgedIsCall(policy, calls, current, values, true, required[i]); }
    forall i | 0 <= i < |preAllowed| ensures preAllowed[i] in CallIds(calls) && preAllowed[i] !in required {
      JudgedIsCall(policy, calls, current, values, false, preAllowed[i]);
      NotBoth(policy, calls, current, values, preAllowed[i]);
    }
    forall i | 0 <= i < |calls| ensures (calls[i].id in required || calls[i].id in preAllowed) <==> Pending(current, i) {
      JudgedIffPending(policy, calls, current, values, i);
    }
    assert forall i :: 0 <= i < |calls| ==> CallIds(calls)[i] == calls[i].id;
    PartitionIff(CallIds(calls), required, preAllowed);
  }

  lemma JudgedIsCall(policy: Policy, calls: seq<ToolUse>, current: BatchDecision, values: seq<Evaluated>, asked: bool, id: string)
    requires |current.calls| == |calls| && Covers(policy, calls, current, |calls|, values) && id in JudgedIds(calls, values, asked)
    ensures id in CallIds(calls)
  {
    JudgedMembers(calls, values, asked, id);
    var k :| 0 <= k < |values| && IdAt(calls, values[k].index) == id;
    var j := values[k].index;
    assert j < |calls| && IdAt(calls, j) == id;
    assert CallIds(calls)[j] == calls[j].id;
  }

  lemma NotBoth(policy: Policy, calls: seq<ToolUse>, current: BatchDecision, values: seq<Evaluated>, id: string)
    requires |current.calls| == |calls| && Covers(policy, calls, current, |calls|, values) && DistinctIds(calls)
    requires id in JudgedIds(calls, values, false)
    ensures id !in JudgedIds(calls, values, true)
  {
    JudgedMembers(calls, values, false, id);
    JudgedMembers(calls, values, true, id);
    var k :| 0 <= k < |values| && values[k].judgement.decision != Ask && IdAt(calls, values[k].index) == id;
    forall m | 0 <= m < |values| && IdAt(calls, values[m].index) == id ensures values[m].judgement.decision != Ask {
      SameIdSameIndex(calls, values[m].index, values[k].index);
    }
  }

  lemma JudgedIffPending(policy: Policy, calls: seq<ToolUse>, current: BatchDecision, values: seq<Evaluated>, i: nat)
    requires |current.calls| == |calls| && Covers(policy, calls, current, |calls|, values) && DistinctIds(calls) && i < |calls|
    ensures (calls[i].id in JudgedIds(calls, values, true) || calls[i].id in JudgedIds(calls, values, false)) <==> Pending(current, i)
  {
    var id := calls[i].id;
    JudgedMembers(calls, values, true, id);
    JudgedMembers(calls, values, false, id);
    if Pending(current, i) {
      var k :| 0 <= k < |values| && values[k].index == i;
      assert IdAt(calls, values[k].index) == id;
      assert (values[k].judgement.decision == Ask) == true || (values[k].judgement.decision == Ask) == false;
    }
    if k :| 0 <= k < |values| && IdAt(calls, values[k].index) == id {
      SameIdSameIndex(calls, values[k].index, i);
    }
  }

  /**
   * A permission suspension inspects cleanly exactly when every call of the batch has a name and no earlier gate had decided
   * one of them: the driver suspends every regular call, but the permission batch covers only those still executable then.
   */
  lemma PermissionSuspensionInspects(policy: Policy, all: seq<ToolUse>, regular: seq<ToolUse>, current: BatchDecision,
                                     next: BatchDecision, s: Suspension)
    requires Batch(all, regular) && Acceptable(regular, current) && current.deferral.None?
    requires GateResult(policy, regular, current, next) && Suspends(next)
    requires GateSuspension(s, all, regular, next.deferral.value)
    ensures SoundDeferral(s) <==> Named(all) && AllPending(current, |regular|)
  {
    hide Judged, JudgedIds, AskedRequests, Pending, Partition, Named;
    GateNarrows(policy, regular, current, next);
    var values := Judged(policy, regular, current, |regular|);
    JudgedPartition(policy, regular, current);
    AskedNonEmpty(regular, values);
    if Named(all) {
      SuspendedBatchSound(s, all, regular, next.deferral.value);
    }
  }

  lemma AskedNonEmpty(calls: seq<ToolUse>, values: seq<Evaluated>)
    ensures AnyJudged(values, Ask) ==> JudgedIds(calls, values, true) != []
  {
    if AnyJudged(values, Ask) {
      var k :| 0 <= k < |values| && values[k].judgement.decision == Ask;
      JudgedMembers(calls, values, true, IdAt(calls, values[k].index));
    }
  }

  lemma SuspendedBatchSound(s: Suspension, all: seq<ToolUse>, regular: seq<ToolUse>, deferral: Deferral)
    requires Batch(all, regular) && Named(all) && regular != [] && GateSuspension(s, all, regular, deferral)
    requires deferral.kind == PERMISSION_KIND
    ensures SoundSuspension(s, PERMISSION_KIND)
  {
    var ids := CallIds(regular);
    forall i | 0 <= i < |ids| ensures ids[i] in CallIds(all) {
      assert regular[i] in all;
      var k :| 0 <= k < |all| && all[k] == regular[i];
      assert CallIds(all)[k] == ids[i];
    }
    assert regular[0] in all;
  }

  // ---------------------------------------------------------------------
  // What the operator is shown.

  function AskedApproval(policy: Policy, call: ToolUse): seq<Approval> {
    if policy(call).decision == Ask then [Approval(call.id, call.name, policy(call).request)] else []
  }

  /** One approval for each call the policy asks about, in call order. */
  function AskedApprovals(policy: Policy, calls: seq<ToolUse>): seq<Approval> {
    if calls == [] then [] else AskedApproval(policy, calls[0]) + AskedApprovals(policy, calls[1..])
  }

  lemma {:induction false} AskedRequestsMatch(calls: seq<ToolUse>, values: seq<Evaluated>)
    ensures RequestIds(AskedRequests(calls, values)) == JudgedIds(calls, values, true)
    ensures forall i :: 0 <= i < |AskedRequests(calls, values)| ==> AskedOf(calls, values, AskedRequests(calls, values)[i])
    decreases |values|
  {
    if values != [] {
      var rest, last := values[..|values| - 1], values[|values| - 1];
      AskedRequestsMatch(calls, rest);
      var before := AskedRequests(calls, rest);
      forall i | 0 <= i < |AskedRequests(calls, values)| ensures AskedOf(calls, values, AskedRequests(calls, values)[i]) {
        if i < |before| {
          assert AskedOf(calls, rest, before[i]);
          var k :| 0 <= k < |rest| && rest[k].judgement.decision == Ask
            && before[i] == DeferredRequest(IdAt(calls, rest[k].index), rest[k].judgement.request);
          assert values[k] == rest[k];
        }
      }
      assert RequestIds(before + [DeferredRequest(IdAt(calls, last.index), last.judgement.request)])
          == RequestIds(before) + [IdAt(calls, last.index)];
    }
  }

  predicate AskedOf(calls: seq<ToolUse>, values: seq<Evaluated>, request: DeferredRequest) {
    exists k :: 0 <= k < |values| && values[k].judgement.decision == Ask
      && request == DeferredRequest(IdAt(calls, values[k].index), values[k].judgement.request)
  }

  /** The request recorded for a pending call: the policy's own, if it asks. */
  lemma RequestOfCall(policy: Policy, calls: seq<ToolUse>, current: BatchDecision, i: nat)
    requires |current.calls| == |calls| && DistinctIds(calls) && i < |calls| && Pending(current, i)
    ensures RequestFor(AskedRequests(calls, Judged(policy, calls, current, |calls|)), calls[i].id)
         == if policy(calls[i]).decision == Ask then Some(policy(calls[i]).request) else None
  {
    var values := Judged(policy, calls, current, |calls|);
    var requests := AskedRequests(calls, values);
    JudgedCovers(policy, calls, current, |calls|);
    AskedRequestsMatch(calls, values);
    RequestForFound(requests, calls[i].id);
    JudgedMembers(calls, values, true, calls[i].id);
    var m :| 0 <= m < |values| && values[m].index == i;
    if RequestFor(requests, calls[i].id).Some? {
      var k :| 0 <= k < |values| && values[k].judgement.decision == Ask
        && calls[i].id == IdAt(calls, values[k].index) && RequestFor(requests, calls[i].id).value == values[k].judgement.request;
      SameIdSameIndex(calls, values[k].index, i);
    } else {
      assert IdAt(calls, values[m].index) == calls[i].id;
    }
  }

  lemma {:induction false} ApprovalsInOrder(policy: Policy, all: seq<ToolUse>, calls: seq<ToolUse>, requests: seq<DeferredRequest>)
    requires forall i :: 0 <= i < |calls| ==> ApprovalOf(all, requests, calls[i].id) == AskedApproval(policy, calls[i])
    ensures ApprovalsFor(all, CallIds(calls), requests) == AskedApprovals(policy, calls)
    decreases calls
  {
    if calls != [] {
      assert CallIds(calls)[0] == calls[0].id && CallIds(calls)[1..] == CallIds(calls[1..]);
      ApprovalsInOrder(policy, all, calls[1..], requests);
    }
  }

  lemma AskedRequestsFit(effects: ToolUse -> Effect, evaluate: PermissionRequest -> Decision, calls: seq<ToolUse>, current: BatchDecision)
    requires |current.calls| == |calls| && DistinctIds(calls) && Named(calls)
    ensures var values := Judged(PolicyOf(effects, evaluate), calls, current, |calls|);
      RequestsFit(JudgedIds(calls, values, true), AskedRequests(calls, values))
  {
    var policy := PolicyOf(effects, evaluate);
    var values := Judged(policy, calls, current, |calls|);
    hide PolicyOf, CompleteRequest;
    JudgedCovers(policy, calls, current, |calls|);
    JudgedDistinct(policy, calls, current, |calls|, true);
    AskedRequestsMatch(calls, values);
    var requests := AskedRequests(calls, values);
    forall i | 0 <= i < |requests| ensures requests[i].callId != "" && CompleteRequest(requests[i].request) {
      assert AskedOf(calls, values, requests[i]);
      var k :| 0 <= k < |values| && values[k].judgement.decision == Ask
        && requests[i] == DeferredRequest(IdAt(calls, values[k].index), values[k].judgement.request);
      AskedIsComplete(effects, evaluate, calls[values[k].index]);
    }
    forall i | 0 <= i < |requests| ensures RequestIds(requests)[i] in JudgedIds(calls, values, true) {}
  }

  /**
   * Inspecting the suspension shows the operator one approval per asked call, in call order, with the call's name and its resolved
   * request. It succeeds in exactly the same cases as resuming.
   */
  lemma {:induction false} OperatorSeesEachAsked(effects: ToolUse -> Effect, evaluate: PermissionRequest -> Decision, all: seq<ToolUse>,
                              regular: seq<ToolUse>, current: BatchDecision, next: BatchDecision, s: Suspension)
    requires Batch(all, regular) && Acceptable(regular, current) && current.deferral.None?
    requires GateResult(PolicyOf(effects, evaluate), regular, current, next) && Suspends(next)
    requires GateSuspension(s, all, regular, next.deferral.value)
    ensures Inspectable(s) <==> Named(all) && AllPending(current, |regular|)
    ensures Inspectable(s) ==> ApprovalsIn(s) == AskedApprovals(PolicyOf(effects, evaluate), regular)
  {
    hide PolicyOf, Judged, JudgedIds, AskedRequests, RequestsFit, SoundDeferral, CallNamed, RequestFor;
    var policy := PolicyOf(effects, evaluate);
    PermissionSuspensionInspects(policy, all, regular, current, next, s);
    if SoundDeferral(s) {
      GateNarrows(policy, regular, current, next);
      forall i | 0 <= i < |regular| ensures regular[i].name != "" {
        assert regular[i] in all;
      }
      AskedRequestsFit(effects, evaluate, regular, current);
      var requests := AskedRequests(regular, Judged(policy, regular, current, |regular|));
      forall i | 0 <= i < |regular| ensures ApprovalOf(all, requests, regular[i].id) == AskedApproval(policy, regular[i]) {
        assert Pending(current, i);
        RequestOfCall(policy, regular, current, i);
        assert regular[i] in all;
        CallNamedExact(all, regular[i]);
      }
      ApprovalsInOrder(policy, all, regular, requests);
    }
  }

  // ---------------------------------------------------------------------
  // What a complete request plans.

  /** What the policy allowed executes unchanged, and what it asked about is decided by the operator. */
  lemma GatePlan(policy: Policy, all: seq<ToolUse>, regular: seq<ToolUse>, current: BatchDecision, next: BatchDecision,
                 s: Suspension, request: ResumeRequest, decisions: seq<ToolResumeDecision>)
    requires Batch(all, regular) && Named(all) && Acceptable(regular, current) && current.deferral.None?
    requires AllPending(current, |regular|)
    requires GateResult(policy, regular, current, next) && Suspends(next) && next.deferral.Some?
    requires GateSuspension(s, all, regular, next.deferral.value)
    requires request.suspensionId == s.id && (request.prompt.Some? ==> request.prompt.value.role == RoleUser)
    requires Complete(next.deferral.value.payload.required, request.resolutions)
    requires Planned(s, request, decisions)
    ensures Plannable(s, request) && |decisions| == |regular|
    ensures forall i :: 0 <= i < |regular| ==> CallNamed(all, regular[i].id) == Some(regular[i]) && decisions[i].callId == regular[i].id
    ensures forall i :: 0 <= i < |regular| && regular[i].id !in next.deferral.value.payload.required ==>
      decisions[i] == ToolResumeDecision(regular[i].id, ResumeExecute, None, None, "")
    ensures forall i :: 0 <= i < |regular| && regular[i].id in next.deferral.value.payload.required ==>
      && ResolutionFor(request.resolutions, regular[i].id).Some?
      && decisions[i] == DecisionFor(regular[i], ResolutionFor(request.resolutions, regular[i].id))
      && CarriesOut(regular[i], ResolutionFor(request.resolutions, regular[i].id).value, decisions[i])
  {
    hide Judged, JudgedIds, AskedRequests, Acceptable, Fits, GateResult, DecisionFor, CarriesOut;
    PermissionSuspensionInspects(policy, all, regular, current, next, s);
    forall i | 0 <= i < |regular|
      ensures ResolutionFor(request.resolutions, regular[i].id).Some? <==> regular[i].id in next.deferral.value.payload.required
      ensures CallNamed(all, regular[i].id) == Some(regular[i]) && decisions[i].callId == regular[i].id
      ensures decisions[i] == DecisionFor(regular[i], ResolutionFor(request.resolutions, regular[i].id))
    {
      ResolvedIffRequired(next.deferral.value.payload.required, request.resolutions, regular[i].id);
      assert s.payload.tool.executableIds[i] == regular[i].id;
      CallNamedExact(all, regular[i]);
      PlannedFor(regular[i], ResolutionFor(request.resolutions, regular[i].id));
    }
    forall i | 0 <= i < |regular| && regular[i].id in next.deferral.value.payload.required
      ensures CarriesOut(regular[i], ResolutionFor(request.resolutions, regular[i].id).value, decisions[i])
    {
      ResolutionForFound(request.resolutions, regular[i].id);
      DecisionCarriesOut(regular[i], ResolutionFor(request.resolutions, regular[i].id).value);
    }
    forall i | 0 <= i < |regular| && regular[i].id !in next.deferral.value.payload.required
      ensures decisions[i] == ToolResumeDecision(regular[i].id, ResumeExecute, None, None, "")
    {
      PlannedFor(regular[i], None);
    }
  }

  lemma PlannedFor(call: ToolUse, resolution: Option<ToolResolution>)
    ensures DecisionFor(call, resolution).callId == call.id
    ensures DecisionFor(call, None) == ToolResumeDecision(call.id, ResumeExecute, None, None, "")
  {
  }

  lemma ResolvedIffRequired(required: seq<string>, resolutions: seq<ToolResolution>, id: string)
    requires Distinct(required) && Complete(required, resolutions)
    ensures ResolutionFor(resolutions, id).Some? <==> id in required
  {
    CompleteResolvesEach(required, resolutions);
    ResolutionForFound(resolutions, id);
    if id in required {
      var k :| 0 <= k < |required| && required[k] == id;
    }
    if id in ResolutionIds(resolutions) {
      var k :| 0 <= k < |resolutions| && ResolutionIds(resolutions)[k] == id;
    }
  }
}
