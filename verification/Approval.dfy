/** The operator's view of a permission suspension (harness/permission/capability.go, InspectSuspension). */
module Approvals {
  import opened Messages
  import opened Suspensions
  import opened ToolControl
  import opened Permission
  import opened ResumePlan

  datatype Approval = Approval(callId: string, toolName: string, request: PermissionRequest)

  function RequestIds(requests: seq<DeferredRequest>): (ids: seq<string>)
    ensures |ids| == |requests|
  {
    seq(|requests|, i requires 0 <= i < |requests| => requests[i].callId)
  }

  /** One complete request for each required call, and no other. */
  predicate RequestsFit(required: seq<string>, requests: seq<DeferredRequest>) {
    && Distinct(RequestIds(requests)) && Subset(RequestIds(requests), required) && |requests| == |required|
    && forall i :: 0 <= i < |requests| ==> requests[i].callId != "" && CompleteRequest(requests[i].request)
  }

  function RequestFor(requests: seq<DeferredRequest>, id: string): Option<PermissionRequest> {
    if requests == [] then None
    else if requests[0].callId == id then Some(requests[0].request)
    else RequestFor(requests[1..], id)
  }

  function ApprovalOf(calls: seq<ToolUse>, requests: seq<DeferredRequest>, id: string): seq<Approval> {
    match (RequestFor(requests, id), CallNamed(calls, id))
    case (Some(request), Some(call)) => [Approval(id, call.name, request)]
    case _ => []
  }

  /** Approvals in the order of the executable calls. */
  function ApprovalsFor(calls: seq<ToolUse>, ids: seq<string>, requests: seq<DeferredRequest>): seq<Approval> {
    if ids == [] then [] else ApprovalOf(calls, requests, ids[0]) + ApprovalsFor(calls, ids[1..], requests)
  }

  predicate Inspectable(s: Suspension) {
    SoundDeferral(s) && RequestsFit(s.payload.tool.deferral.payload.required, s.payload.tool.deferral.payload.requests)
  }

  function ApprovalsIn(s: Suspension): seq<Approval>
    requires Inspectable(s)
  {
    var tool := s.payload.tool;
    ApprovalsFor(tool.calls, tool.executableIds, tool.deferral.payload.requests)
  }

  // ---------------------------------------------------------------------
  // The loops.

  method CheckRequests(required: seq<string>, requests: seq<DeferredRequest>) returns (ok: bool)
    requires Distinct(required)
    ensures ok <==> RequestsFit(required, requests)
  {
    hide CompleteRequest;
    var seen: set<string> := {};
    for i := 0 to |requests|
      invariant forall k :: 0 <= k < i ==>
        requests[k].callId != "" && requests[k].callId in required && CompleteRequest(requests[k].request)
      invariant forall k, m :: 0 <= k < m < i ==> requests[k].callId != requests[m].callId
      invariant forall id :: id in seen <==> exists k :: 0 <= k < i && requests[k].callId == id
      invariant |seen| == i
    {
      var value := requests[i];
      assert RequestIds(requests)[i] == value.callId;
      if value.callId == "" || value.callId !in required {
        return false;
      }
      if value.callId in seen {
        var k :| 0 <= k < i && requests[k].callId == value.callId;
        assert RequestIds(requests)[k] == value.callId;
        return false;
      }
      if !CompleteRequest(value.request) {
        return false;
      }
      seen := seen + {value.callId};
    }
    return |seen| == |required|;
  }

  method InspectSuspension(s: Suspension) returns (r: Option<seq<Approval>>)
    ensures r == if Inspectable(s) then Some(ApprovalsIn(s)) else None
  {
    hide SoundSuspension, Partition, RequestsFit, ApprovalsFor;
    var frontier := InspectDeferred(s);
    if frontier.None? {
      return None;
    }
    var tool := frontier.value;
    var payload := tool.deferral.payload;
    PartsDistinct(s);
    var ok := CheckRequests(payload.required, payload.requests);
    if !ok {
      return None;
    }
    var approvals := CollectApprovals(tool.calls, tool.executableIds, payload.requests);
    return Some(approvals);
  }

  lemma PartsDistinct(s: Suspension)
    requires SoundDeferral(s)
    ensures Distinct(s.payload.tool.deferral.payload.required)
    ensures forall i :: 0 <= i < |s.payload.tool.executableIds| ==> CallNamed(s.payload.tool.calls, s.payload.tool.executableIds[i]).Some?
  {
    var tool := s.payload.tool;
    forall i | 0 <= i < |tool.executableIds| ensures CallNamed(tool.calls, tool.executableIds[i]).Some? {
      CallNamedFound(tool.calls, tool.executableIds[i]);
    }
  }

  method CollectApprovals(calls: seq<ToolUse>, ids: seq<string>, requests: seq<DeferredRequest>) returns (approvals: seq<Approval>)
    requires forall i :: 0 <= i < |ids| ==> CallNamed(calls, ids[i]).Some?
    ensures approvals == ApprovalsFor(calls, ids, requests)
  {
    hide ApprovalsFor, CallNamed, RequestFor;
    approvals := [];
    assert ids[0..] == ids;
    for i := 0 to |ids|
      invariant ApprovalsFor(calls, ids, requests) == approvals + ApprovalsFor(calls, ids[i..], requests)
    {
      NextApproval(calls, ids, requests, i);
      var request := RequestFor(requests, ids[i]);
      if request.None? {
        continue;
      }
      approvals := approvals + [Approval(ids[i], CallNamed(calls, ids[i]).value.name, request.value)];
    }
    NoApproval(calls, ids[|ids|..], requests);
  }

  lemma NextApproval(calls: seq<ToolUse>, ids: seq<string>, requests: seq<DeferredRequest>, i: nat)
    requires i < |ids|
    ensures ApprovalsFor(calls, ids[i..], requests) == ApprovalOf(calls, requests, ids[i]) + ApprovalsFor(calls, ids[i + 1..], requests)
  {
    assert ids[i..][0] == ids[i] && ids[i..][1..] == ids[i + 1..];
  }

  lemma NoApproval(calls: seq<ToolUse>, ids: seq<string>, requests: seq<DeferredRequest>)
    requires ids == []
    ensures ApprovalsFor(calls, ids, requests) == []
  {
  }

  // ---------------------------------------------------------------------
  // What the operator sees.

  function ApprovalIds(approvals: seq<Approval>): (ids: seq<string>)
    ensures |ids| == |approvals|
  {
    seq(|approvals|, i requires 0 <= i < |approvals| => approvals[i].callId)
  }

  /** The listed IDs that are also among `kept`, in the order of the list. */
  function Restrict(ids: seq<string>, kept: seq<string>): seq<string> {
    if ids == [] then [] else (if ids[0] in kept then [ids[0]] else []) + Restrict(ids[1..], kept)
  }

  lemma {:induction false} RequestForFound(requests: seq<DeferredRequest>, id: string)
    ensures RequestFor(requests, id).Some? <==> id in RequestIds(requests)
    ensures RequestFor(requests, id).Some? ==> DeferredRequest(id, RequestFor(requests, id).value) in requests
    decreases requests
  {
    if requests != [] {
      RequestForFound(requests[1..], id);
      assert requests == [requests[0]] + requests[1..];
      assert RequestIds(requests) == [requests[0].callId] + RequestIds(requests[1..]);
    }
  }

  predicate ShowsCall(a: Approval, calls: seq<ToolUse>, requests: seq<DeferredRequest>) {
    && DeferredRequest(a.callId, a.request) in requests
    && exists k :: 0 <= k < |calls| && calls[k].id == a.callId && calls[k].name == a.toolName
  }

  /**
   * An inspection lists one approval per required call, in the order in which the calls are listed as executable, each with
   * the name of its call and the request recorded for it.
   */
  lemma ApprovalsComplete(s: Suspension)
    requires Inspectable(s)
    ensures var tool, payload := s.payload.tool, s.payload.tool.deferral.payload;
      && ApprovalIds(ApprovalsIn(s)) == Restrict(tool.executableIds, payload.required)
      && (forall id :: id in ApprovalIds(ApprovalsIn(s)) <==> id in payload.required)
      && (forall i :: 0 <= i < |ApprovalsIn(s)| ==> ShowsCall(ApprovalsIn(s)[i], tool.calls, payload.requests))
  {
    var tool, payload := s.payload.tool, s.payload.tool.deferral.payload;
    AllCovered(RequestIds(payload.requests), payload.required);
    ApprovalsRestrict(tool.calls, tool.executableIds, payload.required, payload.requests);
    forall id ensures id in Restrict(tool.executableIds, payload.required) <==> id in payload.required {
      RestrictMembers(tool.executableIds, payload.required, id);
      if id in payload.required {
        var k :| 0 <= k < |payload.required| && payload.required[k] == id;
      }
    }
  }

  lemma {:induction false} RestrictMembers(ids: seq<string>, kept: seq<string>, id: string)
    ensures id in Restrict(ids, kept) <==> id in ids && id in kept
    decreases ids
  {
    if ids != [] {
      RestrictMembers(ids[1..], kept, id);
      assert ids == [ids[0]] + ids[1..];
    }
  }

  lemma {:induction false} ApprovalsRestrict(calls: seq<ToolUse>, ids: seq<string>, required: seq<string>, requests: seq<DeferredRequest>)
    requires Subset(ids, CallIds(calls)) && forall id :: id in RequestIds(requests) <==> id in required
    ensures ApprovalIds(ApprovalsFor(calls, ids, requests)) == Restrict(ids, required)
    ensures forall i :: 0 <= i < |ApprovalsFor(calls, ids, requests)| ==> ShowsCall(ApprovalsFor(calls, ids, requests)[i], calls, requests)
    decreases ids
  {
    if ids != [] {
      assert ids[0] in CallIds(calls);
      CallNamedFound(calls, ids[0]);
      RequestForFound(requests, ids[0]);
      forall i | 0 <= i < |ids[1..]| ensures ids[1..][i] in CallIds(calls) { assert ids[i + 1] in CallIds(calls); }
      ApprovalsRestrict(calls, ids[1..], required, requests);
      var first, rest := ApprovalOf(calls, requests, ids[0]), ApprovalsFor(calls, ids[1..], requests);
      assert ApprovalIds(first + rest) == ApprovalIds(first) + ApprovalIds(rest);
      if first != [] {
        var call := CallNamed(calls, ids[0]).value;
        var k :| 0 <= k < |calls| && calls[k] == call;
        assert ShowsCall(first[0], calls, requests);
      }
    }
  }
}
