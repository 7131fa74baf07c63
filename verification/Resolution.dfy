/** Resolving an indeterminate recovery frontier (harness/session/resume.go): which answers are accepted, and what they commit. */
module Resolutions {
  import opened Messages
  import opened Pairing
  import opened Repair
  import opened Suspensions

  datatype CheckError = Malformed | UnknownCall | DuplicateCall | ApprovedIndeterminate | InvalidAction | MissingCalls

  datatype Check<T> = Passed(value: T) | Rejected(error: CheckError)

  function RequiredFrom(acc: map<string, PendingCall>, calls: seq<PendingCall>): Check<map<string, PendingCall>>
    decreases calls
  {
    if calls == [] then Passed(acc)
    else if calls[0].id == "" || calls[0].state != PendingIndeterminate || calls[0].id in acc then Rejected(Malformed)
    else RequiredFrom(acc[calls[0].id := calls[0]], calls[1..])
  }

  function ChosenFrom(required: map<string, PendingCall>, acc: map<string, ToolResolution>, resolutions: seq<ToolResolution>)
    : Check<map<string, ToolResolution>>
    decreases resolutions
  {
    if resolutions == [] then Passed(acc)
    else
      var head := resolutions[0];
      if head.callId !in required then Rejected(UnknownCall)
      else if head.callId in acc then Rejected(DuplicateCall)
      else if head.action == ResolutionApprove then Rejected(ApprovedIndeterminate)
      else if head.action != ResolutionDeny && head.action != ResolutionExternalResult then Rejected(InvalidAction)
      else ChosenFrom(required, acc[head.callId := head], resolutions[1..])
  }

  datatype Plan = Plan(required: map<string, PendingCall>, chosen: map<string, ToolResolution>)

  function CheckResolutions(calls: seq<PendingCall>, resolutions: seq<ToolResolution>): Check<Plan> {
    match RequiredFrom(map[], calls)
    case Rejected(error) => Rejected(error)
    case Passed(required) =>
      match ChosenFrom(required, map[], resolutions)
      case Rejected(error) => Rejected(error)
      case Passed(chosen) => if |chosen| != |required| then Rejected(MissingCalls) else Passed(Plan(required, chosen))
  }

  lemma {:induction false} RequiredIndexes(acc: map<string, PendingCall>, calls: seq<PendingCall>)
    requires RequiredFrom(acc, calls).Passed? && forall id :: id in acc ==> acc[id].id == id
    ensures var r := RequiredFrom(acc, calls).value;
      && (forall id :: id in r ==> r[id].id == id && (id in acc ==> r[id] == acc[id]))
      && (forall id :: id in acc ==> id in r)
      && (forall i :: 0 <= i < |calls| ==> calls[i].id in r && r[calls[i].id] == calls[i])
      && (forall id :: id in r && id !in acc ==> r[id] in calls)
    decreases calls
  {
    if calls != [] {
      var next := acc[calls[0].id := calls[0]];
      RequiredIndexes(next, calls[1..]);
      assert calls == [calls[0]] + calls[1..];
    }
  }

  lemma {:induction false} ChosenIndexes(required: map<string, PendingCall>, acc: map<string, ToolResolution>, resolutions: seq<ToolResolution>)
    requires ChosenFrom(required, acc, resolutions).Passed? && acc.Keys <= required.Keys
    requires forall id :: id in acc ==> acc[id].callId == id && (acc[id].action == ResolutionDeny || acc[id].action == ResolutionExternalResult)
    ensures var r := ChosenFrom(required, acc, resolutions).value;
      && r.Keys <= required.Keys
      && (forall id :: id in r ==> r[id].callId == id && (r[id].action == ResolutionDeny || r[id].action == ResolutionExternalResult))
    decreases resolutions
  {
    if resolutions != [] {
      ChosenIndexes(required, acc[resolutions[0].callId := resolutions[0]], resolutions[1..]);
    }
  }

  lemma SubsetSameSize(small: set<string>, large: set<string>)
    requires small <= large && |small| == |large|
    ensures small == large
  {
    assert |large - small| == |large| - |small|;
    assert large == small + (large - small);
  }

  /** An accepted request denies, or supplies a result for, every indeterminate call and no other; it approves none. */
  lemma AcceptedResolutionsCover(calls: seq<PendingCall>, resolutions: seq<ToolResolution>)
    requires CheckResolutions(calls, resolutions).Passed?
    ensures var plan := CheckResolutions(calls, resolutions).value;
      && plan.chosen.Keys == plan.required.Keys
      && (forall i :: 0 <= i < |calls| ==> calls[i].id in plan.chosen && plan.required[calls[i].id] == calls[i])
      && (forall id :: id in plan.required ==> plan.required[id] in calls && plan.required[id].id == id)
      && (forall id :: id in plan.chosen ==> plan.chosen[id].callId == id)
      && (forall id :: id in plan.chosen ==>
            plan.chosen[id].action == ResolutionDeny || plan.chosen[id].action == ResolutionExternalResult)
  {
    var plan := CheckResolutions(calls, resolutions).value;
    RequiredIndexes(map[], calls);
    ChosenIndexes(plan.required, map[], resolutions);
    assert |plan.chosen.Keys| == |plan.chosen| && |plan.required.Keys| == |plan.required|;
    SubsetSameSize(plan.chosen.Keys, plan.required.Keys);
  }

  function Answer(call: PendingCall, resolution: ToolResolution, fallback: Message): Message {
    match resolution.action
    case ResolutionDeny =>
      NewToolResultMessageFor(call.id, call.name,
        if resolution.reason == "" then "denied by operator after indeterminate execution" else resolution.reason, true)
    case ResolutionExternalResult => NewToolResultMessageFor(call.id, call.name, resolution.result.GetOr(""), false)
    case _ => fallback
  }

  function Joined(head: Transcript, rest: Option<Transcript>): Option<Transcript> {
    match rest case None => None case Some(r) => Some(head + r)
  }

  /** Replaces the synthetic results of resolved calls; None is a repair message without exactly one result. */
  function Substitute(plan: Plan, added: Transcript): Option<Transcript>
    decreases added
  {
    if added == [] then Some([])
    else
      var results := GetToolResults(added[0]);
      if |results| != 1 then None
      else
        var id := results[0].toolUseId;
        var head := if id in plan.chosen && id in plan.required then Answer(plan.required[id], plan.chosen[id], added[0]) else added[0];
        Joined([head], Substitute(plan, added[1..]))
  }

  /** The payload's calls carry the names the transcript's open calls have. */
  predicate NamesMatch(open: seq<ToolUse>, calls: seq<PendingCall>) {
    forall i, j :: 0 <= i < |open| && 0 <= j < |calls| && open[i].id == calls[j].id ==> open[i].name == calls[j].name
  }

  lemma AnswerFits(call: ToolUse, required: PendingCall, resolution: ToolResolution, fallback: Message)
    requires required.id == call.id && required.name == call.name && ResultFor(call, fallback)
    ensures ResultFor(call, Answer(required, resolution, fallback))
  {
  }

  /** A result message for the call that says what the operator said: a denial, or the result that was supplied. */
  predicate Says(call: ToolUse, r: ToolResolution, message: Message) {
    && ResultFor(call, message)
    && match r.action
       case ResolutionDeny => message.content[0].result.isError && (r.reason != "" ==> message.content[0].result.content == r.reason)
       case ResolutionExternalResult => !message.content[0].result.isError && message.content[0].result.content == r.result.GetOr("")
       case _ => false
  }

  /** Each open call is answered as the operator said, or, if nothing was asked about it, as repair answers it. */
  lemma {:induction false} SubstitutedSays(open: seq<ToolUse>, calls: seq<PendingCall>, plan: Plan, pending: PendingCalls, i: nat)
    requires NamesMatch(open, calls) && i < |open|
    requires forall id :: id in plan.required ==> plan.required[id] in calls && plan.required[id].id == id
    requires forall id :: id in plan.chosen ==> plan.chosen[id].action == ResolutionDeny || plan.chosen[id].action == ResolutionExternalResult
    ensures var added := Substitute(plan, SyntheticResults(open, pending));
      added.Some? && |added.value| == |open|
      && if open[i].id in plan.required && open[i].id in plan.chosen then Says(open[i], plan.chosen[open[i].id], added.value[i])
         else added.value[i] == SyntheticResult(open[i], pending)
    decreases open
  {
    var call, tail := open[0], open[1..];
    assert open == [call] + tail;
    SubstitutedAnswers(tail, calls, plan, pending);
    var first := SyntheticResult(call, pending);
    ResultMessageParts(call.id, call.name, SyntheticContent(call, pending), true);
    assert SyntheticResults(open, pending)[1..] == SyntheticResults(tail, pending);
    hide GetToolResults, SyntheticResult, Says, AnswersEach, Answer;
    if call.id in plan.required && call.id in plan.chosen {
      AnswerSays(call, plan.required[call.id], plan.chosen[call.id], first);
    }
    if i > 0 {
      SubstitutedSays(tail, calls, plan, pending, i - 1);
    }
  }

  lemma AnswerSays(call: ToolUse, required: PendingCall, r: ToolResolution, fallback: Message)
    requires required.id == call.id && required.name == call.name && (r.action == ResolutionDeny || r.action == ResolutionExternalResult)
    ensures Says(call, r, Answer(required, r, fallback))
  {
  }

  /** One named result per open call survives the substitution, in order. */
  lemma {:induction false} SubstitutedAnswers(open: seq<ToolUse>, calls: seq<PendingCall>, plan: Plan, pending: PendingCalls)
    requires NamesMatch(open, calls)
    requires forall id :: id in plan.required ==> plan.required[id] in calls && plan.required[id].id == id
    ensures Substitute(plan, SyntheticResults(open, pending)).Some?
    ensures AnswersEach(open, Substitute(plan, SyntheticResults(open, pending)).value)
    decreases open
  {
    if open != [] {
      var call, tail := open[0], open[1..];
      assert open == [call] + tail;
      SubstitutedAnswers(tail, calls, plan, pending);
      var first := SyntheticResult(call, pending);
      ResultMessageParts(call.id, call.name, SyntheticContent(call, pending), true);
      assert SyntheticResults(open, pending)[1..] == SyntheticResults(tail, pending);
      if call.id in plan.required && call.id in plan.chosen {
        AnswerFits(call, plan.required[call.id], plan.chosen[call.id], first);
      }
    }
  }

  /** Committing the resolved results closes the frontier. */
  lemma ResolvedTranscriptPaired(messages: Transcript, calls: seq<PendingCall>, plan: Plan, pending: PendingCalls)
    requires Accepted(messages) && NamesMatch(Unresolved(FrontierOf(messages)), calls)
    requires forall id :: id in plan.required ==> plan.required[id] in calls && plan.required[id].id == id
    ensures var added := Substitute(plan, SyntheticResults(Unresolved(FrontierOf(messages)), pending));
      added.Some? && FullyPaired(messages + added.value)
  {
    var open := Unresolved(FrontierOf(messages));
    SubstitutedAnswers(open, calls, plan, pending);
    var added := Substitute(plan, SyntheticResults(open, pending)).value;
    RunKeepsShape(Closed, messages);
    AnswersClose(FrontierOf(messages), added);
    RunConcat(Closed, messages, added);
  }

  // ---------------------------------------------------------------------
  // The loops of the resolver.

  method ReadRequired(calls: seq<PendingCall>) returns (r: Check<map<string, PendingCall>>)
    ensures r == RequiredFrom(map[], calls)
  {
    var required: map<string, PendingCall> := map[];
    for i := 0 to |calls|
      invariant RequiredFrom(map[], calls) == RequiredFrom(required, calls[i..])
    {
      assert calls[i..][1..] == calls[i + 1..];
      if calls[i].id == "" || calls[i].state != PendingIndeterminate || calls[i].id in required {
        return Rejected(Malformed);
      }
      required := required[calls[i].id := calls[i]];
    }
    return Passed(required);
  }

  method ReadChosen(required: map<string, PendingCall>, resolutions: seq<ToolResolution>) returns (r: Check<map<string, ToolResolution>>)
    ensures r == ChosenFrom(required, map[], resolutions)
  {
    var chosen: map<string, ToolResolution> := map[];
    for i := 0 to |resolutions|
      invariant ChosenFrom(required, map[], resolutions) == ChosenFrom(required, chosen, resolutions[i..])
    {
      assert resolutions[i..][1..] == resolutions[i + 1..];
      var resolution := resolutions[i];
      if resolution.callId !in required {
        return Rejected(UnknownCall);
      }
      if resolution.callId in chosen {
        return Rejected(DuplicateCall);
      }
      if resolution.action == ResolutionApprove {
        return Rejected(ApprovedIndeterminate);
      }
      if resolution.action != ResolutionDeny && resolution.action != ResolutionExternalResult {
        return Rejected(InvalidAction);
      }
      chosen := chosen[resolution.callId := resolution];
    }
    return Passed(chosen);
  }

  method ReadResolutions(calls: seq<PendingCall>, resolutions: seq<ToolResolution>) returns (r: Check<Plan>)
    ensures r == CheckResolutions(calls, resolutions)
  {
    var required := ReadRequired(calls);
    if required.Rejected? {
      return Rejected(required.error);
    }
    var chosen := ReadChosen(required.value, resolutions);
    if chosen.Rejected? {
      return Rejected(chosen.error);
    }
    if |chosen.value| != |required.value| {
      return Rejected(MissingCalls);
    }
    return Passed(Plan(required.value, chosen.value));
  }

  lemma JoinedTwice(head: Transcript, message: Message, rest: Option<Transcript>)
    ensures Joined(head, Joined([message], rest)) == Joined(head + [message], rest)
  {
    if rest.Some? {
      assert head + ([message] + rest.value) == head + [message] + rest.value;
    }
  }

  method SubstituteResults(plan: Plan, added: Transcript) returns (r: Option<Transcript>)
    ensures r == Substitute(plan, added)
  {
    hide PartUses, PartResults, Answer;
    var out: Transcript := [];
    assert added[0..] == added && (Substitute(plan, added).Some? ==> [] + Substitute(plan, added).value == Substitute(plan, added).value);
    for i := 0 to |added|
      invariant Substitute(plan, added) == Joined(out, Substitute(plan, added[i..]))
    {
      var rest := added[i + 1..];
      assert added[i..][1..] == rest;
      var results := GetToolResults(added[i]);
      if |results| != 1 {
        return None;
      }
      var id, message := results[0].toolUseId, added[i];
      if id in plan.chosen && id in plan.required {
        message := Answer(plan.required[id], plan.chosen[id], added[i]);
      }
      JoinedTwice(out, message, Substitute(plan, rest));
      out := out + [message];
    }
    assert out + [] == out;
    return Some(out);
  }
}
