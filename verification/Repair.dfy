/** Provider projections of a durable transcript (harness/repair/repair.go). */
module Repair {
  import opened Messages
  import opened Pairing

  datatype FrontierMode = CloseInterruptedFrontier | PreserveDeferredFrontier

  datatype PendingState = PendingUnknown | PendingPlanned | PendingStarted | PendingIndeterminate

  datatype PendingCall = PendingCall(id: string, name: string, state: PendingState)

  datatype PendingCalls = PendingCalls(calls: seq<PendingCall>, reason: string)

  const NoPending := PendingCalls([], "")

  function StateOf(calls: seq<PendingCall>, id: string): PendingState {
    if calls == [] then PendingUnknown
    else if calls[0].id == id then calls[0].state
    else StateOf(calls[1..], id)
  }

  function SyntheticReason(call: ToolUse, pending: PendingCalls): string {
    if pending.reason != "" then pending.reason
    else match StateOf(pending.calls, call.id)
      case PendingIndeterminate => "the tool started but no durable result was observed; its effect is indeterminate"
      case PendingStarted => "the tool started but no durable result was observed; its effect is indeterminate"
      case PendingPlanned => "the tool was abandoned before it started"
      case PendingUnknown => "the tool call was interrupted before a durable result was committed"
  }

  function SyntheticContent(call: ToolUse, pending: PendingCalls): string {
    "Harness synthetic result: " + SyntheticReason(call, pending) + "; the call was not retried."
  }

  function SyntheticResult(call: ToolUse, pending: PendingCalls): Message {
    NewToolResultMessageFor(call.id, call.name, SyntheticContent(call, pending), true)
  }

  function SyntheticResults(calls: seq<ToolUse>, pending: PendingCalls): (messages: Transcript)
    ensures |messages| == |calls|
  {
    if calls == [] then [] else [SyntheticResult(calls[0], pending)] + SyntheticResults(calls[1..], pending)
  }

  // ---------------------------------------------------------------------
  // The transform, as a fold over the messages.

  datatype Open = Open(frontier: Frontier, outputIndex: nat)

  datatype Projection = Projection(output: Transcript, open: Option<Open>, recentlyResolved: set<string>)

  const Start := Projection([], None, {})

  function FrontierIn(open: Option<Open>): Frontier {
    match open case None => Closed case Some(o) => o.frontier
  }

  function CloseOpen(p: Projection, pending: PendingCalls): Projection {
    match p.open
    case None => p
    case Some(o) => p.(output := p.output + SyntheticResults(Unresolved(o.frontier), pending), open := None)
  }

  function Prepend(kept: seq<Part>, rest: Option<(seq<Part>, set<string>)>): Option<(seq<Part>, set<string>)> {
    match rest case None => None case Some(r) => Some((kept + r.0, r.1))
  }

  /** Keeps non-result parts and results of open calls; drops orphans; refuses repeats and renames. */
  function FilterParts(index: map<string, ToolUse>, resolved: set<string>, recent: set<string>, content: seq<Part>)
    : Option<(seq<Part>, set<string>)>
    decreases content
  {
    if content == [] then Some(([], resolved))
    else
      var part := content[0];
      if !part.Result? then
        Prepend([part], FilterParts(index, resolved, recent, content[1..]))
      else
        var id := part.result.toolUseId;
        if id !in index then
          if id in recent then None else FilterParts(index, resolved, recent, content[1..])
        else if id in resolved then None
        else if part.result.name != "" && part.result.name != index[id].name then None
        else Prepend([part], FilterParts(index, resolved + {id}, recent, content[1..]))
  }

  function KeepMessage(output: Transcript, message: Message, kept: seq<Part>): Transcript {
    if kept == [] then output else output + [message.(content := kept)]
  }

  function StepUses(p: Projection, message: Message, mode: FrontierMode, pending: PendingCalls): Option<Projection> {
    if message.role != RoleAssistant || GetToolResults(message) != [] then None
    else if p.open.Some? && mode == PreserveDeferredFrontier then None
    else if !DistinctIds(GetToolUses(message)) then None
    else
      var closed := CloseOpen(p, pending);
      Some(Projection(closed.output + [message], Some(Open(Frontier(GetToolUses(message), {}), |closed.output|)), {}))
  }

  function StepResults(p: Projection, message: Message): Option<Projection> {
    if message.role != RoleTool then None
    else
      var f := FrontierIn(p.open);
      match FilterParts(IndexById(f.calls), f.resolved, p.recentlyResolved, message.content)
      case None => None
      case Some(filtered) =>
        var output := KeepMessage(p.output, message, filtered.0);
        match p.open
        case None => Some(p.(output := output))
        case Some(o) =>
          var after := Frontier(f.calls, filtered.1);
          if Complete(after) then Some(Projection(output, None, Ids(f.calls)))
          else Some(Projection(output, Some(Open(after, o.outputIndex)), p.recentlyResolved))
  }

  function Step(p: Projection, message: Message, mode: FrontierMode, pending: PendingCalls): Option<Projection> {
    if GetToolUses(message) != [] then StepUses(p, message, mode, pending)
    else if GetToolResults(message) != [] then StepResults(p, message)
    else if p.open.Some? && mode == PreserveDeferredFrontier then None
    else
      var closed := CloseOpen(p, pending);
      Some(Projection(closed.output + [message], None, {}))
  }

  function Steps(p: Projection, messages: Transcript, mode: FrontierMode, pending: PendingCalls): Option<Projection>
    decreases messages
  {
    if messages == [] then Some(p)
    else
      match Step(p, messages[0], mode, pending)
      case None => None
      case Some(next) => Steps(next, messages[1..], mode, pending)
  }

  predicate SamePending(calls: seq<ToolUse>, pending: seq<PendingCall>) {
    && |calls| == |pending|
    && forall i :: 0 <= i < |calls| ==>
         calls[i].id == pending[i].id && (pending[i].name == "" || calls[i].name == pending[i].name)
  }

  function Finish(p: Projection, mode: FrontierMode, pending: PendingCalls): Option<Transcript> {
    match p.open
    case None => Some(p.output)
    case Some(o) =>
      if mode == CloseInterruptedFrontier then Some(CloseOpen(p, pending).output)
      else if !SamePending(Unresolved(o.frontier), pending.calls) then None
      else if o.outputIndex <= |p.output| then Some(p.output[..o.outputIndex])
      else None
  }

  /** None is the package's single error, ErrTranscriptInvalid. */
  function Process(messages: Transcript, mode: FrontierMode, pending: PendingCalls): Option<Transcript> {
    match Steps(Start, messages, mode, pending)
    case None => None
    case Some(p) => Finish(p, mode, pending)
  }

  function Repaired(messages: Transcript, pending: PendingCalls): Option<Transcript> {
    Process(messages, CloseInterruptedFrontier, pending)
  }

  // ---------------------------------------------------------------------
  // The separately written frontier inspector.

  function RawResults(index: map<string, ToolUse>, resolved: set<string>, results: seq<ToolResult>): Option<set<string>>
    decreases results
  {
    if results == [] then Some(resolved)
    else
      var head := results[0];
      if head.toolUseId !in index then RawResults(index, resolved, results[1..])
      else if head.toolUseId in resolved then None
      else if head.name != "" && head.name != index[head.toolUseId].name then None
      else RawResults(index, resolved + {head.toolUseId}, results[1..])
  }

  function RawStep(f: Frontier, message: Message): Option<Frontier> {
    var uses, results := GetToolUses(message), GetToolResults(message);
    if uses != [] && (f.calls != [] || !DistinctIds(uses)) then None
    else
      var current := if uses != [] then Frontier(uses, {}) else f;
      if results != [] && current.calls != [] then
        match RawResults(IndexById(current.calls), current.resolved, results)
        case None => None
        case Some(resolved) => Some(Settle(Frontier(current.calls, resolved)))
      else Some(current)
  }

  function RawRun(f: Frontier, messages: Transcript): Option<Frontier>
    decreases messages
  {
    if messages == [] then Some(f)
    else
      match RawStep(f, messages[0])
      case None => None
      case Some(next) => RawRun(next, messages[1..])
  }

  function RawFinalFrontier(messages: Transcript): Option<seq<ToolUse>> {
    match RawRun(Closed, messages)
    case None => None
    case Some(f) => Some(Unresolved(f))
  }

  function PendingFrom(calls: seq<ToolUse>): seq<PendingCall> {
    seq(|calls|, i requires 0 <= i < |calls| => PendingCall(calls[i].id, calls[i].name, PendingUnknown))
  }

  function PendingFromFinalFrontier(messages: Transcript): PendingCalls {
    PendingCalls(PendingFrom(RawFinalFrontier(messages).GetOr([])), "")
  }

  function Inspect(messages: Transcript): Option<seq<ToolUse>> {
    if Process(messages, PreserveDeferredFrontier, PendingFromFinalFrontier(messages)).None? then None
    else RawFinalFrontier(messages)
  }

  // ---------------------------------------------------------------------
  // Soundness: a successful repair in close mode is fully paired.

  predicate Tracks(p: Projection) {
    && WellFormed(FrontierIn(p.open))
    && (p.open.Some? ==> p.open.value.frontier.calls != [] && p.open.value.outputIndex <= |p.output|)
    && Run(Closed, p.output) == Some(FrontierIn(p.open))
  }

  lemma {:induction false} SyntheticsAnswer(calls: seq<ToolUse>, pending: PendingCalls)
    ensures AnswersEach(calls, SyntheticResults(calls, pending))
  {
    if calls != [] {
      SyntheticsAnswer(calls[1..], pending);
    }
  }

  /** Synthetic results close whatever frontier they were made for. */
  lemma SyntheticsClose(f: Frontier, pending: PendingCalls)
    requires WellFormed(f)
    ensures Run(f, SyntheticResults(Unresolved(f), pending)) == Some(Closed)
  {
    SyntheticsAnswer(Unresolved(f), pending);
    AnswersClose(f, SyntheticResults(Unresolved(f), pending));
  }

  lemma CloseTracks(p: Projection, pending: PendingCalls)
    requires Tracks(p)
    ensures Tracks(CloseOpen(p, pending)) && CloseOpen(p, pending).open == None
  {
    if p.open.Some? {
      SyntheticsClose(p.open.value.frontier, pending);
      RunConcat(Closed, p.output, SyntheticResults(Unresolved(p.open.value.frontier), pending));
    }
  }

  /** The results that survive filtering are exactly what the root checker would record. */
  lemma {:induction false} FilterAgrees(index: map<string, ToolUse>, resolved: set<string>, recent: set<string>, content: seq<Part>)
    requires PartUses(content) == []
    ensures match FilterParts(index, resolved, recent, content)
      case None => true
      case Some(f) => PartUses(f.0) == [] && ResolveResults(index, resolved, PartResults(f.0)) == Some(f.1)
    decreases content
  {
    if content != [] && FilterParts(index, resolved, recent, content).Some? {
      var part, tail := content[0], content[1..];
      if part.Result? && part.result.toolUseId in index {
        var taken := resolved + {part.result.toolUseId};
        FilterAgrees(index, taken, recent, tail);
        var rest := FilterParts(index, taken, recent, tail).value.0;
        assert ([part] + rest)[1..] == rest;
        assert PartResults([part] + rest) == [part.result] + PartResults(rest);
        assert ([part.result] + PartResults(rest))[1..] == PartResults(rest);
      } else {
        FilterAgrees(index, resolved, recent, tail);
        var rest := FilterParts(index, resolved, recent, tail).value.0;
        assert ([part] + rest)[1..] == rest;
        assert !part.Result? ==> PartResults([part] + rest) == PartResults(rest);
      }
    }
  }

  lemma StepResultsTracks(p: Projection, message: Message)
    requires Tracks(p) && GetToolUses(message) == []
    ensures StepResults(p, message).Some? ==> Tracks(StepResults(p, message).value)
  {
    var f := FrontierIn(p.open);
    var filtered := FilterParts(IndexById(f.calls), f.resolved, p.recentlyResolved, message.content);
    if message.role == RoleTool && filtered.Some? {
      FilterAgrees(IndexById(f.calls), f.resolved, p.recentlyResolved, message.content);
      var kept, resolved := filtered.value.0, filtered.value.1;
      var keptMessage := message.(content := kept);
      AdvanceKeepsShape(f, keptMessage);
      if f.calls == [] {
        assert PartResults(kept) == [];
      } else if PartResults(kept) == [] {
        assert resolved == f.resolved && f == Frontier(f.calls, resolved);
      }
      if kept != [] {
        RunSnoc(Closed, p.output, keptMessage);
      }
    }
  }

  lemma StepTracks(p: Projection, message: Message, mode: FrontierMode, pending: PendingCalls)
    requires Tracks(p)
    ensures Step(p, message, mode, pending).Some? ==> Tracks(Step(p, message, mode, pending).value)
  {
    CloseTracks(p, pending);
    var closed := CloseOpen(p, pending);
    if GetToolUses(message) == [] && GetToolResults(message) != [] {
      StepResultsTracks(p, message);
    } else if Step(p, message, mode, pending).Some? {
      RunSnoc(Closed, closed.output, message);
      AdvanceKeepsShape(Closed, message);
    }
  }

  lemma {:induction false} StepsTrack(p: Projection, messages: Transcript, mode: FrontierMode, pending: PendingCalls)
    requires Tracks(p)
    ensures Steps(p, messages, mode, pending).Some? ==> Tracks(Steps(p, messages, mode, pending).value)
    decreases messages
  {
    if messages != [] && Step(p, messages[0], mode, pending).Some? {
      StepTracks(p, messages[0], mode, pending);
      StepsTrack(Step(p, messages[0], mode, pending).value, messages[1..], mode, pending);
    }
  }

  /** Whatever the input, a repair that succeeds in close mode is a fully paired transcript. */
  lemma RepairSound(messages: Transcript, pending: PendingCalls)
    ensures Repaired(messages, pending).Some? ==> FullyPaired(Repaired(messages, pending).value)
  {
    StepsTrack(Start, messages, CloseInterruptedFrontier, pending);
    if Repaired(messages, pending).Some? {
      CloseTracks(Steps(Start, messages, CloseInterruptedFrontier, pending).value, pending);
    }
  }

  // ---------------------------------------------------------------------
  // Exactness: when repair leaves committed messages alone.

  /** A tool message without results, met while the frontier is open: the two
      checkers disagree on it, and on nothing else. */
  predicate Bare(f: Frontier, message: Message) {
    f.calls != [] && message.role == RoleTool && Inert(message)
  }

  predicate NoBareTool(f: Frontier, messages: Transcript)
    decreases messages
  {
    messages != [] ==>
      && !Bare(f, messages[0])
      && (Advance(f, messages[0]).Some? ==> NoBareTool(Advance(f, messages[0]).value, messages[1..]))
  }

  lemma {:induction false} NoBareSnoc(f: Frontier, messages: Transcript, last: Message)
    requires Run(f, messages).Some?
    ensures NoBareTool(f, messages + [last]) <==> NoBareTool(f, messages) && !Bare(Run(f, messages).value, last)
    decreases messages
  {
    var all := messages + [last];
    if messages == [] {
      assert all == [last] && all[1..] == [];
    } else {
      assert all[0] == messages[0] && all[1..] == messages[1..] + [last];
      NoBareSnoc(Advance(f, messages[0]).value, messages[1..], last);
    }
  }

  lemma {:induction false} FilterKeepsAccepted(index: map<string, ToolUse>, resolved: set<string>, recent: set<string>, content: seq<Part>)
    requires PartUses(content) == []
    requires ResolveResults(index, resolved, PartResults(content)).Some?
    ensures FilterParts(index, resolved, recent, content)
      == Some((content, ResolveResults(index, resolved, PartResults(content)).value))
    decreases content
  {
    if content != [] {
      var part, tail := content[0], content[1..];
      assert content == [part] + tail;
      if part.Result? {
        assert PartResults(content)[1..] == PartResults(tail);
        FilterKeepsAccepted(index, resolved + {part.result.toolUseId}, recent, tail);
      } else {
        assert PartResults(content) == PartResults(tail);
        FilterKeepsAccepted(index, resolved, recent, tail);
      }
    }
  }

  lemma ExactResults(p: Projection, message: Message)
    requires Tracks(p) && GetToolUses(message) == [] && GetToolResults(message) != []
    requires Advance(FrontierIn(p.open), message).Some?
    ensures StepResults(p, message).Some?
    ensures var q := StepResults(p, message).value;
            q.output == p.output + [message] && FrontierIn(q.open) == Advance(FrontierIn(p.open), message).value
  {
    var f := FrontierIn(p.open);
    FilterKeepsAccepted(IndexById(f.calls), f.resolved, p.recentlyResolved, message.content);
    assert message.(content := message.content) == message;
    assert message.content != [];
  }

  /** One accepted message passes through either mode unchanged. */
  lemma ExactStep(p: Projection, message: Message, mode: FrontierMode, pending: PendingCalls)
    requires Tracks(p) && Advance(FrontierIn(p.open), message).Some? && !Bare(FrontierIn(p.open), message)
    ensures Step(p, message, mode, pending).Some?
    ensures var q := Step(p, message, mode, pending).value;
            && q.output == p.output + [message]
            && FrontierIn(q.open) == Advance(FrontierIn(p.open), message).value
            && Tracks(q)
  {
    StepTracks(p, message, mode, pending);
    if GetToolUses(message) == [] && GetToolResults(message) != [] {
      ExactResults(p, message);
    }
  }

  lemma {:induction false} ExactSteps(p: Projection, messages: Transcript, mode: FrontierMode, pending: PendingCalls)
    requires Tracks(p) && Run(FrontierIn(p.open), messages).Some? && NoBareTool(FrontierIn(p.open), messages)
    ensures Steps(p, messages, mode, pending).Some?
    ensures var q := Steps(p, messages, mode, pending).value;
            && q.output == p.output + messages
            && FrontierIn(q.open) == Run(FrontierIn(p.open), messages).value
            && Tracks(q)
    decreases messages
  {
    hide Tracks, Step, Advance, Bare;
    if messages == [] {
      assert p.output + messages == p.output;
    } else {
      ExactStep(p, messages[0], mode, pending);
      ExactSteps(Step(p, messages[0], mode, pending).value, messages[1..], mode, pending);
      assert p.output + [messages[0]] + messages[1..] == p.output + messages;
    }
  }

  lemma StepGrows(p: Projection, message: Message, pending: PendingCalls)
    ensures var q := Step(p, message, CloseInterruptedFrontier, pending); q.Some? ==> p.output <= q.value.output
    ensures p.output <= CloseOpen(p, pending).output
  {
  }

  lemma {:induction false} StepsGrow(p: Projection, messages: Transcript, pending: PendingCalls)
    ensures var q := Steps(p, messages, CloseInterruptedFrontier, pending); q.Some? ==> p.output <= q.value.output
    decreases messages
  {
    if messages != [] && Step(p, messages[0], CloseInterruptedFrontier, pending).Some? {
      StepGrows(p, messages[0], pending);
      StepsGrow(Step(p, messages[0], CloseInterruptedFrontier, pending).value, messages[1..], pending);
    }
  }

  /** Closing before a bare tool message puts a synthetic result where that message was. */
  lemma BareDiverges(p: Projection, message: Message, rest: Transcript, pending: PendingCalls)
    requires Tracks(p) && Bare(FrontierIn(p.open), message)
    requires Steps(p, [message] + rest, CloseInterruptedFrontier, pending).Some?
    ensures var out := Steps(p, [message] + rest, CloseInterruptedFrontier, pending).value.output;
            |p.output| < |out| && out[|p.output|] != message
  {
    var f := FrontierIn(p.open);
    UnresolvedEmptyIffComplete(f);
    var call := Unresolved(f)[0];
    var q := Step(p, message, CloseInterruptedFrontier, pending).value;
    assert ([message] + rest)[1..] == rest;
    StepsGrow(q, rest, pending);
    ResultMessageParts(call.id, call.name, SyntheticContent(call, pending), true);
    assert q.output[|p.output|] == SyntheticResult(call, pending);
  }

  /** Index of the first committed message that repair displaces. */
  lemma {:induction false} BareSomewhereDiverges(p: Projection, messages: Transcript, pending: PendingCalls) returns (k: nat)
    requires Tracks(p) && Run(FrontierIn(p.open), messages).Some? && !NoBareTool(FrontierIn(p.open), messages)
    requires Steps(p, messages, CloseInterruptedFrontier, pending).Some?
    ensures k < |messages|
    ensures var out := Steps(p, messages, CloseInterruptedFrontier, pending).value.output;
            |p.output| + k < |out| && out[|p.output| + k] != messages[k]
    decreases messages
  {
    hide Tracks, Step, Advance, Bare;
    var head, tail := messages[0], messages[1..];
    assert messages == [head] + tail;
    if Bare(FrontierIn(p.open), head) {
      k := 0;
      BareDiverges(p, head, tail, pending);
    } else {
      ExactStep(p, head, CloseInterruptedFrontier, pending);
      var rest := BareSomewhereDiverges(Step(p, head, CloseInterruptedFrontier, pending).value, tail, pending);
      k := rest + 1;
    }
  }

  /** On a transcript the root checker accepts, repair only appends one named error
      result per unresolved call — exactly when no bare tool message sits in an open frontier. */
  lemma RepairKeepsCommitted(messages: Transcript, pending: PendingCalls)
    requires Accepted(messages)
    ensures (Repaired(messages, pending).Some? && messages <= Repaired(messages, pending).value)
      <==> NoBareTool(Closed, messages)
    ensures NoBareTool(Closed, messages) ==>
      Repaired(messages, pending) == Some(messages + SyntheticResults(Unresolved(FrontierOf(messages)), pending))
  {
    if NoBareTool(Closed, messages) {
      ExactSteps(Start, messages, CloseInterruptedFrontier, pending);
      var q := Steps(Start, messages, CloseInterruptedFrontier, pending).value;
      assert q.output == messages;
      if q.open.None? {
        assert messages + SyntheticResults(Unresolved(Closed), pending) == messages;
      }
    } else if Repaired(messages, pending).Some? {
      var k := BareSomewhereDiverges(Start, messages, pending);
      var q := Steps(Start, messages, CloseInterruptedFrontier, pending).value;
      StepGrows(q, messages[k], pending);
      assert Repaired(messages, pending).value[k] == q.output[k];
    }
  }

  // ---------------------------------------------------------------------
  // When repairing twice changes nothing.

  function ResultIds(results: seq<ToolResult>): set<string> {
    set i | 0 <= i < |results| :: results[i].toolUseId
  }

  /** The calls a message of the input leaves open: new calls open theirs, results answer the open ones, anything else closes. */
  function Follow(f: Frontier, message: Message): Frontier {
    if GetToolUses(message) != [] then Frontier(GetToolUses(message), {})
    else if GetToolResults(message) == [] then Closed
    else Settle(Frontier(f.calls, f.resolved + ResultIds(GetToolResults(message)) * Ids(f.calls)))
  }

  predicate AllResultParts(content: seq<Part>) {
    forall j :: 0 <= j < |content| ==> content[j].Result?
  }

  /** With calls open, a message whose results answer none of them and which holds something beside results. */
  predicate Strips(f: Frontier, message: Message) {
    && f.calls != [] && GetToolResults(message) != []
    && ResultIds(GetToolResults(message)) !! Ids(f.calls)
    && !AllResultParts(message.content)
  }

  predicate Stripped(f: Frontier, messages: Transcript)
    decreases messages
  {
    messages != [] && (Strips(f, messages[0]) || Stripped(Follow(f, messages[0]), messages[1..]))
  }

  lemma ResultIdsCons(head: ToolResult, tail: seq<ToolResult>)
    ensures ResultIds([head] + tail) == {head.toolUseId} + ResultIds(tail)
  {
    var all := [head] + tail;
    assert all[0] == head && forall i :: 0 <= i < |tail| ==> all[i + 1] == tail[i];
    assert forall i :: 0 < i < |all| ==> all[i] == tail[i - 1];
  }

  /** What filtering keeps of a message: the answers to open calls, and everything that is no result. */
  lemma {:induction false} FilterKeeps(index: map<string, ToolUse>, resolved: set<string>, recent: set<string>, content: seq<Part>)
    requires PartUses(content) == [] && FilterParts(index, resolved, recent, content).Some?
    ensures var f := FilterParts(index, resolved, recent, content).value;
      && f.1 == resolved + ResultIds(PartResults(content)) * index.Keys
      && (PartResults(f.0) == [] <==> ResultIds(PartResults(content)) !! index.Keys)
      && (PartResults(f.0) == [] ==> (f.0 == [] <==> AllResultParts(content)))
    decreases content
  {
    hide AllResultParts;
    if content == [] {
      NoParts();
    } else {
      var part, tail := content[0], content[1..];
      assert content == [part] + tail;
      PartCons(part, tail);
      if part.Result? {
        ResultIdsCons(part.result, PartResults(tail));
        var id := part.result.toolUseId;
        var taken := if id in index then resolved + {id} else resolved;
        FilterKeeps(index, taken, recent, tail);
        PartCons(part, FilterParts(index, taken, recent, tail).value.0);
      } else {
        FilterKeeps(index, resolved, recent, tail);
        PartCons(part, FilterParts(index, resolved, recent, tail).value.0);
      }
    }
  }

  lemma NoParts()
    ensures ResultIds([]) == {} && AllResultParts([])
  {
  }

  lemma PartCons(part: Part, tail: seq<Part>)
    ensures PartResults([part] + tail) == (if part.Result? then [part.result] else []) + PartResults(tail)
    ensures PartUses([part] + tail) == (if part.Use? then [part.use] else []) + PartUses(tail)
    ensures AllResultParts([part] + tail) <==> part.Result? && AllResultParts(tail)
    ensures !part.Result? ==> PartResults([part] + tail) == PartResults(tail)
    ensures !part.Use? ==> PartUses([part] + tail) == PartUses(tail)
  {
    var all := [part] + tail;
    assert all[0] == part && all[1..] == tail;
    assert (forall j :: 0 <= j < |tail| ==> all[j + 1] == tail[j]) && (forall j :: 1 <= j < |all| ==> all[j] == tail[j - 1]);
  }

  lemma {:induction false} NoBareAppendResults(f: Frontier, messages: Transcript, calls: seq<ToolUse>, pending: PendingCalls)
    requires Run(f, messages + SyntheticResults(calls, pending)).Some?
    ensures NoBareTool(f, messages + SyntheticResults(calls, pending)) <==> NoBareTool(f, messages)
    decreases calls
  {
    var synthetic := SyntheticResults(calls, pending);
    if calls == [] {
      assert messages + synthetic == messages;
    } else {
      var head, tail := SyntheticResult(calls[0], pending), SyntheticResults(calls[1..], pending);
      assert messages + synthetic == (messages + [head]) + tail;
      ResultMessageParts(calls[0].id, calls[0].name, SyntheticContent(calls[0], pending), true);
      RunConcat(f, messages, synthetic);
      NoBareSnoc(f, messages, head);
      NoBareAppendResults(f, messages + [head], calls[1..], pending);
    }
  }

  lemma CloseNoBare(p: Projection, pending: PendingCalls)
    requires Tracks(p)
    ensures NoBareTool(Closed, CloseOpen(p, pending).output) <==> NoBareTool(Closed, p.output)
  {
    CloseTracks(p, pending);
    if p.open.Some? {
      NoBareAppendResults(Closed, p.output, Unresolved(p.open.value.frontier), pending);
    }
  }

  lemma StepFollows(p: Projection, message: Message, pending: PendingCalls)
    requires Tracks(p) && Step(p, message, CloseInterruptedFrontier, pending).Some?
    ensures FrontierIn(Step(p, message, CloseInterruptedFrontier, pending).value.open) == Follow(FrontierIn(p.open), message)
  {
    hide AllResultParts;
    var f := FrontierIn(p.open);
    if GetToolUses(message) == [] && GetToolResults(message) != [] {
      FilterKeeps(IndexById(f.calls), f.resolved, p.recentlyResolved, message.content);
    }
  }

  lemma StepNoBare(p: Projection, message: Message, pending: PendingCalls)
    requires Tracks(p) && Step(p, message, CloseInterruptedFrontier, pending).Some?
    ensures NoBareTool(Closed, Step(p, message, CloseInterruptedFrontier, pending).value.output)
       <==> NoBareTool(Closed, p.output) && !Strips(FrontierIn(p.open), message)
  {
    hide AllResultParts;
    if GetToolUses(message) == [] && GetToolResults(message) != [] {
      var f := FrontierIn(p.open);
      FilterKeeps(IndexById(f.calls), f.resolved, p.recentlyResolved, message.content);
      FilterAgrees(IndexById(f.calls), f.resolved, p.recentlyResolved, message.content);
      var kept := FilterParts(IndexById(f.calls), f.resolved, p.recentlyResolved, message.content).value.0;
      if kept != [] {
        NoBareSnoc(Closed, p.output, message.(content := kept));
      }
    } else {
      CloseTracks(p, pending);
      CloseNoBare(p, pending);
      NoBareSnoc(Closed, CloseOpen(p, pending).output, message);
    }
  }

  lemma {:induction false} StepsNoBare(p: Projection, messages: Transcript, pending: PendingCalls)
    requires Tracks(p) && Steps(p, messages, CloseInterruptedFrontier, pending).Some?
    ensures NoBareTool(Closed, Steps(p, messages, CloseInterruptedFrontier, pending).value.output)
       <==> NoBareTool(Closed, p.output) && !Stripped(FrontierIn(p.open), messages)
    decreases messages
  {
    hide Tracks, Step, Strips, Follow, NoBareTool;
    if messages != [] {
      StepNoBare(p, messages[0], pending);
      StepFollows(p, messages[0], pending);
      StepTracks(p, messages[0], CloseInterruptedFrontier, pending);
      StepsNoBare(Step(p, messages[0], CloseInterruptedFrontier, pending).value, messages[1..], pending);
    }
  }

  /** Repairing twice changes nothing exactly when no message of the input is stripped: with calls open, results that answer none of
      them beside something else. What is left of such a message carries no result and holds its place inside the open frontier. */
  lemma RepairIdempotent(messages: Transcript, pending: PendingCalls, again: PendingCalls)
    requires Repaired(messages, pending).Some?
    ensures var out := Repaired(messages, pending).value;
            Repaired(out, again) == Some(out) <==> !Stripped(Closed, messages)
  {
    var out := Repaired(messages, pending).value;
    RepairSound(messages, pending);
    RepairKeepsCommitted(out, again);
    assert out + SyntheticResults(Unresolved(Closed), again) == out;
    var q := Steps(Start, messages, CloseInterruptedFrontier, pending).value;
    StepsTrack(Start, messages, CloseInterruptedFrontier, pending);
    StepsNoBare(Start, messages, pending);
    CloseNoBare(q, pending);
  }

  predicate ResultOnly(messages: Transcript) {
    forall i :: 0 <= i < |messages| && messages[i].role == RoleTool ==> AllResultParts(messages[i].content)
  }

  lemma {:induction false} ResultOnlyUnstripped(p: Projection, messages: Transcript, pending: PendingCalls)
    requires Tracks(p) && ResultOnly(messages) && Steps(p, messages, CloseInterruptedFrontier, pending).Some?
    ensures !Stripped(FrontierIn(p.open), messages)
    decreases messages
  {
    if messages != [] {
      StepFollows(p, messages[0], pending);
      StepTracks(p, messages[0], CloseInterruptedFrontier, pending);
      assert ResultOnly(messages[1..]);
      ResultOnlyUnstripped(Step(p, messages[0], CloseInterruptedFrontier, pending).value, messages[1..], pending);
    }
  }

  /** With result-only tool messages, repair is idempotent. */
  lemma RepairIdempotentOnResultOnly(messages: Transcript, pending: PendingCalls, again: PendingCalls)
    requires ResultOnly(messages) && Repaired(messages, pending).Some?
    ensures Repaired(Repaired(messages, pending).value, again) == Repaired(messages, pending)
  {
    ResultOnlyUnstripped(Start, messages, pending);
    RepairIdempotent(messages, pending, again);
  }

  // ---------------------------------------------------------------------
  // Both exceptions occur.

  const UseA := ToolUse("a", "t", "{}")
  const CallA := Message(RoleAssistant, [Use(UseA)])
  const NoteOnly := Message(RoleTool, [Text("note")])
  const Orphan := ToolResult("z", "t", "", false)
  const NoteAndOrphan := Message(RoleTool, [Text("note"), Result(Orphan)])

  lemma OnePart(part: Part)
    ensures PartUses([part]) == (if part.Use? then [part.use] else [])
    ensures PartResults([part]) == (if part.Result? then [part.result] else [])
  {
    assert [part][1..] == [];
  }

  lemma WitnessParts()
    ensures GetToolUses(CallA) == [UseA] && GetToolResults(CallA) == [] && Inert(NoteOnly)
    ensures GetToolUses(NoteAndOrphan) == [] && GetToolResults(NoteAndOrphan) == [Orphan]
  {
    OnePart(Use(UseA));
    OnePart(Text("note"));
    OnePart(Result(Orphan));
    assert NoteAndOrphan.content[1..] == [Result(Orphan)];
  }

  lemma TwoSteps(first: Message, second: Message, pending: PendingCalls)
    requires Step(Start, first, CloseInterruptedFrontier, pending).Some?
    ensures Steps(Start, [first, second], CloseInterruptedFrontier, pending)
         == Step(Step(Start, first, CloseInterruptedFrontier, pending).value, second, CloseInterruptedFrontier, pending)
  {
    hide Step;
    var messages := [first, second];
    assert messages[1..] == [second] && [second][1..] == [];
    var p := Step(Start, first, CloseInterruptedFrontier, pending).value;
    assert Steps(p, [second], CloseInterruptedFrontier, pending) == Step(p, second, CloseInterruptedFrontier, pending) by {
      var q := Step(p, second, CloseInterruptedFrontier, pending);
      assert q.Some? ==> Steps(q.value, [], CloseInterruptedFrontier, pending) == q;
    }
  }

  lemma OneSynthetic(pending: PendingCalls)
    ensures SyntheticResults(Unresolved(Frontier([UseA], {})), pending) == [SyntheticResult(UseA, pending)]
  {
    assert [UseA][1..] == [];
    assert UnresolvedFrom([UseA], {}) == [UseA] + UnresolvedFrom([], {});
    assert SyntheticResults([UseA], pending) == [SyntheticResult(UseA, pending)] + SyntheticResults([], pending);
  }

  /** The projection once the call is open. */
  lemma CallOpens(pending: PendingCalls)
    ensures Advance(Closed, CallA) == Some(Frontier([UseA], {}))
    ensures Step(Start, CallA, CloseInterruptedFrontier, pending) == Some(Projection([CallA], Some(Open(Frontier([UseA], {}), 0)), {}))
  {
    WitnessParts();
    assert [] + [CallA] == [CallA];
  }

  /** An accepted transcript with a bare tool message: repair puts the synthetic result in front of it, and inspection refuses it. The
      repaired transcript is repaired for good. */
  lemma BareToolDisplaced(pending: PendingCalls, again: PendingCalls)
    ensures Accepted([CallA, NoteOnly]) && Inspect([CallA, NoteOnly]) == None
    ensures var out := [CallA, SyntheticResult(UseA, pending), NoteOnly];
      Repaired([CallA, NoteOnly], pending) == Some(out) && Repaired(out, again) == Some(out)
  {
    hide GetToolUses, GetToolResults;
    WitnessParts();
    CallOpens(pending);
    TwoSteps(CallA, NoteOnly, pending);
    OneSynthetic(pending);
    var messages := [CallA, NoteOnly];
    var f := Frontier([UseA], {});
    assert messages[1..] == [NoteOnly] && [NoteOnly][1..] == [];
    assert Advance(f, NoteOnly) == Some(f) && Run(f, [NoteOnly]) == Run(f, []);
    assert Bare(f, NoteOnly) && !Strips(f, NoteOnly) && !Strips(Closed, CallA);
    assert !Stripped(f, [NoteOnly]);
    assert [CallA] + [SyntheticResult(UseA, pending)] + [NoteOnly] == [CallA, SyntheticResult(UseA, pending), NoteOnly];
    InspectExact(messages);
    RepairIdempotent(messages, pending, again);
  }

  lemma OrphanFiltered()
    ensures FilterParts(IndexById([UseA]), {}, {}, NoteAndOrphan.content) == Some(([Text("note")], {}))
  {
    var index := IndexById([UseA]);
    assert Ids([UseA]) == {"a"};
    assert NoteAndOrphan.content[1..] == [Result(Orphan)] && [Result(Orphan)][1..] == [];
    assert FilterParts(index, {}, {}, [Result(Orphan)]) == FilterParts(index, {}, {}, []);
    assert [Text("note")] + [] == [Text("note")];
  }

  /** A stripped tool message: what the first repair leaves bare, the second displaces. */
  lemma StrippedTwice(pending: PendingCalls, again: PendingCalls)
    ensures Stripped(Closed, [CallA, NoteAndOrphan])
    ensures var out := [CallA, NoteOnly, SyntheticResult(UseA, pending)];
      Repaired([CallA, NoteAndOrphan], pending) == Some(out) && Repaired(out, again) != Some(out)
  {
    hide GetToolUses, GetToolResults, FilterParts, Unresolved, SyntheticResults;
    WitnessParts();
    CallOpens(pending);
    TwoSteps(CallA, NoteAndOrphan, pending);
    OneSynthetic(pending);
    OrphanFiltered();
    var messages := [CallA, NoteAndOrphan];
    assert messages[1..] == [NoteAndOrphan];
    assert forall id :: id in ResultIds([Orphan]) ==> id == "z";
    assert forall id :: id in Ids([UseA]) ==> id == "a";
    assert NoteAndOrphan.content[0] == Text("note");
    assert Follow(Closed, CallA) == Frontier([UseA], {}) && Strips(Frontier([UseA], {}), NoteAndOrphan);
    assert NoteAndOrphan.(content := [Text("note")]) == NoteOnly;
    assert [CallA] + [NoteOnly] + [SyntheticResult(UseA, pending)] == [CallA, NoteOnly, SyntheticResult(UseA, pending)];
    RepairIdempotent(messages, pending, again);
  }

  // ---------------------------------------------------------------------
  // The inspector agrees with the repair and with the root checker.

  lemma {:induction false} RawAgreesWithFilter(index: map<string, ToolUse>, resolved: set<string>, recent: set<string>, content: seq<Part>)
    requires PartUses(content) == []
    ensures match FilterParts(index, resolved, recent, content)
      case None => true
      case Some(f) => RawResults(index, resolved, PartResults(content)) == Some(f.1)
    decreases content
  {
    if content != [] && FilterParts(index, resolved, recent, content).Some? {
      var part, tail := content[0], content[1..];
      if part.Result? {
        assert PartResults(content) == [part.result] + PartResults(tail);
        assert PartResults(content)[1..] == PartResults(tail);
        RawAgreesWithFilter(index, resolved, recent, tail);
        RawAgreesWithFilter(index, resolved + {part.result.toolUseId}, recent, tail);
      } else {
        assert PartResults(content) == PartResults(tail);
        RawAgreesWithFilter(index, resolved, recent, tail);
      }
    }
  }

  lemma PreserveStep(p: Projection, message: Message, pending: PendingCalls, other: PendingCalls)
    requires Tracks(p) && Step(p, message, PreserveDeferredFrontier, pending).Some?
    ensures Step(p, message, CloseInterruptedFrontier, other) == Step(p, message, PreserveDeferredFrontier, pending)
    ensures RawStep(FrontierIn(p.open), message)
      == Some(FrontierIn(Step(p, message, PreserveDeferredFrontier, pending).value.open))
  {
    var f := FrontierIn(p.open);
    if GetToolUses(message) == [] && GetToolResults(message) != [] {
      RawAgreesWithFilter(IndexById(f.calls), f.resolved, p.recentlyResolved, message.content);
    }
  }

  lemma {:induction false} PreserveSteps(p: Projection, messages: Transcript, pending: PendingCalls, other: PendingCalls)
    requires Tracks(p) && Steps(p, messages, PreserveDeferredFrontier, pending).Some?
    ensures Steps(p, messages, CloseInterruptedFrontier, other) == Steps(p, messages, PreserveDeferredFrontier, pending)
    ensures RawRun(FrontierIn(p.open), messages)
      == Some(FrontierIn(Steps(p, messages, PreserveDeferredFrontier, pending).value.open))
    decreases messages
  {
    if messages != [] {
      PreserveStep(p, messages[0], pending, other);
      StepTracks(p, messages[0], PreserveDeferredFrontier, pending);
      PreserveSteps(Step(p, messages[0], PreserveDeferredFrontier, pending).value, messages[1..], pending, other);
    }
  }

  /** What InspectFrontier reports is what closing the same transcript would synthesize results for, one each, in order. */
  lemma InspectMatchesRepair(messages: Transcript, pending: PendingCalls)
    requires Inspect(messages).Some?
    ensures Repaired(messages, pending).Some?
    ensures exists kept :: Repaired(messages, pending).value == kept + SyntheticResults(Inspect(messages).value, pending)
  {
    var final := PendingFromFinalFrontier(messages);
    PreserveSteps(Start, messages, final, pending);
    var q := Steps(Start, messages, PreserveDeferredFrontier, final).value;
    var open := Inspect(messages).value;
    assert open == Unresolved(FrontierIn(q.open));
    if q.open.None? {
      assert q.output + SyntheticResults(open, pending) == q.output;
    }
    assert Repaired(messages, pending).value == q.output + SyntheticResults(open, pending);
  }

  lemma {:induction false} RawRunAgrees(f: Frontier, messages: Transcript)
    requires Run(f, messages).Some?
    ensures RawRun(f, messages) == Run(f, messages)
    decreases messages
  {
    if messages != [] {
      RawStepAgrees(f, messages[0]);
      RawRunAgrees(Advance(f, messages[0]).value, messages[1..]);
    }
  }

  lemma RawStepAgrees(f: Frontier, message: Message)
    requires Advance(f, message).Some?
    ensures RawStep(f, message) == Advance(f, message)
  {
    var current := OpenCalls(f, message).value;
    RawResultsAgree(IndexById(current.calls), current.resolved, GetToolResults(message));
  }

  lemma {:induction false} RawResultsAgree(index: map<string, ToolUse>, resolved: set<string>, results: seq<ToolResult>)
    requires ResolveResults(index, resolved, results).Some?
    ensures RawResults(index, resolved, results) == ResolveResults(index, resolved, results)
    decreases results
  {
    if results != [] {
      RawResultsAgree(index, resolved + {results[0].toolUseId}, results[1..]);
    }
  }

  lemma OwnPendingMatches(p: Projection, calls: seq<ToolUse>)
    requires Tracks(p) && (p.open.Some? ==> calls == Unresolved(p.open.value.frontier))
    ensures Finish(p, PreserveDeferredFrontier, PendingCalls(PendingFrom(calls), "")).Some?
  {
    hide Run, WellFormed, UnresolvedFrom;
    assert SamePending(calls, PendingFrom(calls));
  }

  /** On accepted transcripts the inspector returns exactly the unresolved calls — unless a bare tool message sits in an open frontier, when it refuses. */
  lemma InspectExact(messages: Transcript)
    requires Accepted(messages)
    ensures Inspect(messages) ==
      if NoBareTool(Closed, messages) then Some(Unresolved(FrontierOf(messages))) else None
  {
    assert Tracks(Start) && FrontierIn(Start.open) == Closed;
    RawRunAgrees(Closed, messages);
    hide Tracks, Run, RawRun, Steps, NoBareTool, UnresolvedFrom, Finish, PendingFrom;
    var open := Unresolved(FrontierOf(messages));
    var final := PendingFromFinalFrontier(messages);
    assert final == PendingCalls(PendingFrom(open), "");
    if NoBareTool(Closed, messages) {
      ExactSteps(Start, messages, PreserveDeferredFrontier, final);
      OwnPendingMatches(Steps(Start, messages, PreserveDeferredFrontier, final).value, open);
    } else {
      BareRefused(Start, messages, final);
    }
  }

  lemma {:induction false} BareRefused(p: Projection, messages: Transcript, pending: PendingCalls)
    requires Tracks(p) && Run(FrontierIn(p.open), messages).Some? && !NoBareTool(FrontierIn(p.open), messages)
    ensures Steps(p, messages, PreserveDeferredFrontier, pending).None?
    decreases messages
  {
    if !Bare(FrontierIn(p.open), messages[0]) {
      ExactStep(p, messages[0], PreserveDeferredFrontier, pending);
      BareRefused(Step(p, messages[0], PreserveDeferredFrontier, pending).value, messages[1..], pending);
    }
  }

  // ---------------------------------------------------------------------
  // The package's loops.

  method UnresolvedCalls(calls: seq<ToolUse>, resolved: set<string>) returns (open: seq<ToolUse>)
    ensures open == UnresolvedFrom(calls, resolved)
  {
    open := [];
    for i := 0 to |calls|
      invariant UnresolvedFrom(calls, resolved) == open + UnresolvedFrom(calls[i..], resolved)
    {
      assert calls[i..][1..] == calls[i + 1..];
      if calls[i].id !in resolved {
        open := open + [calls[i]];
      }
    }
  }

  lemma SyntheticsStep(calls: seq<ToolUse>, resolved: set<string>, pending: PendingCalls)
    requires calls != []
    ensures SyntheticResults(UnresolvedFrom(calls, resolved), pending) ==
      (if calls[0].id in resolved then [] else [SyntheticResult(calls[0], pending)])
      + SyntheticResults(UnresolvedFrom(calls[1..], resolved), pending)
  {
    var later := UnresolvedFrom(calls[1..], resolved);
    if calls[0].id in resolved {
      assert UnresolvedFrom(calls, resolved) == later;
    } else {
      assert UnresolvedFrom(calls, resolved)[1..] == later;
    }
  }

  /** The `closeOpen` closure: one synthetic result per unresolved call, in call order. */
  method AppendSynthetics(output: Transcript, f: Frontier, pending: PendingCalls) returns (extended: Transcript)
    ensures extended == output + SyntheticResults(Unresolved(f), pending)
  {
    extended := output;
    for i := 0 to |f.calls|
      invariant output + SyntheticResults(Unresolved(f), pending)
        == extended + SyntheticResults(UnresolvedFrom(f.calls[i..], f.resolved), pending)
    {
      SyntheticsStep(f.calls[i..], f.resolved, pending);
      assert f.calls[i..][1..] == f.calls[i + 1..];
      if f.calls[i].id in f.resolved {
        continue;
      }
      extended := extended + [SyntheticResult(f.calls[i], pending)];
    }
  }

  lemma PrependLaws(kept: seq<Part>, part: Part, rest: Option<(seq<Part>, set<string>)>)
    ensures Prepend([], rest) == rest
    ensures Prepend(kept, Prepend([part], rest)) == Prepend(kept + [part], rest)
  {
    if rest.Some? {
      assert [] + rest.value.0 == rest.value.0;
      assert kept + ([part] + rest.value.0) == (kept + [part]) + rest.value.0;
    }
  }

  method KeepParts(index: map<string, ToolUse>, before: set<string>, recent: set<string>, content: seq<Part>)
      returns (ok: bool, kept: seq<Part>, resolved: set<string>)
    ensures FilterParts(index, before, recent, content) == if ok then Some((kept, resolved)) else None
  {
    kept, resolved := [], before;
    ok := true;
    assert content[0..] == content;
    PrependLaws([], Text(""), FilterParts(index, before, recent, content));
    for i := 0 to |content|
      invariant ok
      invariant FilterParts(index, before, recent, content) == Prepend(kept, FilterParts(index, resolved, recent, content[i..]))
    {
      var part := content[i];
      assert content[i..][1..] == content[i + 1..];
      if !part.Result? {
        PrependLaws(kept, part, FilterParts(index, resolved, recent, content[i + 1..]));
        kept := kept + [part];
        continue;
      }
      var id := part.result.toolUseId;
      if id !in index {
        if id in recent {
          return false, kept, resolved;
        }
        continue;
      }
      if id in resolved {
        return false, kept, resolved;
      }
      if part.result.name != "" && part.result.name != index[id].name {
        return false, kept, resolved;
      }
      resolved := resolved + {id};
      PrependLaws(kept, part, FilterParts(index, resolved, recent, content[i + 1..]));
      kept := kept + [part];
    }
    assert kept + [] == kept;
  }

  /** The branch for a message with tool calls. */
  method ProcessUses(p: Projection, message: Message, mode: FrontierMode, pending: PendingCalls) returns (r: Option<Projection>)
    ensures r == StepUses(p, message, mode, pending)
  {
    var output := p.output;
    if message.role != RoleAssistant || |GetToolResults(message)| > 0 {
      return None;
    }
    if p.open.Some? {
      if mode == PreserveDeferredFrontier {
        return None;
      }
      output := AppendSynthetics(output, p.open.value.frontier, pending);
    }
    var distinct := CheckDistinct(GetToolUses(message));
    if !distinct {
      return None;
    }
    output := output + [message];
    return Some(Projection(output, Some(Open(Frontier(GetToolUses(message), {}), |output| - 1)), {}));
  }

  /** The branch for a message with tool results. */
  method ProcessResults(p: Projection, message: Message) returns (r: Option<Projection>)
    ensures r == StepResults(p, message)
  {
    if message.role != RoleTool {
      return None;
    }
    var index: map<string, ToolUse>, resolved: set<string> := map[], {};
    if p.open.Some? {
      index := BuildIndex(p.open.value.frontier.calls);
      resolved := p.open.value.frontier.resolved;
    }
    var ok, kept, after := KeepParts(index, resolved, p.recentlyResolved, message.content);
    if !ok {
      return None;
    }
    var output := p.output;
    if |kept| > 0 {
      output := output + [message.(content := kept)];
    }
    if p.open.None? {
      return Some(p.(output := output));
    }
    var f := Frontier(p.open.value.frontier.calls, after);
    var complete := CheckComplete(f.calls, f.resolved);
    if complete {
      return Some(Projection(output, None, Ids(f.calls)));
    }
    return Some(Projection(output, Some(p.open.value.(frontier := f)), p.recentlyResolved));
  }

  method ProcessMessages(messages: Transcript, mode: FrontierMode, pending: PendingCalls) returns (r: Option<Transcript>)
    ensures r == Process(messages, mode, pending)
  {
    var p := Start;
    assert messages[0..] == messages;
    for i := 0 to |messages|
      invariant Steps(Start, messages, mode, pending) == Steps(p, messages[i..], mode, pending)
    {
      var message := messages[i];
      assert messages[i..][1..] == messages[i + 1..];
      var next: Option<Projection>;
      if |GetToolUses(message)| > 0 {
        next := ProcessUses(p, message, mode, pending);
      } else if |GetToolResults(message)| > 0 {
        next := ProcessResults(p, message);
      } else if p.open.Some? && mode == PreserveDeferredFrontier {
        next := None;
      } else {
        var output := p.output;
        if p.open.Some? {
          output := AppendSynthetics(output, p.open.value.frontier, pending);
        }
        next := Some(Projection(output + [message], None, {}));
      }
      if next.None? {
        return None;
      }
      p := next.value;
    }
    if p.open.None? {
      return Some(p.output);
    }
    if mode == PreserveDeferredFrontier {
      var unresolved := UnresolvedCalls(p.open.value.frontier.calls, p.open.value.frontier.resolved);
      if !SamePending(unresolved, pending.calls) || p.open.value.outputIndex > |p.output| {
        return None;
      }
      return Some(p.output[..p.open.value.outputIndex]);
    }
    var output := AppendSynthetics(p.output, p.open.value.frontier, pending);
    return Some(output);
  }

  method ReadRawFrontier(messages: Transcript) returns (r: Option<seq<ToolUse>>)
    ensures r == RawFinalFrontier(messages)
  {
    var calls: seq<ToolUse>, resolved: set<string> := [], {};
    for i := 0 to |messages|
      invariant RawRun(Closed, messages) == RawRun(Frontier(calls, resolved), messages[i..])
    {
      var message := messages[i];
      assert messages[i..][1..] == messages[i + 1..];
      var uses, results := GetToolUses(message), GetToolResults(message);
      if |uses| > 0 {
        if |calls| > 0 {
          return None;
        }
        var distinct := CheckDistinct(uses);
        if !distinct {
          return None;
        }
        calls, resolved := uses, {};
      }
      if |results| > 0 && |calls| > 0 {
        var index := BuildIndex(calls);
        var before := resolved;
        for j := 0 to |results|
          invariant RawResults(index, before, results) == RawResults(index, resolved, results[j..])
        {
          var result := results[j];
          assert results[j..][1..] == results[j + 1..];
          if result.toolUseId !in index {
            continue;
          }
          if result.toolUseId in resolved {
            return None;
          }
          if result.name != "" && result.name != index[result.toolUseId].name {
            return None;
          }
          resolved := resolved + {result.toolUseId};
        }
        var complete := CheckComplete(calls, resolved);
        if complete {
          calls, resolved := [], {};
        }
      }
    }
    var unresolved := UnresolvedCalls(calls, resolved);
    return Some(unresolved);
  }

  method InspectFrontier(messages: Transcript) returns (r: Option<seq<ToolUse>>)
    ensures r == Inspect(messages)
  {
    var final := ReadRawFrontier(messages);
    var projected := ProcessMessages(messages, PreserveDeferredFrontier, PendingCalls(PendingFrom(final.GetOr([])), ""));
    if projected.None? {
      return None;
    }
    r := ReadRawFrontier(messages);
  }
}
