/** Where the session's markers sit in a paired transcript, and which operations keep it paired. */
module Placement {
  import opened Messages
  import opened Pairing
  import opened Repair
  import opened ContextPolicy
  import opened Usages
  import opened Suspensions
  import opened Journals
  import opened Lawful
  import opened Batches
  import opened SessionSteps
  import opened SessionStates
  import opened Resolutions

  predicate Sorted(markers: seq<ContextMarker>) {
    forall i, j :: 0 <= i < j < |markers| ==> markers[i].after <= markers[j].after
  }

  /** Every marker is inert and sits at a closed boundary. */
  predicate AtBoundaries(messages: Transcript, markers: seq<ContextMarker>) {
    forall i :: 0 <= i < |markers| ==>
      markers[i].after <= |messages| && FullyPaired(messages[..markers[i].after]) && Inert(markers[i].message)
  }

  /** A transcript the root checker accepts, without bare tool messages, with its markers at closed boundaries. */
  predicate Tidy(messages: Transcript, markers: seq<ContextMarker>) {
    && Accepted(messages) && NoBareTool(Pairing.Closed, messages)
    && Sorted(markers) && AtBoundaries(messages, markers)
  }

  lemma {:induction false} PlaceRuns(messages: Transcript, markers: seq<ContextMarker>, position: nat)
    requires position <= |messages| && Accepted(messages)
    requires Sorted(markers) && AtBoundaries(messages, markers)
    requires markers != [] ==> position <= markers[0].after
    ensures Accepted(messages[..position])
    ensures Run(FrontierOf(messages[..position]), Place(messages, markers, position)) == Run(Pairing.Closed, messages)
    decreases |messages| - position + |markers|
  {
    hide Advance, WellFormed;
    assert messages == messages[..position] + messages[position..];
    PrefixAccepted(messages[..position], messages[position..]);
    if markers != [] && markers[0].after <= position {
      var rest := markers[1..];
      InertStaysClosed(markers[0].message);
      PlaceRuns(messages, rest, position);
      RunCons(Pairing.Closed, markers[0].message, Place(messages, rest, position));
    } else if position < |messages| {
      PlaceRuns(messages, markers, position + 1);
      assert messages[..position + 1] == messages[..position] + [messages[position]];
      RunSnoc(Pairing.Closed, messages[..position], messages[position]);
      RunCons(FrontierOf(messages[..position]), messages[position], Place(messages, markers, position + 1));
    } else {
      assert messages[..position] == messages;
    }
  }

  /** The provider history of a tidy transcript leaves exactly the same calls open. */
  lemma HistoryKeepsFrontier(messages: Transcript, markers: seq<ContextMarker>)
    requires Tidy(messages, markers)
    ensures Run(Pairing.Closed, ProviderHistory(messages, markers)) == Run(Pairing.Closed, messages)
  {
    PlaceRuns(messages, markers, 0);
    assert messages[..0] == [];
  }

  /** The first `c` markers, and no others, stand before message `i`. */
  predicate Ahead(markers: seq<ContextMarker>, i: nat, c: nat) {
    c <= |markers| && forall k :: 0 <= k < |markers| ==> (markers[k].after <= i <==> k < c)
  }

  /** Each marker stands right before the message it was set at, after the markers set before it, and every message keeps its place among them. */
  ghost predicate Woven(messages: Transcript, markers: seq<ContextMarker>, from: nat, history: Transcript)
    requires from <= |messages|
  {
    && |history| == |messages| - from + |markers|
    && (forall k :: 0 <= k < |markers| ==> from <= markers[k].after <= |messages| && history[markers[k].after - from + k] == markers[k].message)
    && (forall i: nat, c: nat :: from <= i < |messages| && Ahead(markers, i, c) ==> history[i - from + c] == messages[i])
  }

  lemma {:induction false} PlaceWeaves(messages: Transcript, markers: seq<ContextMarker>, position: nat)
    requires position <= |messages| && Sorted(markers)
    requires forall k :: 0 <= k < |markers| ==> position <= markers[k].after <= |messages|
    ensures Woven(messages, markers, position, Place(messages, markers, position))
    decreases |messages| - position + |markers|
  {
    if markers != [] && markers[0].after <= position {
      PlaceWeaves(messages, markers[1..], position);
      WovenMarker(messages, markers, position, Place(messages, markers[1..], position));
    } else if position < |messages| {
      PlaceWeaves(messages, markers, position + 1);
    } else {
      assert markers == [];
    }
  }

  lemma {:induction false} WovenMarker(messages: Transcript, markers: seq<ContextMarker>, from: nat, rest: Transcript)
    requires from <= |messages| && markers != [] && markers[0].after == from && Woven(messages, markers[1..], from, rest)
    ensures Woven(messages, markers, from, [markers[0].message] + rest)
  {
    var history := [markers[0].message] + rest;
    forall k | 0 <= k < |markers|
      ensures from <= markers[k].after <= |messages| && history[markers[k].after - from + k] == markers[k].message
    {
      assert k > 0 ==> markers[k] == markers[1..][k - 1];
    }
    forall i: nat, c: nat | from <= i < |messages| && Ahead(markers, i, c) ensures history[i - from + c] == messages[i] {
      assert c > 0;
      assert Ahead(markers[1..], i, c - 1);
    }
  }

  /** The provider history is the transcript with the markers woven in, each at its place. */
  lemma {:induction false} HistoryWeaves(messages: Transcript, markers: seq<ContextMarker>)
    requires Sorted(markers) && MarkersWithin(markers, |messages|)
    ensures Woven(messages, markers, 0, ProviderHistory(messages, markers))
  {
    PlaceWeaves(messages, markers, 0);
  }

  // ---------------------------------------------------------------------
  // What keeps a transcript tidy.

  lemma CommitTidy(messages: Transcript, markers: seq<ContextMarker>, message: Message)
    requires Tidy(messages, markers)
    requires Advance(FrontierOf(messages), message).Some? && !Bare(FrontierOf(messages), message)
    ensures Tidy(messages + [message], markers)
    ensures Run(Pairing.Closed, messages + [message]) == Advance(FrontierOf(messages), message)
  {
    hide Advance, Bare, Inert;
    RunSnoc(Pairing.Closed, messages, message);
    NoBareSnoc(Pairing.Closed, messages, message);
    BoundariesExtend(messages, markers, [message]);
  }

  lemma BoundariesExtend(messages: Transcript, markers: seq<ContextMarker>, added: Transcript)
    requires AtBoundaries(messages, markers)
    ensures AtBoundaries(messages + added, markers)
  {
    forall i | 0 <= i < |markers| ensures (messages + added)[..markers[i].after] == messages[..markers[i].after] {}
  }

  lemma InertTidy(messages: Transcript, markers: seq<ContextMarker>, message: Message)
    requires Tidy(messages, markers) && FullyPaired(messages) && Inert(message)
    ensures Tidy(messages + [message], markers) && FullyPaired(messages + [message])
  {
    InertStaysClosed(message);
    CommitTidy(messages, markers, message);
  }

  lemma {:induction false} AllInertTidy(messages: Transcript, markers: seq<ContextMarker>, added: Transcript)
    requires Tidy(messages, markers) && FullyPaired(messages) && AllInert(added)
    ensures Tidy(messages + added, markers) && FullyPaired(messages + added)
    decreases added
  {
    hide Inert, Tidy, FullyPaired;
    if added == [] {
      assert messages + added == messages;
    } else {
      InertTidy(messages, markers, added[0]);
      AllInertTidy(messages + [added[0]], markers, added[1..]);
      assert messages + [added[0]] + added[1..] == messages + added;
    }
  }

  /** One result per open call pairs the transcript. */
  lemma AnswersTidy(messages: Transcript, markers: seq<ContextMarker>, added: Transcript)
    requires Tidy(messages, markers) && AnswersEach(Unresolved(FrontierOf(messages)), added)
    ensures Tidy(messages + added, markers) && FullyPaired(messages + added)
  {
    RunKeepsShape(Pairing.Closed, messages);
    AnswersClose(FrontierOf(messages), added);
    RunConcat(Pairing.Closed, messages, added);
    AnswersNotBare(messages, Unresolved(FrontierOf(messages)), added);
    BoundariesExtend(messages, markers, added);
  }

  lemma {:induction false} AnswersNotBare(messages: Transcript, calls: seq<ToolUse>, added: Transcript)
    requires NoBareTool(Pairing.Closed, messages) && Accepted(messages + added) && AnswersEach(calls, added)
    ensures NoBareTool(Pairing.Closed, messages + added)
    decreases added
  {
    hide Advance, Run;
    if added == [] {
      assert messages + added == messages;
    } else {
      var head, rest := added[0], added[1..];
      assert ResultFor(calls[0], head);
      assert messages + added == messages + [head] + rest;
      PrefixAccepted(messages + [head], rest);
      PrefixAccepted(messages, [head]);
      NoBareSnoc(Pairing.Closed, messages, head);
      ResultNotBare(calls[0], head, FrontierOf(messages));
      AnswersNotBare(messages + [head], calls[1..], rest);
    }
  }

  lemma ResultNotBare(call: ToolUse, message: Message, f: Frontier)
    requires ResultFor(call, message)
    ensures !Bare(f, message)
  {
    assert PartResults(message.content) == [message.content[0].result] + PartResults(message.content[1..]);
  }

  lemma MarkerTidy(messages: Transcript, markers: seq<ContextMarker>, message: Message)
    requires Tidy(messages, markers) && FullyPaired(messages) && Inert(message)
    ensures Tidy(messages, markers + [ContextMarker(|messages|, message)])
  {
    assert messages[..|messages|] == messages;
  }

  lemma {:induction false} MarkersTidy(messages: Transcript, markers: seq<ContextMarker>, added: Transcript)
    requires Tidy(messages, markers) && FullyPaired(messages) && AllInert(added)
    ensures Tidy(messages, markers + MarkersAt(|messages|, added))
    decreases added
  {
    hide Tidy, FullyPaired, Inert, MarkersAt;
    if added == [] {
      NoMarkers(markers, |messages|);
    } else {
      MarkerTidy(messages, markers, added[0]);
      MarkersTidy(messages, markers + [ContextMarker(|messages|, added[0])], added[1..]);
      FirstMarker(markers, |messages|, added);
    }
  }

  lemma NoMarkers(markers: seq<ContextMarker>, after: nat)
    ensures markers + MarkersAt(after, []) == markers
  {
  }

  lemma FirstMarker(markers: seq<ContextMarker>, after: nat, added: Transcript)
    requires added != []
    ensures markers + [ContextMarker(after, added[0])] + MarkersAt(after, added[1..]) == markers + MarkersAt(after, added)
  {
  }

  lemma InertHeadRuns(head: Message, messages: Transcript)
    requires Inert(head)
    ensures Run(Pairing.Closed, [head] + messages) == Run(Pairing.Closed, messages)
    ensures NoBareTool(Pairing.Closed, [head] + messages) <==> NoBareTool(Pairing.Closed, messages)
  {
    InertStaysClosed(head);
    RunCons(Pairing.Closed, head, messages);
    assert ([head] + messages)[1..] == messages;
  }

  lemma SystemTidy(messages: Transcript, markers: seq<ContextMarker>, system: Message)
    requires Tidy(messages, markers) && Inert(system)
    ensures Tidy([system] + messages, ShiftMarkers(markers))
    ensures Run(Pairing.Closed, [system] + messages) == Run(Pairing.Closed, messages)
  {
    hide Inert, NoBareTool, Run;
    InertHeadRuns(system, messages);
    var all, shifted := [system] + messages, ShiftMarkers(markers);
    forall i | 0 <= i < |shifted| ensures shifted[i].after <= |all| && FullyPaired(all[..shifted[i].after]) {
      assert all[..shifted[i].after] == [system] + messages[..markers[i].after];
      InertHeadRuns(system, messages[..markers[i].after]);
    }
  }

  // ---------------------------------------------------------------------
  // Operation by operation, on the durable image.

  predicate TidyImage(d: Durable) {
    Tidy(d.messages, d.markers)
  }

  /**
   * A start takes its prompt and the waiting next-turn inputs without a look at the transcript. It leaves a tidy one if and only if nothing
   * was open and those messages carry no tool traffic; the driver is then handed a paired history, and the prompt keeps it paired.
   */
  lemma StartTidy(d: Durable, id: string, limits: Option<Limits>, instructions: string, prompt: Message)
    requires TidyImage(d) && prompt.role == RoleUser && FromUsers(MessagesOf(d.queue))
    ensures var started := StartedImage(d, id, limits, instructions, prompt);
      && (TidyImage(started) <==> FullyPaired(d.messages) && AllInert(StartInputs(d) + [prompt]))
      && (TidyImage(started) <==> Accepted(started.messages))
      && (TidyImage(started) ==>
            && FullyPaired(started.messages) && FullyPaired(started.run.value.history)
            && FullyPaired(started.run.value.history + [prompt]) && Inert(prompt))
  {
    hide OfKinds, Inert, ProviderHistory, NoBareTool, Sorted, AtBoundaries, Run, MessagesOf;
    var next, inputs := StartInputs(d), StartInputs(d) + [prompt];
    assert d.messages + next + [prompt] == d.messages + inputs;
    RunConcat(Pairing.Closed, d.messages, inputs);
    RunKeepsShape(Pairing.Closed, d.messages);
    InputsFromUsers(d, prompt);
    UsersAdvance(FrontierOf(d.messages), inputs);
    if FullyPaired(d.messages) && AllInert(inputs) {
      assert next == inputs[..|next|] && prompt == inputs[|next|];
      PreparedTidy(d, next, prompt);
    }
  }

  /** The next-turn inputs a start takes into its history. */
  function StartInputs(d: Durable): Transcript {
    MessagesOf(OfKinds(d.queue, {QueueNextTurn}))
  }

  predicate FromUsers(messages: Transcript) {
    forall i :: 0 <= i < |messages| ==> messages[i].role == RoleUser
  }

  lemma InputsFromUsers(d: Durable, prompt: Message)
    requires prompt.role == RoleUser && FromUsers(MessagesOf(d.queue))
    ensures FromUsers(StartInputs(d) + [prompt])
  {
    OfKindsMembers(d.queue, {QueueNextTurn});
    var chosen := OfKinds(d.queue, {QueueNextTurn});
    forall i | 0 <= i < |chosen| ensures chosen[i].message.role == RoleUser {
      assert chosen[i] in chosen;
      var k :| 0 <= k < |d.queue| && d.queue[k] == chosen[i];
      assert MessagesOf(d.queue)[k] == chosen[i].message;
    }
  }

  lemma UserAdvances(f: Frontier, message: Message)
    requires message.role == RoleUser
    ensures Advance(f, message) == if f.calls == [] && Inert(message) then Some(f) else None
  {
  }

  /** User messages go on from a frontier if and only if it is closed and they carry no tool traffic. */
  lemma {:induction false} UsersAdvance(f: Frontier, messages: Transcript)
    requires WellFormed(f) && messages != [] && FromUsers(messages)
    ensures Run(f, messages).Some? <==> f == Pairing.Closed && AllInert(messages)
    ensures Run(f, messages).Some? ==> Run(f, messages) == Some(Pairing.Closed)
    decreases messages
  {
    hide Advance, Inert;
    UserAdvances(f, messages[0]);
    if |messages| > 1 {
      var rest := messages[1..];
      if Advance(f, messages[0]).Some? {
        UsersAdvance(f, rest);
      }
      assert AllInert(messages) <==> Inert(messages[0]) && AllInert(rest) by {
        if Inert(messages[0]) && AllInert(rest) {
          forall i | 0 <= i < |messages| ensures Inert(messages[i]) { assert i > 0 ==> messages[i] == rest[i - 1]; }
        }
      }
    } else {
      assert messages[1..] == [];
    }
  }

  lemma PreparedTidy(d: Durable, next: Transcript, prompt: Message)
    requires TidyImage(d) && FullyPaired(d.messages) && AllInert(next) && Inert(prompt)
    ensures Tidy(d.messages + next + [prompt], d.markers) && FullyPaired(d.messages + next + [prompt])
    ensures var history := ProviderHistory(d.messages + next, d.markers); FullyPaired(history) && FullyPaired(history + [prompt])
  {
    hide Inert, ProviderHistory, NoBareTool, Sorted, AtBoundaries, Run;
    AllInertTidy(d.messages, d.markers, next);
    HistoryKeepsFrontier(d.messages + next, d.markers);
    InertTidy(d.messages + next, d.markers, prompt);
    InertAfterPaired(ProviderHistory(d.messages + next, d.markers), prompt);
  }

  /**
   * With calls open, whatever is put behind them from the user's side, no interrupt can repair the transcript, and no recovery can inspect
   * it.
   */
  lemma OverOpenStuck(messages: Transcript, markers: seq<ContextMarker>, added: Transcript, log: CallLog)
    requires Tidy(messages, markers) && !FullyPaired(messages)
    requires added != [] && AllInert(added) && FromUsers(added)
    ensures Additions(messages + added, log) == None && Inspect(messages + added) == None
  {
    hide Advance, Inert, Step;
    RunKeepsShape(Pairing.Closed, messages);
    UsersAdvance(FrontierOf(messages), added);
    RunConcat(Pairing.Closed, messages, added);
    AdditionsExact(messages + added, log);
    var pending := PendingFromFinalFrontier(messages + added);
    ExactSteps(Start, messages, PreserveDeferredFrontier, pending);
    StepsConcat(Start, messages, added, PreserveDeferredFrontier, pending);
    assert Inert(added[0]);
    OpenRefusesInert(Steps(Start, messages, PreserveDeferredFrontier, pending).value, added[0], pending);
  }

  lemma OpenRefusesInert(p: Projection, message: Message, pending: PendingCalls)
    requires p.open.Some? && Inert(message)
    ensures Step(p, message, PreserveDeferredFrontier, pending) == None
  {
  }

  /**
   * So a start over an open frontier, which the session journals although no driver accepts it, leaves a run that can be neither
   * interrupted nor recovered; over a closed one both go through.
   */
  lemma StartOverOpen(d: Durable, id: string, limits: Option<Limits>, instructions: string, prompt: Message, log: CallLog)
    requires TidyImage(d) && prompt.role == RoleUser && FromUsers(MessagesOf(d.queue))
    requires AllInert(StartInputs(d) + [prompt])
    ensures var started := StartedImage(d, id, limits, instructions, prompt);
      && (Additions(started.messages, log).Some? <==> FullyPaired(d.messages))
      && (Inspect(started.messages).Some? <==> FullyPaired(d.messages))
  {
    hide OfKinds, Inert, ProviderHistory, Sorted, AtBoundaries, MessagesOf, Inspect;
    StartTidy(d, id, limits, instructions, prompt);
    var started := StartedImage(d, id, limits, instructions, prompt);
    AdditionsExact(started.messages, log);
    if FullyPaired(d.messages) {
      InspectExact(started.messages);
    } else {
      InputsFromUsers(d, prompt);
      assert started.messages == d.messages + (StartInputs(d) + [prompt]);
      OverOpenStuck(d.messages, d.markers, StartInputs(d) + [prompt], log);
    }
  }

  lemma InertAfterPaired(messages: Transcript, message: Message)
    requires FullyPaired(messages) && Inert(message)
    ensures FullyPaired(messages + [message])
  {
    InertStaysClosed(message);
    RunSnoc(Pairing.Closed, messages, message);
  }

  lemma {:induction false} NoBareConcat(f: Frontier, left: Transcript, right: Transcript)
    requires Run(f, left).Some?
    ensures NoBareTool(f, left + right) <==> NoBareTool(f, left) && NoBareTool(Run(f, left).value, right)
    decreases left
  {
    hide Advance, Bare;
    if left == [] {
      assert left + right == right;
    } else {
      assert (left + right)[0] == left[0] && (left + right)[1..] == left[1..] + right;
      NoBareConcat(Advance(f, left[0]).value, left[1..], right);
    }
  }

  /** Tool messages that all carry a result are never bare. */
  lemma {:induction false} NothingBare(f: Frontier, messages: Transcript)
    requires forall i :: 0 <= i < |messages| && messages[i].role == RoleTool ==> !Inert(messages[i])
    ensures NoBareTool(f, messages)
    decreases messages
  {
    hide Advance, Inert;
    if messages != [] && Advance(f, messages[0]).Some? {
      NothingBare(Advance(f, messages[0]).value, messages[1..]);
    }
  }

  /** An event whose messages the checker accepts next, none of them bare, keeps transcript and markers in order. */
  lemma EmitTidy(d: Durable, event: Event, used: Option<Usage>)
    requires TidyImage(d) && d.run.Some?
    requires var added := Committed(EventEntry(event, [], None));
      Run(FrontierOf(d.messages), added).Some? && NoBareTool(FrontierOf(d.messages), added)
    ensures TidyImage(EmittedImage(d, event, used))
    ensures Run(Pairing.Closed, EmittedImage(d, event, used).messages)
      == Run(FrontierOf(d.messages), Committed(EventEntry(event, [], None)))
  {
    hide Sorted, Run, NoBareTool;
    var added := Committed(EventEntry(event, [], None));
    assert added == Committed(EventEntry(event, [], used));
    RunConcat(Pairing.Closed, d.messages, added);
    NoBareConcat(Pairing.Closed, d.messages, added);
    BoundariesExtend(d.messages, d.markers, added);
    assert added == [] ==> d.messages + added == d.messages;
  }

  lemma ContextTidy(d: Durable, additions: Transcript)
    requires TidyImage(d) && FullyPaired(d.messages) && ContextTail(additions)
    ensures Tidy(d.messages, d.markers + MarkersAt(|d.messages|, additions))
  {
    forall i | 0 <= i < |additions| ensures Inert(additions[i]) {
      TextOnlyIsInert(additions[i].content);
    }
    MarkersTidy(d.messages, d.markers, additions);
  }

  predicate InertSystem(system: Option<Message>) {
    system.Some? ==> Inert(system.value)
  }

  /** Closing a run without repair leaves exactly the calls open that were open before. */
  lemma CloseKeepsFrontier(d: Durable, used: Usage, system: Option<Message>, queue: seq<QueueEntry>)
    requires TidyImage(d) && InertSystem(system)
    ensures var closed := ClosedImage(d, used, system, queue, None);
      && TidyImage(closed) && Run(Pairing.Closed, closed.messages) == Run(Pairing.Closed, d.messages)
      && (FullyPaired(closed.messages) <==> FullyPaired(d.messages))
  {
    hide NoBareTool, Sorted, AtBoundaries, Inert;
    if system.Some? {
      SystemTidy(d.messages, d.markers, system.value);
    }
  }

  /** A settled pause keeps the suspended calls open. */
  lemma PauseKeepsFrontier(d: Durable, run: ActiveRun, reported: Usage, system: Option<Message>)
    requires TidyImage(d) && InertSystem(system) && UsageDelta(reported, run.lastUsage).Some?
    ensures var paused := PausedImage(d, run, reported, system);
      TidyImage(paused) && Run(Pairing.Closed, paused.messages) == Run(Pairing.Closed, d.messages)
  {
    hide NoBareTool, Sorted, AtBoundaries, Inert;
    if system.Some? {
      SystemTidy(d.messages, d.markers, system.value);
    }
  }

  /** An interrupt always repairs a tidy transcript, adding one result per unresolved call, and leaves it paired. */
  lemma InterruptPairs(d: Durable, log: CallLog, used: Usage, system: Option<Message>, queue: seq<QueueEntry>, marker: string)
    requires TidyImage(d) && d.run.Some? && InertSystem(system)
    ensures Additions(d.messages, log).Some?
    ensures var added := Additions(d.messages, log).value;
      && |added| == |Unresolved(FrontierOf(d.messages))|
      && var closed := ClosedImage(WithRepair(d, added), used, system, queue, Some(marker));
         TidyImage(closed) && FullyPaired(closed.messages)
  {
    AdditionsExact(d.messages, log);
    var open := Unresolved(FrontierOf(d.messages));
    var added := Additions(d.messages, log).value;
    SyntheticsAnswer(open, PendingCallsOf(d.messages, log));
    AnswersTidy(d.messages, d.markers, added);
    InterruptMarked(d.messages + added, d.markers, system, marker);
  }

  lemma InterruptMarked(messages: Transcript, markers: seq<ContextMarker>, system: Option<Message>, marker: string)
    requires Tidy(messages, markers) && FullyPaired(messages) && InertSystem(system)
    ensures var all := if system.Some? then [system.value] + messages else messages;
      var shifted := if system.Some? then ShiftMarkers(markers) else markers;
      Tidy(all, shifted + [ContextMarker(|all|, InterruptionContextMessage(marker))]) && FullyPaired(all)
  {
    hide NoBareTool, Sorted, AtBoundaries, Run;
    if system.Some? {
      SystemTidy(messages, markers, system.value);
    }
    var all := if system.Some? then [system.value] + messages else messages;
    var shifted := if system.Some? then ShiftMarkers(markers) else markers;
    MarkerTextInert(marker);
    MarkerTidy(all, shifted, InterruptionContextMessage(marker));
  }

  lemma MarkerTextInert(marker: string)
    ensures Inert(InterruptionContextMessage(marker))
  {
    TextOnlyIsInert(InterruptionContextMessage(marker).content);
  }

  /** Recovery that continues hands the driver a paired history. */
  lemma RecoverPairs(d: Durable, log: CallLog, run: string, limits: Option<Limits>, instructions: string)
    requires TidyImage(d)
    ensures Additions(d.messages, log).Some?
    ensures var recovered := RecoveredImage(d, Additions(d.messages, log).value, run, limits, instructions);
      TidyImage(recovered) && FullyPaired(recovered.messages) && FullyPaired(recovered.run.value.history)
  {
    AdditionsExact(d.messages, log);
    var added := Additions(d.messages, log).value;
    SyntheticsAnswer(Unresolved(FrontierOf(d.messages)), PendingCallsOf(d.messages, log));
    AnswersTidy(d.messages, d.markers, added);
    HistoryKeepsFrontier(d.messages + added, d.markers);
  }

  /** A resolved recovery frontier hands the driver a paired history, whatever the operator answered. */
  lemma ResolvePairs(d: Durable, calls: seq<PendingCall>, resolutions: seq<ToolResolution>, prompt: Option<Message>,
                     newRun: string, limits: Option<Limits>, instructions: string)
    requires TidyImage(d) && CheckResolutions(calls, resolutions).Passed? && (prompt.Some? ==> Inert(prompt.value))
    requires NamesMatch(Unresolved(FrontierOf(d.messages)), calls)
    ensures var resolved := ResolvedResults(d.messages, CheckResolutions(calls, resolutions).value);
      && resolved.Some?
      && var image := ResolvedImage(d, resolved.value + OptionalMessage(prompt), newRun, limits, instructions);
         TidyImage(image) && FullyPaired(image.messages) && FullyPaired(image.run.value.history)
  {
    hide CheckResolutions, Substitute, Inert, NoBareTool, Sorted, AtBoundaries, NamesMatch, DistinctIds;
    var plan := CheckResolutions(calls, resolutions).value;
    AcceptedResolutionsCover(calls, resolutions);
    var open := Unresolved(FrontierOf(d.messages));
    SubstitutedAnswers(open, calls, plan, ResolvePending(open, plan));
    var added := ResolvedResults(d.messages, plan).value;
    AnswersTidy(d.messages, d.markers, added);
    AllInertTidy(d.messages + added, d.markers, OptionalMessage(prompt));
    assert d.messages + added + OptionalMessage(prompt) == d.messages + (added + OptionalMessage(prompt));
    HistoryKeepsFrontier(d.messages + (added + OptionalMessage(prompt)), d.markers);
  }

  lemma {:induction false} UncertainFrom(open: seq<ToolUse>, log: CallLog, j: nat) returns (i: nat)
    requires j < |Uncertain(open, log)|
    ensures i < |open| && open[i].id == Uncertain(open, log)[j].id && open[i].name == Uncertain(open, log)[j].name
    decreases open
  {
    hide CallState;
    var first := if CallState(log, open[0]) == PendingIndeterminate then 1 else 0;
    if j < first {
      i := 0;
    } else {
      i := UncertainFrom(open[1..], log, j - first);
      i := i + 1;
    }
  }

  /** The uncertain calls bear the names of the open ones. */
  lemma UncertainNamed(f: Frontier, messages: Transcript, log: CallLog)
    requires Run(Pairing.Closed, messages) == Some(f)
    ensures NamesMatch(Unresolved(f), Uncertain(Unresolved(f), log))
  {
    RunKeepsShape(Pairing.Closed, messages);
    UnresolvedMembers(f.calls, f.resolved);
    var open := Unresolved(f);
    forall i, j | 0 <= i < |open| && 0 <= j < |Uncertain(open, log)| && open[i].id == Uncertain(open, log)[j].id
      ensures open[i].name == Uncertain(open, log)[j].name
    {
      var k := UncertainFrom(open, log, j);
      assert open[k].id == open[i].id && open[i] in open && open[k] in open;
    }
  }

  // ---------------------------------------------------------------------
  // Where recovery cannot continue.

  /** Recovery can inspect a transcript after re-injecting an input exactly when no call was open before it. */
  lemma ReinjectionNeedsClosedFrontier(messages: Transcript, markers: seq<ContextMarker>, input: Message)
    requires Tidy(messages, markers) && Inert(input) && input.role == RoleUser
    ensures Inspect(messages + [input]).Some? <==> FullyPaired(messages)
  {
    RunKeepsShape(Pairing.Closed, messages);
    if FullyPaired(messages) {
      InertTidy(messages, markers, input);
      InspectExact(messages + [input]);
    } else {
      var all := messages + [input];
      var pending := PendingFromFinalFrontier(all);
      ExactSteps(Start, messages, PreserveDeferredFrontier, pending);
      StepsConcat(Start, messages, [input], PreserveDeferredFrontier, pending);
    }
  }

  lemma {:induction false} StepsConcat(p: Projection, left: Transcript, right: Transcript, mode: FrontierMode, pending: PendingCalls)
    ensures Steps(p, left + right, mode, pending)
      == (match Steps(p, left, mode, pending) case None => None case Some(q) => Steps(q, right, mode, pending))
    decreases left
  {
    hide Step;
    if left == [] {
      assert left + right == right;
    } else {
      assert (left + right)[0] == left[0] && (left + right)[1..] == left[1..] + right;
      match Step(p, left[0], mode, pending)
      case None =>
      case Some(next) => StepsConcat(next, left[1..], right, mode, pending);
    }
  }
}
