/** What every drive keeps: paired requests and results, rising iterations, faithful envelopes, the committed suffix, the bounds. */
module DriveLaws {
  import opened Messages
  import opened Pairing
  import opened Usages
  import opened Suspensions
  import opened ToolControl
  import opened ResumePlan
  import opened Turns
  import opened Resuming
  import opened TurnLaws
  import opened TurnBounds
  import opened Drives
  import J = Journals

  // ---------------------------------------------------------------------
  // Assumptions on the model and the hook.

  /** An assistant answer with distinct, non-empty call IDs and no results of its own. */
  predicate WellFormedAnswer(message: Message) {
    message.role == RoleAssistant && GetToolResults(message) == [] && DistinctIds(GetToolUses(message))
  }

  /** The model answers well, and the hook injects plain messages. */
  ghost predicate WellBehaved(env: Env) {
    && (forall n: nat, t: Transcript :: env.respond(n, t).Answered? ==> WellFormedAnswer(env.respond(n, t).message))
    && (forall n: nat, t: Transcript, c: bool :: env.hook(n, t, c).Decision? ==> AllInert(env.hook(n, t, c).inject))
  }

  // ---------------------------------------------------------------------
  // Envelopes.

  /** The envelope holds the loop it was taken from, over an open frontier. */
  predicate Envelope(env: Env, cfg: Config, ls: Loop, calls: seq<ToolUse>, s: Suspension) {
    && s.payload.ToolPayload? && Accepted(ls.messages)
    && s.id == env.suspensionId(ls.iteration) && s.frontierHash == env.hash(ls.messages, FrontierOf(ls.messages).calls)
    && var tool := s.payload.tool;
       && tool.version == 1 && tool.suspensionId == s.id && tool.calls == calls && tool.executableIds != []
       && tool.deferral.kind == s.kind && tool.fingerprint == cfg.fingerprint && tool.endStrategy == cfg.endStrategy
       && Alike(Restored(ls.messages, tool), ls)
  }

  lemma NewEnvelope(env: Env, cfg: Config, ls: Loop, calls: seq<ToolUse>, executable: seq<ToolUse>, deferral: Deferral, handler: bool)
    requires executable != []
    ensures var s := NewSuspension(env, cfg, ls, calls, executable, deferral, handler);
      s.Some? ==> Envelope(env, cfg, ls, calls, s.value)
  {
  }

  lemma RunAdmittedEnvelope(env: Env, cfg: Config, s: Stage, calls: seq<ToolUse>, regular: seq<ToolUse>, executable: seq<ToolUse>)
    requires s.regular.suspension.None?
    ensures var r := RunAdmitted(env, cfg, s, calls, regular, executable);
      r.regular.suspension.Some? ==> Envelope(env, cfg, r.ls, calls, r.regular.suspension.value)
  {
    hide Admit, NewSuspension, FailAll, WithinToolLimit, SuspendableAlone, Envelope, CommittedAll, SameTranscript;
    if executable != [] {
      AdmitSame(env, cfg, s, executable, false);
      var admitted := Admit(env, cfg, s, executable, false);
      if admitted.Asked? {
        NewEnvelope(env, cfg, admitted.ls, calls, executable, admitted.deferral, true);
      }
    }
  }

  lemma {:induction false} ReturnedOpen(s: Regular, calls: seq<ToolUse>, dispositions: seq<Disposition>)
    requires |calls| == |dispositions|
    ensures Returned(s, calls, dispositions).suspension == s.suspension
    decreases calls
  {
    if calls != [] {
      var d := dispositions[0];
      var next := s.(continues := s.continues || d.continues,
                     results := if d.kind == DispositionReturn && d.result.Some? then s.results[calls[0].id := d.result.value] else s.results);
      ReturnedOpen(next, calls[1..], dispositions[1..]);
    }
  }

  /** A turn suspends only with an envelope of its own state. */
  lemma StageEnvelope(env: Env, cfg: Config, ls: Loop, calls: seq<ToolUse>)
    ensures var r := RegularStage(env, cfg, ls, calls);
      r.regular.suspension.Some? ==> Envelope(env, cfg, r.ls, calls, r.regular.suspension.value)
  {
    hide RunAdmitted, NewSuspension, FailAll, ToolControl.Suspends, RegularCalls, Returned, Executable, Envelope, OutputIndex;
    var regular := RegularCalls(cfg, calls);
    var planned := Emit(env, ls, J.ToolBatchPlanned(regular)).0;
    var reply := env.gate(planned.iteration, regular);
    if regular != [] && reply.Decided? && Acceptable(regular, reply.decision) {
      var decision := reply.decision;
      if ToolControl.Suspends(decision) {
        NewEnvelope(env, cfg, planned, calls, regular, decision.deferral.value, false);
      } else {
        ReturnedOpen(NoRegular, regular, decision.calls);
        RunAdmittedEnvelope(env, cfg, Stage(planned, Returned(NoRegular, regular, decision.calls)), calls, regular,
                            Executable(regular, decision.calls));
      }
    }
  }

  lemma ResolvedEnvelope(env: Env, cfg: Config, ls: Loop, tool: ToolSuspension, decisions: seq<ToolResumeDecision>)
    ensures var r := ResolveTools(env, cfg, ls, tool, decisions);
      r.ResolvedAs? && r.stage.regular.suspension.Some? ==> Envelope(env, cfg, r.stage.ls, tool.calls, r.stage.regular.suspension.value)
  {
    hide Admit, NewSuspension, SuspendableAlone, WithinToolLimit, SortDecisions, ExecutableCalls, Envelope, SameTranscript;
    var executable := ExecutableCalls(cfg, tool.calls, tool.executableIds);
    if executable.Some? {
      var sorted := SortDecisions(cfg, executable.value, tool.handlerSuspension, decisions);
      if sorted.Some? && sorted.value.toExecute != [] {
        var s := Stage(ls, NoRegular.(results := sorted.value.results));
        AdmitSame(env, cfg, s, sorted.value.toExecute, tool.handlerSuspension);
        var admitted := Admit(env, cfg, s, sorted.value.toExecute, tool.handlerSuspension);
        if admitted.Asked? {
          NewEnvelope(env, cfg, admitted.ls, tool.calls, sorted.value.toExecute, admitted.deferral, true);
        }
      }
    }
  }

  // ---------------------------------------------------------------------
  // Pairing.

  /** The drive suspended with exactly the calls of its last assistant message open. */
  predicate Awaits(env: Env, cfg: Config, ls: Loop, s: Suspension) {
    && ls.messages != []
    && var calls := GetToolUses(ls.messages[|ls.messages| - 1]);
       calls != [] && Run(Closed, ls.messages) == Some(Frontier(calls, {})) && Envelope(env, cfg, ls, calls, s)
  }

  /** How a drive may leave its transcript. Only a sink that refused an event leaves calls open without a suspension. */
  ghost predicate PairedEnd(env: Env, cfg: Config, end: Ended) {
    && (end.status == J.ExecutionCompleted || end.status == J.ExecutionStopped ==> end.error == NoDriveError)
    && (end.status == J.ExecutionSuspended <==> end.suspension.Some?)
    && (end.suspension.Some? ==> Awaits(env, cfg, end.ls, end.suspension.value))
    && (end.suspension.None? && (end.error == SinkFailed ==> Reliable(env)) ==> FullyPaired(end.ls.messages))
  }

  ghost predicate PairedTurn(env: Env, cfg: Config, t: TurnEnd) {
    match t
    case Again(next) => FullyPaired(next.messages)
    case Over(end) => PairedEnd(env, cfg, end)
  }

  lemma AnswerOpens(messages: Transcript, answer: Message)
    requires FullyPaired(messages) && WellFormedAnswer(answer)
    ensures Opened(messages + [answer], GetToolUses(answer))
  {
    RunSnoc(Closed, messages, answer);
    if GetToolUses(answer) == [] {
      InertStaysClosed(answer);
    } else {
      OpensExactly(answer);
    }
  }

  /** A turn of the loop, started or resumed, pairs its calls or leaves exactly them open under a faithful envelope. */
  lemma TurnPairs(env: Env, cfg: Config, ls: Loop, assistant: Message, resumed: Option<Regular>)
    requires ls.messages != [] && ls.messages[|ls.messages| - 1] == assistant
    requires DistinctIds(GetToolUses(assistant)) && Opened(ls.messages, GetToolUses(assistant))
    requires resumed.Some? ==>
      && ResultsNamed(GetToolUses(assistant), resumed.value.results)
      && (resumed.value.suspension.Some? ==>
            GetToolUses(assistant) != [] && Envelope(env, cfg, ls, GetToolUses(assistant), resumed.value.suspension.value))
    ensures var c := CompleteTurn(env, cfg, ls, assistant, resumed);
      if c.outcome.suspension.Some? then Awaits(env, cfg, c.ls, c.outcome.suspension.value) else FullyPaired(c.ls.messages)
  {
    hide CompleteWith, RegularStage, GetToolUses, Envelope, ResultsNamed, DistinctIds, Run;
    var calls := GetToolUses(assistant);
    if resumed.Some? {
      CompletePairs(env, cfg, ls, assistant, resumed.value);
      SuspensionPasses(env, cfg, ls, assistant, resumed.value);
    } else {
      var stage := RegularStage(env, cfg, ls, calls);
      StageSame(env, cfg, ls, calls);
      StageEnvelope(env, cfg, ls, calls);
      StageNamed(env, cfg, ls, calls);
      StageNeedsCalls(env, cfg, ls, calls);
      CompletePairs(env, cfg, stage.ls, assistant, stage.regular);
      SuspensionPasses(env, cfg, stage.ls, assistant, stage.regular);
    }
  }

  lemma SuspensionPasses(env: Env, cfg: Config, ls: Loop, assistant: Message, regular: Regular)
    ensures CompleteWith(env, cfg, ls, assistant, regular).outcome.suspension == regular.suspension
  {
    hide GetToolUses, JudgeTurn, TurnResults, OutputIndex, WithVerdict, EmitResults;
  }

  lemma StageNamed(env: Env, cfg: Config, ls: Loop, calls: seq<ToolUse>)
    requires DistinctIds(calls)
    ensures ResultsNamed(calls, RegularStage(env, cfg, ls, calls).regular.results)
  {
    hide ExecuteRegular;
    EmptyNamed(calls);
    ExecuteNamed(env, cfg, ls, calls);
  }

  lemma StageNeedsCalls(env: Env, cfg: Config, ls: Loop, calls: seq<ToolUse>)
    ensures RegularStage(env, cfg, ls, calls).regular.suspension.Some? ==> calls != []
  {
  }

  lemma {:induction false} InertKeepsPaired(messages: Transcript, added: Transcript)
    requires FullyPaired(messages) && AllInert(added)
    ensures FullyPaired(messages + added)
    decreases added
  {
    hide FullyPaired, Inert;
    if added == [] {
      assert messages + added == messages;
    } else {
      OneInert(messages, added[0]);
      InertKeepsPaired(messages + [added[0]], added[1..]);
      assert messages + [added[0]] + added[1..] == messages + added;
    }
  }

  lemma OneInert(messages: Transcript, message: Message)
    requires FullyPaired(messages) && Inert(message)
    ensures FullyPaired(messages + [message])
  {
    RunSnoc(Closed, messages, message);
    InertStaysClosed(message);
  }

  lemma EndPairs(env: Env, cfg: Config, ls: Loop, error: DriveError)
    requires (error == SinkFailed && !Reliable(env)) || FullyPaired(ls.messages)
    ensures PairedEnd(env, cfg, Failed(env, ls, error))
    ensures FullyPaired(ls.messages) ==>
      && PairedEnd(env, cfg, Interrupted(env, ls)) && PairedEnd(env, cfg, Completes(env, ls)) && PairedEnd(env, cfg, Stops(env, ls))
  {
    hide FullyPaired, Awaits;
  }

  lemma SuspendsPairs(env: Env, cfg: Config, ls: Loop, s: Suspension)
    requires Awaits(env, cfg, ls, s)
    ensures PairedEnd(env, cfg, Drives.Suspends(env, ls, s))
  {
    hide FullyPaired, Run;
  }

  lemma FinishPairs(env: Env, cfg: Config, ls: Loop, outcome: Outcome)
    requires WellBehaved(env) && FullyPaired(ls.messages)
    ensures PairedTurn(env, cfg, FinishTurn(env, cfg, ls, outcome))
  {
    hide FullyPaired, PairedEnd, Failed, Completes, Stops, Awaits, AllInert, ValidDecision;
    var ended := Emit(env, ls, J.TurnEnded(ls.usage)).0;
    EveryEndPairs(env, cfg, ended);
    var answer := HookAnswer(env, cfg, ended, outcome.candidate);
    var told := Consulted(env, cfg, ended, outcome.candidate);
    EveryEndPairs(env, cfg, told);
    if answer.Decision? && ValidDecision(answer.action, answer.inject) && answer.action == TurnContinue {
      NothingInert();
      InertKeepsPaired(told.messages, answer.inject);
      var next := Emit(env, told.(messages := told.messages + answer.inject), J.MessagesInjected(answer.inject)).0;
      EveryEndPairs(env, cfg, next);
    }
  }

  lemma NothingInert()
    ensures AllInert([])
  {
  }

  lemma EveryEndPairs(env: Env, cfg: Config, ls: Loop)
    requires FullyPaired(ls.messages)
    ensures forall error: DriveError :: PairedEnd(env, cfg, Failed(env, ls, error))
    ensures PairedEnd(env, cfg, Interrupted(env, ls)) && PairedEnd(env, cfg, Completes(env, ls)) && PairedEnd(env, cfg, Stops(env, ls))
  {
    hide *;
    forall error: DriveError ensures PairedEnd(env, cfg, Failed(env, ls, error)) {
      EndPairs(env, cfg, ls, error);
    }
    EndPairs(env, cfg, ls, SinkFailed);
  }

  lemma EndTurnPairs(env: Env, cfg: Config, ls: Loop, assistant: Message)
    requires WellBehaved(env)
    requires ls.messages != [] && ls.messages[|ls.messages| - 1] == assistant
    requires DistinctIds(GetToolUses(assistant)) && Opened(ls.messages, GetToolUses(assistant))
    ensures PairedTurn(env, cfg, EndTurn(env, cfg, CompleteTurn(env, cfg, ls, assistant, None)))
  {
    hide CompleteTurn, FinishTurn, Awaits, PairedEnd, FullyPaired, WellBehaved, GetToolUses, DistinctIds, Opened, Drives.Suspends;
    TurnPairs(env, cfg, ls, assistant, None);
    var c := CompleteTurn(env, cfg, ls, assistant, None);
    if c.outcome.suspension.Some? {
      SuspendsPairs(env, cfg, c.ls, c.outcome.suspension.value);
    } else {
      FinishPairs(env, cfg, c.ls, c.outcome);
    }
  }

  lemma AnswerPairs(env: Env, cfg: Config, ls: Loop, message: Message, usage: Counters, finish: FinishReason)
    requires WellBehaved(env) && FullyPaired(ls.messages) && WellFormedAnswer(message)
    ensures PairedTurn(env, cfg, TakeAnswer(env, cfg, ls, message, usage, finish))
  {
    hide CompleteTurn, EndTurn, PairedEnd, FullyPaired, WellBehaved, WellFormedAnswer, AfterResponse, Unusable, Failed, AddResponse, Emit;
    var counted := ls.(usage := AddResponse(ls.usage, usage));
    var marked := if AfterResponse(cfg.limits, counted.usage.counters).Some? then counted else counted.(finish := finish);
    EveryEndPairs(env, cfg, marked);
    CommittedAnswerPairs(env, cfg, marked, message);
  }

  lemma CommittedAnswerPairs(env: Env, cfg: Config, ls: Loop, message: Message)
    requires WellBehaved(env) && FullyPaired(ls.messages) && WellFormedAnswer(message)
    ensures var (committed, ok) := Emit(env, ls.(messages := ls.messages + [message]), J.AssistantCommitted(message));
      if ok then PairedTurn(env, cfg, EndTurn(env, cfg, CompleteTurn(env, cfg, committed, message, None)))
      else PairedEnd(env, cfg, Failed(env, committed, SinkFailed))
  {
    hide CompleteTurn, EndTurn, PairedEnd, PairedTurn, FullyPaired, WellBehaved, GetToolUses, GetToolResults, DistinctIds, Opened, Failed;
    AnswerOpens(ls.messages, message);
    var (committed, ok) := Emit(env, ls.(messages := ls.messages + [message]), J.AssistantCommitted(message));
    if ok {
      EndTurnPairs(env, cfg, committed, message);
    } else {
      SinkEnd(env, cfg, committed);
    }
  }

  lemma SinkEnd(env: Env, cfg: Config, ls: Loop)
    requires !Reliable(env)
    ensures PairedEnd(env, cfg, Failed(env, ls, SinkFailed))
  {
  }

  lemma RoundPairs(env: Env, cfg: Config, ls: Loop)
    requires WellBehaved(env) && FullyPaired(ls.messages)
    ensures PairedTurn(env, cfg, Round(env, cfg, ls))
  {
    hide TakeAnswer, PairedEnd, FullyPaired, Failed, Interrupted, BeforeRequest, WellFormedAnswer, AllInert;
    EveryEndPairs(env, cfg, ls);
    var started := Emit(env, ls, J.TurnStarted).0;
    EveryEndPairs(env, cfg, started);
    var reply := env.respond(started.iteration, started.messages);
    if reply.Answered? {
      AnswerPairs(env, cfg, started, reply.message, reply.usage, reply.finish);
    }
  }

  /** Requests go out fully paired, at strictly rising iterations within [from, below). */
  predicate PairedRequests(requests: seq<Request>, from: int, below: int) {
    && (forall i :: 0 <= i < |requests| ==> from <= requests[i].iteration < below && FullyPaired(requests[i].messages))
    && (forall i, j :: 0 <= i < j < |requests| ==> requests[i].iteration < requests[j].iteration)
  }

  lemma RequestsCons(first: Request, rest: seq<Request>, from: int, below: int)
    requires from <= first.iteration < below && FullyPaired(first.messages) && PairedRequests(rest, first.iteration + 1, below)
    ensures PairedRequests([first] + rest, from, below)
  {
    hide FullyPaired;
  }

  /**
   * Every request of a drive is fully paired and asked at its own iteration below the maximum; a completed or stopped
   * drive is fully paired, a suspended one awaits exactly its last calls.
   */
  lemma {:induction false} DrivePairs(env: Env, cfg: Config, ls: Loop)
    requires WellBehaved(env) && FullyPaired(ls.messages)
    ensures var d := DriveFrom(env, cfg, ls);
      PairedEnd(env, cfg, d.end) && PairedRequests(d.requests, ls.iteration, cfg.maxIterations)
    decreases if ls.iteration < cfg.maxIterations then cfg.maxIterations - ls.iteration else 0
  {
    hide Round, PairedEnd, FullyPaired, WellBehaved, Emit, BeforeRequest;
    RoundPairs(env, cfg, ls);
    RoundIteration(env, cfg, ls);
    match Round(env, cfg, ls)
    case Over(end) =>
    case Again(next) =>
      var after := next.(iteration := next.iteration + 1);
      DrivePairs(env, cfg, after);
      RequestsCons(Request(ls.iteration, ls.messages), DriveFrom(env, cfg, after).requests, ls.iteration, cfg.maxIterations);
  }

  lemma FinishStays(env: Env, cfg: Config, ls: Loop, outcome: Outcome)
    ensures FinishTurn(env, cfg, ls, outcome).Over? ==> FinishTurn(env, cfg, ls, outcome).end.ls.iteration == ls.iteration
  {
    hide ValidDecision;
  }

  lemma AnswerStays(env: Env, cfg: Config, ls: Loop, message: Message, usage: Counters, finish: FinishReason)
    ensures TakeAnswer(env, cfg, ls, message, usage, finish).Over? ==>
      TakeAnswer(env, cfg, ls, message, usage, finish).end.ls.iteration == ls.iteration
  {
    hide CompleteTurn, FinishTurn, Unusable, AddResponse, AfterResponse;
    var counted := ls.(usage := AddResponse(ls.usage, usage));
    var marked := if AfterResponse(cfg.limits, counted.usage.counters).Some? then counted else counted.(finish := finish);
    var committed := Emit(env, marked.(messages := marked.messages + [message]), J.AssistantCommitted(message)).0;
    TurnIteration(env, cfg, committed, message, None);
    var c := CompleteTurn(env, cfg, committed, message, None);
    FinishStays(env, cfg, c.ls, c.outcome);
  }

  lemma RoundStays(env: Env, cfg: Config, ls: Loop)
    ensures Round(env, cfg, ls).Over? ==> Round(env, cfg, ls).end.ls.iteration == ls.iteration
  {
    hide TakeAnswer, Halt;
    var started := Emit(env, ls, J.TurnStarted).0;
    var reply := env.respond(started.iteration, started.messages);
    if reply.Answered? {
      AnswerStays(env, cfg, started, reply.message, reply.usage, reply.finish);
    }
  }

  /** The last request of a drive was asked no later than where it ended. */
  lemma {:induction false} RequestsBeforeEnd(env: Env, cfg: Config, ls: Loop)
    ensures var d := DriveFrom(env, cfg, ls);
      ls.iteration <= d.end.ls.iteration && forall i :: 0 <= i < |d.requests| ==> d.requests[i].iteration <= d.end.ls.iteration
    decreases if ls.iteration < cfg.maxIterations then cfg.maxIterations - ls.iteration else 0
  {
    hide Round, Asks;
    RoundIteration(env, cfg, ls);
    RoundStays(env, cfg, ls);
    match Round(env, cfg, ls)
    case Over(end) =>
    case Again(next) =>
      RequestsBeforeEnd(env, cfg, next.(iteration := next.iteration + 1));
  }

  // ---------------------------------------------------------------------
  // Entering the loop.

  /** What an entry needs: a paired transcript, or an open turn with usable results. */
  predicate Enterable(env: Env, cfg: Config, ls: Loop, entry: Entry) {
    match entry
    case Fresh => FullyPaired(ls.messages)
    case Turn(assistant, regular, prompt) =>
      && ls.messages != [] && ls.messages[|ls.messages| - 1] == assistant
      && DistinctIds(GetToolUses(assistant)) && Opened(ls.messages, GetToolUses(assistant))
      && (prompt.Some? ==> Inert(prompt.value))
      && (regular.Some? ==>
            && ResultsNamed(GetToolUses(assistant), regular.value.results)
            && (regular.value.suspension.Some? ==>
                  GetToolUses(assistant) != [] && Envelope(env, cfg, ls, GetToolUses(assistant), regular.value.suspension.value)))
  }

  lemma PromptPairs(env: Env, c: Completed, prompt: Option<Message>)
    requires FullyPaired(c.ls.messages) && (prompt.Some? ==> Inert(prompt.value))
    ensures FullyPaired(WithPrompt(env, c, prompt).ls.messages)
    ensures WithPrompt(env, c, prompt).ls.iteration == c.ls.iteration
  {
    hide FullyPaired, Inert;
    if prompt.Some? {
      OneInert(c.ls.messages, prompt.value);
    }
  }

  lemma EnterPairs(env: Env, cfg: Config, ls: Loop, entry: Entry)
    requires WellBehaved(env) && entry.Turn? && Enterable(env, cfg, ls, entry)
    ensures PairedTurn(env, cfg, EnterTurn(env, cfg, ls, entry))
    ensures EnterTurn(env, cfg, ls, entry).Again? ==> EnterTurn(env, cfg, ls, entry).ls.iteration == ls.iteration
  {
    hide CompleteTurn, FinishTurn, Awaits, PairedEnd, FullyPaired, WellBehaved, GetToolUses, DistinctIds, Opened, Drives.Suspends,
      WithPrompt, ResultsNamed, Envelope, Inert;
    TurnPairs(env, cfg, ls, entry.assistant, entry.regular);
    TurnIteration(env, cfg, ls, entry.assistant, entry.regular);
    var c := CompleteTurn(env, cfg, ls, entry.assistant, entry.regular);
    if c.outcome.suspension.Some? {
      SuspendsPairs(env, cfg, c.ls, c.outcome.suspension.value);
    } else {
      PromptPairs(env, c, entry.prompt);
      var prompted := WithPrompt(env, c, entry.prompt);
      FinishPairs(env, cfg, prompted.ls, prompted.outcome);
      FinishIteration(env, cfg, prompted.ls, prompted.outcome);
    }
  }

  lemma EnvelopeMoves(env: Env, cfg: Config, a: Loop, b: Loop, calls: seq<ToolUse>, s: Suspension)
    requires Envelope(env, cfg, a, calls, s) && Alike(a, b)
    ensures Envelope(env, cfg, b, calls, s)
  {
    assert a.messages == b.messages && a.iteration == b.iteration;
    assert Restored(a.messages, s.payload.tool) == Restored(b.messages, s.payload.tool);
  }

  /** driveLoop keeps the pairing, whichever way it is entered; a completed turn counts as its own iteration. */
  lemma LoopPairs(env: Env, cfg: Config, ls: Loop, entry: Entry)
    requires WellBehaved(env) && Enterable(env, cfg, ls, entry)
    ensures var d := DriveLoop(env, cfg, ls, entry);
      && PairedEnd(env, cfg, d.end)
      && PairedRequests(d.requests, if entry.Fresh? then ls.iteration else ls.iteration + 1, cfg.maxIterations)
  {
    hide EnterTurn, DriveFrom, PairedEnd, FullyPaired, WellBehaved, Envelope, Opened, DistinctIds, GetToolUses, ResultsNamed, Inert;
    var (started, ok) := Emit(env, ls, J.RunStarted);
    if !ok {
      SinkEnd(env, cfg, started);
    } else if entry.Fresh? {
      DrivePairs(env, cfg, started);
    } else {
      if entry.regular.Some? && entry.regular.value.suspension.Some? {
        EnvelopeMoves(env, cfg, ls, started, GetToolUses(entry.assistant), entry.regular.value.suspension.value);
      }
      EnterPairs(env, cfg, started, entry);
      var t := EnterTurn(env, cfg, started, entry);
      if t.Again? {
        DrivePairs(env, cfg, t.ls.(iteration := t.ls.iteration + 1));
      }
    }
  }

  lemma PreparedPairs(system: string, history: Transcript, prompt: Option<Message>)
    requires FullyPaired(history) && (prompt.Some? ==> Inert(prompt.value))
    ensures FullyPaired(Prepared(system, history, prompt).messages)
  {
    hide FullyPaired, Inert;
    PreparedFrontier(system, history);
    var inserted := OptionalMessage(Inserted(system, history)) + history;
    if prompt.Some? {
      OneInert(inserted, prompt.value);
      assert inserted + [prompt.value] == inserted + OptionalMessage(prompt);
    } else {
      assert inserted + OptionalMessage(prompt) == inserted;
    }
  }

  /** The driver's system message moves no frontier. */
  lemma PreparedFrontier(system: string, history: Transcript)
    ensures Run(Closed, OptionalMessage(Inserted(system, history)) + history) == Run(Closed, history)
    ensures FullyPaired(history) <==> FullyPaired(OptionalMessage(Inserted(system, history)) + history)
  {
    var inserted := Inserted(system, history);
    if inserted.Some? {
      var m := inserted.value;
      assert PartUses(m.content[1..]) == [] && PartResults(m.content[1..]) == [];
      InertStaysClosed(m);
      RunCons(Closed, m, history);
    } else {
      assert OptionalMessage(inserted) + history == history;
    }
  }

  /** An accepted start, continuation or recovery runs paired from the first request to the end. */
  lemma StartPairs(env: Env, cfg: Config, system: string, mode: InputMode, prompt: Option<Message>, history: Transcript)
    requires WellBehaved(env) && (prompt.Some? ==> Inert(prompt.value))
    ensures match StartDrive(env, cfg, system, mode, prompt, history)
      case None => !ValidInput(mode, prompt, history)
      case Some(d) => PairedEnd(env, cfg, d.end) && PairedRequests(d.requests, 0, cfg.maxIterations)
  {
    hide DriveLoop, PairedEnd, WellBehaved, PairedRequests, Inert;
    if ValidInput(mode, prompt, history) {
      RunKeepsShape(Closed, history);
      PreparedPairs(system, history, if mode == InputStart then prompt else None);
      assert mode != InputStart ==> prompt == None;
      var ls := Prepared(system, history, prompt);
      if mode == InputRecover && history[|history| - 1].role == RoleAssistant {
        var last := ls.messages[|ls.messages| - 1];
        assert ls.messages == OptionalMessage(Inserted(system, history)) + history;
        assert last == history[|history| - 1];
        LoopPairs(env, cfg, ls, Turn(last, None, None));
        RequestsWiden(DriveLoop(env, cfg, ls, Turn(last, None, None)).requests, 1, 0, cfg.maxIterations);
      } else {
        LoopPairs(env, cfg, ls, Fresh);
      }
    }
  }

  lemma RequestsWiden(requests: seq<Request>, from: int, lower: int, below: int)
    requires PairedRequests(requests, from, below) && lower <= from
    ensures PairedRequests(requests, lower, below)
  {
  }

  // ---------------------------------------------------------------------
  // Resuming.

  /** Every suspended drive passes every guard of resume, on the transcript it returned. */
  lemma SuspendedResumable(env: Env, cfg: Config, ls: Loop, s: Suspension)
    requires Awaits(env, cfg, ls, s) && s.id != "" && s.frontierHash != ""
    ensures ResumeGuards(env, cfg, ls.messages, s)
  {
  }

  /** A resumed batch pairs like any other turn; a refused resumption leaves transcript and model alone. */
  lemma ResumePairs(env: Env, cfg: Config, ls: Loop, s: Suspension, decisions: seq<ToolResumeDecision>, prompt: Option<Message>)
    requires WellBehaved(env) && (prompt.Some? ==> Inert(prompt.value)) && ls.messages != []
    requires Run(Closed, ls.messages) == Some(Frontier(GetToolUses(ls.messages[|ls.messages| - 1]), {}))
    ensures var d := ResumePrepared(env, cfg, ls, s, decisions, prompt);
      if !ResumeGuards(env, cfg, ls.messages, s)
         || ResolveTools(env, cfg, Restored(ls.messages, s.payload.tool), s.payload.tool, decisions).ResolveFailed? then
        d.end.ls.messages == ls.messages && d.requests == [] && d.end.status == J.ExecutionFailed
      else
        && PairedEnd(env, cfg, d.end)
        && PairedRequests(d.requests, s.payload.tool.iteration + 1, cfg.maxIterations)
  {
    hide DriveLoop, ResolveTools, PairedEnd, WellBehaved, PairedRequests, GetToolUses, DistinctIds, Envelope, Inert, Run, ResultsNamed;
    RunKeepsShape(Closed, ls.messages);
    if ResumeGuards(env, cfg, ls.messages, s) {
      var tool := s.payload.tool;
      var calls := GetToolUses(ls.messages[|ls.messages| - 1]);
      GuardsNameCalls(env, cfg, ls.messages, s);
      var restored := Restored(ls.messages, tool);
      ResolvedSound(env, cfg, restored, tool, decisions);
      ResolvedEnvelope(env, cfg, restored, tool, decisions);
      var r := ResolveTools(env, cfg, restored, tool, decisions);
      if r.ResolvedAs? {
        var entry := Turn(ls.messages[|ls.messages| - 1], Some(r.stage.regular), prompt);
        LoopPairs(env, cfg, r.stage.ls, entry);
      }
    }
  }

  lemma GuardsNameCalls(env: Env, cfg: Config, messages: Transcript, s: Suspension)
    requires ResumeGuards(env, cfg, messages, s)
    ensures s.payload.ToolPayload? && s.payload.tool.calls == FrontierOf(messages).calls && s.payload.tool.calls != []
    ensures DistinctIds(s.payload.tool.calls)
  {
    RunKeepsShape(Closed, messages);
  }
}
