/** What a drive keeps account of: the committed suffix of its transcript, its usage, and its tool, request and retry bounds. */
module DriveAccounts {
  import opened Messages
  import opened Pairing
  import opened Usages
  import opened Suspensions
  import opened ToolControl
  import opened Scheduler
  import opened ResumePlan
  import opened Turns
  import opened Resuming
  import opened TurnLaws
  import opened TurnBounds
  import opened Drives
  import opened DriveLaws
  import J = Journals

  // ---------------------------------------------------------------------
  // Tool calls are the only usage a turn adds.

  predicate ToolsOnly(before: Usage, after: Usage) {
    && after.perRequest == before.perRequest && before.counters.toolCalls <= after.counters.toolCalls
    && after.counters == before.counters.(toolCalls := after.counters.toolCalls)
  }

  lemma {:induction false} TakenUsage(env: Env, cfg: Config, s: Stage, calls: seq<ToolUse>, slots: seq<Settled>)
    requires |slots| == |calls|
    ensures ToolsOnly(s.ls.usage, TakeResults(env, cfg, s, calls, slots).ls.usage)
    decreases calls
  {
    hide Project, Retries;
    if calls != [] {
      TakenUsage(env, cfg, TakeResult(env, cfg, s, calls[0], slots[0].result), calls[1..], slots[1..]);
    }
  }

  lemma AdmitUsage(env: Env, cfg: Config, s: Stage, calls: seq<ToolUse>, resumed: bool)
    ensures match Admit(env, cfg, s, calls, resumed)
      case Ran(stage) => ToolsOnly(s.ls.usage, stage.ls.usage)
      case Asked(ls, _) => ls.usage == s.ls.usage
  {
    hide EmitStarted, FirstDeferral, AnyFailed, Slots, TakeResults;
    StartedCommits(env, s.ls, calls);
    var started := EmitStarted(env, s.ls, calls).0;
    TakenUsage(env, cfg, Stage(started, s.regular), calls, Slots(env, cfg, started, calls, resumed));
  }

  lemma RunAdmittedUsage(env: Env, cfg: Config, s: Stage, calls: seq<ToolUse>, regular: seq<ToolUse>, executable: seq<ToolUse>)
    ensures ToolsOnly(s.ls.usage, RunAdmitted(env, cfg, s, calls, regular, executable).ls.usage)
  {
    hide Admit, NewSuspension, FailAll, WithinToolLimit, SuspendableAlone, ToolsOnly;
    SameTools(s.ls.usage);
    AdmitUsage(env, cfg, s, executable, false);
  }

  lemma StageUsage(env: Env, cfg: Config, ls: Loop, calls: seq<ToolUse>)
    ensures ToolsOnly(ls.usage, RegularStage(env, cfg, ls, calls).ls.usage)
  {
    hide RunAdmitted, NewSuspension, FailAll, ToolControl.Suspends, RegularCalls, Returned, Executable, OutputIndex, ToolsOnly;
    SameTools(ls.usage);
    var regular := RegularCalls(cfg, calls);
    var planned := Emit(env, ls, J.ToolBatchPlanned(regular)).0;
    var reply := env.gate(planned.iteration, regular);
    if reply.Decided? && Acceptable(regular, reply.decision) {
      RunAdmittedUsage(env, cfg, Stage(planned, Returned(NoRegular, regular, reply.decision.calls)), calls, regular,
                       Executable(regular, reply.decision.calls));
    }
  }

  lemma SameTools(usage: Usage)
    ensures ToolsOnly(usage, usage)
  {
  }

  lemma ResolvedUsage(env: Env, cfg: Config, ls: Loop, tool: ToolSuspension, decisions: seq<ToolResumeDecision>)
    ensures var r := ResolveTools(env, cfg, ls, tool, decisions);
      r.ResolvedAs? ==> ToolsOnly(ls.usage, r.stage.ls.usage)
  {
    hide Admit, NewSuspension, SuspendableAlone, WithinToolLimit, SortDecisions, ExecutableCalls;
    var executable := ExecutableCalls(cfg, tool.calls, tool.executableIds);
    if executable.Some? {
      var sorted := SortDecisions(cfg, executable.value, tool.handlerSuspension, decisions);
      if sorted.Some? {
        AdmitUsage(env, cfg, Stage(ls, NoRegular.(results := sorted.value.results)), sorted.value.toExecute, tool.handlerSuspension);
      }
    }
  }

  // ---------------------------------------------------------------------
  // Usage reports.

  /** The usage last reported at a turn end. */
  function Reported(events: seq<J.Event>, used: Usage): Usage {
    if events == [] then used
    else
      var last := events[|events| - 1];
      if last.TurnEnded? then last.usage else Reported(events[..|events| - 1], used)
  }

  /** Reports never fall. */
  predicate Rising(events: seq<J.Event>, used: Usage) {
    events != [] ==>
      var last, before := events[|events| - 1], events[..|events| - 1];
      Rising(before, used) && (last.TurnEnded? ==> Grows(Reported(before, used), last.usage))
  }

  predicate Grows(before: Usage, after: Usage) {
    AtMost(before.counters, after.counters) && before.perRequest <= after.perRequest
  }

  /** Everything reported so far, and the loop's own counters, rise from `used`. */
  predicate Telescopes(used: Usage, ls: Loop) {
    Grows(used, ls.usage) && Rising(ls.emitted, used) && Grows(Reported(ls.emitted, used), ls.usage)
  }

  /** What a driver says while it works on an answer. */
  predicate Routine(event: J.Event) {
    match event
    case ToolBatchPlanned(_) => true
    case ToolStarted(_) => true
    case ToolResultCommitted(_) => true
    case OutputValidated => true
    case MessagesInjected(_) => true
    case _ => false
  }

  /** Between the two states nothing but work on a turn was said, and the hook was not called. */
  predicate Silent(before: Loop, after: Loop) {
    && after.hooks == before.hooks && before.emitted <= after.emitted
    && forall i :: |before.emitted| <= i < |after.emitted| ==> Routine(after.emitted[i])
  }

  lemma {:induction false} SilentReports(before: seq<J.Event>, after: seq<J.Event>, used: Usage)
    requires before <= after && forall i :: |before| <= i < |after| ==> !after[i].TurnEnded?
    ensures Reported(after, used) == Reported(before, used) && (Rising(after, used) <==> Rising(before, used))
    decreases |after|
  {
    if |before| == |after| {
      assert before == after;
    } else {
      SilentReports(before, after[..|after| - 1], used);
    }
  }

  lemma SilentTelescopes(used: Usage, before: Loop, after: Loop)
    requires Telescopes(used, before) && Silent(before, after) && Grows(before.usage, after.usage)
    ensures Telescopes(used, after)
  {
    SilentReports(before.emitted, after.emitted, used);
  }

  lemma EmitSilent(env: Env, ls: Loop, event: J.Event)
    requires Routine(event)
    ensures Silent(ls, Emit(env, ls, event).0)
  {
  }

  lemma EmitTelescopes(env: Env, used: Usage, ls: Loop, event: J.Event)
    requires Telescopes(used, ls) && (event.TurnEnded? ==> event.usage == ls.usage)
    ensures Telescopes(used, Emit(env, ls, event).0)
  {
    var next := Emit(env, ls, event).0;
    assert next.emitted != ls.emitted ==> next.emitted[..|next.emitted| - 1] == ls.emitted;
    GrowsSelf(ls.usage);
  }

  lemma GrowsSelf(usage: Usage)
    ensures Grows(usage, usage)
  {
  }

  lemma SilentChain(a: Loop, b: Loop, c: Loop)
    requires Silent(a, b) && Silent(b, c)
    ensures Silent(a, c)
  {
    forall i | |a.emitted| <= i < |c.emitted| ensures Routine(c.emitted[i]) {
      assert i < |b.emitted| ==> c.emitted[i] == b.emitted[i];
    }
  }

  lemma {:induction false} StartedSilent(env: Env, ls: Loop, calls: seq<ToolUse>)
    ensures Silent(ls, EmitStarted(env, ls, calls).0)
    decreases calls
  {
    if calls != [] {
      var (next, ok) := Emit(env, ls, J.ToolStarted(calls[0]));
      if ok {
        StartedSilent(env, next, calls[1..]);
        SilentChain(ls, next, EmitStarted(env, next, calls[1..]).0);
      }
    }
  }

  lemma {:induction false} ResultsSilent(env: Env, ls: Loop, results: seq<Executed>)
    ensures Silent(ls, EmitResults(env, ls, results).0)
    decreases results
  {
    if results != [] {
      var (next, ok) := Emit(env, ls, J.ToolResultCommitted(results[0].result));
      if ok {
        ResultsSilent(env, next, results[1..]);
        SilentChain(ls, next, EmitResults(env, next, results[1..]).0);
      }
    }
  }

  lemma {:induction false} TakenEmitted(env: Env, cfg: Config, s: Stage, calls: seq<ToolUse>, slots: seq<Scheduler.Settled>)
    requires |slots| == |calls|
    ensures TakeResults(env, cfg, s, calls, slots).ls.emitted == s.ls.emitted && TakeResults(env, cfg, s, calls, slots).ls.hooks == s.ls.hooks
    decreases calls
  {
    if calls != [] {
      TakenEmitted(env, cfg, TakeResult(env, cfg, s, calls[0], slots[0].result), calls[1..], slots[1..]);
    }
  }

  lemma AdmitSilent(env: Env, cfg: Config, s: Stage, calls: seq<ToolUse>, resumed: bool)
    ensures match Admit(env, cfg, s, calls, resumed)
      case Ran(stage) => Silent(s.ls, stage.ls)
      case Asked(ls, _) => Silent(s.ls, ls)
  {
    hide EmitStarted, FirstDeferral, AnyFailed, Slots, TakeResults, Silent;
    StartedSilent(env, s.ls, calls);
    var started := EmitStarted(env, s.ls, calls).0;
    var slots := Slots(env, cfg, started, calls, resumed);
    TakenEmitted(env, cfg, Stage(started, s.regular), calls, slots);
    SilentSame(s.ls, started, TakeResults(env, cfg, Stage(started, s.regular), calls, slots).ls);
  }

  lemma SilentSame(a: Loop, b: Loop, c: Loop)
    requires Silent(a, b) && c.emitted == b.emitted && c.hooks == b.hooks
    ensures Silent(a, c)
  {
  }

  lemma StageSilent(env: Env, cfg: Config, ls: Loop, calls: seq<ToolUse>)
    ensures Silent(ls, RegularStage(env, cfg, ls, calls).ls)
  {
    hide Admit, NewSuspension, FailAll, ToolControl.Suspends, RegularCalls, Returned, Executable, OutputIndex, Silent, Emit, WithinToolLimit,
      SuspendableAlone, Acceptable;
    NothingReported(ls);
    var regular := RegularCalls(cfg, calls);
    EmitSilent(env, ls, J.ToolBatchPlanned(regular));
    var planned := Emit(env, ls, J.ToolBatchPlanned(regular)).0;
    NothingReported(planned);
    var reply := env.gate(planned.iteration, regular);
    if reply.Decided? && Acceptable(regular, reply.decision) {
      assert |regular| == |reply.decision.calls| by { AcceptableLengths(regular, reply.decision); }
      var s, executable := Stage(planned, Returned(NoRegular, regular, reply.decision.calls)), Executable(regular, reply.decision.calls);
      AdmitSilent(env, cfg, s, executable, false);
      RunAdmittedSilent(env, cfg, s, calls, regular, executable);
      SilentChain(ls, planned, RunAdmitted(env, cfg, s, calls, regular, executable).ls);
    }
  }

  lemma AcceptableLengths(calls: seq<ToolUse>, decision: BatchDecision)
    requires Acceptable(calls, decision)
    ensures |calls| == |decision.calls|
  {
  }

  lemma NothingReported(ls: Loop)
    ensures Silent(ls, ls)
  {
  }

  lemma RunAdmittedSilent(env: Env, cfg: Config, s: Stage, calls: seq<ToolUse>, regular: seq<ToolUse>, executable: seq<ToolUse>)
    ensures Silent(s.ls, RunAdmitted(env, cfg, s, calls, regular, executable).ls)
  {
    hide Admit, NewSuspension, FailAll, Silent, WithinToolLimit, SuspendableAlone;
    NothingReported(s.ls);
    AdmitSilent(env, cfg, s, executable, false);
  }

  lemma ResolvedSilent(env: Env, cfg: Config, ls: Loop, tool: ToolSuspension, decisions: seq<ToolResumeDecision>)
    ensures var r := ResolveTools(env, cfg, ls, tool, decisions);
      r.ResolvedAs? ==> Silent(ls, r.stage.ls)
  {
    hide Admit, NewSuspension, SuspendableAlone, WithinToolLimit, SortDecisions, ExecutableCalls, Silent;
    NothingReported(ls);
    var executable := ExecutableCalls(cfg, tool.calls, tool.executableIds);
    if executable.Some? {
      var sorted := SortDecisions(cfg, executable.value, tool.handlerSuspension, decisions);
      if sorted.Some? {
        AdmitSilent(env, cfg, Stage(ls, NoRegular.(results := sorted.value.results)), sorted.value.toExecute, tool.handlerSuspension);
      }
    }
  }

  lemma JudgeSilent(env: Env, cfg: Config, ls: Loop, assistant: Message, calls: seq<ToolUse>, regular: Regular)
    ensures Silent(ls, JudgeTurn(env, cfg, ls, assistant, calls, regular).ls)
  {
    hide OutputIndex, FeedbackMessage, Silent, Judge;
    NothingReported(ls);
    var index := OutputIndex(cfg, calls);
    CandidateSilent(env, cfg, ls, assistant, if index < |calls| then Some(calls[index]) else None);
  }

  lemma CandidateSilent(env: Env, cfg: Config, ls: Loop, assistant: Message, out: Option<ToolUse>)
    ensures Silent(ls, Judge(env, cfg, ls, assistant, out).ls)
  {
    hide FeedbackMessage, Silent, Emit;
    var counted := ls.(validationRetries := ls.validationRetries + 1);
    NothingReported(ls);
    SilentSame(ls, ls, counted);
    EmitSilent(env, ls, J.OutputValidated);
    var reply := env.evaluate(ls.iteration, assistant);
    if reply.Some? {
      var feedback := FeedbackMessage(reply.value);
      var fed := counted.(messages := counted.messages + [feedback]);
      SilentSame(ls, counted, fed);
      EmitSilent(env, fed, J.MessagesInjected([feedback]));
      SilentChain(ls, fed, Emit(env, fed, J.MessagesInjected([feedback])).0);
    }
  }

  lemma CompleteSilent(env: Env, cfg: Config, ls: Loop, assistant: Message, regular: Regular)
    ensures Silent(ls, CompleteWith(env, cfg, ls, assistant, regular).ls)
  {
    hide GetToolUses, TurnResults, OutputIndex, WithVerdict, JudgeTurn, EmitResults, Silent;
    NothingReported(ls);
    var calls := GetToolUses(assistant);
    JudgeSilent(env, cfg, ls, assistant, calls, regular);
    var judged := JudgeTurn(env, cfg, ls, assistant, calls, regular);
    var results := WithVerdict(TurnResults(cfg, calls, regular), OutputIndex(cfg, calls), judged.verdict);
    var committed := judged.ls.(messages := judged.ls.messages + ResultMessages(results));
    ResultsSilent(env, committed, results);
    SilentChain(ls, judged.ls, EmitResults(env, committed, results).0);
  }

  // ---------------------------------------------------------------------
  // The account a loop keeps.

  /** Providers report non-negative counters. */
  ghost predicate Metered(env: Env) {
    forall n: nat, t: Transcript :: env.respond(n, t).Answered? ==> AtMost(ZeroCounters, env.respond(n, t).usage)
  }

  predicate RequestBound(cfg: Config, start: int, ls: Loop) {
    cfg.limits.Some? && cfg.limits.value.maxRequests.Some? ==>
      ls.usage.counters.requests <= cfg.limits.value.maxRequests.value || ls.usage.counters.requests <= start
  }

  /** No system message, and no tool message without a result. */
  predicate Speech(messages: Transcript) {
    forall i :: 0 <= i < |messages| ==> messages[i].role != RoleSystem && (messages[i].role == RoleTool ==> !Inert(messages[i]))
  }

  /** `base` is what the drive was given; everything after it has been committed to the sink, in order. */
  ghost predicate Kept(env: Env, cfg: Config, base: Transcript, used: Usage, ls: Loop) {
    && base <= ls.messages && (Reliable(env) ==> ls.messages == base + CommittedAll(ls.emitted))
    && (Reliable(env) && WellBehaved(env) ==> Speech(CommittedAll(ls.emitted)))
    && (Metered(env) ==> Telescopes(used, ls))
    && Bounded(cfg, used.counters.toolCalls, ls) && RequestBound(cfg, used.counters.requests, ls)
  }

  ghost predicate KeptTurn(env: Env, cfg: Config, base: Transcript, used: Usage, t: TurnEnd) {
    match t
    case Again(next) => Kept(env, cfg, base, used, next)
    case Over(end) => Kept(env, cfg, base, used, end.ls)
  }

  lemma EmitKept(env: Env, cfg: Config, base: Transcript, used: Usage, ls: Loop, event: J.Event, added: Transcript)
    requires Kept(env, cfg, base, used, ls) && J.Committed(J.EventEntry(event, [], None)) == added
    requires (event.TurnEnded? ==> event.usage == ls.usage) && (WellBehaved(env) ==> Speech(added))
    ensures Kept(env, cfg, base, used, Emit(env, ls.(messages := ls.messages + added), event).0)
  {
    hide CommittedAll, Bounded, Grows, Metered, Reported, Rising, WellBehaved;
    var next := ls.(messages := ls.messages + added);
    EmitCommits(env, next, event);
    if Metered(env) {
      EmitTelescopes(env, used, next, event);
    }
    SameBounds(cfg, used.counters.toolCalls, ls, Emit(env, next, event).0);
    assert base + (CommittedAll(ls.emitted) + added) == base + CommittedAll(ls.emitted) + added;
  }

  /** Events that commit nothing. */
  lemma PlainKept(env: Env, cfg: Config, base: Transcript, used: Usage, ls: Loop, event: J.Event)
    requires Kept(env, cfg, base, used, ls) && J.Committed(J.EventEntry(event, [], None)) == []
    requires event.TurnEnded? ==> event.usage == ls.usage
    ensures Kept(env, cfg, base, used, Emit(env, ls, event).0)
  {
    hide Kept, Emit;
    EmitKept(env, cfg, base, used, ls, event, []);
    assert ls.messages + [] == ls.messages;
  }

  lemma EndsKept(env: Env, cfg: Config, base: Transcript, used: Usage, ls: Loop)
    requires Kept(env, cfg, base, used, ls)
    ensures forall error: DriveError :: Kept(env, cfg, base, used, Failed(env, ls, error).ls)
    ensures Kept(env, cfg, base, used, Interrupted(env, ls).ls)
    ensures Kept(env, cfg, base, used, Completes(env, ls).ls) && Kept(env, cfg, base, used, Stops(env, ls).ls)
    ensures forall s: Suspension :: Kept(env, cfg, base, used, Drives.Suspends(env, ls, s).ls)
  {
    hide Kept, Emit;
    PlainKept(env, cfg, base, used, ls, J.RunFailed);
    PlainKept(env, cfg, base, used, Emit(env, ls, J.RunFailed).0, J.RunEnded);
    PlainKept(env, cfg, base, used, ls, J.RunInterrupted);
    PlainKept(env, cfg, base, used, Emit(env, ls, J.RunInterrupted).0, J.RunEnded);
    PlainKept(env, cfg, base, used, ls, J.RunCompleted);
    PlainKept(env, cfg, base, used, Emit(env, ls, J.RunCompleted).0, J.RunEnded);
    PlainKept(env, cfg, base, used, ls, J.RunEnded);
    forall s: Suspension ensures Kept(env, cfg, base, used, Drives.Suspends(env, ls, s).ls) {
      PlainKept(env, cfg, base, used, ls, J.RunSuspended(s));
    }
  }

  lemma FinishKept(env: Env, cfg: Config, base: Transcript, used: Usage, ls: Loop, outcome: Outcome)
    requires Kept(env, cfg, base, used, ls)
    ensures KeptTurn(env, cfg, base, used, FinishTurn(env, cfg, ls, outcome))
  {
    hide Kept, Emit, Failed, Completes, Stops, HookAnswer;
    var ended := Emit(env, ls, J.TurnEnded(ls.usage)).0;
    PlainKept(env, cfg, base, used, ls, J.TurnEnded(ls.usage));
    EndsKept(env, cfg, base, used, ended);
    var answer := HookAnswer(env, cfg, ended, outcome.candidate);
    var told := Consulted(env, cfg, ended, outcome.candidate);
    ConsultedKept(env, cfg, base, used, ended, outcome.candidate);
    EndsKept(env, cfg, base, used, told);
    if answer.Decision? && ValidDecision(answer.action, answer.inject) {
      EmitKept(env, cfg, base, used, told, J.MessagesInjected(answer.inject), answer.inject);
      EndsKept(env, cfg, base, used, Emit(env, told.(messages := told.messages + answer.inject), J.MessagesInjected(answer.inject)).0);
    }
  }

  lemma ConsultedKept(env: Env, cfg: Config, base: Transcript, used: Usage, ls: Loop, candidate: bool)
    requires Kept(env, cfg, base, used, ls)
    ensures Kept(env, cfg, base, used, Consulted(env, cfg, ls, candidate))
  {
    hide HookAnswer;
  }

  lemma StageKept(env: Env, cfg: Config, base: Transcript, used: Usage, before: Loop, after: Loop)
    requires Kept(env, cfg, base, used, before) && SameTranscript(after, before) && ToolsOnly(before.usage, after.usage)
    requires Bounded(cfg, used.counters.toolCalls, after) && Silent(before, after)
    ensures Kept(env, cfg, base, used, after)
  {
    hide Bounded, Reliable, Metered, Telescopes, Silent, CommittedAll;
    if Metered(env) {
      SilentTelescopes(used, before, after);
    }
  }

  lemma CompleteKept(env: Env, cfg: Config, base: Transcript, used: Usage, ls: Loop, assistant: Message, regular: Regular)
    requires Kept(env, cfg, base, used, ls)
    ensures Kept(env, cfg, base, used, CompleteWith(env, cfg, ls, assistant, regular).ls)
  {
    hide CompleteWith, Bounded, Reliable, Metered, Grows, Telescopes, Silent, CommittedAll;
    CompleteBounded(env, cfg, ls, assistant, regular, used.counters.toolCalls);
    CompleteExtends(env, cfg, ls, assistant, regular);
    if Reliable(env) && WellBehaved(env) {
      CompleteMirrors(env, cfg, ls, assistant, regular, base);
      SuffixSpeech(base, ls, CompleteWith(env, cfg, ls, assistant, regular).ls);
    }
    if Metered(env) {
      CompleteSilent(env, cfg, ls, assistant, regular);
      GrowsSelf(ls.usage);
      SilentTelescopes(used, ls, CompleteWith(env, cfg, ls, assistant, regular).ls);
    }
    if Reliable(env) {
      CompleteMirrors(env, cfg, ls, assistant, regular, base);
    }
  }

  lemma SuffixSpeech(base: Transcript, before: Loop, after: Loop)
    requires before.messages == base + CommittedAll(before.emitted) && after.messages == base + CommittedAll(after.emitted)
    requires Speech(CommittedAll(before.emitted)) && before.messages <= after.messages && Speech(after.messages[|before.messages|..])
    ensures Speech(CommittedAll(after.emitted))
  {
    hide CommittedAll, Inert;
    var a, b := CommittedAll(before.emitted), CommittedAll(after.emitted);
    forall i | 0 <= i < |b| ensures b[i].role != RoleSystem && (b[i].role == RoleTool ==> !Inert(b[i])) {
      assert b[i] == after.messages[|base| + i];
      if i < |a| {
        assert a[i] == before.messages[|base| + i];
      } else {
        assert b[i] == after.messages[|before.messages|..][i - |a|];
      }
    }
  }

  lemma CompleteExtends(env: Env, cfg: Config, ls: Loop, assistant: Message, regular: Regular)
    ensures ls.messages <= CompleteWith(env, cfg, ls, assistant, regular).ls.messages
    ensures Speech(CompleteWith(env, cfg, ls, assistant, regular).ls.messages[|ls.messages|..])
  {
    hide GetToolUses, TurnResults, OutputIndex, WithVerdict, JudgeTurn, CommittedAll, Inert;
    var calls := GetToolUses(assistant);
    if regular.suspension.None? {
      var added := JudgedTranscript(env, cfg, ls, assistant, calls, regular);
      var judged := JudgeTurn(env, cfg, ls, assistant, calls, regular);
      var results := WithVerdict(TurnResults(cfg, calls, regular), OutputIndex(cfg, calls), judged.verdict);
      ResultsCommit(env, judged.ls.(messages := judged.ls.messages + ResultMessages(results)), results);
      ResultsSpeech(results);
      SpeechJoins(added, ResultMessages(results));
      var all := CompleteWith(env, cfg, ls, assistant, regular).ls.messages;
      assert all == ls.messages + (added + ResultMessages(results));
      assert all[|ls.messages|..] == added + ResultMessages(results);
    }
  }

  lemma ResultsSpeech(results: seq<Executed>)
    ensures Speech(ResultMessages(results))
  {
    forall i | 0 <= i < |results| ensures !Inert(ResultMessages(results)[i]) {
      var r := results[i].result;
      ResultMessageParts(r.toolUseId, r.name, r.content, r.isError);
    }
  }

  lemma SpeechJoins(users: Transcript, messages: Transcript)
    requires (forall m :: m in users ==> m.role == RoleUser) && Speech(messages)
    ensures Speech(users + messages)
  {
    hide Inert;
  }

  lemma TurnKept(env: Env, cfg: Config, base: Transcript, used: Usage, ls: Loop, assistant: Message, resumed: Option<Regular>)
    requires Kept(env, cfg, base, used, ls)
    ensures Kept(env, cfg, base, used, CompleteTurn(env, cfg, ls, assistant, resumed).ls)
  {
    hide CompleteWith, RegularStage, Kept, Bounded, Reliable, Metered, Silent, SameTranscript, GetToolUses, ToolsOnly;
    if resumed.Some? {
      CompleteKept(env, cfg, base, used, ls, assistant, resumed.value);
    } else {
      var calls := GetToolUses(assistant);
      var stage := RegularStage(env, cfg, ls, calls);
      StageSame(env, cfg, ls, calls);
      StageUsage(env, cfg, ls, calls);
      KeptBounds(env, cfg, base, used, ls);
      StageBounded(env, cfg, ls, calls, used.counters.toolCalls);
      StageSilent(env, cfg, ls, calls);
      StageKept(env, cfg, base, used, ls, stage.ls);
      CompleteKept(env, cfg, base, used, stage.ls, assistant, stage.regular);
    }
  }

  lemma KeptBounds(env: Env, cfg: Config, base: Transcript, used: Usage, ls: Loop)
    requires Kept(env, cfg, base, used, ls)
    ensures base <= ls.messages && Bounded(cfg, used.counters.toolCalls, ls)
  {
  }

  lemma EndTurnKept(env: Env, cfg: Config, base: Transcript, used: Usage, c: Completed)
    requires Kept(env, cfg, base, used, c.ls)
    ensures KeptTurn(env, cfg, base, used, EndTurn(env, cfg, c))
  {
    hide Kept, FinishTurn, Drives.Suspends;
    if c.outcome.suspension.Some? {
      EndsKept(env, cfg, base, used, c.ls);
    } else {
      FinishKept(env, cfg, base, used, c.ls, c.outcome);
    }
  }

  lemma CountedKept(env: Env, cfg: Config, base: Transcript, used: Usage, ls: Loop, usage: Counters, finish: FinishReason)
    requires Kept(env, cfg, base, used, ls) && BeforeRequest(cfg.limits, ls.usage.counters).None?
    requires Metered(env) ==> AtMost(ZeroCounters, usage)
    ensures Kept(env, cfg, base, used, ls.(usage := AddResponse(ls.usage, usage)))
    ensures Kept(env, cfg, base, used, ls.(usage := AddResponse(ls.usage, usage), finish := finish))
  {
    hide Reliable, Metered, CommittedAll, SumCounts, Rising, Reported;
  }

  lemma AnswerKept(env: Env, cfg: Config, base: Transcript, used: Usage, ls: Loop, message: Message, usage: Counters, finish: FinishReason)
    requires Kept(env, cfg, base, used, ls) && BeforeRequest(cfg.limits, ls.usage.counters).None?
    requires (Metered(env) ==> AtMost(ZeroCounters, usage)) && (WellBehaved(env) ==> message.role == RoleAssistant)
    ensures KeptTurn(env, cfg, base, used, TakeAnswer(env, cfg, ls, message, usage, finish))
  {
    hide Kept, CompleteTurn, EndTurn, Unusable, AfterResponse, AddResponse, Emit, Failed, AtMost, Metered, BeforeRequest, WellBehaved;
    CountedKept(env, cfg, base, used, ls, usage, finish);
    var counted := ls.(usage := AddResponse(ls.usage, usage));
    var marked := if AfterResponse(cfg.limits, counted.usage.counters).Some? then counted else counted.(finish := finish);
    EndsKept(env, cfg, base, used, marked);
    EmitKept(env, cfg, base, used, marked, J.AssistantCommitted(message), [message]);
    var committed := Emit(env, marked.(messages := marked.messages + [message]), J.AssistantCommitted(message)).0;
    EndsKept(env, cfg, base, used, committed);
    TurnKept(env, cfg, base, used, committed, message, None);
    EndTurnKept(env, cfg, base, used, CompleteTurn(env, cfg, committed, message, None));
  }

  lemma RoundKept(env: Env, cfg: Config, base: Transcript, used: Usage, ls: Loop)
    requires Kept(env, cfg, base, used, ls)
    ensures KeptTurn(env, cfg, base, used, Round(env, cfg, ls))
  {
    hide Kept, TakeAnswer, Failed, Interrupted, BeforeRequest, AtMost;
    EndsKept(env, cfg, base, used, ls);
    PlainKept(env, cfg, base, used, ls, J.TurnStarted);
    var started := Emit(env, ls, J.TurnStarted).0;
    EndsKept(env, cfg, base, used, started);
    var reply := env.respond(started.iteration, started.messages);
    if reply.Answered? && BeforeRequest(cfg.limits, ls.usage.counters).None? {
      AnswerKept(env, cfg, base, used, started, reply.message, reply.usage, reply.finish);
    }
  }

  /**
   * A drive's transcript is always what it was given and then what the sink committed; its usage only grows; tool calls,
   * requests and retries stay within their limits.
   */
  lemma {:induction false} DriveKept(env: Env, cfg: Config, base: Transcript, used: Usage, ls: Loop)
    requires Kept(env, cfg, base, used, ls)
    ensures Kept(env, cfg, base, used, DriveFrom(env, cfg, ls).end.ls)
    decreases if ls.iteration < cfg.maxIterations then cfg.maxIterations - ls.iteration else 0
  {
    hide Round, Kept, Asks;
    RoundKept(env, cfg, base, used, ls);
    RoundIteration(env, cfg, ls);
    match Round(env, cfg, ls)
    case Over(end) =>
    case Again(next) =>
      NextKept(env, cfg, base, used, next);
      DriveKept(env, cfg, base, used, next.(iteration := next.iteration + 1));
  }

  lemma NextKept(env: Env, cfg: Config, base: Transcript, used: Usage, ls: Loop)
    requires Kept(env, cfg, base, used, ls)
    ensures Kept(env, cfg, base, used, ls.(iteration := ls.iteration + 1))
  {
    SameBounds(cfg, used.counters.toolCalls, ls, ls.(iteration := ls.iteration + 1));
  }

  predicate PlainPrompt(entry: Entry) {
    entry.Turn? && entry.prompt.Some? ==> entry.prompt.value.role == RoleUser
  }

  lemma EnterKept(env: Env, cfg: Config, base: Transcript, used: Usage, ls: Loop, entry: Entry)
    requires Kept(env, cfg, base, used, ls) && entry.Turn? && PlainPrompt(entry)
    ensures KeptTurn(env, cfg, base, used, EnterTurn(env, cfg, ls, entry))
  {
    hide Kept, CompleteTurn, FinishTurn, Drives.Suspends, Emit;
    TurnKept(env, cfg, base, used, ls, entry.assistant, entry.regular);
    var c := CompleteTurn(env, cfg, ls, entry.assistant, entry.regular);
    EndsKept(env, cfg, base, used, c.ls);
    if entry.prompt.Some? {
      EmitKept(env, cfg, base, used, c.ls, J.MessagesInjected([entry.prompt.value]), [entry.prompt.value]);
    }
    var prompted := WithPrompt(env, c, entry.prompt);
    FinishKept(env, cfg, base, used, prompted.ls, prompted.outcome);
  }

  lemma LoopKept(env: Env, cfg: Config, base: Transcript, used: Usage, ls: Loop, entry: Entry)
    requires Kept(env, cfg, base, used, ls) && PlainPrompt(entry)
    ensures Kept(env, cfg, base, used, DriveLoop(env, cfg, ls, entry).end.ls)
  {
    hide Kept, EnterTurn, DriveFrom, Emit;
    PlainKept(env, cfg, base, used, ls, J.RunStarted);
    var started := Emit(env, ls, J.RunStarted).0;
    EndsKept(env, cfg, base, used, started);
    if entry.Fresh? {
      DriveKept(env, cfg, base, used, started);
    } else {
      EnterKept(env, cfg, base, used, started, entry);
      var t := EnterTurn(env, cfg, started, entry);
      if t.Again? {
        NextKept(env, cfg, base, used, t.ls);
        DriveKept(env, cfg, base, used, t.ls.(iteration := t.ls.iteration + 1));
      }
    }
  }

  /** A drive started on a history ends with its own system message, if the history had none, the history, the prompt and the commits. */
  lemma StartKept(env: Env, cfg: Config, system: string, mode: InputMode, prompt: Option<Message>, history: Transcript)
    ensures var d := StartDrive(env, cfg, system, mode, prompt, history);
      d.Some? ==> Kept(env, cfg, OptionalMessage(Inserted(system, history)) + history + OptionalMessage(prompt), ZeroUsage, d.value.end.ls)
  {
    hide DriveLoop, Inserted, Kept, Run;
    var ls := Prepared(system, history, prompt);
    FreshKept(env, cfg, ls);
    LoopKept(env, cfg, ls.messages, ZeroUsage, ls, Fresh);
    if ls.messages != [] {
      LoopKept(env, cfg, ls.messages, ZeroUsage, ls, Turn(ls.messages[|ls.messages| - 1], None, None));
    }
  }

  lemma FreshKept(env: Env, cfg: Config, ls: Loop)
    requires ls.usage == ZeroUsage && ls.retryCounts == map[] && ls.totalRetries == 0 && ls.emitted == []
    ensures Kept(env, cfg, ls.messages, ZeroUsage, ls)
  {
    assert ls.messages + [] == ls.messages;
  }

  /** A resumed drive keeps the account its envelope carries. */
  lemma ResumeKept(env: Env, cfg: Config, ls: Loop, s: Suspension, decisions: seq<ToolResumeDecision>, prompt: Option<Message>)
    requires ResumeGuards(env, cfg, ls.messages, s) && ls.messages != [] && (prompt.Some? ==> prompt.value.role == RoleUser)
    requires var restored := Restored(ls.messages, s.payload.tool); Bounded(cfg, restored.usage.counters.toolCalls, restored)
    ensures Kept(env, cfg, ls.messages, s.payload.tool.usage, ResumePrepared(env, cfg, ls, s, decisions, prompt).end.ls)
  {
    hide DriveLoop, ResolveTools, Bounded, ResumeGuards, Failed, Kept;
    GuardsName(env, cfg, ls.messages, s);
    var tool := s.payload.tool;
    var restored := Restored(ls.messages, tool);
    RestoredKept(env, cfg, ls.messages, tool);
    EndsKept(env, cfg, ls.messages, tool.usage, restored);
    var r := ResolveTools(env, cfg, restored, tool, decisions);
    if r.ResolvedAs? {
      ResolvedSound(env, cfg, restored, tool, decisions);
      ResolvedBounded(env, cfg, restored, tool, decisions, tool.usage.counters.toolCalls);
      ResolvedUsage(env, cfg, restored, tool, decisions);
      ResolvedSilent(env, cfg, restored, tool, decisions);
      StageKept(env, cfg, ls.messages, tool.usage, restored, r.stage.ls);
      LoopKept(env, cfg, ls.messages, tool.usage, r.stage.ls, Turn(ls.messages[|ls.messages| - 1], Some(r.stage.regular), prompt));
    }
  }

  lemma RestoredKept(env: Env, cfg: Config, messages: Transcript, tool: ToolSuspension)
    requires Bounded(cfg, tool.usage.counters.toolCalls, Restored(messages, tool))
    ensures Kept(env, cfg, messages, tool.usage, Restored(messages, tool)) && Restored(messages, tool).usage == tool.usage
  {
    assert messages + [] == messages;
  }

  lemma GuardsName(env: Env, cfg: Config, messages: Transcript, s: Suspension)
    requires ResumeGuards(env, cfg, messages, s)
    ensures s.payload.ToolPayload? && DistinctIds(s.payload.tool.calls)
  {
    RunKeepsShape(Closed, messages);
  }
}
