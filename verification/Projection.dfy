/** The driver under the session: what the driver returns is what the session committed, event by event. */
module Projections {
  import opened Messages
  import opened Pairing
  import opened Usages
  import opened Suspensions
  import opened ToolControl
  import opened ResumePlan
  import opened Turns
  import opened Resuming
  import opened TurnLaws
  import opened TurnBounds
  import opened Drives
  import opened DriveLaws
  import opened DriveAccounts
  import J = Journals
  import SessionSteps
  import S = SessionStates

  /** makeResult, with NewMessages cut at the length of the given history. */
  function ResultOf(ls: Loop, given: nat): S.ExecutionResult {
    S.ExecutionResult(ls.messages, if given >= |ls.messages| then [] else ls.messages[given..], ls.usage)
  }

  /** The session's run after it committed these events, in order, since `start`. */
  predicate Followed(start: J.ActiveRun, run: J.ActiveRun, events: seq<J.Event>) {
    && run.history == start.history && run.expected == start.expected + CommittedAll(events)
    && run.lastUsage == Reported(events, start.lastUsage)
    && run.volatile.publicNewStart == start.volatile.publicNewStart && run.volatile.resumeInProgress == start.volatile.resumeInProgress
    && (run.volatile.resumeEventSeen <==>
          start.volatile.resumeEventSeen || (start.volatile.resumeInProgress && J.RunStarted in events))
  }

  lemma FollowedAtStart(start: J.ActiveRun)
    ensures Followed(start, start, [])
  {
    assert start.expected + [] == start.expected;
  }

  /** Committing one event, as the session's Emit does, keeps in step. */
  lemma FollowedStep(start: J.ActiveRun, run: J.ActiveRun, events: seq<J.Event>, event: J.Event)
    requires Followed(start, run, events)
    ensures Followed(start, S.EmittedRun(run, event), events + [event])
  {
    hide J.Committed, J.CallStep, CommittedAll, Reported;
    EventsThen(events, event, start.lastUsage);
    ExpectedGrows(start.expected, CommittedAll(events), J.Committed(J.EventEntry(event, [], None)));
  }

  lemma EventsThen(events: seq<J.Event>, event: J.Event, used: Usage)
    ensures CommittedAll(events + [event]) == CommittedAll(events) + J.Committed(J.EventEntry(event, [], None))
    ensures Reported(events + [event], used) == if event.TurnEnded? then event.usage else Reported(events, used)
    ensures J.RunStarted in events + [event] <==> J.RunStarted in events || event == J.RunStarted
  {
    hide J.Committed;
    var all := events + [event];
    assert all[..|all| - 1] == events && all[|all| - 1] == event;
  }

  lemma ExpectedGrows(a: Transcript, b: Transcript, added: Transcript)
    ensures J.Extend(a + b, added) == a + (b + added)
  {
    assert a + b + added == a + (b + added);
    assert added == [] ==> b + added == b;
  }

  /** So does holding drained inputs in between. */
  lemma FollowedHeld(start: J.ActiveRun, run: J.ActiveRun, events: seq<J.Event>, ids: seq<string>)
    requires Followed(start, run, events)
    ensures Followed(start, S.WithInjection(run, ids), events)
  {
  }

  // ---------------------------------------------------------------------
  // Every event can be committed.

  /** The session never sees the usage counters move backwards: each report is at least the one before it. */
  lemma {:induction false} ReportsAccepted(events: seq<J.Event>, used: Usage, k: nat)
    requires Rising(events, used) && k < |events| && events[k].TurnEnded?
    ensures SessionSteps.Reportable(Reported(events[..k], used), events[k].usage)
    decreases |events|
  {
    if k < |events| - 1 {
      assert events[..|events| - 1][..k] == events[..k];
      ReportsAccepted(events[..|events| - 1], used, k);
    }
  }

  /** No committed message is a system message, or a tool message without a result. */
  lemma {:induction false} CommitsAccepted(events: seq<J.Event>, k: nat)
    requires Speech(CommittedAll(events)) && k < |events|
    ensures Speech(J.Committed(J.EventEntry(events[k], [], None)))
    decreases |events|
  {
    hide J.Committed, Inert;
    var before, last := CommittedAll(events[..|events| - 1]), J.Committed(J.EventEntry(events[|events| - 1], [], None));
    var all := before + last;
    if k < |events| - 1 {
      forall i | 0 <= i < |before| ensures before[i].role != RoleSystem && (before[i].role == RoleTool ==> !Inert(before[i])) { assert before[i] == all[i]; }
      CommitsAccepted(events[..|events| - 1], k);
    } else {
      forall i | 0 <= i < |last| ensures last[i].role != RoleSystem && (last[i].role == RoleTool ==> !Inert(last[i])) { assert last[i] == all[|before| + i]; }
    }
  }

  // ---------------------------------------------------------------------
  // The projection matches.

  lemma KeptMirrors(env: Env, cfg: Config, base: Transcript, used: Usage, ls: Loop)
    requires Reliable(env) && Metered(env) && Kept(env, cfg, base, used, ls)
    ensures ls.messages == base + CommittedAll(ls.emitted) && Telescopes(used, ls)
    ensures WellBehaved(env) ==> Speech(CommittedAll(ls.emitted))
  {
  }

  lemma InsertedOnlyFirst(system: string, history: Transcript)
    ensures Inserted(system, history).Some? ==>
      Inserted(system, history).value.role == RoleSystem && !J.StartsWithSystem(history)
  {
  }

  /** A mirrored transcript passes the validator, and its new messages end in what the session expects. */
  lemma MirrorMatches(start: J.ActiveRun, run: J.ActiveRun, ls: Loop, system: Option<Message>, given: nat)
    requires Followed(start, run, ls.emitted) && (system.Some? ==> system.value.role == RoleSystem && !J.StartsWithSystem(start.history))
    requires ls.messages == OptionalMessage(system) + (start.history + start.expected) + CommittedAll(ls.emitted)
    requires start.volatile.publicNewStart <= |start.expected|
    requires given <= |start.history| + start.volatile.publicNewStart
    requires start.history == [] ==> start.expected != [] && start.expected[0].role != RoleSystem
    ensures S.ValidateProjection(run, ResultOf(ls, given)) == S.Match(system)
  {
    var result := ResultOf(ls, given);
    hide S.ValidateProjection, CommittedAll, Followed, S.EndsWith;
    FollowedMessages(start, run, ls, system);
    var suffix := run.expected[run.volatile.publicNewStart..];
    assert S.EndsWith(result.newMessages, suffix) by {
      SuffixSurvives(ls.messages, given, suffix, |OptionalMessage(system)| + |run.history| + run.volatile.publicNewStart);
    }
    S.MirroredMatches(run, result, system);
  }

  lemma FollowedMessages(start: J.ActiveRun, run: J.ActiveRun, ls: Loop, system: Option<Message>)
    requires Followed(start, run, ls.emitted)
    requires ls.messages == OptionalMessage(system) + (start.history + start.expected) + CommittedAll(ls.emitted)
    ensures ls.messages == OptionalMessage(system) + run.history + run.expected
    ensures run.history == start.history && start.expected <= run.expected
    ensures run.volatile.publicNewStart == start.volatile.publicNewStart
  {
    hide Reported, CommittedAll;
  }

  lemma SuffixSurvives(messages: Transcript, given: nat, suffix: Transcript, from: nat)
    requires given <= from <= |messages| && suffix == messages[from..]
    ensures S.EndsWith(if given >= |messages| then [] else messages[given..], suffix)
  {
    if given < |messages| {
      assert messages[given..][from - given..] == messages[from..];
    }
  }

  /**
   * Start, continuation or recovery with a sink that never fails: the session that followed the events accepts the driver's
   * transcript, finds exactly the system message the driver inserted, and can report its usage.
   */
  lemma StartProjects(env: Env, cfg: Config, system: string, mode: InputMode, prompt: Option<Message>, d: Drive,
                      start: J.ActiveRun, run: J.ActiveRun)
    requires Reliable(env) && Metered(env) && StartDrive(env, cfg, system, mode, prompt, start.history) == Some(d)
    requires start.expected == OptionalMessage(prompt) && start.lastUsage == ZeroUsage && start.volatile.publicNewStart == 0
    requires Followed(start, run, d.end.ls.emitted)
    ensures S.ValidateProjection(run, ResultOf(d.end.ls, |start.history|)) == S.Match(Inserted(system, start.history))
    ensures SessionSteps.Reportable(run.lastUsage, d.end.ls.usage)
    ensures S.ReportContract(run, Some(S.Execution(d.end.status, Some(ResultOf(d.end.ls, |start.history|)), d.end.suspension)))
  {
    hide Kept, DriveLoop, Reliable, Metered, CommittedAll, Rising, Inserted, S.ValidateProjection, Run;
    var inserted := Inserted(system, start.history);
    StartKept(env, cfg, system, mode, prompt, start.history);
    var base := OptionalMessage(inserted) + start.history + OptionalMessage(prompt);
    KeptMirrors(env, cfg, base, ZeroUsage, d.end.ls);
    InsertedOnlyFirst(system, start.history);
    assert base == OptionalMessage(inserted) + (start.history + start.expected);
    MirrorMatches(start, run, d.end.ls, inserted, |start.history|);
    if J.StartsWithSystem(start.history) {
      assert inserted.None?;
      assert d.end.ls.messages[0] == base[0] == start.history[0];
    }
  }

  /** The same for a resumed drive: the history it was handed already holds everything the run had committed. */
  lemma ResumeProjects(env: Env, cfg: Config, system: string, s: Suspension, decisions: seq<ToolResumeDecision>, prompt: Option<Message>,
                       d: Drive, start: J.ActiveRun, run: J.ActiveRun)
    requires Reliable(env) && Metered(env)
    requires var history := start.history + start.expected;
      && ResumeDrive(env, cfg, system, history, s, decisions, prompt) == Some(d)
      && (system == "" || HasSystem(history)) && ResumeGuards(env, cfg, history, s)
    requires var tool := s.payload.tool;
      start.lastUsage == tool.usage && Bounded(cfg, tool.usage.counters.toolCalls, Restored(start.history + start.expected, tool))
    requires start.volatile.publicNewStart == |start.expected|
    requires start.history == [] ==> start.expected[0].role != RoleSystem
    requires Followed(start, run, d.end.ls.emitted)
    ensures S.ValidateProjection(run, ResultOf(d.end.ls, |start.history + start.expected|)) == S.Match(None)
    ensures SessionSteps.Reportable(run.lastUsage, d.end.ls.usage)
    ensures S.ReportContract(run, Some(S.Execution(d.end.status, Some(ResultOf(d.end.ls, |start.history + start.expected|)), d.end.suspension)))
    ensures Kept(env, cfg, start.history + start.expected, start.lastUsage, d.end.ls)
  {
    hide Kept, ResumePrepared, Reliable, Metered, CommittedAll, Rising, Inserted, S.ValidateProjection, Run, ResumeGuards, Bounded, Restored;
    var history := start.history + start.expected;
    PreparedAsIs(system, history);
    var ls := Prepared(system, history, None);
    GuardsName(env, cfg, history, s);
    RestoredSame(ls.messages, history, s.payload.tool);
    ResumeKept(env, cfg, ls, s, decisions, prompt);
    KeptMirrors(env, cfg, history, s.payload.tool.usage, d.end.ls);
    ResumedMatches(start, run, d.end.ls);
  }

  lemma ResumedMatches(start: J.ActiveRun, run: J.ActiveRun, ls: Loop)
    requires Followed(start, run, ls.emitted) && ls.messages == start.history + start.expected + CommittedAll(ls.emitted)
    requires start.volatile.publicNewStart == |start.expected| && start.history + start.expected != []
    requires start.history == [] ==> start.expected[0].role != RoleSystem
    ensures S.ValidateProjection(run, ResultOf(ls, |start.history + start.expected|)) == S.Match(None)
    ensures J.StartsWithSystem(ls.messages) && J.StartsWithSystem(run.history) ==> ls.messages[0] == run.history[0]
  {
    hide S.ValidateProjection, Reported, CommittedAll;
    var history := start.history + start.expected;
    assert history == OptionalMessage(None) + history;
    MirrorMatches(start, run, ls, None, |history|);
  }

  /** A resumption the guards refuse reports its failure and the history it was handed, with the counters at zero. */
  lemma RefusedProjects(env: Env, cfg: Config, system: string, s: Suspension, decisions: seq<ToolResumeDecision>, prompt: Option<Message>,
                        d: Drive, start: J.ActiveRun, run: J.ActiveRun)
    requires Reliable(env)
    requires var history := start.history + start.expected;
      && ResumeDrive(env, cfg, system, history, s, decisions, prompt) == Some(d)
      && (system == "" || HasSystem(history)) && !ResumeGuards(env, cfg, history, s)
    requires start.volatile.publicNewStart == |start.expected|
    requires start.history == [] ==> start.expected[0].role != RoleSystem
    requires Followed(start, run, d.end.ls.emitted)
    ensures d.end.ls.emitted == [J.RunFailed, J.RunEnded] && d.end.ls.usage == ZeroUsage && d.end.error == SuspensionMismatch
    ensures S.ValidateProjection(run, ResultOf(d.end.ls, |start.history + start.expected|)) == S.Match(None)
    ensures S.ReportContract(run, Some(S.Execution(d.end.status, Some(ResultOf(d.end.ls, |start.history + start.expected|)), d.end.suspension)))
    ensures run.lastUsage == start.lastUsage
  {
    hide ResumeGuards, Inserted, S.ValidateProjection, Run, Failed, Reported, CommittedAll, Reliable, ResolveTools, DriveLoop;
    var history := start.history + start.expected;
    PreparedAsIs(system, history);
    RefusedEnd(env, Prepared(system, history, None));
    TwoPlainEvents(start.lastUsage);
    assert history + [] == history;
    ResumedMatches(start, run, d.end.ls);
  }

  lemma RefusedEnd(env: Env, ls: Loop)
    requires Reliable(env) && ls.emitted == []
    ensures var end := Failed(env, ls, SuspensionMismatch);
      end.ls == ls.(emitted := [J.RunFailed, J.RunEnded]) && end.error == SuspensionMismatch && end.suspension.None?
  {
  }

  lemma TwoPlainEvents(used: Usage)
    ensures CommittedAll([J.RunFailed, J.RunEnded]) == [] && Reported([J.RunFailed, J.RunEnded], used) == used
  {
    var events := [J.RunFailed, J.RunEnded];
    assert events[..1] == [J.RunFailed] && events[..1][..0] == [];
    assert CommittedAll([J.RunFailed]) == [] && Reported([J.RunFailed], used) == used;
  }

  lemma PreparedAsIs(system: string, history: Transcript)
    requires system == "" || HasSystem(history)
    ensures Prepared(system, history, None).messages == history
  {
    assert [] + history + [] == history;
  }

  lemma RestoredSame(a: Transcript, b: Transcript, tool: ToolSuspension)
    requires a == b
    ensures Restored(a, tool).usage == tool.usage && Restored(a, tool) == Restored(b, tool)
  {
  }

  /** Every event a drive said meets the session's terms: it commits no system message, and every report is at least the last. */
  lemma EventsAccepted(env: Env, cfg: Config, base: Transcript, used: Usage, ls: Loop, k: nat)
    requires Reliable(env) && Metered(env) && WellBehaved(env) && Kept(env, cfg, base, used, ls) && k < |ls.emitted|
    ensures Speech(J.Committed(J.EventEntry(ls.emitted[k], [], None)))
    ensures ls.emitted[k].TurnEnded? ==> SessionSteps.Reportable(Reported(ls.emitted[..k], used), ls.emitted[k].usage)
  {
    hide Kept, Reliable, Metered, WellBehaved, CommittedAll, Rising;
    KeptMirrors(env, cfg, base, used, ls);
    CommitsAccepted(ls.emitted, k);
    if ls.emitted[k].TurnEnded? {
      ReportsAccepted(ls.emitted, used, k);
    }
  }

  /** The loop as the hook finds it at the end of the turn a drive completes first. */
  function TurnClosed(env: Env, cfg: Config, ls: Loop, entry: Entry): Loop
    requires entry.Turn?
  {
    var c := CompleteTurn(env, cfg, Emit(env, ls, J.RunStarted).0, entry.assistant, entry.regular);
    var prompted := WithPrompt(env, c, entry.prompt);
    Emit(env, prompted.ls, J.TurnEnded(prompted.ls.usage)).0
  }

  /** The first turn of a drive ends in an accepted output, and the hook lets it stand. */
  predicate CandidateStood(env: Env, cfg: Config, ls: Loop, entry: Entry)
    requires entry.Turn?
  {
    var outcome := CompleteTurn(env, cfg, Emit(env, ls, J.RunStarted).0, entry.assistant, entry.regular).outcome;
    && outcome.candidate && !outcome.continues && outcome.fatal.None? && outcome.suspension.None?
    && HookAnswer(env, cfg, TurnClosed(env, cfg, ls, entry), true) == Decision(TurnDefault, [])
  }

  /**
   * A resumed turn whose output is accepted, and a hook that lets it stand: the drive completes if no prompt came with the resumption.
   * With a prompt the loop asks the model once more, although the hook was already told of the candidate; when that request is canceled,
   * as the session that has left Running cancels it, the prompt is committed and the drive ends interrupted or failed.
   */
  lemma PromptOutlivesCandidate(env: Env, cfg: Config, ls: Loop, entry: Entry)
    requires Reliable(env) && entry.Turn? && CandidateStood(env, cfg, ls, entry)
    ensures var d := DriveLoop(env, cfg, ls, entry);
      var closed := TurnClosed(env, cfg, ls, entry);
      && (entry.prompt.None? ==> d.end.status == J.ExecutionCompleted && d.requests == [])
      && (entry.prompt.Some? && env.respond(closed.iteration + 1, closed.messages) == ModelCanceled ==>
            && entry.prompt.value in d.end.ls.messages
            && (d.end.status == J.ExecutionInterrupted || d.end.status == J.ExecutionFailed))
  {
    hide CompleteTurn, HookAnswer, Consulted, Halt, Interrupted, Failed, Reliable, Emit, TakeReply;
    var started := Emit(env, ls, J.RunStarted).0;
    EmitSame(env, ls, J.RunStarted);
    var c := CompleteTurn(env, cfg, started, entry.assistant, entry.regular);
    if entry.prompt.None? {
      CandidateStands(env, cfg, c.ls, c.outcome);
    } else {
      var fed := c.ls.(messages := c.ls.messages + [entry.prompt.value]);
      EmitSame(env, fed, J.MessagesInjected([entry.prompt.value]));
      var prompted := WithPrompt(env, c, entry.prompt);
      EmitSame(env, prompted.ls, J.TurnEnded(prompted.ls.usage));
      CandidateGoesOn(env, cfg, prompted.ls, prompted.outcome);
      var next := FinishTurn(env, cfg, prompted.ls, prompted.outcome).ls;
      if env.respond(next.iteration + 1, next.messages) == ModelCanceled {
        CanceledEnds(env, cfg, next.(iteration := next.iteration + 1));
      }
    }
  }

  lemma EmitSame(env: Env, ls: Loop, event: J.Event)
    requires Reliable(env)
    ensures var next := Emit(env, ls, event); next.1 && next.0.messages == ls.messages && next.0.iteration == ls.iteration
  {
  }

  lemma CandidateStands(env: Env, cfg: Config, ls: Loop, outcome: Outcome)
    requires Reliable(env) && outcome.candidate && !outcome.continues && outcome.fatal.None?
    requires HookAnswer(env, cfg, Emit(env, ls, J.TurnEnded(ls.usage)).0, true) == Decision(TurnDefault, [])
    ensures var t := FinishTurn(env, cfg, ls, outcome); t.Over? && t.end.status == J.ExecutionCompleted
  {
    hide HookAnswer;
  }

  lemma CandidateGoesOn(env: Env, cfg: Config, ls: Loop, outcome: Outcome)
    requires Reliable(env) && outcome.candidate && outcome.continues && outcome.fatal.None?
    requires HookAnswer(env, cfg, Emit(env, ls, J.TurnEnded(ls.usage)).0, true) == Decision(TurnDefault, [])
    ensures var t := FinishTurn(env, cfg, ls, outcome); t.Again? && t.ls.messages == ls.messages && t.ls.iteration == ls.iteration
  {
    hide HookAnswer;
  }

  lemma CanceledEnds(env: Env, cfg: Config, ls: Loop)
    requires Reliable(env) && env.respond(ls.iteration, ls.messages) == ModelCanceled
    ensures var end := DriveFrom(env, cfg, ls).end;
      (end.status == J.ExecutionInterrupted || end.status == J.ExecutionFailed) && end.ls.messages == ls.messages
  {
    hide Halt, Reliable;
    EmitSame(env, ls, J.TurnStarted);
  }

  // ---------------------------------------------------------------------
  // Such a resumption.

  const Answer := ToolUse("o", "out", "{}")
  const Lookup := ToolUse("a", "t", "{}")
  const BothCalled := Message(RoleAssistant, [Use(Lookup), Use(Answer)])
  const Resolved := Regular(map["a" := Executed(ToolResult("a", "t", "found", false), NoCause)], false, None, None)

  /** A suspended batch of a lookup and the output tool, resumed with the lookup's result: the output is accepted. */
  lemma OutputAccepted(env: Env, cfg: Config, ls: Loop)
    requires Reliable(env) && cfg.outputs == {"out"} && env.evaluate(ls.iteration, BothCalled) == None
    ensures var c := CompleteTurn(env, cfg, ls, BothCalled, Some(Resolved));
      c.outcome.candidate && !c.outcome.continues && c.outcome.fatal.None? && c.outcome.suspension.None?
  {
    var calls := [Lookup, Answer];
    assert BothCalled.content[1..] == [Use(Answer)] && [Use(Answer)][1..] == [];
    assert PartUses([]) == [] && PartUses([Use(Answer)]) == [Answer] + PartUses([]);
    assert PartUses(BothCalled.content) == [Lookup] + PartUses([Use(Answer)]);
    assert GetToolUses(BothCalled) == calls;
    assert |"out"| == 3 && |"t"| == 1;
    assert calls[1..] == [Answer];
    assert OutputIndex(cfg, [Answer]) == 0 && OutputIndex(cfg, calls) == 1;
    hide TurnResults, Reliable, Emit, EmitResults;
    var judged := JudgeTurn(env, cfg, ls, BothCalled, calls, Resolved);
    var results := WithVerdict(TurnResults(cfg, calls, Resolved), 1, judged.verdict);
    AllCommitted(env, judged.ls.(messages := judged.ls.messages + ResultMessages(results)), results);
    EmitSame(env, ls, J.OutputValidated);
  }

  lemma {:induction false} AllCommitted(env: Env, ls: Loop, results: seq<Executed>)
    requires Reliable(env)
    ensures EmitResults(env, ls, results).1
    decreases results
  {
    if results != [] {
      AllCommitted(env, Emit(env, ls, J.ToolResultCommitted(results[0].result)).0, results[1..]);
    }
  }

  /** With a prompt beside the answers, that very resumption does not complete; without one, it does. */
  lemma PromptStrands(env: Env, cfg: Config, ls: Loop, prompt: Message)
    requires Reliable(env) && cfg.outputs == {"out"} && env.evaluate(ls.iteration, BothCalled) == None
    requires var closed := TurnClosed(env, cfg, ls, Turn(BothCalled, Some(Resolved), None));
      HookAnswer(env, cfg, closed, true) == Decision(TurnDefault, [])
    requires var closed := TurnClosed(env, cfg, ls, Turn(BothCalled, Some(Resolved), Some(prompt)));
      && HookAnswer(env, cfg, closed, true) == Decision(TurnDefault, [])
      && env.respond(closed.iteration + 1, closed.messages) == ModelCanceled
    ensures DriveLoop(env, cfg, ls, Turn(BothCalled, Some(Resolved), None)).end.status == J.ExecutionCompleted
    ensures DriveLoop(env, cfg, ls, Turn(BothCalled, Some(Resolved), Some(prompt))).end.status != J.ExecutionCompleted
  {
    hide DriveLoop, CompleteTurn, HookAnswer, TurnClosed;
    EmitSame(env, ls, J.RunStarted);
    OutputAccepted(env, cfg, Emit(env, ls, J.RunStarted).0);
    PromptOutlivesCandidate(env, cfg, ls, Turn(BothCalled, Some(Resolved), None));
    PromptOutlivesCandidate(env, cfg, ls, Turn(BothCalled, Some(Resolved), Some(prompt)));
  }
}
