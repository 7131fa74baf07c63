/** What each model request of a drive carries: the history it was given, and everything committed before it. */
module Requests {
  import opened Messages
  import opened Pairing
  import opened Usages
  import opened Suspensions
  import opened ToolControl
  import opened ResumePlan
  import opened Turns
  import opened Resuming
  import opened TurnBounds
  import opened Drives
  import opened DriveAccounts
  import opened Protocols
  import J = Journals

  /** How many turns these events started: the model is asked once in each. */
  function TurnsIn(events: seq<J.Event>): nat {
    if events == [] then 0
    else TurnsIn(events[..|events| - 1]) + (if events[|events| - 1].TurnStarted? then 1 else 0)
  }

  lemma {:induction false} TurnsGrow(a: seq<J.Event>, b: seq<J.Event>)
    requires a <= b
    ensures TurnsIn(a) <= TurnsIn(b)
    ensures TurnsIn(a) == TurnsIn(b) <==> forall k :: |a| <= k < |b| ==> !b[k].TurnStarted?
    decreases |b|
  {
    if |a| == |b| {
      assert a == b;
    } else {
      TurnsGrow(a, b[..|b| - 1]);
    }
  }

  lemma SilentAsks(a: Loop, b: Loop)
    requires Silent(a, b)
    ensures TurnsIn(b.emitted) == TurnsIn(a.emitted)
  {
    TurnsGrow(a.emitted, b.emitted);
  }

  lemma EmitAsks(env: Env, ls: Loop, event: J.Event)
    ensures var next := Emit(env, ls, event);
      TurnsIn(next.0.emitted) == TurnsIn(ls.emitted) + (if next.1 && event.TurnStarted? then 1 else 0)
  {
    var next := Emit(env, ls, event).0;
    assert next.emitted != ls.emitted ==> next.emitted[..|next.emitted| - 1] == ls.emitted;
  }

  /** The turn ends, or the drive does, with so many requests made. */
  predicate TurnsAre(t: TurnEnd, asked: nat) {
    match t
    case Again(next) => TurnsIn(next.emitted) == asked
    case Over(end) => TurnsIn(end.ls.emitted) == asked
  }

  lemma EndsAsk(env: Env, ls: Loop)
    ensures forall error: DriveError :: TurnsIn(Failed(env, ls, error).ls.emitted) == TurnsIn(ls.emitted)
    ensures TurnsIn(Interrupted(env, ls).ls.emitted) == TurnsIn(ls.emitted)
    ensures TurnsIn(Completes(env, ls).ls.emitted) == TurnsIn(ls.emitted) && TurnsIn(Stops(env, ls).ls.emitted) == TurnsIn(ls.emitted)
    ensures forall s: Suspension :: TurnsIn(Drives.Suspends(env, ls, s).ls.emitted) == TurnsIn(ls.emitted)
  {
    hide Emit, TurnsIn;
    EmitAsks(env, ls, J.RunFailed);
    EmitAsks(env, Emit(env, ls, J.RunFailed).0, J.RunEnded);
    EmitAsks(env, ls, J.RunInterrupted);
    EmitAsks(env, Emit(env, ls, J.RunInterrupted).0, J.RunEnded);
    EmitAsks(env, ls, J.RunCompleted);
    EmitAsks(env, Emit(env, ls, J.RunCompleted).0, J.RunEnded);
    EmitAsks(env, ls, J.RunEnded);
    forall l: Loop ensures Failed(env, l, SinkFailed).ls == l {}
    forall s: Suspension ensures TurnsIn(Drives.Suspends(env, ls, s).ls.emitted) == TurnsIn(ls.emitted) {
      EmitAsks(env, ls, J.RunSuspended(s));
    }
  }

  lemma FinishAsks(env: Env, cfg: Config, ls: Loop, outcome: Outcome)
    ensures TurnsAre(FinishTurn(env, cfg, ls, outcome), TurnsIn(ls.emitted))
  {
    hide Emit, TurnsIn, Failed, Completes, Stops, HookAnswer, ValidDecision;
    var ended := Emit(env, ls, J.TurnEnded(ls.usage)).0;
    EmitAsks(env, ls, J.TurnEnded(ls.usage));
    EndsAsk(env, ended);
    var told := Consulted(env, cfg, ended, outcome.candidate);
    EndsAsk(env, told);
    var reply := HookAnswer(env, cfg, ended, outcome.candidate);
    if reply.Decision? {
      var fed := told.(messages := told.messages + reply.inject);
      EmitAsks(env, fed, J.MessagesInjected(reply.inject));
      EndsAsk(env, Emit(env, fed, J.MessagesInjected(reply.inject)).0);
    }
  }

  lemma CompletionAsks(env: Env, cfg: Config, ls: Loop, assistant: Message, resumed: Option<Regular>)
    ensures TurnsIn(CompleteTurn(env, cfg, ls, assistant, resumed).ls.emitted) == TurnsIn(ls.emitted)
  {
    hide Silent, CompleteWith, RegularStage, GetToolUses, TurnsIn;
    if resumed.Some? {
      CompleteSilent(env, cfg, ls, assistant, resumed.value);
      SilentAsks(ls, CompleteTurn(env, cfg, ls, assistant, resumed).ls);
    } else {
      var calls := GetToolUses(assistant);
      var stage := RegularStage(env, cfg, ls, calls);
      StageSilent(env, cfg, ls, calls);
      SilentAsks(ls, stage.ls);
      CompleteSilent(env, cfg, stage.ls, assistant, stage.regular);
      SilentAsks(stage.ls, CompleteTurn(env, cfg, ls, assistant, resumed).ls);
    }
  }

  lemma AnswerAsks(env: Env, cfg: Config, ls: Loop, message: Message, usage: Counters, finish: FinishReason)
    ensures TurnsAre(TakeAnswer(env, cfg, ls, message, usage, finish), TurnsIn(ls.emitted))
  {
    hide Emit, TurnsIn, Failed, CompleteTurn, FinishTurn, Drives.Suspends, Unusable, AfterResponse, AddResponse;
    var counted := ls.(usage := AddResponse(ls.usage, usage));
    var marked := if AfterResponse(cfg.limits, counted.usage.counters).Some? then counted else counted.(finish := finish);
    EndsAsk(env, marked);
    var answered := marked.(messages := marked.messages + [message]);
    EmitAsks(env, answered, J.AssistantCommitted(message));
    var committed := Emit(env, answered, J.AssistantCommitted(message)).0;
    EndsAsk(env, committed);
    CompletionAsks(env, cfg, committed, message, None);
    var c := CompleteTurn(env, cfg, committed, message, None);
    EndsAsk(env, c.ls);
    FinishAsks(env, cfg, c.ls, c.outcome);
  }

  lemma RoundAsks(env: Env, cfg: Config, ls: Loop)
    requires Reliable(env)
    ensures TurnsAre(Round(env, cfg, ls), TurnsIn(ls.emitted) + (if Asks(env, cfg, ls) then 1 else 0))
  {
    hide TurnsIn, Emit, Failed, Interrupted, TakeAnswer, Halt, Reliable, Turns.CommittedAll;
    EmitsReliably(env, ls, J.TurnStarted);
    EndsAsk(env, ls);
    EmitAsks(env, ls, J.TurnStarted);
    var started := Emit(env, ls, J.TurnStarted).0;
    EndsAsk(env, started);
    var reply := env.respond(started.iteration, started.messages);
    if reply.Answered? {
      AnswerAsks(env, cfg, started, reply.message, reply.usage, reply.finish);
    }
  }

  /** The request of the turn started at `k` carries the base and everything committed before it. */
  predicate Carries(base: Transcript, asked: nat, events: seq<J.Event>, requests: seq<Request>, k: nat)
    requires k < |events|
  {
    var i := TurnsIn(events[..k]) - asked;
    0 <= i < |requests| && requests[i].messages == base + CommittedAll(events[..k])
  }

  /** From the event at `from` on, after `asked` requests: one request for each turn started, carrying what had been committed. */
  predicate Recorded(base: Transcript, asked: nat, from: nat, d: Drive) {
    var events := d.end.ls.emitted;
    && TurnsIn(events) == asked + |d.requests|
    && forall k :: from <= k < |events| && events[k].TurnStarted? ==> Carries(base, asked, events, d.requests, k)
  }

  lemma NothingStarted(base: Transcript, ls: Loop, d: Drive)
    requires ls.emitted <= d.end.ls.emitted && TurnsIn(d.end.ls.emitted) == TurnsIn(ls.emitted) && d.requests == []
    ensures Recorded(base, TurnsIn(ls.emitted), |ls.emitted|, d)
  {
    TurnsGrow(ls.emitted, d.end.ls.emitted);
  }

  /** A turn started right after `before`, and no other until the end of `mid`. */
  predicate StartsOne(before: seq<J.Event>, mid: seq<J.Event>) {
    && |before| < |mid| && before == mid[..|before|]
    && forall j :: |before| < j < |mid| ==> !mid[j].TurnStarted?
  }

  lemma OnlyFirst(before: seq<J.Event>, mid: seq<J.Event>)
    requires before + [J.TurnStarted] <= mid && TurnsIn(mid) == TurnsIn(before) + 1
    ensures StartsOne(before, mid)
  {
    var first := before + [J.TurnStarted];
    assert first[..|before|] == before;
    hide TurnsIn;
    assert TurnsIn(first) == TurnsIn(before) + 1 by {
      TurnsLast(before);
    }
    TurnsGrow(first, mid);
    assert mid[..|before|] == first[..|before|];
  }

  lemma TurnsLast(before: seq<J.Event>)
    ensures TurnsIn(before + [J.TurnStarted]) == TurnsIn(before) + 1
  {
    assert (before + [J.TurnStarted])[..|before|] == before;
  }

  lemma StartedWhere(before: seq<J.Event>, mid: seq<J.Event>, events: seq<J.Event>, k: nat)
    requires StartsOne(before, mid) && mid <= events && |before| <= k < |events| && events[k].TurnStarted?
    ensures k >= |mid| || (k == |before| && events[..k] == before)
  {
    if k < |mid| {
      assert mid[k] == events[k];
      assert events[..|before|] == mid[..|before|];
    }
  }

  lemma FirstStarted(base: Transcript, ls: Loop, mid: seq<J.Event>, d: Drive, rest: seq<Request>)
    requires ls.messages == base + CommittedAll(ls.emitted) && d.requests == [Request(ls.iteration, ls.messages)] + rest
    requires ls.emitted + [J.TurnStarted] <= mid && mid <= d.end.ls.emitted && TurnsIn(mid) == TurnsIn(ls.emitted) + 1
    requires Recorded(base, TurnsIn(mid), |mid|, Drive(d.end, rest))
    ensures Recorded(base, TurnsIn(ls.emitted), |ls.emitted|, d)
  {
    hide Carries, StartsOne, TurnsIn, CommittedAll;
    OnlyFirst(ls.emitted, mid);
    var events, asked := d.end.ls.emitted, TurnsIn(ls.emitted);
    forall k | |ls.emitted| <= k < |events| && events[k].TurnStarted? ensures Carries(base, asked, events, d.requests, k) {
      StartedWhere(ls.emitted, mid, events, k);
      if k < |mid| {
        FirstCarries(base, ls, events, d.requests, k);
      } else {
        LaterCarries(base, asked, events, d.requests, rest, k);
      }
    }
  }

  lemma FirstCarries(base: Transcript, ls: Loop, events: seq<J.Event>, requests: seq<Request>, k: nat)
    requires k < |events| && events[..k] == ls.emitted && ls.messages == base + CommittedAll(ls.emitted)
    requires requests != [] && requests[0].messages == ls.messages
    ensures Carries(base, TurnsIn(ls.emitted), events, requests, k)
  {
  }

  lemma LaterCarries(base: Transcript, asked: nat, events: seq<J.Event>, requests: seq<Request>, rest: seq<Request>, k: nat)
    requires k < |events| && Carries(base, asked + 1, events, rest, k) && |requests| == |rest| + 1 && requests[1..] == rest
    ensures Carries(base, asked, events, requests, k)
  {
    hide TurnsIn, CommittedAll;
  }

  lemma RoundGrows(env: Env, cfg: Config, ls: Loop)
    requires Reliable(env)
    ensures var t := Round(env, cfg, ls);
      var after := if t.Again? then t.ls else t.end.ls;
      && ls.emitted <= after.emitted && (Asks(env, cfg, ls) ==> ls.emitted + [J.TurnStarted] <= after.emitted)
  {
    hide TurnsIn, Round, Halt, Reliable, Turns.CommittedAll;
    var event := RoundExtends(env, cfg, ls);
    EmitExtends(env, ls, event);
    if Asks(env, cfg, ls) {
      RoundStarts(env, cfg, ls);
    }
  }

  lemma RoundStarts(env: Env, cfg: Config, ls: Loop)
    requires Reliable(env) && Asks(env, cfg, ls)
    ensures TurnExtends(Emit(env, ls, J.TurnStarted).0, Round(env, cfg, ls))
    ensures Emit(env, ls, J.TurnStarted).0.emitted == ls.emitted + [J.TurnStarted]
  {
    hide Extends, TakeAnswer, Halt, Failed, Interrupted;
    var started := Emit(env, ls, J.TurnStarted).0;
    EndsExtend(env, started);
    var reply := env.respond(started.iteration, started.messages);
    if reply.Answered? {
      AnswerExtends(env, cfg, started, reply.message, reply.usage, reply.finish);
    }
  }

  lemma {:induction false} DriveRecorded(env: Env, cfg: Config, base: Transcript, used: Usage, ls: Loop)
    requires Reliable(env) && Kept(env, cfg, base, used, ls)
    ensures var d := DriveFrom(env, cfg, ls);
      ls.emitted <= d.end.ls.emitted && Recorded(base, TurnsIn(ls.emitted), |ls.emitted|, d)
    decreases if ls.iteration < cfg.maxIterations then cfg.maxIterations - ls.iteration else 0
  {
    hide Round, Asks, Kept, Reliable, Recorded, CommittedAll, TurnsIn;
    RoundKept(env, cfg, base, used, ls);
    RoundIteration(env, cfg, ls);
    RoundGrows(env, cfg, ls);
    RoundAsks(env, cfg, ls);
    KeptBase(env, cfg, base, used, ls);
    var d := DriveFrom(env, cfg, ls);
    match Round(env, cfg, ls)
    case Over(end) =>
      if Asks(env, cfg, ls) {
        NothingStarted(base, end.ls, Drive(end, []));
        FirstStarted(base, ls, end.ls.emitted, d, []);
      } else {
        NothingStarted(base, ls, d);
      }
    case Again(next) =>
      NextKept(env, cfg, base, used, next);
      var on := next.(iteration := next.iteration + 1);
      DriveRecorded(env, cfg, base, used, on);
      FirstStarted(base, ls, next.emitted, d, DriveFrom(env, cfg, on).requests);
  }

  lemma KeptBase(env: Env, cfg: Config, base: Transcript, used: Usage, ls: Loop)
    requires Reliable(env) && Kept(env, cfg, base, used, ls)
    ensures ls.messages == base + CommittedAll(ls.emitted)
  {
  }

  /** What was said before the first turn started changes nothing. */
  lemma RecordedFrom(base: Transcript, ls: Loop, d: Drive)
    requires TurnsIn(ls.emitted) == 0 && ls.emitted <= d.end.ls.emitted && Recorded(base, 0, |ls.emitted|, d)
    ensures Recorded(base, 0, 0, d)
  {
    hide CommittedAll;
    var events := d.end.ls.emitted;
    TurnsGrow([], ls.emitted);
    forall k | 0 <= k < |ls.emitted| ensures !events[k].TurnStarted? {
      assert ls.emitted[k] == events[k];
    }
  }

  lemma EndedRecorded(base: Transcript, d: Drive)
    requires TurnsIn(d.end.ls.emitted) == 0 && d.requests == []
    ensures Recorded(base, 0, 0, d)
  {
    TurnsGrow([], d.end.ls.emitted);
  }

  lemma EnterAsks(env: Env, cfg: Config, ls: Loop, entry: Entry)
    requires entry.Turn?
    ensures TurnsAre(EnterTurn(env, cfg, ls, entry), TurnsIn(ls.emitted))
  {
    hide Emit, TurnsIn, CompleteTurn, FinishTurn, Drives.Suspends;
    CompletionAsks(env, cfg, ls, entry.assistant, entry.regular);
    var c := CompleteTurn(env, cfg, ls, entry.assistant, entry.regular);
    EndsAsk(env, c.ls);
    if entry.prompt.Some? {
      EmitAsks(env, c.ls.(messages := c.ls.messages + [entry.prompt.value]), J.MessagesInjected([entry.prompt.value]));
    }
    var prompted := WithPrompt(env, c, entry.prompt);
    FinishAsks(env, cfg, prompted.ls, prompted.outcome);
  }

  lemma LoopRecorded(env: Env, cfg: Config, base: Transcript, used: Usage, ls: Loop, entry: Entry)
    requires Reliable(env) && Kept(env, cfg, base, used, ls) && PlainPrompt(entry) && TurnsIn(ls.emitted) == 0
    ensures Recorded(base, 0, 0, DriveLoop(env, cfg, ls, entry))
  {
    hide Kept, EnterTurn, DriveFrom, Emit, Reliable, TurnsIn, Recorded, CommittedAll, Failed;
    PlainKept(env, cfg, base, used, ls, J.RunStarted);
    EmitAsks(env, ls, J.RunStarted);
    EmitsReliably(env, ls, J.RunStarted);
    var started := Emit(env, ls, J.RunStarted).0;
    if entry.Fresh? {
      DriveRecorded(env, cfg, base, used, started);
      RecordedFrom(base, started, DriveLoop(env, cfg, ls, entry));
    } else {
      EnterKept(env, cfg, base, used, started, entry);
      EnterAsks(env, cfg, started, entry);
      match EnterTurn(env, cfg, started, entry)
      case Over(end) => EndedRecorded(base, DriveLoop(env, cfg, ls, entry));
      case Again(next) =>
        NextKept(env, cfg, base, used, next);
        var on := next.(iteration := next.iteration + 1);
        DriveRecorded(env, cfg, base, used, on);
        RecordedFrom(base, on, DriveLoop(env, cfg, ls, entry));
    }
  }

  /**
   * Every request of a started drive carries the driver's system message, if the history had none, the history, the prompt, and everything
   * committed before its turn started.
   */
  lemma StartRecorded(env: Env, cfg: Config, system: string, mode: InputMode, prompt: Option<Message>, history: Transcript)
    requires Reliable(env)
    ensures var d := StartDrive(env, cfg, system, mode, prompt, history);
      d.Some? ==> Recorded(OptionalMessage(Inserted(system, history)) + history + OptionalMessage(prompt), 0, 0, d.value)
  {
    hide DriveLoop, Inserted, Kept, Recorded, Reliable, Run;
    var ls := Prepared(system, history, prompt);
    FreshKept(env, cfg, ls);
    LoopRecorded(env, cfg, ls.messages, ZeroUsage, ls, Fresh);
    if ls.messages != [] {
      LoopRecorded(env, cfg, ls.messages, ZeroUsage, ls, Turn(ls.messages[|ls.messages| - 1], None, None));
    }
  }

  /** Every request of a resumed drive carries the history it was handed and everything committed before its turn started. */
  lemma ResumeRecorded(env: Env, cfg: Config, ls: Loop, s: Suspension, decisions: seq<ToolResumeDecision>, prompt: Option<Message>)
    requires Reliable(env) && ls.messages != [] && ls.emitted == [] && (prompt.Some? ==> prompt.value.role == RoleUser)
    requires ResumeGuards(env, cfg, ls.messages, s) ==>
      s.payload.ToolPayload? && Bounded(cfg, s.payload.tool.usage.counters.toolCalls, Restored(ls.messages, s.payload.tool))
    ensures Recorded(ls.messages, 0, 0, ResumePrepared(env, cfg, ls, s, decisions, prompt))
  {
    hide DriveLoop, ResolveTools, Bounded, ResumeGuards, Failed, Kept, Recorded, Silent, Reliable, Restored;
    EndsAsk(env, ls);
    var d := ResumePrepared(env, cfg, ls, s, decisions, prompt);
    if !ResumeGuards(env, cfg, ls.messages, s) {
      EndedRecorded(ls.messages, d);
    } else {
      GuardsName(env, cfg, ls.messages, s);
      ResolvedRecorded(env, cfg, ls, s.payload.tool, decisions, prompt);
    }
  }

  lemma ResolvedRecorded(env: Env, cfg: Config, ls: Loop, tool: ToolSuspension, decisions: seq<ToolResumeDecision>, prompt: Option<Message>)
    requires Reliable(env) && ls.messages != [] && DistinctIds(tool.calls) && (prompt.Some? ==> prompt.value.role == RoleUser)
    requires Bounded(cfg, tool.usage.counters.toolCalls, Restored(ls.messages, tool))
    ensures match ResolveTools(env, cfg, Restored(ls.messages, tool), tool, decisions)
      case ResolveFailed(validation) =>
        Recorded(ls.messages, 0, 0, Drive(Failed(env, Restored(ls.messages, tool), ResolutionRefused(validation)), []))
      case ResolvedAs(stage) =>
        Recorded(ls.messages, 0, 0, DriveLoop(env, cfg, stage.ls, Turn(ls.messages[|ls.messages| - 1], Some(stage.regular), prompt)))
  {
    hide DriveLoop, ResolveTools, Bounded, Failed, Kept, Recorded, Silent, Reliable, TurnsIn;
    var restored := Restored(ls.messages, tool);
    EndsAsk(env, restored);
    NothingAsked(restored);
    match ResolveTools(env, cfg, restored, tool, decisions)
    case ResolveFailed(validation) =>
      EndedRecorded(ls.messages, Drive(Failed(env, restored, ResolutionRefused(validation)), []));
    case ResolvedAs(stage) =>
      RestoredKept(env, cfg, ls.messages, tool);
      ResolvedSound(env, cfg, restored, tool, decisions);
      ResolvedBounded(env, cfg, restored, tool, decisions, tool.usage.counters.toolCalls);
      ResolvedUsage(env, cfg, restored, tool, decisions);
      ResolvedSilent(env, cfg, restored, tool, decisions);
      StageKept(env, cfg, ls.messages, tool.usage, restored, stage.ls);
      SilentAsks(restored, stage.ls);
      LoopRecorded(env, cfg, ls.messages, tool.usage, stage.ls, Turn(ls.messages[|ls.messages| - 1], Some(stage.regular), prompt));
  }

  lemma NothingAsked(ls: Loop)
    requires ls.emitted == []
    ensures TurnsIn(ls.emitted) == 0
  {
  }
}
