/** A drive and all its resumptions as one run: requests, bounds and endings across any number of suspensions. */
module DriveChain {
  import opened Messages
  import opened Pairing
  import opened Usages
  import opened Suspensions
  import opened ToolControl
  import opened ResumePlan
  import opened Turns
  import opened Resuming
  import opened TurnLaws
  import opened TurnBounds
  import opened Drives
  import opened DriveLaws
  import opened DriveAccounts
  import J = Journals

  /** One resumption: the world it runs in, the operator's decisions, an optional prompt. */
  datatype Leg = Leg(env: Env, decisions: seq<ToolResumeDecision>, prompt: Option<Message>)

  /** Refused before any handler ran: the session waits again on the same suspension. */
  predicate Refused(d: Drive) {
    d.end.error == SuspensionMismatch || d.end.error == ResolutionRefused(true)
  }

  /** The drives that resume `d` in turn; a refused one leaves it waiting for the next leg. */
  function Resumes(cfg: Config, system: string, d: Drive, legs: seq<Leg>): seq<Drive>
    decreases legs
  {
    if legs == [] || d.end.suspension.None? then []
    else
      match ResumeDrive(legs[0].env, cfg, system, d.end.ls.messages, d.end.suspension.value, legs[0].decisions, legs[0].prompt)
      case None => Resumes(cfg, system, d, legs[1..])
      case Some(next) =>
        if Refused(next) then Resumes(cfg, system, d, legs[1..]) else [next] + Resumes(cfg, system, next, legs[1..])
  }

  function AllRequests(drives: seq<Drive>): seq<Request> {
    if drives == [] then [] else drives[0].requests + AllRequests(drives[1..])
  }

  /** Waiting on exactly the calls of the last message, with an envelope that restores the loop. */
  predicate Paused(ls: Loop, s: Suspension) {
    && ls.messages != [] && s.payload.ToolPayload? && Alike(Restored(ls.messages, s.payload.tool), ls)
    && Run(Closed, ls.messages) == Some(Frontier(GetToolUses(ls.messages[|ls.messages| - 1]), {}))
    && GetToolUses(ls.messages[|ls.messages| - 1]) != []
  }

  /** A finished drive is fully paired; a suspended one waits on exactly its last calls; its counters are within bounds. */
  ghost predicate Settled(cfg: Config, d: Drive) {
    && (d.end.status == J.ExecutionCompleted || d.end.status == J.ExecutionStopped ==> FullyPaired(d.end.ls.messages))
    && (d.end.status == J.ExecutionSuspended <==> d.end.suspension.Some?)
    && (d.end.suspension.Some? ==> Paused(d.end.ls, d.end.suspension.value))
    && Bounded(cfg, 0, d.end.ls)
  }

  ghost predicate GoodLegs(legs: seq<Leg>) {
    forall i :: 0 <= i < |legs| ==> WellBehaved(legs[i].env) && (legs[i].prompt.Some? ==> Inert(legs[i].prompt.value))
  }

  /** The driver adds no second system message. */
  predicate Seeded(system: string, messages: Transcript) {
    system == "" || HasSystem(messages)
  }

  lemma PairedSettles(env: Env, cfg: Config, d: Drive)
    requires PairedEnd(env, cfg, d.end) && Bounded(cfg, 0, d.end.ls)
    ensures Settled(cfg, d)
  {
    hide FullyPaired, Bounded;
  }

  lemma BoundsAdd(cfg: Config, start: int, before: Loop, after: Loop)
    requires Bounded(cfg, start, before) && Bounded(cfg, before.usage.counters.toolCalls, after)
    ensures Bounded(cfg, start, after)
  {
  }

  lemma RequestsJoin(a: seq<Request>, b: seq<Request>, from: int, middle: int, below: int)
    requires PairedRequests(a, from, below) && PairedRequests(b, middle, below) && from <= middle
    requires forall i :: 0 <= i < |a| ==> a[i].iteration < middle
    ensures PairedRequests(a + b, from, below)
  {
    hide FullyPaired;
  }

  lemma LoopRequestsBeforeEnd(env: Env, cfg: Config, ls: Loop, entry: Entry)
    ensures var d := DriveLoop(env, cfg, ls, entry);
      forall i :: 0 <= i < |d.requests| ==> d.requests[i].iteration <= d.end.ls.iteration
  {
    hide DriveFrom, EnterTurn, Failed;
    var started := Emit(env, ls, J.RunStarted).0;
    RequestsBeforeEnd(env, cfg, started);
    if entry.Turn? {
      var t := EnterTurn(env, cfg, started, entry);
      if t.Again? {
        RequestsBeforeEnd(env, cfg, t.ls.(iteration := t.ls.iteration + 1));
      }
    }
  }

  lemma SeededStays(system: string, before: Transcript, after: Transcript)
    requires Seeded(system, before) && before <= after
    ensures Seeded(system, after)
  {
    if system != "" {
      var i :| 0 <= i < |before| && before[i].role == RoleSystem;
      assert after[i] == before[i];
    }
  }

  lemma SeededAsIs(system: string, messages: Transcript)
    requires Seeded(system, messages)
    ensures Prepared(system, messages, None).messages == messages
  {
    assert [] + messages + [] == messages;
  }

  /** One accepted resumption of a settled, suspended drive. */
  lemma LegSound(cfg: Config, system: string, d: Drive, leg: Leg, next: Drive)
    requires Settled(cfg, d) && d.end.suspension.Some? && Seeded(system, d.end.ls.messages) && GoodLegs([leg])
    requires ResumeDrive(leg.env, cfg, system, d.end.ls.messages, d.end.suspension.value, leg.decisions, leg.prompt) == Some(next)
    requires !Refused(next)
    ensures Settled(cfg, next) && Seeded(system, next.end.ls.messages)
    ensures PairedRequests(next.requests, d.end.ls.iteration + 1, cfg.maxIterations)
    ensures forall i :: 0 <= i < |next.requests| ==> next.requests[i].iteration <= next.end.ls.iteration
    ensures next.end.suspension.Some? ==> d.end.ls.iteration <= next.end.ls.iteration
  {
    hide ResumePrepared, Bounded, FullyPaired, WellBehaved, PairedRequests, ResolveTools, Run, Inert, Seeded, HasSystem, ResumeGuards,
      PairedEnd, GetToolUses, Failed;
    assert WellBehaved([leg][0].env) && ([leg][0].prompt.Some? ==> Inert([leg][0].prompt.value));
    var s := d.end.suspension.value;
    SeededAsIs(system, d.end.ls.messages);
    var ls := Prepared(system, d.end.ls.messages, None);
    ResumedSound(leg.env, cfg, d.end.ls, ls, s, leg.decisions, leg.prompt);
    SeededStays(system, d.end.ls.messages, next.end.ls.messages);
    hide Settled, Paused;
    if PairedEnd(leg.env, cfg, next.end) {
      PairedSettles(leg.env, cfg, next);
    } else {
      StrandedSettles(cfg, next);
    }
  }

  lemma StrandedSettles(cfg: Config, d: Drive)
    requires d.end.status == J.ExecutionFailed && d.end.suspension.None? && Bounded(cfg, 0, d.end.ls)
    ensures Settled(cfg, d)
  {
    hide Bounded;
  }

  /** The resumed drive on the paused loop: bounds, extension, and either a paired end or a refusal that changed nothing. */
  lemma ResumedSound(env: Env, cfg: Config, paused: Loop, ls: Loop, s: Suspension, decisions: seq<ToolResumeDecision>, prompt: Option<Message>)
    requires WellBehaved(env) && (prompt.Some? ==> Inert(prompt.value) && prompt.value.role == RoleUser)
    requires Paused(paused, s) && ls.messages == paused.messages && Bounded(cfg, 0, paused)
    requires !Refused(ResumePrepared(env, cfg, ls, s, decisions, prompt))
    ensures var next := ResumePrepared(env, cfg, ls, s, decisions, prompt);
      && paused.messages <= next.end.ls.messages && Bounded(cfg, 0, next.end.ls)
      && PairedRequests(next.requests, paused.iteration + 1, cfg.maxIterations)
      && (forall i :: 0 <= i < |next.requests| ==> next.requests[i].iteration <= next.end.ls.iteration)
      && (PairedEnd(env, cfg, next.end) || (next.end.status == J.ExecutionFailed && next.end.suspension.None?))
      && (next.end.suspension.Some? ==> paused.iteration <= next.end.ls.iteration)
  {
    hide Bounded, FullyPaired, WellBehaved, PairedRequests, ResolveTools, Run, Inert, ResumeGuards, PairedEnd, DriveLoop, GetToolUses, Failed,
      Kept;
    GuardsHeld(env, cfg, ls, s, decisions, prompt);
    ResumePairs(env, cfg, ls, s, decisions, prompt);
    var tool := s.payload.tool;
    var restored := Restored(ls.messages, tool);
    SameBounds(cfg, 0, paused, restored);
    OwnBounds(cfg, restored);
    ResumeKept(env, cfg, ls, s, decisions, prompt);
    var next := ResumePrepared(env, cfg, ls, s, decisions, prompt);
    KeptBounds(env, cfg, ls.messages, tool.usage, next.end.ls);
    BoundsAdd(cfg, 0, restored, next.end.ls);
    var r := ResolveTools(env, cfg, restored, tool, decisions);
    if r.ResolvedAs? {
      var entry := Turn(ls.messages[|ls.messages| - 1], Some(r.stage.regular), prompt);
      LoopRequestsBeforeEnd(env, cfg, r.stage.ls, entry);
      GuardsName(env, cfg, ls.messages, s);
      ResolvedSound(env, cfg, restored, tool, decisions);
      LoopForward(env, cfg, r.stage.ls, entry);
    } else {
      FailedShape(env, restored, ResolutionRefused(r.validation));
      NoRequests(paused.iteration + 1, cfg.maxIterations);
    }
  }

  lemma NoRequests(from: int, below: int)
    ensures PairedRequests([], from, below)
  {
  }

  lemma LoopForward(env: Env, cfg: Config, ls: Loop, entry: Entry)
    ensures ls.iteration <= DriveLoop(env, cfg, ls, entry).end.ls.iteration
  {
    hide DriveFrom, CompleteTurn, FinishTurn, Failed;
    var started := Emit(env, ls, J.RunStarted).0;
    FailedStays(env, started, SinkFailed);
    RequestsBeforeEnd(env, cfg, started);
    if entry.Turn? {
      TurnIteration(env, cfg, started, entry.assistant, entry.regular);
      var c := CompleteTurn(env, cfg, started, entry.assistant, entry.regular);
      var prompted := WithPrompt(env, c, entry.prompt);
      FinishStays(env, cfg, prompted.ls, prompted.outcome);
      FinishIteration(env, cfg, prompted.ls, prompted.outcome);
      forall l: Loop ensures Failed(env, l, SinkFailed).ls.iteration == l.iteration {
        FailedStays(env, l, SinkFailed);
      }
      var t := EnterTurn(env, cfg, started, entry);
      if t.Again? {
        RequestsBeforeEnd(env, cfg, t.ls.(iteration := t.ls.iteration + 1));
      }
    }
  }

  lemma FailedStays(env: Env, ls: Loop, error: DriveError)
    ensures Failed(env, ls, error).ls.iteration == ls.iteration
  {
  }

  lemma FailedShape(env: Env, ls: Loop, error: DriveError)
    ensures Failed(env, ls, error).status == J.ExecutionFailed && Failed(env, ls, error).suspension.None?
    ensures Failed(env, ls, error).error == error
  {
  }

  lemma GuardsHeld(env: Env, cfg: Config, ls: Loop, s: Suspension, decisions: seq<ToolResumeDecision>, prompt: Option<Message>)
    requires !Refused(ResumePrepared(env, cfg, ls, s, decisions, prompt))
    ensures ResumeGuards(env, cfg, ls.messages, s)
  {
    hide ResumeGuards;
  }

  lemma OwnBounds(cfg: Config, ls: Loop)
    requires Bounded(cfg, 0, ls)
    ensures Bounded(cfg, ls.usage.counters.toolCalls, ls)
  {
  }

  /** Requests keep rising, bounds keep holding and every stop is settled, over any number of resumptions. */
  lemma {:induction false} ResumesSound(cfg: Config, system: string, d: Drive, legs: seq<Leg>, from: int)
    requires Settled(cfg, d) && Seeded(system, d.end.ls.messages) && GoodLegs(legs)
    requires PairedRequests(d.requests, from, cfg.maxIterations) && from <= d.end.ls.iteration + 1
    requires forall i :: 0 <= i < |d.requests| ==> d.requests[i].iteration <= d.end.ls.iteration
    ensures var drives := [d] + Resumes(cfg, system, d, legs);
      && PairedRequests(AllRequests(drives), from, cfg.maxIterations)
      && (forall i :: 0 <= i < |drives| ==> Settled(cfg, drives[i]))
      && (forall i :: 0 <= i < |drives| - 1 ==> drives[i].end.suspension.Some?)
    decreases legs
  {
    hide Settled, Seeded, PairedRequests, ResumeDrive, WellBehaved, Inert, Refused;
    var rest := Resumes(cfg, system, d, legs);
    if legs == [] || d.end.suspension.None? {
      LastRequests(d);
    } else {
      var leg := legs[0];
      assert GoodLegs(legs[1..]) && GoodLegs([leg]);
      var resumed := ResumeDrive(leg.env, cfg, system, d.end.ls.messages, d.end.suspension.value, leg.decisions, leg.prompt);
      if resumed.None? || Refused(resumed.value) {
        ResumesSound(cfg, system, d, legs[1..], from);
      } else {
        var next := resumed.value;
        LegSound(cfg, system, d, leg, next);
        AcceptedLeg(cfg, system, d, legs, next, from);
      }
    }
  }

  lemma {:induction false} AcceptedLeg(cfg: Config, system: string, d: Drive, legs: seq<Leg>, next: Drive, from: int)
    requires legs != [] && Settled(cfg, d) && d.end.suspension.Some? && GoodLegs(legs[1..])
    requires ResumeDrive(legs[0].env, cfg, system, d.end.ls.messages, d.end.suspension.value, legs[0].decisions, legs[0].prompt) == Some(next)
    requires !Refused(next) && Settled(cfg, next) && Seeded(system, next.end.ls.messages)
    requires PairedRequests(d.requests, from, cfg.maxIterations) && from <= d.end.ls.iteration + 1
    requires forall i :: 0 <= i < |d.requests| ==> d.requests[i].iteration <= d.end.ls.iteration
    requires PairedRequests(next.requests, d.end.ls.iteration + 1, cfg.maxIterations)
    requires forall i :: 0 <= i < |next.requests| ==> next.requests[i].iteration <= next.end.ls.iteration
    requires next.end.suspension.Some? ==> d.end.ls.iteration <= next.end.ls.iteration
    ensures var drives := [d] + Resumes(cfg, system, d, legs);
      && PairedRequests(AllRequests(drives), from, cfg.maxIterations)
      && (forall i :: 0 <= i < |drives| ==> Settled(cfg, drives[i]))
      && (forall i :: 0 <= i < |drives| - 1 ==> drives[i].end.suspension.Some?)
    decreases legs, 0
  {
    hide Settled, Seeded, PairedRequests, ResumeDrive, WellBehaved, Inert, Refused;
    var later := Resumes(cfg, system, next, legs[1..]);
    var middle := d.end.ls.iteration + 1;
    var drives := [d] + Resumes(cfg, system, d, legs);
    assert drives == [d, next] + later;
    assert drives[1..] == [next] + later;
    if next.end.suspension.Some? {
      ResumesSound(cfg, system, next, legs[1..], middle);
    } else {
      assert later == [];
      LastRequests(next);
      assert [next] + later == [next];
    }
    RequestsJoin(d.requests, AllRequests([next] + later), from, middle, cfg.maxIterations);
    forall i | 0 <= i < |drives| ensures Settled(cfg, drives[i]) && (i < |drives| - 1 ==> drives[i].end.suspension.Some?) {
      if i > 0 {
        assert drives[i] == ([next] + later)[i - 1];
      }
    }
  }

  lemma LastRequests(d: Drive)
    ensures AllRequests([d]) == d.requests && [d] + [] == [d]
  {
    assert AllRequests([d][1..]) == [];
    assert d.requests + [] == d.requests;
  }

  /**
   * A run from its start through all its resumptions: model requests at strictly rising iterations below the maximum, each
   * on a fully paired transcript; finished drives fully paired, suspended ones waiting on exactly their last calls; executed
   * tool calls within the limit, retries within every tool's budget and summing to the total.
   */
  lemma ChainSound(env: Env, cfg: Config, system: string, mode: InputMode, prompt: Option<Message>, history: Transcript,
                   d: Drive, legs: seq<Leg>)
    requires WellBehaved(env) && (prompt.Some? ==> Inert(prompt.value)) && GoodLegs(legs)
    requires StartDrive(env, cfg, system, mode, prompt, history) == Some(d)
    ensures var drives := [d] + Resumes(cfg, system, d, legs);
      && PairedRequests(AllRequests(drives), 0, cfg.maxIterations)
      && (forall i :: 0 <= i < |drives| ==> Settled(cfg, drives[i]))
      && (forall i :: 0 <= i < |drives| - 1 ==> drives[i].end.suspension.Some?)
  {
    hide DriveLoop, Kept, Settled, PairedRequests, WellBehaved, Inert, PairedEnd, Bounded, FullyPaired, ValidInput, Inserted, HasSystem, Seeded,
      Resumes;
    StartPairs(env, cfg, system, mode, prompt, history);
    StartKept(env, cfg, system, mode, prompt, history);
    var ls := Prepared(system, history, prompt);
    KeptBounds(env, cfg, ls.messages, ZeroUsage, d.end.ls);
    PairedSettles(env, cfg, d);
    PreparedSeeded(system, history, prompt);
    SeededStays(system, ls.messages, d.end.ls.messages);
    LoopRequestsBeforeEnd(env, cfg, ls, Fresh);
    if ls.messages != [] {
      LoopRequestsBeforeEnd(env, cfg, ls, Turn(ls.messages[|ls.messages| - 1], None, None));
    }
    StartedBeforeEnd(env, cfg, system, mode, prompt, history, d);
    ResumesSound(cfg, system, d, legs, 0);
  }

  lemma StartedBeforeEnd(env: Env, cfg: Config, system: string, mode: InputMode, prompt: Option<Message>, history: Transcript, d: Drive)
    requires StartDrive(env, cfg, system, mode, prompt, history) == Some(d)
    ensures forall i :: 0 <= i < |d.requests| ==> d.requests[i].iteration <= d.end.ls.iteration
  {
    hide DriveLoop, Inserted, Run;
    var ls := Prepared(system, history, prompt);
    LoopRequestsBeforeEnd(env, cfg, ls, Fresh);
    if ls.messages != [] {
      LoopRequestsBeforeEnd(env, cfg, ls, Turn(ls.messages[|ls.messages| - 1], None, None));
    }
  }

  lemma PreparedSeeded(system: string, history: Transcript, prompt: Option<Message>)
    ensures Seeded(system, Prepared(system, history, prompt).messages)
  {
    var messages := Prepared(system, history, prompt).messages;
    if HasSystem(history) {
      var i :| 0 <= i < |history| && history[i].role == RoleSystem;
      assert messages[i] == history[i];
    } else if system != "" {
      assert messages[0].role == RoleSystem;
    }
  }

  /** Nothing can be driven over an open frontier: only a resumption closes it. */
  lemma OpenRefusesEveryInput(messages: Transcript, mode: InputMode, prompt: Option<Message>)
    requires Accepted(messages) && !FullyPaired(messages)
    ensures !ValidInput(mode, prompt, messages)
  {
    RunKeepsShape(Closed, messages);
  }

  /**
   * Usable decisions on a sound suspension: the resumption fails for a reason other than validation if and only if the calls to execute
   * pass the tool-call limit, or hold a suspendable tool beside others. It then ends the run with the frontier as open as it was, and no
   * start, continuation or recovery is accepted on that transcript any more.
   */
  lemma LimitStrandsFrontier(env: Env, cfg: Config, ls: Loop, s: Suspension, decisions: seq<ToolResumeDecision>, prompt: Option<Message>,
                             executable: seq<ToolUse>, sorted: Sorted)
    requires ResumeGuards(env, cfg, ls.messages, s) && s.payload.ToolPayload?
    requires var tool := s.payload.tool;
      && ExecutableCalls(cfg, tool.calls, tool.executableIds) == Some(executable)
      && |decisions| == |executable| && DistinctDecisions(decisions)
      && SortDecisions(cfg, executable, tool.handlerSuspension, decisions) == Some(sorted)
    ensures var r := ResolveTools(env, cfg, Restored(ls.messages, s.payload.tool), s.payload.tool, decisions);
      && (r == ResolveFailed(false) <==>
            && sorted.toExecute != []
            && (!WithinToolLimit(cfg, s.payload.tool.usage, |sorted.toExecute|) || !SuspendableAlone(cfg, executable, sorted.toExecute)))
      && (r == ResolveFailed(false) ==>
            var end := ResumePrepared(env, cfg, ls, s, decisions, prompt).end;
            && end.status == J.ExecutionFailed && end.suspension.None? && end.ls.messages == ls.messages
            && forall mode: InputMode, p: Option<Message> :: !ValidInput(mode, p, end.ls.messages))
  {
    hide Admit, NewSuspension, SuspendableAlone, WithinToolLimit, SortDecisions, ExecutableCalls, ResumeGuards, DriveLoop, ValidInput,
      DistinctDecisions;
    OpenGuards(env, cfg, ls.messages, s);
    forall mode: InputMode, p: Option<Message> ensures !ValidInput(mode, p, ls.messages) {
      OpenRefusesEveryInput(ls.messages, mode, p);
    }
  }

  lemma OpenGuards(env: Env, cfg: Config, messages: Transcript, s: Suspension)
    requires ResumeGuards(env, cfg, messages, s)
    ensures Accepted(messages) && !FullyPaired(messages)
  {
  }

  // ---------------------------------------------------------------------
  // Such a batch.

  const FirstCall := ToolUse("a", "t", "{}")
  const SecondCall := ToolUse("b", "t", "{}")
  const TwoCalls := Message(RoleAssistant, [Use(FirstCall), Use(SecondCall)])

  lemma TwoCallsOpen()
    ensures GetToolUses(TwoCalls) == [FirstCall, SecondCall] && Run(Closed, [TwoCalls]) == Some(Frontier([FirstCall, SecondCall], {}))
  {
    assert TwoCalls.content[1..] == [Use(SecondCall)] && [Use(SecondCall)][1..] == [];
    assert PartUses([]) == [] && PartResults([]) == [];
    assert PartUses([Use(SecondCall)]) == [SecondCall] + PartUses([]) && PartResults([Use(SecondCall)]) == [] + PartResults([]);
    assert PartUses(TwoCalls.content) == [FirstCall] + PartUses([Use(SecondCall)]);
    assert PartResults(TwoCalls.content) == [] + PartResults([Use(SecondCall)]);
    assert "a"[0] != "b"[0];
    assert DistinctIds([FirstCall, SecondCall]) && GetToolResults(TwoCalls) == [] && GetToolUses(TwoCalls) == [FirstCall, SecondCall];
    assert OpenCalls(Closed, TwoCalls) == Some(Frontier([FirstCall, SecondCall], {}));
    assert Advance(Closed, TwoCalls) == Some(Frontier([FirstCall, SecondCall], {}));
    assert [TwoCalls][1..] == [];
  }

  /**
   * The gate suspends a batch of two calls although one tool call is allowed: the limit is checked only when they are to execute. Approving
   * both then ends the run with both calls open, and nothing can be driven on that transcript any more.
   */
  lemma TwoCallsStrand(env: Env, cfg: Config, ls: Loop, deferral: Deferral, s: Suspension)
    requires ls.messages == [TwoCalls] && ls.usage.counters.toolCalls == 0 && cfg.outputs == {} && "t" in cfg.registered
    requires cfg.limits.Some? && cfg.limits.value.maxToolCalls == Some(1)
    requires NewSuspension(env, cfg, ls, [FirstCall, SecondCall], [FirstCall, SecondCall], deferral, false) == Some(s)
    requires s.id != "" && s.frontierHash != ""
    ensures var end := ResumePrepared(env, cfg, ls, s, ExecuteAll([FirstCall, SecondCall]), None).end;
      && end.status == J.ExecutionFailed && end.suspension.None? && end.ls.messages == [TwoCalls]
      && forall mode: InputMode, p: Option<Message> :: !ValidInput(mode, p, end.ls.messages)
  {
    hide Admit, SuspendableAlone, SortDecisions, ExecutableCalls, DriveLoop, ValidInput, DistinctDecisions, ResolveTools, NewSuspension, Run,
      GetToolUses, ResumeGuards;
    var calls := [FirstCall, SecondCall];
    TwoCallsOpen();
    EnvelopeRoundTrip(env, cfg, ls, calls, calls, deferral, s);
    EnvelopeNames(env, cfg, ls, calls, deferral, s);
    NamesExecutable(cfg, calls, calls);
    SortsToAll(cfg, calls, 2);
    assert calls[..2] == calls;
    AllDistinct(calls);
    LimitStrandsFrontier(env, cfg, ls, s, ExecuteAll(calls), None, calls, Sorted(map[], calls));
  }

  lemma EnvelopeNames(env: Env, cfg: Config, ls: Loop, calls: seq<ToolUse>, deferral: Deferral, s: Suspension)
    requires NewSuspension(env, cfg, ls, calls, calls, deferral, false) == Some(s)
    ensures s.payload.ToolPayload? && var tool := s.payload.tool;
      tool.calls == calls && tool.executableIds == CallIds(calls) && !tool.handlerSuspension && tool.usage == ls.usage
  {
  }
}
