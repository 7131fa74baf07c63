/** Re-entering a suspended batch (execution_loop.go): the guards on the envelope and the resolution of its calls. */
module Resuming {
  import opened Messages
  import opened Pairing
  import opened Usages
  import opened Suspensions
  import opened ToolControl
  import opened Scheduler
  import opened ResumePlan
  import opened Turns
  import J = Journals

  /** Errors a session answers by pausing again (validation), and others, which end the run. */
  datatype Resolved = ResolveFailed(validation: bool) | ResolvedAs(stage: Stage)

  function DecisionOf(decisions: seq<ToolResumeDecision>, id: string): Option<ToolResumeDecision> {
    if decisions == [] then None
    else if decisions[0].callId == id then Some(decisions[0])
    else DecisionOf(decisions[1..], id)
  }

  predicate DistinctDecisions(decisions: seq<ToolResumeDecision>) {
    && (forall i :: 0 <= i < |decisions| ==> decisions[i].callId != "")
    && (forall i, j :: 0 <= i < j < |decisions| ==> decisions[i].callId != decisions[j].callId)
  }

  /** The executable calls an envelope names; None when one is unknown or an output tool. */
  function ExecutableCalls(cfg: Config, calls: seq<ToolUse>, ids: seq<string>): Option<seq<ToolUse>>
    decreases ids
  {
    if ids == [] then Some([])
    else
      match CallNamed(calls, ids[0])
      case None => None
      case Some(call) =>
        if call.name in cfg.outputs then None
        else match ExecutableCalls(cfg, calls, ids[1..]) case None => None case Some(rest) => Some([call] + rest)
  }

  /** Operator-supplied results, and the calls left to execute. */
  datatype Sorted = Sorted(results: map<string, Executed>, toExecute: seq<ToolUse>)

  /** An execute decision is usable: registered tool, handler marker kept, and a payload only for a handler suspension. */
  predicate ExecuteUsable(cfg: Config, call: ToolUse, handler: bool, d: ToolResumeDecision) {
    && d.result.None? && call.name in cfg.registered
    && (if handler then call.name in cfg.suspendable else d.payload == "")
  }

  predicate ReturnUsable(call: ToolUse, d: ToolResumeDecision) {
    d.payload == "" && d.input.None? && d.result.Some? && Identified(call, d.result.value)
  }

  /** Override arguments are taken as already validated against the tool's schema. */
  function Overridden(call: ToolUse, d: ToolResumeDecision): ToolUse {
    match d.input case None => call case Some(input) => call.(input := input)
  }

  function SortDecisions(cfg: Config, executable: seq<ToolUse>, handler: bool, decisions: seq<ToolResumeDecision>): Option<Sorted>
    decreases executable
  {
    if executable == [] then Some(Sorted(map[], []))
    else
      var last := executable[|executable| - 1];
      match (SortDecisions(cfg, executable[..|executable| - 1], handler, decisions), DecisionOf(decisions, last.id))
      case (Some(before), Some(d)) =>
        (match d.action
         case ResumeExecute =>
           if ExecuteUsable(cfg, last, handler, d) then Some(before.(toExecute := before.toExecute + [Overridden(last, d)])) else None
         case ResumeReturn =>
           if ReturnUsable(last, d) then Some(before.(results := before.results[last.id := d.result.value])) else None
         case ResumeInvalid => None)
      case _ => None
  }

  /** resolveSuspendedTools. */
  function ResolveTools(env: Env, cfg: Config, ls: Loop, tool: ToolSuspension, decisions: seq<ToolResumeDecision>): Resolved {
    match ExecutableCalls(cfg, tool.calls, tool.executableIds)
    case None => ResolveFailed(true)
    case Some(executable) =>
      if |decisions| != |executable| || !DistinctDecisions(decisions) then ResolveFailed(true)
      else
        match SortDecisions(cfg, executable, tool.handlerSuspension, decisions)
        case None => ResolveFailed(true)
        case Some(sorted) =>
          var s := Stage(ls, NoRegular.(results := sorted.results));
          if sorted.toExecute == [] then ResolvedAs(s)
          else if !WithinToolLimit(cfg, ls.usage, |sorted.toExecute|) then ResolveFailed(false)
          else if !SuspendableAlone(cfg, executable, sorted.toExecute) then ResolveFailed(false)
          else
            match Admit(env, cfg, s, sorted.toExecute, tool.handlerSuspension)
            case Ran(stage) => ResolvedAs(stage)
            case Asked(asked, deferral) =>
              match NewSuspension(env, cfg, asked, tool.calls, sorted.toExecute, deferral, true)
              case None => ResolveFailed(true)
              case Some(suspension) => ResolvedAs(Stage(asked, NoRegular.(suspension := Some(suspension))))
  }

  /** The guards resume runs before it touches any handler. */
  predicate ResumeGuards(env: Env, cfg: Config, messages: Transcript, s: Suspension) {
    match Run(Closed, messages)
    case None => false
    case Some(f) =>
      && f.calls != [] && s.id != "" && s.frontierHash != "" && s.frontierHash == env.hash(messages, f.calls)
      && s.payload.ToolPayload?
      && var tool := s.payload.tool;
         && tool.version == 1 && tool.suspensionId != "" && tool.calls != [] && tool.executableIds != []
         && tool.suspensionId == s.id && tool.deferral.kind == s.kind
         && tool.fingerprint == cfg.fingerprint && tool.endStrategy == cfg.endStrategy && tool.calls == f.calls
  }

  /** The loop state an envelope restores over a history. */
  function Restored(messages: Transcript, tool: ToolSuspension): Loop {
    Loop(messages, tool.iteration, tool.usage, tool.retryCounts, tool.totalRetries, tool.validationRetries, tool.lastFinishReason, [], [])
  }

  // ---------------------------------------------------------------------
  // The event log does not influence the loop, as long as the sink accepts everything.

  ghost predicate Reliable(env: Env) {
    forall k: nat, e: J.Event :: env.sink(k, e)
  }

  /** Loop states that differ at most in what has been emitted and asked. */
  predicate Alike(a: Loop, b: Loop) {
    a.(emitted := [], hooks := []) == b.(emitted := [], hooks := [])
  }

  predicate AlikeStages(a: Stage, b: Stage) {
    Alike(a.ls, b.ls) && a.regular == b.regular
  }

  lemma {:induction false} StartedAlike(env: Env, a: Loop, b: Loop, calls: seq<ToolUse>)
    requires Reliable(env) && Alike(a, b)
    ensures EmitStarted(env, a, calls).1 && EmitStarted(env, b, calls).1
    ensures Alike(EmitStarted(env, a, calls).0, EmitStarted(env, b, calls).0) && Alike(EmitStarted(env, a, calls).0, a)
    decreases calls
  {
    if calls != [] {
      StartedAlike(env, Emit(env, a, J.ToolStarted(calls[0])).0, Emit(env, b, J.ToolStarted(calls[0])).0, calls[1..]);
    }
  }

  lemma {:induction false} ResultsAlike(env: Env, a: Loop, b: Loop, results: seq<Executed>)
    requires Reliable(env) && Alike(a, b)
    ensures EmitResults(env, a, results).1 && EmitResults(env, b, results).1
    ensures Alike(EmitResults(env, a, results).0, EmitResults(env, b, results).0)
    decreases results
  {
    if results != [] {
      var e := J.ToolResultCommitted(results[0].result);
      ResultsAlike(env, Emit(env, a, e).0, Emit(env, b, e).0, results[1..]);
    }
  }

  lemma {:induction false} TakeAlike(env: Env, cfg: Config, a: Stage, b: Stage, calls: seq<ToolUse>, slots: seq<Settled>)
    requires AlikeStages(a, b) && |slots| == |calls|
    ensures AlikeStages(TakeResults(env, cfg, a, calls, slots), TakeResults(env, cfg, b, calls, slots))
    decreases calls
  {
    if calls != [] {
      TakeAlike(env, cfg, TakeResult(env, cfg, a, calls[0], slots[0].result), TakeResult(env, cfg, b, calls[0], slots[0].result),
                calls[1..], slots[1..]);
    }
  }

  predicate AlikeAdmitted(a: Admitted, b: Admitted) {
    match (a, b)
    case (Ran(x), Ran(y)) => AlikeStages(x, y)
    case (Asked(x, d), Asked(y, e)) => Alike(x, y) && d == e
    case _ => false
  }

  lemma SlotsAlike(env: Env, cfg: Config, a: Loop, b: Loop, calls: seq<ToolUse>, resumed: bool)
    requires Alike(a, b)
    ensures Slots(env, cfg, a, calls, resumed) == Slots(env, cfg, b, calls, resumed)
  {
    assert a.iteration == b.iteration && a.retryCounts == b.retryCounts;
  }

  lemma AdmitAlike(env: Env, cfg: Config, a: Stage, b: Stage, calls: seq<ToolUse>, resumed: bool)
    requires Reliable(env) && AlikeStages(a, b)
    ensures AlikeAdmitted(Admit(env, cfg, a, calls, resumed), Admit(env, cfg, b, calls, resumed))
  {
    hide Slots, FirstDeferral, AnyFailed, TakeResults, EmitStarted, Reliable;
    StartedAlike(env, a.ls, b.ls, calls);
    var x, y := EmitStarted(env, a.ls, calls).0, EmitStarted(env, b.ls, calls).0;
    SlotsAlike(env, cfg, x, y, calls, resumed);
    TakeAlike(env, cfg, Stage(x, a.regular), Stage(y, b.regular), calls, Slots(env, cfg, x, calls, resumed));
  }

  lemma JudgeAlike(env: Env, cfg: Config, a: Loop, b: Loop, assistant: Message, calls: seq<ToolUse>, regular: Regular)
    requires Reliable(env) && Alike(a, b)
    ensures var x, y := JudgeTurn(env, cfg, a, assistant, calls, regular), JudgeTurn(env, cfg, b, assistant, calls, regular);
      Alike(x.ls, y.ls) && x.(ls := y.ls) == y
  {
  }

  lemma CompleteAlike(env: Env, cfg: Config, a: Loop, b: Loop, assistant: Message, regular: Regular)
    requires Reliable(env) && Alike(a, b)
    ensures var x, y := CompleteWith(env, cfg, a, assistant, regular), CompleteWith(env, cfg, b, assistant, regular);
      Alike(x.ls, y.ls) && x.outcome == y.outcome
  {
    hide JudgeTurn, TurnResults, OutputIndex, WithVerdict, PartUses;
    if regular.suspension.None? {
      var calls := GetToolUses(assistant);
      JudgeAlike(env, cfg, a, b, assistant, calls, regular);
      var x, y := JudgeTurn(env, cfg, a, assistant, calls, regular), JudgeTurn(env, cfg, b, assistant, calls, regular);
      var results := WithVerdict(TurnResults(cfg, calls, regular), OutputIndex(cfg, calls), x.verdict);
      ResultsAlike(env, x.ls.(messages := x.ls.messages + ResultMessages(results)),
                   y.ls.(messages := y.ls.messages + ResultMessages(results)), results);
    }
  }

  // ---------------------------------------------------------------------
  // Suspension transparency.

  function ExecuteAll(calls: seq<ToolUse>): (decisions: seq<ToolResumeDecision>)
    ensures |decisions| == |calls|
  {
    seq(|calls|, i requires 0 <= i < |calls| => ToolResumeDecision(calls[i].id, ResumeExecute, None, None, ""))
  }

  lemma {:induction false} DecisionOfFirst(decisions: seq<ToolResumeDecision>, i: nat)
    requires i < |decisions| && DistinctDecisions(decisions)
    ensures DecisionOf(decisions, decisions[i].callId) == Some(decisions[i])
    decreases decisions
  {
    if i > 0 {
      DecisionOfFirst(decisions[1..], i - 1);
    }
  }

  lemma {:induction false} SortsToAll(cfg: Config, calls: seq<ToolUse>, n: nat)
    requires DistinctIds(calls) && n <= |calls| && forall i :: 0 <= i < |calls| ==> calls[i].name in cfg.registered
    ensures SortDecisions(cfg, calls[..n], false, ExecuteAll(calls)) == Some(Sorted(map[], calls[..n]))
    decreases n
  {
    if n > 0 {
      SortsToAll(cfg, calls, n - 1);
      assert calls[..n][..n - 1] == calls[..n - 1] && calls[..n] == calls[..n - 1] + [calls[n - 1]];
      DecisionOfFirst(ExecuteAll(calls), n - 1);
    }
  }

  lemma {:induction false} NamesExecutable(cfg: Config, calls: seq<ToolUse>, regular: seq<ToolUse>)
    requires DistinctIds(calls) && forall i :: 0 <= i < |regular| ==> regular[i] in calls && regular[i].name !in cfg.outputs
    ensures ExecutableCalls(cfg, calls, CallIds(regular)) == Some(regular)
    decreases regular
  {
    if regular != [] {
      CallNamedExact(calls, regular[0]);
      assert CallIds(regular)[0] == regular[0].id && CallIds(regular)[1..] == CallIds(regular[1..]);
      NamesExecutable(cfg, calls, regular[1..]);
      assert regular == [regular[0]] + regular[1..];
    }
  }

  lemma {:induction false} RegularMembers(cfg: Config, calls: seq<ToolUse>)
    ensures forall c :: c in RegularCalls(cfg, calls) <==> c in calls && c.name !in cfg.outputs
    ensures DistinctIds(calls) ==> DistinctIds(RegularCalls(cfg, calls))
    decreases calls
  {
    if calls != [] {
      var tail := calls[1..];
      assert calls == [calls[0]] + tail;
      RegularMembers(cfg, tail);
      if DistinctIds(calls) {
        assert DistinctIds(tail);
        var rest := RegularCalls(cfg, tail);
        forall j | 0 <= j < |rest| ensures rest[j].id != calls[0].id {
          assert rest[j] in tail;
          var k :| 0 <= k < |tail| && tail[k] == rest[j];
          assert calls[k + 1] == rest[j];
        }
      }
    }
  }

  lemma {:induction false} ExecutesEverything(calls: seq<ToolUse>)
    ensures Executable(calls, AllowAll(|calls|).calls) == calls
    ensures Returned(NoRegular, calls, AllowAll(|calls|).calls) == NoRegular
    decreases calls
  {
    if calls != [] {
      ExecutesEverything(calls[1..]);
      assert AllowAll(|calls|).calls[1..] == AllowAll(|calls| - 1).calls;
    }
  }

  /** The envelope of a gate suspension passes every guard of resume, and restores the loop it was taken from. */
  lemma EnvelopeRoundTrip(env: Env, cfg: Config, ls: Loop, calls: seq<ToolUse>, regular: seq<ToolUse>, deferral: Deferral, s: Suspension)
    requires Run(Closed, ls.messages) == Some(Frontier(calls, {})) && calls != [] && regular != []
    requires NewSuspension(env, cfg, ls, calls, regular, deferral, false) == Some(s)
    requires s.id != "" && s.frontierHash != ""
    ensures ResumeGuards(env, cfg, ls.messages, s) && Alike(Restored(ls.messages, s.payload.tool), ls)
  {
  }

  /**
   * Suspending a batch at the gate and resuming with "execute" for every call is the same turn as admitting it directly:
   * same transcript, usage, retry counts, iteration and outcome. Tools registered and limits not hit.
   */
  lemma SuspensionTransparent(env: Env, cfg: Config, ls: Loop, assistant: Message, deferral: Deferral, s: Suspension)
    requires Reliable(env) && !cfg.noTools
    requires var calls := GetToolUses(assistant);
      var regular := RegularCalls(cfg, calls);
      && DistinctIds(calls) && calls != [] && regular != []
      && Run(Closed, ls.messages) == Some(Frontier(calls, {}))
      && NewSuspension(env, cfg, ls, calls, regular, deferral, false) == Some(s) && s.id != "" && s.frontierHash != ""
      && (forall i :: 0 <= i < |regular| ==> regular[i].name in cfg.registered)
      && WithinToolLimit(cfg, ls.usage, |regular|) && SuspendableAlone(cfg, regular, regular)
    ensures var calls := GetToolUses(assistant);
      var regular := RegularCalls(cfg, calls);
      var direct := RunAdmitted(env, cfg, Stage(ls, NoRegular), calls, regular, regular);
      var resumed := ResolveTools(env, cfg, Restored(ls.messages, s.payload.tool), s.payload.tool, ExecuteAll(regular));
      && ResumeGuards(env, cfg, ls.messages, s)
      && resumed.ResolvedAs? && AlikeStages(resumed.stage, direct)
      && var x, y := CompleteWith(env, cfg, resumed.stage.ls, assistant, resumed.stage.regular),
                     CompleteWith(env, cfg, direct.ls, assistant, direct.regular);
         Alike(x.ls, y.ls) && x.outcome == y.outcome
  {
    var calls := GetToolUses(assistant);
    var regular := RegularCalls(cfg, calls);
    var tool := s.payload.tool;
    hide GetToolUses, RegularCalls, Admit, CompleteWith, WithinToolLimit, SuspendableAlone, Alike;
    EnvelopeRoundTrip(env, cfg, ls, calls, regular, deferral, s);
    ResolvesLikeDirect(env, cfg, ls, calls, regular, s);
    var direct := RunAdmitted(env, cfg, Stage(ls, NoRegular), calls, regular, regular);
    var resumed := ResolveTools(env, cfg, Restored(ls.messages, tool), tool, ExecuteAll(regular));
    CompleteAlike(env, cfg, resumed.stage.ls, direct.ls, assistant, direct.regular);
  }

  lemma ResolvesLikeDirect(env: Env, cfg: Config, ls: Loop, calls: seq<ToolUse>, regular: seq<ToolUse>, s: Suspension)
    requires Reliable(env) && !cfg.noTools && regular == RegularCalls(cfg, calls)
    requires DistinctIds(calls) && regular != [] && s.payload.ToolPayload?
    requires Run(Closed, ls.messages) == Some(Frontier(calls, {}))
    requires Alike(Restored(ls.messages, s.payload.tool), ls)
    requires var tool := s.payload.tool; tool.calls == calls && tool.executableIds == CallIds(regular) && !tool.handlerSuspension
    requires forall i :: 0 <= i < |regular| ==> regular[i].name in cfg.registered
    requires WithinToolLimit(cfg, ls.usage, |regular|) && SuspendableAlone(cfg, regular, regular)
    ensures var resumed := ResolveTools(env, cfg, Restored(ls.messages, s.payload.tool), s.payload.tool, ExecuteAll(regular));
      resumed.ResolvedAs? && AlikeStages(resumed.stage, RunAdmitted(env, cfg, Stage(ls, NoRegular), calls, regular, regular))
  {
    hide ResolveTools, RunAdmitted, Admit, WithinToolLimit, SuspendableAlone, EmitStarted, RegularCalls, Run, CallNamed, Reliable;
    var tool := s.payload.tool;
    var start := Restored(ls.messages, tool);
    RegularMembers(cfg, calls);
    forall i | 0 <= i < |regular| ensures regular[i] in calls && regular[i].name !in cfg.outputs { assert regular[i] in regular; }
    ResolveUnfolds(env, cfg, start, ls, tool, regular);
    AdmitAlike(env, cfg, Stage(start, NoRegular), Stage(ls, NoRegular), regular, false);
    AdmitKeepsTranscript(env, cfg, Stage(start, NoRegular), regular, false);
    AdmitKeepsTranscript(env, cfg, Stage(ls, NoRegular), regular, false);
    HandlerAsksAlike(env, cfg, start, ls, calls, regular);
  }

  /** With every call executed, resolving is admitting the batch on the restored loop. */
  lemma ResolveUnfolds(env: Env, cfg: Config, start: Loop, ls: Loop, tool: ToolSuspension, regular: seq<ToolUse>)
    requires !cfg.noTools && regular != [] && Alike(start, ls)
    requires DistinctIds(tool.calls) && DistinctIds(regular) && tool.executableIds == CallIds(regular) && !tool.handlerSuspension
    requires forall i :: 0 <= i < |regular| ==> regular[i] in tool.calls && regular[i].name !in cfg.outputs && regular[i].name in cfg.registered
    requires WithinToolLimit(cfg, ls.usage, |regular|) && SuspendableAlone(cfg, regular, regular)
    ensures ResolveTools(env, cfg, start, tool, ExecuteAll(regular)) ==
      (match Admit(env, cfg, Stage(start, NoRegular), regular, false)
       case Ran(stage) => ResolvedAs(stage)
       case Asked(asked, deferral) =>
         match NewSuspension(env, cfg, asked, tool.calls, regular, deferral, true)
         case None => ResolveFailed(true)
         case Some(suspension) => ResolvedAs(Stage(asked, NoRegular.(suspension := Some(suspension)))))
    ensures RunAdmitted(env, cfg, Stage(ls, NoRegular), tool.calls, regular, regular) ==
      (match Admit(env, cfg, Stage(ls, NoRegular), regular, false)
       case Ran(stage) => stage
       case Asked(asked, deferral) =>
         match NewSuspension(env, cfg, asked, tool.calls, regular, deferral, true)
         case None => Failing(Stage(asked, NoRegular), regular, "Unable to persist tool suspension.")
         case Some(suspension) => Stage(asked, NoRegular.(suspension := Some(suspension))))
  {
    hide Admit, SuspendableAlone, NewSuspension, Failing, CallNamed, SortDecisions, ExecutableCalls, CallIds;
    NamesExecutable(cfg, tool.calls, regular);
    SortsToAll(cfg, regular, |regular|);
    assert regular[..|regular|] == regular;
    AllDistinct(regular);
  }

  lemma AllDistinct(calls: seq<ToolUse>)
    requires DistinctIds(calls)
    ensures DistinctDecisions(ExecuteAll(calls))
  {
  }

  /** A handler that asks to suspend again asks the same on both routes, and its envelope is the same. */
  lemma HandlerAsksAlike(env: Env, cfg: Config, start: Loop, ls: Loop, calls: seq<ToolUse>, regular: seq<ToolUse>)
    requires Alike(start, ls) && Run(Closed, ls.messages).Some?
    requires AlikeAdmitted(Admit(env, cfg, Stage(start, NoRegular), regular, false), Admit(env, cfg, Stage(ls, NoRegular), regular, false))
    requires Admit(env, cfg, Stage(ls, NoRegular), regular, false).Asked? ==> Alike(Admit(env, cfg, Stage(ls, NoRegular), regular, false).ls, ls)
    ensures var x, y := Admit(env, cfg, Stage(start, NoRegular), regular, false), Admit(env, cfg, Stage(ls, NoRegular), regular, false);
      x.Asked? ==> NewSuspension(env, cfg, x.ls, calls, regular, x.deferral, true) == NewSuspension(env, cfg, y.ls, calls, regular, y.deferral, true)
                   && NewSuspension(env, cfg, y.ls, calls, regular, y.deferral, true).Some?
  {
    hide Admit;
  }

  lemma {:induction false} StartedKeeps(env: Env, ls: Loop, calls: seq<ToolUse>)
    ensures Alike(EmitStarted(env, ls, calls).0, ls)
    decreases calls
  {
    if calls != [] && Emit(env, ls, J.ToolStarted(calls[0])).1 {
      StartedKeeps(env, Emit(env, ls, J.ToolStarted(calls[0])).0, calls[1..]);
    }
  }

  /** A deferral leaves the loop as it was, but for the events. */
  lemma AdmitKeepsTranscript(env: Env, cfg: Config, s: Stage, calls: seq<ToolUse>, resumed: bool)
    ensures Admit(env, cfg, s, calls, resumed).Asked? ==> Alike(Admit(env, cfg, s, calls, resumed).ls, s.ls)
  {
    StartedKeeps(env, s.ls, calls);
  }

  /** Over an accepted transcript a handler's suspension can always be persisted. */
  lemma AskedPersists(env: Env, cfg: Config, s: Stage, calls: seq<ToolUse>, toExecute: seq<ToolUse>, resumed: bool)
    ensures var admitted := Admit(env, cfg, s, toExecute, resumed);
      Accepted(s.ls.messages) && admitted.Asked? ==> NewSuspension(env, cfg, admitted.ls, calls, toExecute, admitted.deferral, true).Some?
  {
    hide Admit;
    AdmitKeepsTranscript(env, cfg, s, toExecute, resumed);
  }
}
