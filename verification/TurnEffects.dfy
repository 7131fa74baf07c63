/** What one turn runs and answers: the gate's decision carried out, the operator's decisions carried out. */
module TurnEffects {
  import opened Messages
  import opened Pairing
  import opened Usages
  import opened Suspensions
  import opened Selections
  import opened ToolControl
  import opened Scheduler
  import opened ResumePlan
  import opened Turns
  import opened Resuming
  import opened TurnLaws
  import opened Effects
  import J = Journals

  // ---------------------------------------------------------------------
  // Which calls are whose.

  /** The calls of tools that are not output tools. */
  function Regulars(cfg: Config, calls: seq<ToolUse>): set<nat> {
    set i: nat | i < |calls| && calls[i].name !in cfg.outputs
  }

  predicate HasOutput(cfg: Config, calls: seq<ToolUse>) {
    exists i :: 0 <= i < |calls| && calls[i].name in cfg.outputs
  }

  /** An output call ends the batch before anything in it runs. */
  predicate EndsEarly(cfg: Config, calls: seq<ToolUse>) {
    HasOutput(cfg, calls) && cfg.endStrategy == Early
  }

  /** The calls the decision lets run. */
  function Executing(decision: BatchDecision): set<nat> {
    OfKind(decision.calls, DispositionExecute)
  }

  function OfKind(dispositions: seq<Disposition>, kind: DispositionKind): set<nat> {
    set i: nat | i < |dispositions| && dispositions[i].kind == kind
  }

  lemma {:induction false} RegularSelects(cfg: Config, calls: seq<ToolUse>)
    ensures Selects(RegularCalls(cfg, calls), calls, Regulars(cfg, calls))
    decreases calls
  {
    if calls == [] {
      SelectsNothing<ToolUse>();
      assert Regulars(cfg, calls) == {};
    } else {
      var head, tail := calls[0], calls[1..];
      RegularSelects(cfg, tail);
      SelectsCons(RegularCalls(cfg, tail), tail, Regulars(cfg, tail), head);
      assert calls == [head] + tail;
      RegularsCons(cfg, calls);
      hide Regulars;
    }
  }

  lemma RegularsCons(cfg: Config, calls: seq<ToolUse>)
    requires calls != []
    ensures Regulars(cfg, calls) == Shifted(Regulars(cfg, calls[1..])) + (if calls[0].name in cfg.outputs then {} else {0})
  {
    var tail := calls[1..];
    forall i | i in Regulars(cfg, calls) && i > 0 ensures i - 1 in Regulars(cfg, tail) {
      assert calls[i] == tail[i - 1];
    }
    forall i | i in Regulars(cfg, tail) ensures i + 1 in Regulars(cfg, calls) {
      assert calls[i + 1] == tail[i];
    }
  }

  lemma {:induction false} ExecutableSelects(calls: seq<ToolUse>, dispositions: seq<Disposition>)
    requires |calls| == |dispositions|
    ensures Selects(Executable(calls, dispositions), calls, OfKind(dispositions, DispositionExecute))
    decreases calls
  {
    if calls == [] {
      SelectsNothing<ToolUse>();
      assert OfKind(dispositions, DispositionExecute) == {};
    } else {
      var head, tail, rest := calls[0], calls[1..], dispositions[1..];
      ExecutableSelects(tail, rest);
      SelectsCons(Executable(tail, rest), tail, OfKind(rest, DispositionExecute), head);
      assert calls == [head] + tail;
      KindsCons(dispositions, DispositionExecute);
    }
  }

  lemma KindsCons(dispositions: seq<Disposition>, kind: DispositionKind)
    requires dispositions != []
    ensures OfKind(dispositions, kind) == Shifted(OfKind(dispositions[1..], kind)) + (if dispositions[0].kind == kind then {0} else {})
  {
    var rest := dispositions[1..];
    forall i | i in OfKind(dispositions, kind) && i > 0 ensures i - 1 in OfKind(rest, kind) {
      assert dispositions[i] == rest[i - 1];
    }
    forall i | i in OfKind(rest, kind) ensures i + 1 in OfKind(dispositions, kind) {
      assert dispositions[i + 1] == rest[i];
    }
  }

  // ---------------------------------------------------------------------
  // Results given without running.

  /** What a disposition leaves recorded for its call: the result it returns, or what was there before. */
  predicate Stands(call: ToolUse, d: Disposition, before: map<string, Executed>, after: map<string, Executed>) {
    if d.kind == DispositionReturn && d.result.Some? then call.id in after && after[call.id] == d.result.value
    else (call.id in after <==> call.id in before) && (call.id in before ==> after[call.id] == before[call.id])
  }

  /** Every returned call has the result the gate gave it; what stood for other calls stands. */
  ghost predicate ReturnsStand(calls: seq<ToolUse>, dispositions: seq<Disposition>, before: map<string, Executed>, after: map<string, Executed>)
    requires |calls| == |dispositions|
  {
    (forall p :: 0 <= p < |calls| ==> Stands(calls[p], dispositions[p], before, after)) && Elsewhere(calls, before, after)
  }

  predicate AnyContinues(dispositions: seq<Disposition>) {
    exists p :: 0 <= p < |dispositions| && dispositions[p].continues
  }

  lemma {:induction false} ReturnedStands(s: Regular, calls: seq<ToolUse>, dispositions: seq<Disposition>)
    requires |calls| == |dispositions| && DistinctIds(calls)
    ensures var after := Returned(s, calls, dispositions);
      && ReturnsStand(calls, dispositions, s.results, after.results)
      && after.suspension == s.suspension && after.fatal == s.fatal
      && (after.continues <==> s.continues || AnyContinues(dispositions))
    decreases calls
  {
    if calls == [] {
      NamesNothing(s.results);
    } else {
      var d := dispositions[0];
      var next := s.(continues := s.continues || d.continues,
                     results := if d.kind == DispositionReturn && d.result.Some? then s.results[calls[0].id := d.result.value] else s.results);
      ReturnedStands(next, calls[1..], dispositions[1..]);
      var after := Returned(s, calls, dispositions);
      ReturnsCons(calls, dispositions, s.results, next.results, after.results);
      ContinuesCons(dispositions);
    }
  }

  lemma ContinuesCons(dispositions: seq<Disposition>)
    requires dispositions != []
    ensures AnyContinues(dispositions) <==> dispositions[0].continues || AnyContinues(dispositions[1..])
  {
    var rest := dispositions[1..];
    if AnyContinues(rest) {
      var p :| 0 <= p < |rest| && rest[p].continues;
      assert dispositions[p + 1].continues;
    }
    assert forall p :: 0 < p < |dispositions| ==> dispositions[p] == rest[p - 1];
  }

  lemma ReturnsCons(calls: seq<ToolUse>, dispositions: seq<Disposition>, before: map<string, Executed>, next: map<string, Executed>,
                    after: map<string, Executed>)
    requires |calls| == |dispositions| && calls != [] && DistinctIds(calls)
    requires var d := dispositions[0];
      next == if d.kind == DispositionReturn && d.result.Some? then before[calls[0].id := d.result.value] else before
    requires ReturnsStand(calls[1..], dispositions[1..], next, after)
    ensures ReturnsStand(calls, dispositions, before, after)
  {
    var rest, kinds := calls[1..], dispositions[1..];
    assert !Names(rest, calls[0].id);
    NamesCons(calls);
    forall p | 0 <= p < |calls| ensures Stands(calls[p], dispositions[p], before, after) {
      if p > 0 {
        assert Stands(rest[p - 1], kinds[p - 1], next, after) && calls[p].id != calls[0].id;
      }
    }
  }

  /** Every call failed. */
  ghost predicate AllFailed(calls: seq<ToolUse>, before: map<string, Executed>, after: map<string, Executed>) {
    && (forall j :: 0 <= j < |calls| ==> calls[j].id in after && IsFailure(calls[j], after[calls[j].id]))
    && Elsewhere(calls, before, after)
  }

  lemma {:induction false} FailAllFails(results: map<string, Executed>, calls: seq<ToolUse>, text: string)
    requires DistinctIds(calls)
    ensures AllFailed(calls, results, FailAll(results, calls, text))
    decreases calls
  {
    hide IsFailure, ErrorResult;
    if calls == [] {
      NamesNothing(results);
    } else {
      var next := results[calls[0].id := ErrorResult(calls[0], text, OtherCause)];
      ErrorFails(calls[0], text);
      FailAllFails(next, calls[1..], text);
      ElsewhereCons(calls, results, next, FailAll(results, calls, text));
      assert forall j :: 0 < j < |calls| ==> calls[j] == calls[1..][j - 1];
    }
  }

  // ---------------------------------------------------------------------
  // The regular stage.

  /** Why a batch the gate lets run does not: no tools, a tool-call limit it would pass, or a tool beside others that may suspend. */
  predicate Refuses(cfg: Config, ls: Loop, regular: seq<ToolUse>, decision: BatchDecision)
    requires |decision.calls| == |regular|
  {
    && Executing(decision) != {}
    && (|| cfg.noTools
        || (cfg.limits.Some? && cfg.limits.value.maxToolCalls.Some?
            && ls.usage.counters.toolCalls + |Executing(decision)| > cfg.limits.value.maxToolCalls.value)
        || exists p :: p in Executing(decision) && regular[p].name in cfg.suspendable && |regular| != 1)
  }

  /** What becomes of one call: a result it is given, an attempt to run it on these arguments, a failure, or a verdict on the turn's output. */
  datatype Fate = Fixed(result: Executed) | Attempted(call: ToolUse) | Lost | Candidate

  /** What the gate makes of one of the calls put to it. */
  function GateFate(env: Env, cfg: Config, ls: Loop, regular: seq<ToolUse>, p: nat): Fate
    requires p < |regular|
  {
    match env.gate(ls.iteration, regular)
    case GateFailed(_) => Lost
    case Decided(decision) =>
      if !Acceptable(regular, decision) then Lost
      else if decision.calls[p].kind.DispositionReturn? then Fixed(decision.calls[p].result.value)
      else if decision.calls[p].kind.DispositionExecute? && !Refuses(cfg, ls, regular, decision) then Attempted(regular[p])
      else Lost
  }

  predicate GateSuspends(env: Env, ls: Loop, regular: seq<ToolUse>) {
    var outcome := env.gate(ls.iteration, regular);
    && outcome.Decided? && Acceptable(regular, outcome.decision)
    && exists p :: 0 <= p < |regular| && outcome.decision.calls[p].kind == DispositionSuspend
  }

  /** The calls that run under the gate's decision: exactly those it lets run, in order, unless it suspends the batch or the driver refuses it. */
  ghost predicate RunsUnder(env: Env, cfg: Config, ls: Loop, regular: seq<ToolUse>, run: seq<ToolUse>) {
    var outcome := env.gate(ls.iteration, regular);
    if outcome.Decided? && Acceptable(regular, outcome.decision) && !GateSuspends(env, ls, regular)
       && !Refuses(cfg, ls, regular, outcome.decision)
    then Selects(run, regular, Executing(outcome.decision))
    else run == []
  }

  /** A suspension of these calls, asked for by the gate or by the handler of one of them. */
  ghost predicate SuspendsAs(env: Env, cfg: Config, ls: Loop, calls: seq<ToolUse>, regular: seq<ToolUse>, run: seq<ToolUse>, s: Suspension) {
    && s.payload.ToolPayload? && s.payload.tool.calls == calls && s.kind == s.payload.tool.deferral.kind
    && var tool := s.payload.tool;
       if GateSuspends(env, ls, regular) then
         !tool.handlerSuspension && tool.executableIds == CallIds(regular)
         && Some(tool.deferral) == env.gate(ls.iteration, regular).decision.deferral
       else
         tool.handlerSuspension && tool.executableIds == CallIds(run)
         && exists j :: 0 <= j < |run| && AsksFor(env, cfg, ls, run[j], false, tool.deferral)
  }

  /** A regular call has met its fate; without an answer where the sink refused the start of the batch. */
  ghost predicate Met(env: Env, cfg: Config, ls: Loop, resumed: bool, fate: Fate, call: ToolUse, all: bool, results: map<string, Executed>) {
    match fate
    case Fixed(result) => call.id in results && results[call.id] == result
    case Attempted(run) =>
      if all then call.id in results && AnswersWith(env, cfg, ls, run, resumed, results[call.id]) else call.id !in results
    case _ => call.id in results ==> IsFailure(call, results[call.id])
  }

  /** The regular stage carries out the gate's decision. `n` calls started before the sink refused one. */
  ghost predicate StageObeys(env: Env, cfg: Config, ls: Loop, calls: seq<ToolUse>, regular: seq<ToolUse>, run: seq<ToolUse>, n: nat, stage: Stage) {
    && Selects(regular, calls, Regulars(cfg, calls)) && n <= |run| && (Reliable(env) ==> n == |run|)
    && if regular == [] then run == [] && stage == Stage(ls, NoRegular)
       else if !env.sink(|ls.emitted|, J.ToolBatchPlanned(regular)) then
         run == [] && stage.ls == ls && stage.regular.suspension.None? && stage.regular.fatal.Some? && !stage.regular.continues
         && AllFailed(regular, map[], stage.regular.results)
       else
         && RunsUnder(env, cfg, ls, regular, run)
         && Adds(ls, stage.ls, [J.ToolBatchPlanned(regular)] + Starts(run[..n]))
         && (stage.regular.suspension.Some? <==> GateSuspends(env, ls, regular) || (n == |run| && SomeAsks(env, cfg, ls, run, false)))
         && (stage.regular.suspension.Some? ==> SuspendsAs(env, cfg, ls, calls, regular, run, stage.regular.suspension.value))
         && (stage.regular.suspension.None? ==>
               && (forall p :: 0 <= p < |regular| ==>
                     Met(env, cfg, ls, false, GateFate(env, cfg, ls, regular, p), regular[p], n == |run|, stage.regular.results))
               && Carries(env, cfg, ls, regular, run, n, stage))
  }

  /** The attempts granted, the calls counted, and what the stage asks of the rest of the turn. */
  ghost predicate Carries(env: Env, cfg: Config, ls: Loop, regular: seq<ToolUse>, run: seq<ToolUse>, n: nat, stage: Stage) {
    var outcome := env.gate(ls.iteration, regular);
    var decided := outcome.Decided? && Acceptable(regular, outcome.decision);
    && ls.totalRetries <= stage.ls.totalRetries
    && (stage.regular.continues <==> (decided && AnyContinues(outcome.decision.calls)) || stage.ls.totalRetries > ls.totalRetries)
    && (!decided || Refuses(cfg, ls, regular, outcome.decision) || n < |run| || SomeBreaks(env, cfg, ls, run, false) ==>
          stage.regular.fatal.Some?)
    && (stage.regular.fatal.Some? ==>
          || !decided || Refuses(cfg, ls, regular, outcome.decision) || n < |run| || SomeBreaks(env, cfg, ls, run, false)
          || exists j :: 0 <= j < |run| && run[j].id in stage.regular.results && IsFailure(run[j], stage.regular.results[run[j].id]))
    && (n == |run| ==>
          && Granted(cfg, ls, stage.ls, run, stage.regular.results)
          && stage.ls.usage.counters == ls.usage.counters.(toolCalls := ls.usage.counters.toolCalls + |run|))
  }

  lemma RefusesExactly(cfg: Config, ls: Loop, regular: seq<ToolUse>, decision: BatchDecision, executable: seq<ToolUse>)
    requires |decision.calls| == |regular| && executable == Executable(regular, decision.calls)
    ensures Selects(executable, regular, Executing(decision)) && |executable| == |Executing(decision)|
    ensures executable == [] <==> Executing(decision) == {}
    ensures Refuses(cfg, ls, regular, decision) <==>
      executable != [] && (cfg.noTools || !WithinToolLimit(cfg, ls.usage, |executable|) || !SuspendableAlone(cfg, regular, executable))
  {
    hide Selects, Executable, OfKind;
    ExecutableSelects(regular, decision.calls);
    SelectsMembers(executable, regular, Executing(decision));
    ExecutableMembers(regular, decision.calls);
    if executable == [] {
      assert Executing(decision) == {};
    } else {
      SuspendableExactly(cfg, regular, decision, executable);
    }
  }

  lemma SuspendableExactly(cfg: Config, regular: seq<ToolUse>, decision: BatchDecision, executable: seq<ToolUse>)
    requires |decision.calls| == |regular| && executable != [] && |executable| <= |regular|
    requires forall i :: i in Executing(decision) ==> i < |regular| && regular[i] in executable
    requires forall j :: 0 <= j < |executable| ==> exists i :: i in Executing(decision) && i < |regular| && regular[i] == executable[j]
    ensures SuspendableAlone(cfg, regular, executable) <==>
      !exists p :: p in Executing(decision) && regular[p].name in cfg.suspendable && |regular| != 1
  {
    hide OfKind;
    if exists p :: p in Executing(decision) && regular[p].name in cfg.suspendable && |regular| != 1 {
      var p :| p in Executing(decision) && regular[p].name in cfg.suspendable && |regular| != 1;
      var j :| 0 <= j < |executable| && executable[j] == regular[p];
      assert !SuspendableAlone(cfg, regular, executable);
    } else {
      forall j | 0 <= j < |executable| && executable[j].name in cfg.suspendable ensures |regular| == 1 && |executable| == 1 {
        var i :| i in Executing(decision) && i < |regular| && regular[i] == executable[j];
      }
    }
  }

  /** Loops at the same iteration, with the same retries, ask the handlers the same. */
  lemma SameAsked(env: Env, cfg: Config, a: Loop, b: Loop)
    requires a.iteration == b.iteration && a.retryCounts == b.retryCounts
    ensures forall call: ToolUse, resumed: bool, r: Executed :: AnswersWith(env, cfg, a, call, resumed, r) <==> AnswersWith(env, cfg, b, call, resumed, r)
    ensures forall call: ToolUse, resumed: bool, d: Deferral :: AsksFor(env, cfg, a, call, resumed, d) <==> AsksFor(env, cfg, b, call, resumed, d)
    ensures forall call: ToolUse, resumed: bool :: Breaks(env, cfg, a, call, resumed) <==> Breaks(env, cfg, b, call, resumed)
  {
    forall call: ToolUse, resumed: bool ensures ReplyTo(env, a, call, resumed) == ReplyTo(env, b, call, resumed) {}
    forall call: ToolUse, resumed: bool, d: Deferral ensures AsksFor(env, cfg, a, call, resumed, d) <==> AsksFor(env, cfg, b, call, resumed, d) {}
    hide AsksFor;
    forall call: ToolUse, resumed: bool ensures Breaks(env, cfg, a, call, resumed) <==> Breaks(env, cfg, b, call, resumed) {}
    hide Breaks;
    forall call: ToolUse, resumed: bool, raw: Executed ensures Gives(env, cfg, a, call, resumed, raw) <==> Gives(env, cfg, b, call, resumed, raw) {}
    hide Gives, Shows;
  }

  /** A decision that neither fails nor suspends. */
  predicate Decisive(env: Env, ls: Loop, regular: seq<ToolUse>, decision: BatchDecision) {
    env.gate(ls.iteration, regular) == Decided(decision) && Acceptable(regular, decision) && !GateSuspends(env, ls, regular)
  }

  ghost predicate PlacesMet(env: Env, cfg: Config, ls: Loop, regular: seq<ToolUse>, all: bool, results: map<string, Executed>) {
    forall p :: 0 <= p < |regular| ==> Met(env, cfg, ls, false, GateFate(env, cfg, ls, regular, p), regular[p], all, results)
  }

  /** The calls that run are none of those returned, and all of those executed. */
  lemma {:induction false} RunApart(regular: seq<ToolUse>, decision: BatchDecision, run: seq<ToolUse>, p: nat)
    requires DistinctIds(regular) && |decision.calls| == |regular| && p < |regular| && Selects(run, regular, Executing(decision))
    ensures decision.calls[p].kind != DispositionExecute ==> !Names(run, regular[p].id)
    ensures decision.calls[p].kind == DispositionExecute ==> exists j :: 0 <= j < |run| && run[j] == regular[p]
  {
    SelectsMembers(run, regular, Executing(decision));
    hide Selects;
    if decision.calls[p].kind == DispositionExecute {
      assert p in Executing(decision);
    } else {
      forall j | 0 <= j < |run| ensures run[j].id != regular[p].id {
        var i :| i in Executing(decision) && i < |regular| && regular[i] == run[j];
        assert regular[i].id != regular[p].id;
      }
    }
  }

  lemma {:induction false} DecisionMet(env: Env, cfg: Config, ls: Loop, regular: seq<ToolUse>, decision: BatchDecision, run: seq<ToolUse>, all: bool,
                    before: map<string, Executed>, after: map<string, Executed>)
    requires DistinctIds(regular) && Decisive(env, ls, regular, decision) && Selects(run, regular, Executing(decision))
    requires ReturnsStand(regular, decision.calls, map[], before) && Elsewhere(run, before, after)
    requires Refuses(cfg, ls, regular, decision) ==>
      forall j :: 0 <= j < |run| ==> run[j].id in after && IsFailure(run[j], after[run[j].id])
    requires !Refuses(cfg, ls, regular, decision) && all ==>
      forall j :: 0 <= j < |run| ==> run[j].id in after && AnswersWith(env, cfg, ls, run[j], false, after[run[j].id])
    requires !Refuses(cfg, ls, regular, decision) && !all ==> after == before
    ensures PlacesMet(env, cfg, ls, regular, all, after)
  {
    hide Names, Selects, Refuses, AnswersWith, DistinctIds, IsFailure, Executing;
    forall p | 0 <= p < |regular| ensures Met(env, cfg, ls, false, GateFate(env, cfg, ls, regular, p), regular[p], all, after) {
      PlaceMet(env, cfg, ls, regular, decision, run, all, before, after, p);
    }
  }

  lemma {:induction false} PlaceMet(env: Env, cfg: Config, ls: Loop, regular: seq<ToolUse>, decision: BatchDecision, run: seq<ToolUse>, all: bool,
                 before: map<string, Executed>, after: map<string, Executed>, p: nat)
    requires DistinctIds(regular) && Decisive(env, ls, regular, decision) && Selects(run, regular, Executing(decision)) && p < |regular|
    requires ReturnsStand(regular, decision.calls, map[], before) && Elsewhere(run, before, after)
    requires Refuses(cfg, ls, regular, decision) ==>
      forall j :: 0 <= j < |run| ==> run[j].id in after && IsFailure(run[j], after[run[j].id])
    requires !Refuses(cfg, ls, regular, decision) && all ==>
      forall j :: 0 <= j < |run| ==> run[j].id in after && AnswersWith(env, cfg, ls, run[j], false, after[run[j].id])
    requires !Refuses(cfg, ls, regular, decision) && !all ==> after == before
    ensures Met(env, cfg, ls, false, GateFate(env, cfg, ls, regular, p), regular[p], all, after)
  {
    RunApart(regular, decision, run, p);
    DispositionKinds(env, ls, regular, decision, p);
    hide Names, Selects, Refuses, AnswersWith, DistinctIds, IsFailure, Executing, GateSuspends;
    assert Stands(regular[p], decision.calls[p], map[], before);
  }

  lemma DispositionKinds(env: Env, ls: Loop, regular: seq<ToolUse>, decision: BatchDecision, p: nat)
    requires Decisive(env, ls, regular, decision) && p < |regular|
    ensures |decision.calls| == |regular|
    ensures decision.calls[p].kind.DispositionReturn? ==> decision.calls[p].result.Some?
    ensures decision.calls[p].kind.DispositionReturn? || decision.calls[p].kind.DispositionExecute?
  {
    assert Fits(regular[p], decision.calls[p]);
    assert decision.calls[p].kind == DispositionSuspend ==> GateSuspends(env, ls, regular);
  }

  /** The loop that has announced the batch. */
  predicate Announced(ls: Loop, planned: Loop, regular: seq<ToolUse>) {
    planned == ls.(emitted := ls.emitted + [J.ToolBatchPlanned(regular)]) && Run(Closed, ls.messages).Some?
  }

  lemma NothingStarted(ls: Loop, planned: Loop, regular: seq<ToolUse>)
    requires Announced(ls, planned, regular)
    ensures forall calls: seq<ToolUse> :: Adds(ls, planned, [J.ToolBatchPlanned(regular)] + Starts(calls[..0]))
  {
    forall calls: seq<ToolUse> ensures [J.ToolBatchPlanned(regular)] + Starts(calls[..0]) == [J.ToolBatchPlanned(regular)] {}
  }

  lemma {:induction false} RefusedFails(env: Env, cfg: Config, s: Stage, calls: seq<ToolUse>, regular: seq<ToolUse>, executable: seq<ToolUse>)
      returns (text: string)
    requires executable != []
    requires cfg.noTools || !WithinToolLimit(cfg, s.ls.usage, |executable|) || !SuspendableAlone(cfg, regular, executable)
    ensures RunAdmitted(env, cfg, s, calls, regular, executable) == Failing(s, executable, text)
  {
    hide WithinToolLimit, SuspendableAlone, Failing, Admit, NewSuspension;
    text := if cfg.noTools then "model requested tool calls but no tools are registered"
            else if !WithinToolLimit(cfg, s.ls.usage, |executable|) then "usage limit exceeded: tool_calls"
            else "suspendable handler must be alone";
  }

  lemma {:induction false} RefusedRun(env: Env, cfg: Config, ls: Loop, planned: Loop, calls: seq<ToolUse>, regular: seq<ToolUse>, decision: BatchDecision)
    requires DistinctIds(regular) && Decisive(env, ls, regular, decision) && Announced(ls, planned, regular)
    requires |decision.calls| == |regular| && Refuses(cfg, ls, regular, decision)
    ensures var stage := RunAdmitted(env, cfg, Stage(planned, Returned(NoRegular, regular, decision.calls)), calls, regular,
                                     Executable(regular, decision.calls));
      && stage.ls == planned && stage.regular.suspension.None?
      && PlacesMet(env, cfg, ls, regular, true, stage.regular.results) && Carries(env, cfg, ls, regular, [], 0, stage)
  {
    var executable := Executable(regular, decision.calls);
    RefusesExactly(cfg, ls, regular, decision, executable);
    ReturnedStands(NoRegular, regular, decision.calls);
    ExecutableDistinct(regular, decision.calls);
    var s := Stage(planned, Returned(NoRegular, regular, decision.calls));
    hide Reliable, GateSuspends, Executing, Met, Selects, DistinctIds, Names, Executable, Returned, PlacesMet, ReturnsStand, FailAll, RunAdmitted,
      IsFailure, WithinToolLimit, SuspendableAlone, AnyContinues, Acceptable, Refuses;
    var stage := RunAdmitted(env, cfg, s, calls, regular, executable);
    var text := RefusedFails(env, cfg, s, calls, regular, executable);
    FailAllFails(s.regular.results, executable, text);
    DecisionMet(env, cfg, ls, regular, decision, executable, true, s.regular.results, stage.regular.results);
    NothingGranted(cfg, ls, stage.regular.results);
    GrantedSameAfter(cfg, ls, ls, stage.ls, [], stage.regular.results);
    DecisiveGate(env, ls, regular, decision);
  }

  lemma DecisiveGate(env: Env, ls: Loop, regular: seq<ToolUse>, decision: BatchDecision)
    requires Decisive(env, ls, regular, decision)
    ensures env.gate(ls.iteration, regular) == Decided(decision) && Acceptable(regular, decision)
  {
  }

  lemma GrantedSameAfter(cfg: Config, before: Loop, a: Loop, b: Loop, calls: seq<ToolUse>, results: map<string, Executed>)
    requires a.retryCounts == b.retryCounts && a.totalRetries == b.totalRetries && Granted(cfg, before, a, calls, results)
    ensures Granted(cfg, before, b, calls, results)
  {
  }

  lemma {:induction false} AdmittedRun(env: Env, cfg: Config, ls: Loop, planned: Loop, calls: seq<ToolUse>, regular: seq<ToolUse>, decision: BatchDecision)
      returns (n: nat)
    requires DistinctIds(regular) && Decisive(env, ls, regular, decision) && Announced(ls, planned, regular)
    requires |decision.calls| == |regular| && !Refuses(cfg, ls, regular, decision)
    ensures var run := Executable(regular, decision.calls);
      var stage := RunAdmitted(env, cfg, Stage(planned, Returned(NoRegular, regular, decision.calls)), calls, regular, run);
      && n <= |run| && (Reliable(env) ==> n == |run|)
      && Adds(ls, stage.ls, [J.ToolBatchPlanned(regular)] + Starts(run[..n]))
      && (stage.regular.suspension.Some? <==> n == |run| && SomeAsks(env, cfg, ls, run, false))
      && (stage.regular.suspension.Some? ==> SuspendsAs(env, cfg, ls, calls, regular, run, stage.regular.suspension.value))
      && (stage.regular.suspension.None? ==> PlacesMet(env, cfg, ls, regular, n == |run|, stage.regular.results)
                                             && Carries(env, cfg, ls, regular, run, n, stage))
  {
    var run := Executable(regular, decision.calls);
    RefusesExactly(cfg, ls, regular, decision, run);
    ReturnedStands(NoRegular, regular, decision.calls);
    ExecutableDistinct(regular, decision.calls);
    DecisiveGate(env, ls, regular, decision);
    var s := Stage(planned, Returned(NoRegular, regular, decision.calls));
    hide Reliable, GateSuspends, Executing, Met, Selects, AnswersWith, AsksFor, Breaks, DistinctIds, Names, Executable, Returned, PlacesMet,
      ReturnsStand, Admit, IsFailure, WithinToolLimit, SuspendableAlone, AnyContinues, Acceptable, Refuses, Starts, Granted, Elsewhere,
      Decisive;
    if run == [] {
      n := 0;
      NothingStarted(ls, planned, regular);
      NothingRuns(env, cfg, ls, regular, decision, s);
    } else {
      n := AdmitRuns(env, cfg, s, run, false);
      SameAsked(env, cfg, ls, planned);
      AdmittedStage(env, cfg, ls, planned, calls, regular, decision, s, run, n);
    }
  }

  /** The stage from an accepted decision on: the loop has announced the batch. */
  lemma {:induction false} DecisionRuns(env: Env, cfg: Config, ls: Loop, planned: Loop, calls: seq<ToolUse>, regular: seq<ToolUse>, decision: BatchDecision)
      returns (run: seq<ToolUse>, n: nat)
    requires DistinctIds(regular) && Decisive(env, ls, regular, decision) && regular != []
    requires Announced(ls, planned, regular)
    ensures |decision.calls| == |regular|
    ensures var stage := RunAdmitted(env, cfg, Stage(planned, Returned(NoRegular, regular, decision.calls)), calls, regular,
                                     Executable(regular, decision.calls));
      && n <= |run| && (Reliable(env) ==> n == |run|) && RunsUnder(env, cfg, ls, regular, run)
      && Adds(ls, stage.ls, [J.ToolBatchPlanned(regular)] + Starts(run[..n]))
      && (stage.regular.suspension.Some? <==> n == |run| && SomeAsks(env, cfg, ls, run, false))
      && (stage.regular.suspension.Some? ==> SuspendsAs(env, cfg, ls, calls, regular, run, stage.regular.suspension.value))
      && (stage.regular.suspension.None? ==> PlacesMet(env, cfg, ls, regular, n == |run|, stage.regular.results)
                                             && Carries(env, cfg, ls, regular, run, n, stage))
  {
    hide Reliable, GateSuspends, Refuses, Executing, Met, Selects, AnswersWith, AsksFor, Breaks, DistinctIds, Names, Executable, Returned,
      PlacesMet, Carries, ReturnsStand, RunAdmitted, SuspendsAs;
    DecisionLength(env, ls, regular, decision);
    var executable := Executable(regular, decision.calls);
    RefusesExactly(cfg, ls, regular, decision, executable);
    ReturnedStands(NoRegular, regular, decision.calls);
    ExecutableDistinct(regular, decision.calls);
    if Refuses(cfg, ls, regular, decision) {
      run, n := [], 0;
      NothingStarted(ls, planned, regular);
      RefusedRun(env, cfg, ls, planned, calls, regular, decision);
    } else {
      run := executable;
      n := AdmittedRun(env, cfg, ls, planned, calls, regular, decision);
    }
  }

  lemma DecisionLength(env: Env, ls: Loop, regular: seq<ToolUse>, decision: BatchDecision)
    requires Decisive(env, ls, regular, decision)
    ensures |decision.calls| == |regular|
  {
  }

  lemma {:induction false} ExecutableDistinct(calls: seq<ToolUse>, dispositions: seq<Disposition>)
    requires DistinctIds(calls) && |calls| == |dispositions|
    ensures DistinctIds(Executable(calls, dispositions))
    decreases calls
  {
    if calls != [] {
      ExecutableDistinct(calls[1..], dispositions[1..]);
      ExecutableMembers(calls[1..], dispositions[1..]);
      var rest := Executable(calls[1..], dispositions[1..]);
      forall j | 0 <= j < |rest| ensures rest[j].id != calls[0].id && rest[j].id != "" {
        assert rest[j] in rest;
        var k :| 0 <= k < |calls[1..]| && calls[1..][k] == rest[j];
        assert calls[k + 1] == rest[j];
      }
    }
  }

  lemma {:induction false} NothingRuns(env: Env, cfg: Config, ls: Loop, regular: seq<ToolUse>, decision: BatchDecision, stage: Stage)
    requires DistinctIds(regular) && Decisive(env, ls, regular, decision) && !Refuses(cfg, ls, regular, decision)
    requires |decision.calls| == |regular| && Selects([], regular, Executing(decision))
    requires ReturnsStand(regular, decision.calls, map[], stage.regular.results) && stage.regular.fatal.None?
    requires stage.regular.continues <==> AnyContinues(decision.calls)
    requires stage.ls == ls.(emitted := stage.ls.emitted)
    ensures PlacesMet(env, cfg, ls, regular, true, stage.regular.results) && Carries(env, cfg, ls, regular, [], 0, stage)
    ensures !SomeAsks(env, cfg, ls, [], false)
  {
    hide Reliable, GateSuspends, Executing, Met, Selects, DistinctIds, PlacesMet, ReturnsStand, IsFailure, AnyContinues, Acceptable, Refuses;
    NothingElsewhere(stage.regular.results);
    DecisionMet(env, cfg, ls, regular, decision, [], true, stage.regular.results, stage.regular.results);
    NothingGranted(cfg, ls, stage.regular.results);
    GrantedSameAfter(cfg, ls, ls, stage.ls, [], stage.regular.results);
    DecisiveGate(env, ls, regular, decision);
  }

  lemma NothingElsewhere(results: map<string, Executed>)
    ensures Elsewhere([], results, results)
  {
  }

  lemma {:induction false} AdmittedStage(env: Env, cfg: Config, ls: Loop, planned: Loop, calls: seq<ToolUse>, regular: seq<ToolUse>, decision: BatchDecision,
                      s: Stage, run: seq<ToolUse>, n: nat)
    requires DistinctIds(regular) && Decisive(env, ls, regular, decision) && Announced(ls, planned, regular)
    requires |decision.calls| == |regular| && !Refuses(cfg, ls, regular, decision) && Selects(run, regular, Executing(decision)) && run != []
    requires !cfg.noTools && WithinToolLimit(cfg, ls.usage, |run|) && SuspendableAlone(cfg, regular, run)
    requires s == Stage(planned, s.regular) && ReturnsStand(regular, decision.calls, map[], s.regular.results)
    requires s.regular.fatal.None? && s.regular.suspension.None? && (s.regular.continues <==> AnyContinues(decision.calls))
    requires Runs(env, cfg, s, run, false, n, Admit(env, cfg, s, run, false))
    ensures var stage := RunAdmitted(env, cfg, s, calls, regular, run);
      && Adds(ls, stage.ls, [J.ToolBatchPlanned(regular)] + Starts(run[..n]))
      && (stage.regular.suspension.Some? <==> n == |run| && SomeAsks(env, cfg, ls, run, false))
      && (stage.regular.suspension.Some? ==> SuspendsAs(env, cfg, ls, calls, regular, run, stage.regular.suspension.value))
      && (stage.regular.suspension.None? ==> PlacesMet(env, cfg, ls, regular, n == |run|, stage.regular.results)
                                             && Carries(env, cfg, ls, regular, run, n, stage))
  {
    SameAsked(env, cfg, ls, planned);
    hide Reliable, GateSuspends, Executing, Met, Selects, AnswersWith, AsksFor, Breaks, DistinctIds, Names, PlacesMet, ReturnsStand, Admit,
      IsFailure, WithinToolLimit, SuspendableAlone, AnyContinues, Acceptable, Refuses, Starts, Granted, Elsewhere, Carries, SuspendsAs,
      NewSuspension;
    match Admit(env, cfg, s, run, false)
    case Ran(stage) => RanStage(env, cfg, ls, planned, regular, decision, s, run, n, stage);
    case Asked(asked, deferral) => AskedStage(env, cfg, ls, planned, calls, regular, decision, run, asked, deferral);
  }

  lemma {:induction false} RanStage(env: Env, cfg: Config, ls: Loop, planned: Loop, regular: seq<ToolUse>, decision: BatchDecision, s: Stage,
                                    run: seq<ToolUse>, n: nat, stage: Stage)
    requires DistinctIds(regular) && Decisive(env, ls, regular, decision) && Announced(ls, planned, regular)
    requires |decision.calls| == |regular| && !Refuses(cfg, ls, regular, decision) && Selects(run, regular, Executing(decision))
    requires s == Stage(planned, s.regular) && ReturnsStand(regular, decision.calls, map[], s.regular.results)
    requires s.regular.fatal.None? && s.regular.suspension.None? && (s.regular.continues <==> AnyContinues(decision.calls))
    requires Runs(env, cfg, s, run, false, n, Ran(stage))
    ensures Adds(ls, stage.ls, [J.ToolBatchPlanned(regular)] + Starts(run[..n])) && stage.regular.suspension.None?
    ensures n == |run| ==> !SomeAsks(env, cfg, ls, run, false)
    ensures PlacesMet(env, cfg, ls, regular, n == |run|, stage.regular.results) && Carries(env, cfg, ls, regular, run, n, stage)
  {
    SameAsked(env, cfg, ls, planned);
    DecisiveGate(env, ls, regular, decision);
    hide Reliable, GateSuspends, Executing, Met, Selects, AnswersWith, AsksFor, Breaks, DistinctIds, Names, PlacesMet, ReturnsStand, IsFailure,
      AnyContinues, Acceptable, Refuses, Starts, Granted, Elsewhere, Decisive;
    assert n == |run| ==> run[..n] == run;
    if n < |run| {
      SameElsewhere(run, s.regular.results);
    }
    DecisionMet(env, cfg, ls, regular, decision, run, n == |run|, s.regular.results, stage.regular.results);
    if n == |run| {
      GrantedSame(cfg, planned, ls, stage.ls, run, stage.regular.results);
    }
  }

  lemma {:induction false} AskedStage(env: Env, cfg: Config, ls: Loop, planned: Loop, calls: seq<ToolUse>, regular: seq<ToolUse>,
                                      decision: BatchDecision, run: seq<ToolUse>, asked: Loop, deferral: Deferral)
    requires Decisive(env, ls, regular, decision) && Announced(ls, planned, regular)
    requires asked == planned.(emitted := planned.emitted + Starts(run))
    requires exists j :: 0 <= j < |run| && AsksFor(env, cfg, planned, run[j], false, deferral)
    ensures Adds(ls, asked, [J.ToolBatchPlanned(regular)] + Starts(run[..|run|])) && SomeAsks(env, cfg, ls, run, false)
    ensures var s := NewSuspension(env, cfg, asked, calls, run, deferral, true); s.Some? && SuspendsAs(env, cfg, ls, calls, regular, run, s.value)
  {
    SameAsked(env, cfg, ls, planned);
    hide AsksFor, Starts, Run;
    assert run[..|run|] == run;
    assert ls.emitted + [J.ToolBatchPlanned(regular)] + Starts(run) == ls.emitted + ([J.ToolBatchPlanned(regular)] + Starts(run));
  }

  lemma SameElsewhere(run: seq<ToolUse>, results: map<string, Executed>)
    ensures Elsewhere(run, results, results)
  {
  }

  /** A batch that did not get past the gate. */
  lemma {:induction false} UndecidedStage(env: Env, cfg: Config, ls: Loop, regular: seq<ToolUse>, planned: Loop, text: string)
    requires DistinctIds(regular) && Announced(ls, planned, regular)
    requires var outcome := env.gate(ls.iteration, regular); outcome.Decided? ==> !Acceptable(regular, outcome.decision)
    ensures var stage := Failing(Stage(planned, NoRegular), regular, text);
      && stage.ls == planned && stage.regular.suspension.None?
      && RunsUnder(env, cfg, ls, regular, []) && !GateSuspends(env, ls, regular) && !SomeAsks(env, cfg, ls, [], false)
      && PlacesMet(env, cfg, ls, regular, true, stage.regular.results) && Carries(env, cfg, ls, regular, [], 0, stage)
  {
    hide IsFailure, Acceptable, DistinctIds, FailAll, Granted, Refuses, AnyContinues;
    var stage := Failing(Stage(planned, NoRegular), regular, text);
    FailAllFails(map[], regular, text);
    NothingGranted(cfg, ls, stage.regular.results);
    GrantedSameAfter(cfg, ls, ls, stage.ls, [], stage.regular.results);
  }

  lemma {:induction false} SuspendedStage(env: Env, cfg: Config, ls: Loop, calls: seq<ToolUse>, regular: seq<ToolUse>, planned: Loop,
                                          decision: BatchDecision)
    requires Announced(ls, planned, regular) && env.gate(ls.iteration, regular) == Decided(decision)
    requires Acceptable(regular, decision) && ToolControl.Suspends(decision)
    ensures decision.deferral.Some? && GateSuspends(env, ls, regular) && RunsUnder(env, cfg, ls, regular, [])
    ensures var s := NewSuspension(env, cfg, planned, calls, regular, decision.deferral.value, false);
      s.Some? && SuspendsAs(env, cfg, ls, calls, regular, [], s.value)
  {
    hide Fits, Run, Refuses;
  }

  lemma GateDecides(env: Env, ls: Loop, regular: seq<ToolUse>, decision: BatchDecision)
    requires env.gate(ls.iteration, regular) == Decided(decision) && Acceptable(regular, decision) && !ToolControl.Suspends(decision)
    ensures Decisive(env, ls, regular, decision)
  {
    hide Fits;
  }

  lemma {:induction false} StageRuns(env: Env, cfg: Config, ls: Loop, calls: seq<ToolUse>)
      returns (regular: seq<ToolUse>, run: seq<ToolUse>, n: nat)
    requires DistinctIds(calls) && Run(Closed, ls.messages).Some?
    ensures StageObeys(env, cfg, ls, calls, regular, run, n, ExecuteRegular(env, cfg, ls, calls))
  {
    regular := RegularCalls(cfg, calls);
    RegularSelects(cfg, calls);
    RegularMembers(cfg, calls);
    hide RegularCalls, Selects, RunAdmitted, Failing, DistinctIds, Acceptable, ToolControl.Suspends, Reliable, NewSuspension, Starts, Carries,
      GateSuspends, SuspendsAs, Returned, Executable, Run, RunsUnder, Met, Refuses, AsksFor, Regulars, AllFailed;
    run, n := [], 0;
    if regular != [] {
      var (planned, ok) := Emit(env, ls, J.ToolBatchPlanned(regular));
      if !ok {
        RefusedPlan(ls, regular, "Tool batch planning failed.");
      } else {
        NothingStarted(ls, planned, regular);
        match env.gate(planned.iteration, regular)
        case GateFailed(text) => UndecidedStage(env, cfg, ls, regular, planned, "Tool batch denied because the tool gate failed: " + text);
        case Decided(decision) =>
          if !Acceptable(regular, decision) {
            UndecidedStage(env, cfg, ls, regular, planned, "Tool batch denied because the tool gate returned an invalid decision.");
          } else if ToolControl.Suspends(decision) {
            SuspendedStage(env, cfg, ls, calls, regular, planned, decision);
          } else {
            GateDecides(env, ls, regular, decision);
            run, n := DecisionRuns(env, cfg, ls, planned, calls, regular, decision);
            NotSuspending(env, ls, regular, decision);
          }
      }
    }
  }

  lemma NotSuspending(env: Env, ls: Loop, regular: seq<ToolUse>, decision: BatchDecision)
    requires Decisive(env, ls, regular, decision)
    ensures !GateSuspends(env, ls, regular)
  {
  }

  lemma RefusedPlan(ls: Loop, regular: seq<ToolUse>, text: string)
    requires DistinctIds(regular)
    ensures var stage := Failing(Stage(ls, NoRegular), regular, text);
      && stage.ls == ls && stage.regular.suspension.None? && stage.regular.fatal.Some? && !stage.regular.continues
      && AllFailed(regular, map[], stage.regular.results)
  {
    FailAllFails(map[], regular, text);
  }

  // ---------------------------------------------------------------------
  // A resolved batch.

  /** The calls an envelope names by their IDs, one by one. */
  predicate NamesEach(calls: seq<ToolUse>, ids: seq<string>, named: seq<ToolUse>) {
    |named| == |ids| && forall i :: 0 <= i < |ids| ==> named[i] in calls && named[i].id == ids[i]
  }

  /** What the operator made of a call: the one decision given for it. */
  predicate OperatorFate(decisions: seq<ToolResumeDecision>, call: ToolUse, fate: Fate) {
    exists d :: d in decisions && d.callId == call.id && Decreed(call, d, fate)
  }

  predicate Decreed(call: ToolUse, d: ToolResumeDecision, fate: Fate) {
    match d.action
    case ResumeExecute => fate == Attempted(if d.input.Some? then call.(input := d.input.value) else call)
    case ResumeReturn => d.result.Some? && fate == Fixed(d.result.value)
    case ResumeInvalid => false
  }

  /** The calls that are to run, in order. */
  function Attempts(fates: seq<Fate>): seq<ToolUse> {
    if fates == [] then []
    else
      var last := fates[|fates| - 1];
      Attempts(fates[..|fates| - 1]) + (if last.Attempted? then [last.call] else [])
  }

  predicate OperatorFates(decisions: seq<ToolResumeDecision>, executable: seq<ToolUse>, fates: seq<Fate>) {
    |fates| == |executable| && forall i :: 0 <= i < |fates| ==> OperatorFate(decisions, executable[i], fates[i])
  }

  /** A resolved batch carries out the operator's decisions. `n` calls started before the sink refused one. */
  ghost predicate ResolutionObeys(env: Env, cfg: Config, ls: Loop, tool: ToolSuspension, decisions: seq<ToolResumeDecision>,
                                  executable: seq<ToolUse>, fates: seq<Fate>, n: nat, stage: Stage) {
    var run := Attempts(fates);
    && NamesEach(tool.calls, tool.executableIds, executable) && OperatorFates(decisions, executable, fates)
    && n <= |run| && (Reliable(env) ==> n == |run|) && Adds(ls, stage.ls, Starts(run[..n]))
    && (stage.regular.suspension.Some? <==> n == |run| && SomeAsks(env, cfg, ls, run, tool.handlerSuspension))
    && (stage.regular.suspension.None? ==>
          && (forall i :: 0 <= i < |executable| ==>
                Met(env, cfg, ls, tool.handlerSuspension, fates[i], executable[i], n == |run|, stage.regular.results))
          && (forall id :: !Names(executable, id) ==> id !in stage.regular.results)
          && ls.totalRetries <= stage.ls.totalRetries && (stage.regular.continues <==> stage.ls.totalRetries > ls.totalRetries)
          && (n < |run| || SomeBreaks(env, cfg, ls, run, tool.handlerSuspension) ==> stage.regular.fatal.Some?)
          && (n == |run| ==>
                && Granted(cfg, ls, stage.ls, run, stage.regular.results)
                && stage.ls.usage.counters == ls.usage.counters.(toolCalls := ls.usage.counters.toolCalls + |run|)))
  }

  lemma {:induction false} DecisionGiven(decisions: seq<ToolResumeDecision>, id: string)
    ensures var d := DecisionOf(decisions, id); d.Some? ==> d.value in decisions && d.value.callId == id
    decreases decisions
  {
    if decisions != [] {
      DecisionGiven(decisions[1..], id);
    }
  }

  /** The operator's results, under the IDs of their calls, and nothing else. */
  predicate Supplied(executable: seq<ToolUse>, fates: seq<Fate>, results: map<string, Executed>) {
    && |fates| == |executable|
    && (forall i :: 0 <= i < |fates| ==>
          match fates[i]
          case Fixed(result) => executable[i].id in results && results[executable[i].id] == result
          case Attempted(call) => call.id == executable[i].id && call.name == executable[i].name && call.id !in results
          case _ => false)
    && forall id :: !Names(executable, id) ==> id !in results
  }

  lemma {:induction false} SortedObey(cfg: Config, executable: seq<ToolUse>, handler: bool, decisions: seq<ToolResumeDecision>)
      returns (fates: seq<Fate>)
    requires DistinctIds(executable) && SortDecisions(cfg, executable, handler, decisions).Some?
    ensures var sorted := SortDecisions(cfg, executable, handler, decisions).value;
      OperatorFates(decisions, executable, fates) && sorted.toExecute == Attempts(fates) && Supplied(executable, fates, sorted.results)
    decreases executable
  {
    hide ExecuteUsable, Identified;
    if executable == [] {
      fates := [];
    } else {
      var last := executable[|executable| - 1];
      var before := SortedObey(cfg, executable[..|executable| - 1], handler, decisions);
      DecisionGiven(decisions, last.id);
      var d := DecisionOf(decisions, last.id).value;
      var fate := if d.action == ResumeExecute then Attempted(Overridden(last, d)) else Fixed(d.result.value);
      assert Decreed(last, d, fate);
      fates := before + [fate];
      assert fates[..|fates| - 1] == before;
      SuppliedSnoc(executable, before, fate, SortDecisions(cfg, executable[..|executable| - 1], handler, decisions).value.results,
                   SortDecisions(cfg, executable, handler, decisions).value.results);
      assert OperatorFate(decisions, last, fate);
    }
  }

  lemma SuppliedSnoc(executable: seq<ToolUse>, fates: seq<Fate>, fate: Fate, before: map<string, Executed>, after: map<string, Executed>)
    requires executable != [] && |fates| + 1 == |executable| && DistinctIds(executable)
    requires Supplied(executable[..|executable| - 1], fates, before)
    requires var last := executable[|executable| - 1];
      match fate
      case Fixed(result) => after == before[last.id := result]
      case Attempted(call) => after == before && call.id == last.id && call.name == last.name
      case _ => false
    ensures Supplied(executable, fates + [fate], after)
  {
    var front, last := executable[..|executable| - 1], executable[|executable| - 1];
    assert !Names(front, last.id);
    forall id | !Names(executable, id) ensures !Names(front, id) && id != last.id {
      assert last == executable[|executable| - 1];
      assert forall j :: 0 <= j < |front| ==> front[j] == executable[j];
    }
  }

  lemma {:induction false} ExecutableNames(cfg: Config, calls: seq<ToolUse>, ids: seq<string>)
    ensures ExecutableCalls(cfg, calls, ids).Some? ==> NamesEach(calls, ids, ExecutableCalls(cfg, calls, ids).value)
    decreases ids
  {
    if ids != [] {
      CallNamedFound(calls, ids[0]);
      ExecutableNames(cfg, calls, ids[1..]);
    }
  }

  /** An envelope names no call twice. */
  predicate NamesOnce(tool: ToolSuspension) {
    DistinctIds(tool.calls) && Distinct(tool.executableIds)
  }

  lemma NamedCalls(tool: ToolSuspension)
    requires NamesOnce(tool)
    ensures DistinctIds(tool.calls)
  {
  }

  lemma NamedOnce(tool: ToolSuspension, executable: seq<ToolUse>)
    requires NamesOnce(tool) && NamesEach(tool.calls, tool.executableIds, executable)
    ensures DistinctIds(executable)
  {
    forall i | 0 <= i < |executable| ensures executable[i].id != "" {
      assert executable[i] in tool.calls;
    }
  }

  lemma {:induction false} AttemptOf(fates: seq<Fate>, call: ToolUse) returns (i: nat)
    requires call in Attempts(fates)
    ensures i < |fates| && fates[i] == Attempted(call)
    decreases |fates|
  {
    var last := fates[|fates| - 1];
    if last == Attempted(call) {
      i := |fates| - 1;
    } else {
      i := AttemptOf(fates[..|fates| - 1], call);
    }
  }

  lemma {:induction false} AttemptsHold(fates: seq<Fate>, i: nat)
    requires i < |fates| && fates[i].Attempted?
    ensures fates[i].call in Attempts(fates)
    decreases |fates|
  {
    if i < |fates| - 1 {
      AttemptsHold(fates[..|fates| - 1], i);
    }
  }

  /** Attempts go under the IDs of their calls. */
  predicate KeepsIds(executable: seq<ToolUse>, fates: seq<Fate>) {
    |fates| == |executable| && forall i :: 0 <= i < |fates| && fates[i].Attempted? ==> fates[i].call.id == executable[i].id
  }

  lemma {:induction false} AttemptsDistinct(executable: seq<ToolUse>, fates: seq<Fate>)
    requires DistinctIds(executable) && KeepsIds(executable, fates)
    ensures DistinctIds(Attempts(fates))
    decreases |fates|
  {
    if fates != [] {
      var before, last := fates[..|fates| - 1], fates[|fates| - 1];
      var front := executable[..|executable| - 1];
      AttemptsDistinct(front, before);
      if last.Attempted? {
        var rest := Attempts(before);
        forall j | 0 <= j < |rest| ensures rest[j].id != last.call.id {
          var i := AttemptOf(before, rest[j]);
          assert front[i] == executable[i] && fates[i] == before[i];
        }
      }
    }
  }

  lemma {:induction false} ResolutionRuns(env: Env, cfg: Config, ls: Loop, tool: ToolSuspension, decisions: seq<ToolResumeDecision>)
      returns (executable: seq<ToolUse>, fates: seq<Fate>, n: nat)
    requires NamesOnce(tool) && ResolveTools(env, cfg, ls, tool, decisions).ResolvedAs?
    ensures ResolutionObeys(env, cfg, ls, tool, decisions, executable, fates, n, ResolveTools(env, cfg, ls, tool, decisions).stage)
  {
    hide NamesOnce, SortDecisions, ExecutableCalls, NamesEach, OperatorFates, DistinctDecisions, WithinToolLimit, SuspendableAlone, Admit,
      NewSuspension, DistinctIds, Supplied, KeepsIds, Attempts, ResolutionObeys, Runs;
    executable := ExecutableCalls(cfg, tool.calls, tool.executableIds).value;
    ExecutableNames(cfg, tool.calls, tool.executableIds);
    NamedOnce(tool, executable);
    fates := SortedObey(cfg, executable, tool.handlerSuspension, decisions);
    var sorted := SortDecisions(cfg, executable, tool.handlerSuspension, decisions).value;
    SuppliedKeeps(executable, fates, sorted.results);
    AttemptsDistinct(executable, fates);
    var s := Stage(ls, NoRegular.(results := sorted.results));
    if sorted.toExecute == [] {
      n := 0;
      NothingResolved(env, cfg, ls, tool, decisions, executable, fates, s);
    } else {
      n := AdmitRuns(env, cfg, s, sorted.toExecute, tool.handlerSuspension);
      match Admit(env, cfg, s, sorted.toExecute, tool.handlerSuspension)
      case Ran(stage) => ResolvedRun(env, cfg, ls, tool, decisions, executable, fates, n, s, stage);
      case Asked(asked, deferral) => ResolvedAsk(env, cfg, ls, tool, decisions, executable, fates, n, s, asked, deferral);
    }
  }

  lemma SuppliedKeeps(executable: seq<ToolUse>, fates: seq<Fate>, results: map<string, Executed>)
    requires Supplied(executable, fates, results)
    ensures KeepsIds(executable, fates)
  {
  }

  lemma {:induction false} NothingResolved(env: Env, cfg: Config, ls: Loop, tool: ToolSuspension, decisions: seq<ToolResumeDecision>,
                                           executable: seq<ToolUse>, fates: seq<Fate>, stage: Stage)
    requires NamesEach(tool.calls, tool.executableIds, executable) && OperatorFates(decisions, executable, fates) && Attempts(fates) == []
    requires stage == Stage(ls, NoRegular.(results := stage.regular.results)) && Supplied(executable, fates, stage.regular.results)
    ensures ResolutionObeys(env, cfg, ls, tool, decisions, executable, fates, 0, stage)
  {
    hide NamesEach, OperatorFates, AnswersWith;
    forall i | 0 <= i < |fates| ensures !fates[i].Attempted? {
      if fates[i].Attempted? {
        AttemptsHold(fates, i);
        assert false;
      }
    }
    NothingGranted(cfg, ls, stage.regular.results);
    assert ls.emitted + Starts(Attempts(fates)[..0]) == ls.emitted;
  }

  lemma {:induction false} ResolvedRun(env: Env, cfg: Config, ls: Loop, tool: ToolSuspension, decisions: seq<ToolResumeDecision>,
                                       executable: seq<ToolUse>, fates: seq<Fate>, n: nat, s: Stage, stage: Stage)
    requires NamesEach(tool.calls, tool.executableIds, executable) && OperatorFates(decisions, executable, fates) && DistinctIds(executable)
    requires s == Stage(ls, NoRegular.(results := s.regular.results)) && Supplied(executable, fates, s.regular.results)
    requires Runs(env, cfg, s, Attempts(fates), tool.handlerSuspension, n, Ran(stage))
    ensures ResolutionObeys(env, cfg, ls, tool, decisions, executable, fates, n, stage)
  {
    hide NamesEach, OperatorFates, AnswersWith, Attempts, AsksFor, Breaks, Granted, Starts, Reliable;
    var run := Attempts(fates);
    SuppliedKeeps(executable, fates, s.regular.results);
    if n == |run| {
      assert run[..n] == run;
      forall i | 0 <= i < |executable|
        ensures Met(env, cfg, ls, tool.handlerSuspension, fates[i], executable[i], true, stage.regular.results)
      {
        ResolvedMet(env, cfg, ls, tool.handlerSuspension, executable, fates, s.regular.results, stage.regular.results, i);
      }
      forall id | !Names(executable, id) ensures !Names(run, id) && id !in stage.regular.results {
        AttemptsNamed(executable, fates, id);
      }
    } else {
      assert forall i :: 0 <= i < |executable| ==> Met(env, cfg, ls, tool.handlerSuspension, fates[i], executable[i], false, stage.regular.results);
    }
  }

  lemma AttemptsNamed(executable: seq<ToolUse>, fates: seq<Fate>, id: string)
    requires KeepsIds(executable, fates)
    ensures Names(Attempts(fates), id) ==> Names(executable, id)
  {
    if Names(Attempts(fates), id) {
      var j :| 0 <= j < |Attempts(fates)| && Attempts(fates)[j].id == id;
      var i := AttemptOf(fates, Attempts(fates)[j]);
      assert executable[i].id == id;
    }
  }

  lemma {:induction false} ResolvedMet(env: Env, cfg: Config, ls: Loop, resumed: bool, executable: seq<ToolUse>, fates: seq<Fate>,
                                       before: map<string, Executed>, after: map<string, Executed>, i: nat)
    requires DistinctIds(executable) && Supplied(executable, fates, before) && i < |executable|
    requires AllAnswered(env, cfg, ls, Attempts(fates), resumed, before, after)
    ensures Met(env, cfg, ls, resumed, fates[i], executable[i], true, after)
  {
    hide AnswersWith, Attempts;
    if fates[i].Attempted? {
      AttemptsHold(fates, i);
      var j :| 0 <= j < |Attempts(fates)| && Attempts(fates)[j] == fates[i].call;
    } else {
      var run := Attempts(fates);
      forall j | 0 <= j < |run| ensures run[j].id != executable[i].id {
        var k := AttemptOf(fates, run[j]);
        assert k != i;
      }
    }
  }

  lemma {:induction false} ResolvedAsk(env: Env, cfg: Config, ls: Loop, tool: ToolSuspension, decisions: seq<ToolResumeDecision>,
                                       executable: seq<ToolUse>, fates: seq<Fate>, n: nat, s: Stage, asked: Loop, deferral: Deferral)
    requires NamesEach(tool.calls, tool.executableIds, executable) && OperatorFates(decisions, executable, fates) && s.ls == ls
    requires Runs(env, cfg, s, Attempts(fates), tool.handlerSuspension, n, Asked(asked, deferral))
    ensures forall regular: Regular | regular.suspension.Some? ::
      ResolutionObeys(env, cfg, ls, tool, decisions, executable, fates, n, Stage(asked, regular))
  {
    hide NamesEach, OperatorFates, AnswersWith, Attempts, AsksFor, Breaks, Granted, Starts, Reliable;
    var run := Attempts(fates);
    assert run[..n] == run;
  }
}
