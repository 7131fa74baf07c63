/** What the driver makes of a planned resumption (execution_loop.go, resolveSuspendedTools). */
module DriverPlan {
  import opened Messages
  import opened Pairing
  import opened Suspensions
  import opened ToolControl
  import P = Permission
  import opened ResumePlan
  import opened Pipeline
  import opened Turns
  import opened Resuming
  import J = Journals

  /** A call planned to execute is still registered, and still suspendable when it was its handler that asked. */
  predicate StillRuns(cfg: Config, call: ToolUse, handler: bool, d: ToolResumeDecision) {
    match d.action
    case ResumeExecute => call.name in cfg.registered && (handler ==> call.name in cfg.suspendable)
    case ResumeReturn => true
    case ResumeInvalid => false
  }

  lemma PlannedUsable(cfg: Config, call: ToolUse, handler: bool, resolution: Option<ToolResolution>)
    requires call.id != "" && (resolution.Some? ==> resolution.value.action != ResolutionInvalid)
    ensures Suits(cfg, call, handler, DecisionFor(call, resolution))
  {
  }

  lemma {:induction false} SortsWhenUsable(cfg: Config, executable: seq<ToolUse>, handler: bool, decisions: seq<ToolResumeDecision>, n: nat)
    requires n <= |executable| && |decisions| == |executable| && DistinctDecisions(decisions)
    requires forall i :: 0 <= i < |executable| ==> Suits(cfg, executable[i], handler, decisions[i])
    ensures SortDecisions(cfg, executable[..n], handler, decisions).Some?
       <==> forall i :: 0 <= i < n ==> StillRuns(cfg, executable[i], handler, decisions[i])
    decreases n
  {
    hide ExecuteUsable, ReturnUsable, DecisionOf, DistinctDecisions;
    if n > 0 {
      SortsWhenUsable(cfg, executable, handler, decisions, n - 1);
      assert executable[..n][..n - 1] == executable[..n - 1] && executable[..n][n - 1] == executable[n - 1];
      DecisionOfFirst(decisions, n - 1);
    }
  }

  lemma {:induction false} ExecutableNamed(cfg: Config, calls: seq<ToolUse>, ids: seq<string>) returns (executable: seq<ToolUse>)
    requires forall i :: 0 <= i < |ids| ==> CallNamed(calls, ids[i]).Some?
    ensures |executable| == |ids| && forall i :: 0 <= i < |ids| ==> executable[i] == CallNamed(calls, ids[i]).value
    ensures (exists i :: 0 <= i < |ids| && executable[i].name in cfg.outputs) ==> ExecutableCalls(cfg, calls, ids) == None
    ensures (forall i :: 0 <= i < |ids| ==> executable[i].name !in cfg.outputs) ==> ExecutableCalls(cfg, calls, ids) == Some(executable)
    decreases ids
  {
    if ids == [] {
      executable := [];
    } else {
      var rest := ExecutableNamed(cfg, calls, ids[1..]);
      executable := [CallNamed(calls, ids[0]).value] + rest;
    }
  }

  /** The call a plan's decision is for. */
  function CallAt(tool: ToolSuspension, i: nat): ToolUse
    requires i < |tool.executableIds| && CallNamed(tool.calls, tool.executableIds[i]).Some?
  {
    CallNamed(tool.calls, tool.executableIds[i]).value
  }

  /** Calls found, decisions sorted and distinct: what a resolution can still fail on is a limit, never its input. */
  lemma SortedResolves(env: Env, cfg: Config, ls: Loop, tool: ToolSuspension, executable: seq<ToolUse>, decisions: seq<ToolResumeDecision>)
    requires Accepted(ls.messages) && ExecutableCalls(cfg, tool.calls, tool.executableIds) == Some(executable)
    requires |decisions| == |executable| && DistinctDecisions(decisions)
    ensures ResolveTools(env, cfg, ls, tool, decisions) == ResolveFailed(true)
       <==> SortDecisions(cfg, executable, tool.handlerSuspension, decisions).None?
  {
    hide ExecutableCalls, SortDecisions, DistinctDecisions, Admit, WithinToolLimit, SuspendableAlone;
    var sorted := SortDecisions(cfg, executable, tool.handlerSuspension, decisions);
    if sorted.Some? {
      AskedPersists(env, cfg, Stage(ls, NoRegular.(results := sorted.value.results)), tool.calls, sorted.value.toExecute, tool.handlerSuspension);
    }
  }

  /** Every decision is for its own call, and lacks at most the registration of a call to execute. */
  predicate Shaped(cfg: Config, tool: ToolSuspension, decisions: seq<ToolResumeDecision>) {
    && |decisions| == |tool.executableIds|
    && forall i :: 0 <= i < |decisions| ==>
         && CallNamed(tool.calls, tool.executableIds[i]).Some?
         && Suits(cfg, CallAt(tool, i), tool.handlerSuspension, decisions[i])
  }

  predicate Suits(cfg: Config, call: ToolUse, handler: bool, d: ToolResumeDecision) {
    && d.callId == call.id && d.callId != "" && d.action != ResumeInvalid
    && (d.action == ResumeExecute ==> (ExecuteUsable(cfg, call, handler, d) <==> StillRuns(cfg, call, handler, d)))
    && (d.action == ResumeReturn ==> ReturnUsable(call, d))
  }

  lemma PlannedShaped(cfg: Config, s: Suspension, request: ResumeRequest, decisions: seq<ToolResumeDecision>)
    requires Plannable(s, request) && Planned(s, request, decisions)
    ensures s.payload.ToolPayload? && Shaped(cfg, s.payload.tool, decisions) && DistinctDecisions(decisions)
    ensures forall i :: 0 <= i < |decisions| ==> decisions[i].callId == s.payload.tool.executableIds[i]
  {
    hide DecisionFor, Suits;
    var tool := s.payload.tool;
    forall i | 0 <= i < |decisions|
      ensures CallNamed(tool.calls, tool.executableIds[i]).Some? && CallAt(tool, i).id == tool.executableIds[i] != ""
      ensures decisions[i].callId == tool.executableIds[i] && Suits(cfg, CallAt(tool, i), tool.handlerSuspension, decisions[i])
    {
      CallNamedFound(tool.calls, tool.executableIds[i]);
      ResolutionForFound(request.resolutions, tool.executableIds[i]);
      var call := CallNamed(tool.calls, tool.executableIds[i]).value;
      var k :| 0 <= k < |tool.calls| && tool.calls[k] == call;
      PlannedUsable(cfg, call, tool.handlerSuspension, ResolutionFor(request.resolutions, tool.executableIds[i]));
    }
  }

  lemma ShapedResolves(env: Env, cfg: Config, ls: Loop, tool: ToolSuspension, decisions: seq<ToolResumeDecision>)
    requires Shaped(cfg, tool, decisions) && DistinctDecisions(decisions) && Accepted(ls.messages)
    ensures ResolveTools(env, cfg, ls, tool, decisions) != ResolveFailed(true)
       <==> forall i :: 0 <= i < |decisions| ==>
              CallAt(tool, i).name !in cfg.outputs && StillRuns(cfg, CallAt(tool, i), tool.handlerSuspension, decisions[i])
  {
    hide ResolveTools, SortDecisions, ExecutableCalls, Suits, Accepted, CallNamed, DistinctDecisions, StillRuns;
    var executable := ExecutableNamed(cfg, tool.calls, tool.executableIds);
    assert forall i :: 0 <= i < |decisions| ==> executable[i] == CallAt(tool, i);
    if forall i :: 0 <= i < |executable| ==> executable[i].name !in cfg.outputs {
      SortedResolves(env, cfg, ls, tool, executable, decisions);
      SortsWhenUsable(cfg, executable, tool.handlerSuspension, decisions, |executable|);
      assert executable[..|executable|] == executable;
    } else {
      OutputRefused(env, cfg, ls, tool, decisions);
    }
  }

  /**
   * The driver refuses the plan of a complete request over an accepted transcript exactly when a call of the suspension is an output
   * tool, or a call planned to execute is not registered (or no longer suspendable, when a handler asked).
   */
  lemma PlanFitsDriver(env: Env, cfg: Config, ls: Loop, s: Suspension, request: ResumeRequest, decisions: seq<ToolResumeDecision>)
    requires Plannable(s, request) && Planned(s, request, decisions) && Accepted(ls.messages)
    ensures ResolveTools(env, cfg, ls, s.payload.tool, decisions) != ResolveFailed(true)
       <==> forall i :: 0 <= i < |decisions| ==>
              && CallAt(s.payload.tool, i).name !in cfg.outputs
              && StillRuns(cfg, CallAt(s.payload.tool, i), s.payload.tool.handlerSuspension, decisions[i])
    ensures forall i :: 0 <= i < |decisions| ==>
      decisions[i].callId == s.payload.tool.executableIds[i] && decisions[i].action != ResumeInvalid
  {
    hide ResolveTools, Plannable, Planned, Accepted, CallNamed, DistinctDecisions, StillRuns;
    PlannedShaped(cfg, s, request, decisions);
    ShapedResolves(env, cfg, ls, s.payload.tool, decisions);
  }

  lemma OutputRefused(env: Env, cfg: Config, ls: Loop, tool: ToolSuspension, decisions: seq<ToolResumeDecision>)
    requires ExecutableCalls(cfg, tool.calls, tool.executableIds).None?
    ensures ResolveTools(env, cfg, ls, tool, decisions) == ResolveFailed(true)
  {
  }

  /** What the driver persists for a gate deferral is such a suspension, whenever an ID was to be had. */
  lemma DriverSuspends(env: Env, cfg: Config, ls: Loop, all: seq<ToolUse>, regular: seq<ToolUse>, deferral: Deferral)
    ensures var s := NewSuspension(env, cfg, ls, all, regular, deferral, false);
      s.Some? && s.value.id != "" ==> GateSuspension(s.value, all, regular, deferral)
  {
  }

  /**
   * The whole way back: a complete request for a permission suspension has one plan, and the driver refuses it exactly when one of the
   * calls it has to execute is not registered.
   */
  lemma PipelineRoundTrip(env: Env, cfg: Config, ls: Loop, policy: P.Policy, all: seq<ToolUse>, regular: seq<ToolUse>,
                          current: BatchDecision, next: BatchDecision, s: Suspension, request: ResumeRequest,
                          decisions: seq<ToolResumeDecision>)
    requires Batch(all, regular) && Named(all) && Acceptable(regular, current) && current.deferral.None?
    requires AllPending(current, |regular|)
    requires P.GateResult(policy, regular, current, next) && Suspends(next) && next.deferral.Some?
    requires GateSuspension(s, all, regular, next.deferral.value)
    requires request.suspensionId == s.id && (request.prompt.Some? ==> request.prompt.value.role == RoleUser)
    requires ResumePlan.Complete(next.deferral.value.payload.required, request.resolutions)
    requires Planned(s, request, decisions)
    requires Accepted(ls.messages) && forall i :: 0 <= i < |regular| ==> regular[i].name !in cfg.outputs
    ensures Plannable(s, request) && |decisions| == |regular|
    ensures ResolveTools(env, cfg, ls, s.payload.tool, decisions) != ResolveFailed(true)
       <==> forall i :: 0 <= i < |regular| && decisions[i].action == ResumeExecute ==> regular[i].name in cfg.registered
  {
    hide P.GateResult, Acceptable, ResolveTools, Accepted, ResumePlan.Complete, DecisionFor, CallNamed;
    GatePlan(policy, all, regular, current, next, s, request, decisions);
    PlanFitsDriver(env, cfg, ls, s, request, decisions);
    forall i | 0 <= i < |regular| ensures CallAt(s.payload.tool, i) == regular[i] {
      assert s.payload.tool.executableIds[i] == regular[i].id;
    }
  }

  // ---------------------------------------------------------------------
  // A suspension no complete request gets past.

  const Asked := ToolUse("a", "t", "{}")
  const Ghost := ToolUse("b", "g", "{}")

  function AskAboutT(request: PermissionRequest): P.Decision {
    if request.action == "t" then P.Ask else P.Allow
  }

  function NoResolvers(call: ToolUse): P.Effect {
    P.NoResolver
  }

  const GhostPolicy := P.PolicyOf(NoResolvers, AskAboutT)

  lemma GhostJudges(call: ToolUse)
    ensures GhostPolicy(call)
         == P.Judgement(if call.name == "t" then P.Ask else P.Allow, PermissionRequest("tool", call.name, call.name, call.name != ""), None)
  {
    var request := PermissionRequest("tool", call.name, call.name, call.name != "");
    assert P.Resolve(P.NoResolver, call) == (request, None);
    assert GhostPolicy(call) == P.JudgeCall(NoResolvers(call), AskAboutT, call);
    assert AskAboutT(request) == if call.name == "t" then P.Ask else P.Allow;
  }

  const GhostDecision := BatchDecision([P.SuspendDisposition, P.SuspendDisposition],
    Some(Deferral(P.PERMISSION_KIND, PermissionBatch(1, ["a"], ["b"], [DeferredRequest("a", PermissionRequest("tool", "t", "t", true))]))))

  /** The lists of a batch in which one call was judged, and the policy asks about it. */
  lemma OneAsked(calls: seq<ToolUse>, first: P.Evaluated)
    requires first.judgement.decision == P.Ask && first.index < |calls|
    ensures P.JudgedIds(calls, [first], true) == [calls[first.index].id] && P.JudgedIds(calls, [first], false) == []
    ensures P.AskedRequests(calls, [first]) == [DeferredRequest(calls[first.index].id, first.judgement.request)]
  {
    assert [first][..0] == [] && [first][0] == first;
    assert P.JudgedIds(calls, [], false) == [] && P.JudgedIds(calls, [], true) == [] && P.AskedRequests(calls, []) == [];
  }

  lemma GhostSuspends()
    ensures P.GateResult(GhostPolicy, [Asked, Ghost], AllowAll(2), GhostDecision) && Acceptable([Asked, Ghost], GhostDecision)
  {
    hide P.JudgedIds, P.AskedRequests;
    var calls, current := [Asked, Ghost], AllowAll(2);
    var first, second := P.Evaluated(0, GhostPolicy(Asked)), P.Evaluated(1, GhostPolicy(Ghost));
    GhostJudges(Asked);
    GhostJudges(Ghost);
    assert |"t"| == 1 && |"g"| == 1 && "g"[0] == 'g' && "t"[0] == 't' && |P.PERMISSION_KIND| > 0;
    assert P.Judged(GhostPolicy, calls, current, 1) == [first];
    var values := P.Judged(GhostPolicy, calls, current, 2);
    assert values == [first, second];
    assert values[0] == first && P.AnyJudged(values, P.Ask) && !P.AnyJudged(values, P.Deny);
    AskedThenAllowed(calls, first, second);
    assert GhostDecision.calls[0].kind == DispositionSuspend;
  }

  lemma AskedThenAllowed(calls: seq<ToolUse>, first: P.Evaluated, second: P.Evaluated)
    requires first.judgement.decision == P.Ask && second.judgement.decision != P.Ask && first.index < |calls| && second.index < |calls|
    ensures var values := [first, second];
      && P.JudgedIds(calls, values, true) == [calls[first.index].id] && P.JudgedIds(calls, values, false) == [calls[second.index].id]
      && P.AskedRequests(calls, values) == [DeferredRequest(calls[first.index].id, first.judgement.request)]
  {
    OneAsked(calls, first);
    assert [first, second][..1] == [first];
  }

  /**
   * The gate runs before any lookup: a batch of an asked call and an allowed call to a tool that is not registered suspends, a complete
   * request exists, and the driver refuses the plan of every complete request.
   */
  lemma UnregisteredStrands(env: Env, cfg: Config, ls: Loop) returns (s: Suspension, request: ResumeRequest)
    requires Reliable(env) && env.gate(ls.iteration, [Asked, Ghost]) == Decided(GhostDecision) && env.suspensionId(ls.iteration) == "s"
    requires ls.messages == [Message(RoleAssistant, [Use(Asked), Use(Ghost)])] && cfg.outputs == {} && "g" !in cfg.registered
    ensures ExecuteRegular(env, cfg, ls, [Asked, Ghost]).regular.suspension == Some(s) && Plannable(s, request)
    ensures forall r, decisions :: Plannable(s, r) && Planned(s, r, decisions) ==>
      ResolveTools(env, cfg, Restored(ls.messages, s.payload.tool), s.payload.tool, decisions) == ResolveFailed(true)
  {
    hide ResolveTools, P.GateResult, Accepted, ExecuteRegular, P.PolicyOf;
    var calls := [Asked, Ghost];
    s := GhostSuspended(env, cfg, ls);
    request := ResumeRequest("s", [ToolResolution("a", ResolutionApprove, None, None, "")], None);
    GhostSuspends();
    PermissionSuspensionInspects(GhostPolicy, calls, calls, AllowAll(2), GhostDecision, s);
    assert ResolutionIds(request.resolutions) == ["a"];
    forall r, decisions | Plannable(s, r) && Planned(s, r, decisions)
      ensures ResolveTools(env, cfg, Restored(ls.messages, s.payload.tool), s.payload.tool, decisions) == ResolveFailed(true)
    {
      PipelineRoundTrip(env, cfg, Restored(ls.messages, s.payload.tool), GhostPolicy, calls, calls, AllowAll(2), GhostDecision, s, r, decisions);
      GatePlan(GhostPolicy, calls, calls, AllowAll(2), GhostDecision, s, r, decisions);
      assert calls[1].id == "b";
    }
  }

  lemma GhostSuspended(env: Env, cfg: Config, ls: Loop) returns (s: Suspension)
    requires Reliable(env) && env.gate(ls.iteration, [Asked, Ghost]) == Decided(GhostDecision) && env.suspensionId(ls.iteration) == "s"
    requires ls.messages == [Message(RoleAssistant, [Use(Asked), Use(Ghost)])] && cfg.outputs == {}
    ensures ExecuteRegular(env, cfg, ls, [Asked, Ghost]).regular.suspension == Some(s)
    ensures GateSuspension(s, [Asked, Ghost], [Asked, Ghost], GhostDecision.deferral.value) && s.id == "s" && Accepted(ls.messages)
  {
    var calls, message := [Asked, Ghost], ls.messages[0];
    assert message.content[1..] == [Use(Ghost)] && [Use(Ghost)][1..] == [];
    assert PartUses([]) == [] && PartResults([]) == [];
    assert PartUses([Use(Ghost)]) == [Ghost] + PartUses([]) && PartResults([Use(Ghost)]) == [] + PartResults([]);
    assert PartUses(message.content) == [Asked] + PartUses([Use(Ghost)]) && PartResults(message.content) == [] + PartResults([Use(Ghost)]);
    assert GetToolUses(message) == calls && GetToolResults(message) == [];
    assert Advance(Closed, message) == Some(Frontier(calls, {}));
    assert ls.messages[1..] == [] && Run(Closed, ls.messages) == Some(Frontier(calls, {}));
    assert calls[1..] == [Ghost] && [Ghost][1..] == [];
    assert RegularCalls(cfg, []) == [] && RegularCalls(cfg, [Ghost]) == [Ghost] + RegularCalls(cfg, []);
    assert RegularCalls(cfg, calls) == [Asked] + RegularCalls(cfg, [Ghost]) == calls;
    GhostSuspends();
    var planned := Emit(env, ls, J.ToolBatchPlanned(calls)).0;
    assert GhostDecision.calls[0].kind == DispositionSuspend;
    s := NewSuspension(env, cfg, planned, calls, calls, GhostDecision.deferral.value, false).value;
    DriverSuspends(env, cfg, planned, calls, calls, GhostDecision.deferral.value);
  }

  // ---------------------------------------------------------------------
  // A suspension that cannot be inspected.

  const Cached := Disposition(DispositionReturn, Some(Executed(ToolResult("b", "g", "cached", false), NoCause)), false)

  const EarlierDecision := BatchDecision([ExecuteDisposition, Cached], None)

  const PartialDecision := BatchDecision([P.SuspendDisposition, Cached],
    Some(Deferral(P.PERMISSION_KIND, PermissionBatch(1, ["a"], [], [DeferredRequest("a", PermissionRequest("tool", "t", "t", true))]))))

  lemma PartialSuspends()
    ensures Acceptable([Asked, Ghost], EarlierDecision) && Acceptable([Asked, Ghost], PartialDecision) && Suspends(PartialDecision)
    ensures P.GateResult(GhostPolicy, [Asked, Ghost], EarlierDecision, PartialDecision)
  {
    hide P.JudgedIds, P.AskedRequests;
    var calls, current := [Asked, Ghost], EarlierDecision;
    var first := P.Evaluated(0, GhostPolicy(Asked));
    GhostJudges(Asked);
    assert |"t"| == 1 && |P.PERMISSION_KIND| > 0;
    assert P.Judged(GhostPolicy, calls, current, 1) == [first];
    var values := P.Judged(GhostPolicy, calls, current, 2);
    assert values == [first] && values[0] == first;
    assert P.AnyJudged(values, P.Ask) && !P.AnyJudged(values, P.Deny);
    OneAsked(calls, first);
    assert PartialDecision.calls[0].kind == DispositionSuspend;
  }

  /**
   * An earlier gate returns a result for one call of a batch and the permission gate asks about the other: the driver accepts the decision
   * and suspends, and no operator can inspect or plan that suspension.
   */
  lemma EarlierGateStrands(s: Suspension)
    requires GateSuspension(s, [Asked, Ghost], [Asked, Ghost], PartialDecision.deferral.value)
    ensures Acceptable([Asked, Ghost], EarlierDecision) && Acceptable([Asked, Ghost], PartialDecision)
    ensures P.GateResult(GhostPolicy, [Asked, Ghost], EarlierDecision, PartialDecision)
    ensures !SoundDeferral(s) && forall request :: !Plannable(s, request)
  {
    hide P.GateResult, P.JudgeCall;
    PartialSuspends();
    var calls := [Asked, Ghost];
    PermissionSuspensionInspects(GhostPolicy, calls, calls, EarlierDecision, PartialDecision, s);
    assert !P.Pending(EarlierDecision, 1);
  }
}
