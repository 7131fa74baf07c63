/** Tool-call and retry bounds of a turn, and the named results of a resolved suspension. */
module TurnBounds {
  import opened Messages
  import opened Pairing
  import opened Usages
  import opened Suspensions
  import opened ToolControl
  import opened Scheduler
  import opened ResumePlan
  import opened Turns
  import opened Resuming
  import opened TurnLaws
  import J = Journals

  // ---------------------------------------------------------------------
  // Retries.

  ghost function SumCounts(counts: map<string, nat>): nat {
    if counts == map[] then 0
    else
      var name :| name in counts;
      counts[name] + SumCounts(counts - {name})
  }

  lemma {:induction false} SumRemoves(counts: map<string, nat>, name: string)
    requires name in counts
    ensures SumCounts(counts) == counts[name] + SumCounts(counts - {name})
    decreases |counts|
  {
    var first :| first in counts && SumCounts(counts) == counts[first] + SumCounts(counts - {first});
    if first != name {
      SumRemoves(counts - {first}, name);
      SumRemoves(counts - {name}, first);
      assert counts - {first} - {name} == counts - {name} - {first};
    }
  }

  lemma SumIncrements(counts: map<string, nat>, name: string)
    ensures SumCounts(counts[name := CountOf(counts, name) + 1]) == SumCounts(counts) + 1
  {
    var after := counts[name := CountOf(counts, name) + 1];
    SumRemoves(after, name);
    assert after - {name} == counts - {name};
    if name in counts {
      SumRemoves(counts, name);
    } else {
      assert counts - {name} == counts;
    }
  }

  /** The total is the sum of the per-tool counts, and each stays within its tool's budget. */
  ghost predicate RetrySound(cfg: Config, ls: Loop) {
    && ls.totalRetries == SumCounts(ls.retryCounts)
    && forall name :: name in ls.retryCounts ==> ls.retryCounts[name] <= cfg.maxRetries(name)
  }

  lemma TakenOneSound(env: Env, cfg: Config, s: Stage, call: ToolUse, result: Executed)
    requires RetrySound(cfg, s.ls)
    ensures RetrySound(cfg, TakeResult(env, cfg, s, call, result).ls)
    ensures TakeResult(env, cfg, s, call, result).ls.usage.counters.toolCalls == s.ls.usage.counters.toolCalls + 1
  {
    hide Project;
    SumIncrements(s.ls.retryCounts, call.name);
  }

  lemma {:induction false} TakenSound(env: Env, cfg: Config, s: Stage, calls: seq<ToolUse>, slots: seq<Settled>)
    requires RetrySound(cfg, s.ls) && |slots| == |calls|
    ensures RetrySound(cfg, TakeResults(env, cfg, s, calls, slots).ls)
    ensures TakeResults(env, cfg, s, calls, slots).ls.usage.counters.toolCalls == s.ls.usage.counters.toolCalls + |calls|
    decreases calls
  {
    hide RetrySound, TakeResult;
    if calls != [] {
      TakenOneSound(env, cfg, s, calls[0], slots[0].result);
      TakenSound(env, cfg, TakeResult(env, cfg, s, calls[0], slots[0].result), calls[1..], slots[1..]);
    }
  }

  /** Tool calls counted so far never pass the limit, unless the run started beyond it. */
  predicate ToolBound(cfg: Config, start: int, ls: Loop) {
    cfg.limits.Some? && cfg.limits.value.maxToolCalls.Some? ==>
      ls.usage.counters.toolCalls <= cfg.limits.value.maxToolCalls.value || ls.usage.counters.toolCalls <= start
  }

  ghost predicate Bounded(cfg: Config, start: int, ls: Loop) {
    RetrySound(cfg, ls) && ToolBound(cfg, start, ls)
  }

  lemma SameBounds(cfg: Config, start: int, a: Loop, b: Loop)
    requires a.usage == b.usage && a.retryCounts == b.retryCounts && a.totalRetries == b.totalRetries
    ensures Bounded(cfg, start, a) <==> Bounded(cfg, start, b)
  {
  }

  lemma AdmitBounded(env: Env, cfg: Config, s: Stage, calls: seq<ToolUse>, resumed: bool, start: int)
    requires Bounded(cfg, start, s.ls) && WithinToolLimit(cfg, s.ls.usage, |calls|)
    ensures match Admit(env, cfg, s, calls, resumed)
      case Ran(stage) => Bounded(cfg, start, stage.ls)
      case Asked(ls, _) => Bounded(cfg, start, ls)
  {
    hide EmitStarted, FirstDeferral, AnyFailed, Slots, TakeResults, RetrySound;
    StartedCommits(env, s.ls, calls);
    var started := EmitStarted(env, s.ls, calls).0;
    SameBounds(cfg, start, started, s.ls);
    TakenSound(env, cfg, Stage(started, s.regular), calls, Slots(env, cfg, started, calls, resumed));
  }

  lemma RunAdmittedBounded(env: Env, cfg: Config, s: Stage, calls: seq<ToolUse>, regular: seq<ToolUse>, executable: seq<ToolUse>, start: int)
    requires Bounded(cfg, start, s.ls)
    ensures Bounded(cfg, start, RunAdmitted(env, cfg, s, calls, regular, executable).ls)
  {
    hide Bounded, Admit, NewSuspension, FailAll, SuspendableAlone, WithinToolLimit;
    if WithinToolLimit(cfg, s.ls.usage, |executable|) {
      AdmitBounded(env, cfg, s, executable, false, start);
    }
  }

  lemma StageBounded(env: Env, cfg: Config, ls: Loop, calls: seq<ToolUse>, start: int)
    requires Bounded(cfg, start, ls)
    ensures Bounded(cfg, start, RegularStage(env, cfg, ls, calls).ls)
  {
    hide Bounded, RunAdmitted, NewSuspension, FailAll, Suspends, RegularCalls, Returned, Executable, OutputIndex;
    var regular := RegularCalls(cfg, calls);
    var planned := Emit(env, ls, J.ToolBatchPlanned(regular)).0;
    SameBounds(cfg, start, planned, ls);
    var reply := env.gate(planned.iteration, regular);
    if reply.Decided? && Acceptable(regular, reply.decision) {
      RunAdmittedBounded(env, cfg, Stage(planned, Returned(NoRegular, regular, reply.decision.calls)), calls, regular,
                         Executable(regular, reply.decision.calls), start);
    }
  }

  lemma CompleteBounded(env: Env, cfg: Config, ls: Loop, assistant: Message, regular: Regular, start: int)
    requires Bounded(cfg, start, ls)
    ensures Bounded(cfg, start, CompleteWith(env, cfg, ls, assistant, regular).ls)
    ensures CompleteWith(env, cfg, ls, assistant, regular).ls.usage == ls.usage
  {
    hide Bounded, GetToolUses, TurnResults, OutputIndex, WithVerdict, JudgeTurn, CommittedAll, Inert, EmitResults;
    var calls := GetToolUses(assistant);
    if regular.suspension.None? {
      var added := JudgedTranscript(env, cfg, ls, assistant, calls, regular);
      var judged := JudgeTurn(env, cfg, ls, assistant, calls, regular);
      var results := WithVerdict(TurnResults(cfg, calls, regular), OutputIndex(cfg, calls), judged.verdict);
      ResultsCommit(env, judged.ls.(messages := judged.ls.messages + ResultMessages(results)), results);
      SameBounds(cfg, start, CompleteWith(env, cfg, ls, assistant, regular).ls, ls);
    }
  }

  // ---------------------------------------------------------------------
  // Resolved suspensions.

  lemma {:induction false} ExecutableFrom(cfg: Config, calls: seq<ToolUse>, ids: seq<string>)
    ensures ExecutableCalls(cfg, calls, ids).Some? ==> forall c :: c in ExecutableCalls(cfg, calls, ids).value ==> c in calls
    decreases ids
  {
    if ids != [] {
      CallNamedFound(calls, ids[0]);
      ExecutableFrom(cfg, calls, ids[1..]);
    }
  }

  lemma {:induction false} SortedNamed(cfg: Config, all: seq<ToolUse>, executable: seq<ToolUse>, handler: bool, decisions: seq<ToolResumeDecision>)
    requires DistinctIds(all) && forall i :: 0 <= i < |executable| ==> executable[i] in all
    ensures var sorted := SortDecisions(cfg, executable, handler, decisions);
      sorted.Some? ==> ResultsNamed(all, sorted.value.results) && From(sorted.value.toExecute, all) && |sorted.value.toExecute| <= |executable|
    decreases executable
  {
    hide ResultsNamed, DistinctIds, Among, DecisionOf;
    if executable == [] {
      EmptyNamed(all);
    } else {
      var before := executable[..|executable| - 1];
      SortedNamed(cfg, all, before, handler, decisions);
      var last, d := executable[|executable| - 1], DecisionOf(decisions, executable[|executable| - 1].id);
      var sorted := SortDecisions(cfg, before, handler, decisions);
      if sorted.Some? && d.Some? {
        if d.value.action == ResumeReturn && ReturnUsable(last, d.value) {
          RecordNamed(all, sorted.value.results, last, d.value.result.value);
        }
        OverriddenAmong(all, last, d.value);
      }
    }
  }

  lemma OverriddenAmong(all: seq<ToolUse>, call: ToolUse, d: ToolResumeDecision)
    requires call in all
    ensures Among(Overridden(call, d), all)
  {
    var k :| 0 <= k < |all| && all[k] == call;
  }

  /** Whatever the operator decided, every recorded result names its call and the transcript is untouched. */
  lemma ResolvedSound(env: Env, cfg: Config, ls: Loop, tool: ToolSuspension, decisions: seq<ToolResumeDecision>)
    requires DistinctIds(tool.calls)
    ensures var r := ResolveTools(env, cfg, ls, tool, decisions);
      r.ResolvedAs? ==> ResultsNamed(tool.calls, r.stage.regular.results) && SameTranscript(r.stage.ls, ls)
  {
    hide ResultsNamed, DistinctIds, Admit, NewSuspension, SuspendableAlone, WithinToolLimit, SameTranscript, SortDecisions,
      ExecutableCalls, From;
    EmptyNamed(tool.calls);
    SameReflexive(ls);
    ExecutableFrom(cfg, tool.calls, tool.executableIds);
    var executable := ExecutableCalls(cfg, tool.calls, tool.executableIds);
    if executable.Some? {
      SortedNamed(cfg, tool.calls, executable.value, tool.handlerSuspension, decisions);
      var sorted := SortDecisions(cfg, executable.value, tool.handlerSuspension, decisions);
      if sorted.Some? {
        var s := Stage(ls, NoRegular.(results := sorted.value.results));
        AdmitNamed(env, cfg, tool.calls, s, sorted.value.toExecute, tool.handlerSuspension);
        AdmitSame(env, cfg, s, sorted.value.toExecute, tool.handlerSuspension);
      }
    }
  }

  lemma ResolvedBounded(env: Env, cfg: Config, ls: Loop, tool: ToolSuspension, decisions: seq<ToolResumeDecision>, start: int)
    requires Bounded(cfg, start, ls)
    ensures var r := ResolveTools(env, cfg, ls, tool, decisions);
      r.ResolvedAs? ==> Bounded(cfg, start, r.stage.ls)
  {
    hide Bounded, Admit, NewSuspension, SuspendableAlone, WithinToolLimit, SortDecisions, ExecutableCalls;
    var executable := ExecutableCalls(cfg, tool.calls, tool.executableIds);
    if executable.Some? {
      var sorted := SortDecisions(cfg, executable.value, tool.handlerSuspension, decisions);
      if sorted.Some? && WithinToolLimit(cfg, ls.usage, |sorted.value.toExecute|) {
        AdmitBounded(env, cfg, Stage(ls, NoRegular.(results := sorted.value.results)), sorted.value.toExecute, tool.handlerSuspension, start);
      }
    }
  }

  /** A batch the gate admits outright runs as it stands. */
  lemma AdmittedDirectly(env: Env, cfg: Config, ls: Loop, calls: seq<ToolUse>)
    requires var regular := RegularCalls(cfg, calls);
      var (planned, ok) := Emit(env, ls, J.ToolBatchPlanned(regular));
      regular != [] && ok && env.gate(planned.iteration, regular) == Decided(AllowAll(|regular|))
    ensures var regular := RegularCalls(cfg, calls);
      ExecuteRegular(env, cfg, ls, calls)
        == RunAdmitted(env, cfg, Stage(Emit(env, ls, J.ToolBatchPlanned(regular)).0, NoRegular), calls, regular, regular)
  {
    hide RegularCalls, RunAdmitted;
    ExecutesEverything(RegularCalls(cfg, calls));
    AllowAllAcceptable(RegularCalls(cfg, calls));
  }

  /** A batch the gate suspends becomes the envelope over the same state. */
  lemma SuspendedByGate(env: Env, cfg: Config, ls: Loop, calls: seq<ToolUse>, decision: BatchDecision)
    requires var regular := RegularCalls(cfg, calls);
      var (planned, ok) := Emit(env, ls, J.ToolBatchPlanned(regular));
      && regular != [] && ok && env.gate(planned.iteration, regular) == Decided(decision)
      && Acceptable(regular, decision) && Suspends(decision) && Run(Closed, ls.messages).Some?
    ensures var regular := RegularCalls(cfg, calls);
      var planned := Emit(env, ls, J.ToolBatchPlanned(regular)).0;
      var s := NewSuspension(env, cfg, planned, calls, regular, decision.deferral.value, false);
      s.Some? && ExecuteRegular(env, cfg, ls, calls) == Stage(planned, NoRegular.(suspension := s))
  {
    hide RegularCalls, RunAdmitted, Acceptable;
  }
}
