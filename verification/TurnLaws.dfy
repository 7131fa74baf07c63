/** What every turn keeps: paired transcripts, named results, the committed suffix, and the tool and retry bounds. */
module TurnLaws {
  import opened Messages
  import opened Pairing
  import opened Usages
  import opened Suspensions
  import opened ToolControl
  import opened Scheduler
  import opened Turns
  import opened Resuming
  import J = Journals

  // ---------------------------------------------------------------------
  // Every recorded result names its call.

  predicate ResultsNamed(calls: seq<ToolUse>, results: map<string, Executed>) {
    forall i :: 0 <= i < |calls| && calls[i].id in results ==> Identified(calls[i], results[calls[i].id])
  }

  lemma RecordNamed(calls: seq<ToolUse>, results: map<string, Executed>, call: ToolUse, result: Executed)
    requires ResultsNamed(calls, results) && DistinctIds(calls) && call in calls && Identified(call, result)
    ensures ResultsNamed(calls, results[call.id := result])
  {
    var k :| 0 <= k < |calls| && calls[k] == call;
  }

  lemma {:induction false} FailAllNamed(all: seq<ToolUse>, results: map<string, Executed>, calls: seq<ToolUse>, text: string)
    requires ResultsNamed(all, results) && DistinctIds(all) && forall i :: 0 <= i < |calls| ==> calls[i] in all
    ensures ResultsNamed(all, FailAll(results, calls, text))
    decreases calls
  {
    hide ResultsNamed, DistinctIds;
    if calls != [] {
      RecordNamed(all, results, calls[0], ErrorResult(calls[0], text, OtherCause));
      FailAllNamed(all, results[calls[0].id := ErrorResult(calls[0], text, OtherCause)], calls[1..], text);
    }
  }

  lemma {:induction false} ReturnedNamed(all: seq<ToolUse>, s: Regular, calls: seq<ToolUse>, dispositions: seq<Disposition>)
    requires ResultsNamed(all, s.results) && DistinctIds(all) && |calls| == |dispositions|
    requires forall i :: 0 <= i < |calls| ==> calls[i] in all && Fits(calls[i], dispositions[i])
    ensures ResultsNamed(all, Returned(s, calls, dispositions).results)
    decreases calls
  {
    hide ResultsNamed, DistinctIds;
    if calls != [] {
      var d := dispositions[0];
      assert Fits(calls[0], d);
      if d.kind == DispositionReturn {
        RecordNamed(all, s.results, calls[0], d.result.value);
      }
      var next := s.(continues := s.continues || d.continues,
                     results := if d.kind == DispositionReturn && d.result.Some? then s.results[calls[0].id := d.result.value] else s.results);
      ReturnedNamed(all, next, calls[1..], dispositions[1..]);
    }
  }

  /** Some call of the batch has this ID and name; arguments may have been overridden. */
  predicate Among(call: ToolUse, all: seq<ToolUse>) {
    exists k :: 0 <= k < |all| && all[k].id == call.id && all[k].name == call.name
  }

  predicate From(calls: seq<ToolUse>, all: seq<ToolUse>) {
    forall i :: 0 <= i < |calls| ==> Among(calls[i], all)
  }

  lemma {:induction false} TakenNamed(env: Env, cfg: Config, all: seq<ToolUse>, s: Stage, calls: seq<ToolUse>, slots: seq<Settled>)
    requires ResultsNamed(all, s.regular.results) && DistinctIds(all) && |slots| == |calls|
    requires From(calls, all)
    ensures ResultsNamed(all, TakeResults(env, cfg, s, calls, slots).regular.results)
    decreases calls
  {
    hide ResultsNamed, DistinctIds, Among;
    if calls != [] {
      TakenOneNamed(env, cfg, all, s, calls[0], slots[0].result);
      TakenNamed(env, cfg, all, TakeResult(env, cfg, s, calls[0], slots[0].result), calls[1..], slots[1..]);
    }
  }

  lemma TakenOneNamed(env: Env, cfg: Config, all: seq<ToolUse>, s: Stage, call: ToolUse, result: Executed)
    requires ResultsNamed(all, s.regular.results) && DistinctIds(all)
    requires Among(call, all)
    ensures ResultsNamed(all, TakeResult(env, cfg, s, call, result).regular.results)
  {
    var k :| 0 <= k < |all| && all[k].id == call.id && all[k].name == call.name;
    ProjectionIsHonest(call, result, if cfg.processor then Some(env.process(call, result)) else None);
    hide Project;
    forall i | 0 <= i < |all| && all[i].id == call.id ensures all[i] == all[k] {}
  }

  lemma MembersFrom(calls: seq<ToolUse>, all: seq<ToolUse>)
    requires forall i :: 0 <= i < |calls| ==> calls[i] in all
    ensures From(calls, all)
  {
    forall i | 0 <= i < |calls| ensures Among(calls[i], all) {
      var k :| 0 <= k < |all| && all[k] == calls[i];
    }
  }

  lemma AdmitNamed(env: Env, cfg: Config, all: seq<ToolUse>, s: Stage, calls: seq<ToolUse>, resumed: bool)
    requires ResultsNamed(all, s.regular.results) && DistinctIds(all) && From(calls, all)
    ensures Admit(env, cfg, s, calls, resumed).Ran? ==> ResultsNamed(all, Admit(env, cfg, s, calls, resumed).stage.regular.results)
  {
    hide ResultsNamed, DistinctIds, EmitStarted, AnyFailed, FirstDeferral, Slots, TakeResults, From;
    var started := EmitStarted(env, s.ls, calls).0;
    TakenNamed(env, cfg, all, Stage(started, s.regular), calls, Slots(env, cfg, started, calls, resumed));
  }

  lemma {:induction false} ExecutableMembers(calls: seq<ToolUse>, dispositions: seq<Disposition>)
    requires |calls| == |dispositions|
    ensures forall c :: c in Executable(calls, dispositions) ==> c in calls
    ensures |Executable(calls, dispositions)| <= |calls|
    decreases calls
  {
    if calls != [] {
      ExecutableMembers(calls[1..], dispositions[1..]);
      assert calls == [calls[0]] + calls[1..];
    }
  }

  lemma RunAdmittedNamed(env: Env, cfg: Config, all: seq<ToolUse>, s: Stage, calls: seq<ToolUse>, regular: seq<ToolUse>, executable: seq<ToolUse>)
    requires ResultsNamed(all, s.regular.results) && DistinctIds(all) && forall i :: 0 <= i < |executable| ==> executable[i] in all
    ensures ResultsNamed(all, RunAdmitted(env, cfg, s, calls, regular, executable).regular.results)
  {
    hide ResultsNamed, DistinctIds, WithinToolLimit, SuspendableAlone, Admit, NewSuspension, FailAll;
    MembersFrom(executable, all);
    AdmitNamed(env, cfg, all, s, executable, false);
    forall text: string ensures ResultsNamed(all, FailAll(s.regular.results, executable, text)) {
      FailAllNamed(all, s.regular.results, executable, text);
    }
  }

  lemma ExecuteNamed(env: Env, cfg: Config, ls: Loop, calls: seq<ToolUse>)
    requires DistinctIds(calls)
    ensures ResultsNamed(calls, ExecuteRegular(env, cfg, ls, calls).regular.results)
  {
    var regular := RegularCalls(cfg, calls);
    RegularMembers(cfg, calls);
    forall i | 0 <= i < |regular| ensures regular[i] in calls { assert regular[i] in regular; }
    ExecuteNamedFor(env, cfg, ls, calls, regular);
  }

  lemma ExecuteNamedFor(env: Env, cfg: Config, ls: Loop, calls: seq<ToolUse>, regular: seq<ToolUse>)
    requires DistinctIds(calls) && regular == RegularCalls(cfg, calls) && forall i :: 0 <= i < |regular| ==> regular[i] in calls
    ensures ResultsNamed(calls, ExecuteRegular(env, cfg, ls, calls).regular.results)
  {
    hide DistinctIds, RegularCalls, RunAdmitted, NewSuspension, FailAll, Returned, Executable, Suspends;
    EmptyNamed(calls);
    hide ResultsNamed;
    forall text: string ensures ResultsNamed(calls, FailAll(map[], regular, text)) {
      FailAllNamed(calls, map[], regular, text);
    }
    var planned := Emit(env, ls, J.ToolBatchPlanned(regular)).0;
    var reply := env.gate(planned.iteration, regular);
    if reply.Decided? && Acceptable(regular, reply.decision) {
      var dispositions := reply.decision.calls;
      ReturnedNamed(calls, NoRegular, regular, dispositions);
      ExecutableMembers(regular, dispositions);
      var executable := Executable(regular, dispositions);
      forall i | 0 <= i < |executable| ensures executable[i] in calls {
        assert executable[i] in executable;
        var k :| 0 <= k < |regular| && regular[k] == executable[i];
      }
      RunAdmittedNamed(env, cfg, calls, Stage(planned, Returned(NoRegular, regular, dispositions)), calls, regular, executable);
    }
  }

  lemma EmptyNamed(calls: seq<ToolUse>)
    ensures ResultsNamed(calls, map[])
  {
  }

  // ---------------------------------------------------------------------
  // The regular stage leaves the transcript alone, and its events commit nothing.

  predicate SameTranscript(a: Loop, b: Loop) {
    && a.messages == b.messages && a.iteration == b.iteration && a.validationRetries == b.validationRetries && a.finish == b.finish
    && CommittedAll(a.emitted) == CommittedAll(b.emitted)
  }

  lemma EmitCommits(env: Env, ls: Loop, event: J.Event)
    ensures var (next, ok) := Emit(env, ls, event);
      && next.(emitted := ls.emitted) == ls
      && CommittedAll(next.emitted) == CommittedAll(ls.emitted) + (if ok then J.Committed(J.EventEntry(event, [], None)) else [])
  {
    var all := ls.emitted + [event];
    assert all[..|all| - 1] == ls.emitted;
  }

  lemma {:induction false} StartedCommits(env: Env, ls: Loop, calls: seq<ToolUse>)
    ensures SameTranscript(EmitStarted(env, ls, calls).0, ls)
    ensures EmitStarted(env, ls, calls).0.(emitted := ls.emitted) == ls
    decreases calls
  {
    hide CommittedAll;
    if calls != [] {
      EmitCommits(env, ls, J.ToolStarted(calls[0]));
      if Emit(env, ls, J.ToolStarted(calls[0])).1 {
        StartedCommits(env, Emit(env, ls, J.ToolStarted(calls[0])).0, calls[1..]);
      }
    }
  }

  lemma {:induction false} TakenSame(env: Env, cfg: Config, s: Stage, calls: seq<ToolUse>, slots: seq<Settled>)
    requires |slots| == |calls|
    ensures SameTranscript(TakeResults(env, cfg, s, calls, slots).ls, s.ls)
    ensures TakeResults(env, cfg, s, calls, slots).regular.suspension == s.regular.suspension
    decreases calls
  {
    if calls != [] {
      TakenSame(env, cfg, TakeResult(env, cfg, s, calls[0], slots[0].result), calls[1..], slots[1..]);
    }
  }

  lemma SameReflexive(ls: Loop)
    ensures SameTranscript(ls, ls)
  {
  }

  lemma SameTransitive(a: Loop, b: Loop, c: Loop)
    requires SameTranscript(a, b) && SameTranscript(b, c)
    ensures SameTranscript(a, c)
  {
  }

  lemma AdmitSame(env: Env, cfg: Config, s: Stage, calls: seq<ToolUse>, resumed: bool)
    ensures match Admit(env, cfg, s, calls, resumed)
      case Ran(stage) => SameTranscript(stage.ls, s.ls) && stage.regular.suspension == s.regular.suspension
      case Asked(ls, _) => SameTranscript(ls, s.ls)
  {
    hide EmitStarted, FirstDeferral, AnyFailed, Slots, SameTranscript, TakeResults;
    StartedCommits(env, s.ls, calls);
    var started := EmitStarted(env, s.ls, calls).0;
    var slots := Slots(env, cfg, started, calls, resumed);
    TakenSame(env, cfg, Stage(started, s.regular), calls, slots);
    SameTransitive(TakeResults(env, cfg, Stage(started, s.regular), calls, slots).ls, started, s.ls);
  }

  lemma RunAdmittedSame(env: Env, cfg: Config, s: Stage, calls: seq<ToolUse>, regular: seq<ToolUse>, executable: seq<ToolUse>)
    ensures SameTranscript(RunAdmitted(env, cfg, s, calls, regular, executable).ls, s.ls)
  {
    hide SameTranscript, Admit, NewSuspension, FailAll, WithinToolLimit, SuspendableAlone;
    SameReflexive(s.ls);
    AdmitSame(env, cfg, s, executable, false);
  }

  lemma ExecuteSame(env: Env, cfg: Config, ls: Loop, calls: seq<ToolUse>)
    ensures SameTranscript(ExecuteRegular(env, cfg, ls, calls).ls, ls)
  {
    hide CommittedAll, RunAdmitted, NewSuspension, FailAll, Suspends, RegularCalls, Returned, Executable;
    var regular := RegularCalls(cfg, calls);
    var (planned, ok) := Emit(env, ls, J.ToolBatchPlanned(regular));
    EmitCommits(env, ls, J.ToolBatchPlanned(regular));
    assert CommittedAll(ls.emitted) + [] == CommittedAll(ls.emitted);
    var reply := env.gate(planned.iteration, regular);
    if reply.Decided? && Acceptable(regular, reply.decision) {
      RunAdmittedSame(env, cfg, Stage(planned, Returned(NoRegular, regular, reply.decision.calls)), calls, regular,
                      Executable(regular, reply.decision.calls));
    }
  }

  /** Regular calls suspend a turn only with an envelope over the unchanged transcript. */
  lemma StageSame(env: Env, cfg: Config, ls: Loop, calls: seq<ToolUse>)
    ensures SameTranscript(RegularStage(env, cfg, ls, calls).ls, ls)
  {
    ExecuteSame(env, cfg, ls, calls);
  }

  // ---------------------------------------------------------------------
  // A completed turn pairs every call.

  lemma {:induction false} NothingResolved(calls: seq<ToolUse>)
    ensures UnresolvedFrom(calls, {}) == calls
    decreases calls
  {
    if calls != [] {
      NothingResolved(calls[1..]);
    }
  }

  lemma TurnResultNamed(cfg: Config, calls: seq<ToolUse>, i: nat, regular: Regular)
    requires ResultsNamed(calls, regular.results) && i < |calls|
    ensures Identified(calls[i], TurnResult(cfg, calls, i, regular))
  {
    hide OutputIndex;
  }

  lemma VerdictNamed(env: Env, cfg: Config, ls: Loop, assistant: Message, calls: seq<ToolUse>, regular: Regular)
    ensures var verdict := JudgeTurn(env, cfg, ls, assistant, calls, regular).verdict;
      verdict.Some? ==> OutputIndex(cfg, calls) < |calls| && Identified(calls[OutputIndex(cfg, calls)], verdict.value)
  {
    hide OutputIndex, Emit;
  }

  /** One slot per call, each naming its call, whatever branch filled it. */
  lemma TurnResultsNamed(env: Env, cfg: Config, ls: Loop, assistant: Message, calls: seq<ToolUse>, regular: Regular)
    requires ResultsNamed(calls, regular.results)
    ensures var judged := JudgeTurn(env, cfg, ls, assistant, calls, regular);
      var results := WithVerdict(TurnResults(cfg, calls, regular), OutputIndex(cfg, calls), judged.verdict);
      |results| == |calls| && forall i :: 0 <= i < |calls| ==> Identified(calls[i], results[i])
  {
    hide JudgeTurn, TurnResult, ResultsNamed, OutputIndex, Identified;
    VerdictNamed(env, cfg, ls, assistant, calls, regular);
    forall i | 0 <= i < |calls| ensures Identified(calls[i], TurnResults(cfg, calls, regular)[i]) {
      TurnResultNamed(cfg, calls, i, regular);
    }
  }

  lemma ResultsAnswer(calls: seq<ToolUse>, results: seq<Executed>)
    requires |results| == |calls| && forall i :: 0 <= i < |calls| ==> Identified(calls[i], results[i])
    ensures AnswersEach(calls, ResultMessages(results))
  {
  }

  lemma FeedbackInert(text: string)
    ensures Inert(FeedbackMessage(text)) && FeedbackMessage(text).role == RoleUser
  {
    assert PartUses(FeedbackMessage(text).content[1..]) == [] && PartResults(FeedbackMessage(text).content[1..]) == [];
  }

  /** Judging adds at most one inert feedback message, for a plain text candidate only. */
  lemma JudgeTranscript(env: Env, cfg: Config, ls: Loop, assistant: Message, out: Option<ToolUse>) returns (added: Transcript)
    ensures var judged := Judge(env, cfg, ls, assistant, out);
      && judged.ls == ls.(messages := ls.messages + added, validationRetries := judged.ls.validationRetries, emitted := judged.ls.emitted)
      && (Reliable(env) ==> CommittedAll(judged.ls.emitted) == CommittedAll(ls.emitted) + added)
    ensures |added| <= 1 && AllInert(added) && (out.Some? ==> added == []) && forall m :: m in added ==> m.role == RoleUser
  {
    hide CommittedAll, FeedbackMessage, Inert;
    added := [];
    match env.evaluate(ls.iteration, assistant)
    case Some(text) =>
      if out.None? {
        added := [FeedbackMessage(text)];
        FeedbackInert(text);
        var fed := ls.(validationRetries := ls.validationRetries + 1, messages := ls.messages + added);
        EmitCommits(env, fed, J.MessagesInjected(added));
      } else {
        assert ls.messages + [] == ls.messages && CommittedAll(ls.emitted) + [] == CommittedAll(ls.emitted);
      }
    case None =>
      EmitCommits(env, ls, J.OutputValidated);
      assert ls.messages + [] == ls.messages && CommittedAll(ls.emitted) + [] == CommittedAll(ls.emitted);
  }

  lemma JudgedTranscript(env: Env, cfg: Config, ls: Loop, assistant: Message, calls: seq<ToolUse>, regular: Regular) returns (added: Transcript)
    ensures var judged := JudgeTurn(env, cfg, ls, assistant, calls, regular);
      && judged.ls == ls.(messages := ls.messages + added, validationRetries := judged.ls.validationRetries, emitted := judged.ls.emitted)
      && (Reliable(env) ==> CommittedAll(judged.ls.emitted) == CommittedAll(ls.emitted) + added)
    ensures |added| <= 1 && AllInert(added) && (calls != [] ==> added == []) && forall m :: m in added ==> m.role == RoleUser
  {
    hide CommittedAll, Judge, OutputIndex, Inert;
    var index := OutputIndex(cfg, calls);
    var out := if index < |calls| then Some(calls[index]) else None;
    if regular.fatal.None? && (calls == [] || out.Some?) && !regular.continues {
      added := JudgeTranscript(env, cfg, ls, assistant, out);
    } else {
      added := [];
      assert ls.messages + [] == ls.messages && CommittedAll(ls.emitted) + [] == CommittedAll(ls.emitted);
    }
  }

  lemma {:induction false} ResultsCommit(env: Env, ls: Loop, results: seq<Executed>)
    ensures var (next, ok) := EmitResults(env, ls, results);
      && next.(emitted := ls.emitted) == ls
      && (ok ==> CommittedAll(next.emitted) == CommittedAll(ls.emitted) + ResultMessages(results))
    decreases results
  {
    hide CommittedAll;
    if results == [] {
      assert CommittedAll(ls.emitted) + ResultMessages([]) == CommittedAll(ls.emitted);
    } else {
      var e := J.ToolResultCommitted(results[0].result);
      EmitCommits(env, ls, e);
      var (next, ok) := Emit(env, ls, e);
      if ok {
        ResultsCommit(env, next, results[1..]);
        assert ResultMessages(results) == [J.ResultMessage(results[0].result)] + ResultMessages(results[1..]);
        assert CommittedAll(ls.emitted) + [J.ResultMessage(results[0].result)] + ResultMessages(results[1..])
            == CommittedAll(ls.emitted) + ResultMessages(results);
      }
    }
  }

  /** The frontier right after an assistant message with these calls. */
  predicate Opened(messages: Transcript, calls: seq<ToolUse>) {
    if calls == [] then FullyPaired(messages) else Run(Closed, messages) == Some(Frontier(calls, {}))
  }

  /**
   * A turn that does not suspend leaves the transcript fully paired: each call of the assistant message gets exactly one
   * result with its own ID and name, whatever the gate, the handlers, the end strategy or an error did.
   */
  lemma CompletePairs(env: Env, cfg: Config, ls: Loop, assistant: Message, regular: Regular)
    requires var calls := GetToolUses(assistant); DistinctIds(calls) && Opened(ls.messages, calls) && ResultsNamed(calls, regular.results)
    ensures var c := CompleteWith(env, cfg, ls, assistant, regular);
      && c.ls.iteration == ls.iteration
      && (c.outcome.suspension.Some? <==> regular.suspension.Some?)
      && (c.outcome.suspension.Some? ==> c.ls == ls)
      && (c.outcome.suspension.None? ==>
            && FullyPaired(c.ls.messages) && |c.outcome.results| == |GetToolUses(assistant)|
            && forall i :: 0 <= i < |c.outcome.results| ==> Identified(GetToolUses(assistant)[i], c.outcome.results[i]))
  {
    hide GetToolUses, TurnResults, OutputIndex, WithVerdict, JudgeTurn, ResultsNamed, CommittedAll, Identified, DistinctIds;
    var calls := GetToolUses(assistant);
    if regular.suspension.None? {
      TurnResultsNamed(env, cfg, ls, assistant, calls, regular);
      var added := JudgedTranscript(env, cfg, ls, assistant, calls, regular);
      var judged := JudgeTurn(env, cfg, ls, assistant, calls, regular);
      var results := WithVerdict(TurnResults(cfg, calls, regular), OutputIndex(cfg, calls), judged.verdict);
      ResultsCommit(env, judged.ls.(messages := judged.ls.messages + ResultMessages(results)), results);
      AnsweredPairs(ls.messages, added, calls, results);
    }
  }

  lemma AnsweredPairs(messages: Transcript, added: Transcript, calls: seq<ToolUse>, results: seq<Executed>)
    requires DistinctIds(calls) && Opened(messages, calls)
    requires |results| == |calls| && forall i :: 0 <= i < |calls| ==> Identified(calls[i], results[i])
    requires |added| <= 1 && AllInert(added) && (calls != [] ==> added == [])
    ensures FullyPaired(messages + added + ResultMessages(results))
  {
    hide Advance;
    if calls != [] {
      assert messages + added == messages;
      NothingResolved(calls);
      ResultsAnswer(calls, results);
      RunKeepsShape(Closed, messages);
      AnswersClose(Frontier(calls, {}), ResultMessages(results));
      RunConcat(Closed, messages, ResultMessages(results));
    } else {
      if added == [] {
        assert messages + added == messages;
      } else {
        assert added == [added[0]];
        InertStaysClosed(added[0]);
        RunSnoc(Closed, messages, added[0]);
      }
      assert messages + added + ResultMessages(results) == messages + added;
    }
  }

  /** The transcript after a turn is the transcript before it and what the sink committed. */
  lemma CompleteMirrors(env: Env, cfg: Config, ls: Loop, assistant: Message, regular: Regular, base: Transcript)
    requires Reliable(env) && ls.messages == base + CommittedAll(ls.emitted)
    ensures var c := CompleteWith(env, cfg, ls, assistant, regular);
      c.ls.messages == base + CommittedAll(c.ls.emitted)
  {
    hide GetToolUses, TurnResults, OutputIndex, WithVerdict, JudgeTurn, CommittedAll, Inert;
    var calls := GetToolUses(assistant);
    if regular.suspension.None? {
      var added := JudgedTranscript(env, cfg, ls, assistant, calls, regular);
      var judged := JudgeTurn(env, cfg, ls, assistant, calls, regular);
      assert base + CommittedAll(ls.emitted) + added == base + (CommittedAll(ls.emitted) + added);
      var results := WithVerdict(TurnResults(cfg, calls, regular), OutputIndex(cfg, calls), judged.verdict);
      var committed := judged.ls.(messages := judged.ls.messages + ResultMessages(results));
      ResultsCommit(env, committed, results);
      ResultsAlike(env, committed, committed, results);
      assert base + CommittedAll(judged.ls.emitted) + ResultMessages(results)
          == base + (CommittedAll(judged.ls.emitted) + ResultMessages(results));
    }
  }
}
