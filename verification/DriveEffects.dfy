/** What a whole drive runs and answers, event by event. */
module DriveEffects {
  import opened Messages
  import opened Pairing
  import opened Usages
  import opened Suspensions
  import opened Selections
  import opened ToolControl
  import opened ResumePlan
  import opened Turns
  import opened Resuming
  import opened TurnBounds
  import opened Drives
  import opened DriveLaws
  import opened DriveAccounts
  import opened Requests
  import opened TurnLaws
  import P = Protocols
  import E = Effects
  import T = TurnEffects
  import A = TurnAnswers
  import J = Journals

  // ---------------------------------------------------------------------
  // Events that are about neither answers nor calls.

  predicate Aside(event: J.Event) {
    !event.AssistantCommitted? && !event.TurnStarted? && !Works(event)
  }

  /** Work on the calls of a turn. */
  predicate Works(event: J.Event) {
    event.ToolBatchPlanned? || event.ToolStarted? || event.ToolResultCommitted?
  }

  predicate OnlyAside(a: seq<J.Event>, b: seq<J.Event>) {
    a <= b && forall i :: |a| <= i < |b| ==> Aside(b[i])
  }

  lemma EmitAside(env: Env, ls: Loop, event: J.Event)
    ensures Aside(event) ==> OnlyAside(ls.emitted, Emit(env, ls, event).0.emitted)
    ensures Emit(env, ls, event).0.usage == ls.usage && Emit(env, ls, event).0.iteration == ls.iteration
    ensures Reliable(env) ==> Emit(env, ls, event).0 == ls.(emitted := ls.emitted + [event])
  {
  }

  lemma AsideChain(a: seq<J.Event>, b: seq<J.Event>, c: seq<J.Event>)
    requires OnlyAside(a, b) && OnlyAside(b, c)
    ensures OnlyAside(a, c)
  {
    forall i | |a| <= i < |c| ensures Aside(c[i]) {
      assert i < |b| ==> c[i] == b[i];
    }
  }

  lemma {:induction false} AsideReads(a: seq<J.Event>, b: seq<J.Event>)
    requires OnlyAside(a, b)
    ensures E.StartedIn(b) == E.StartedIn(a) && TurnsIn(b) == TurnsIn(a)
    decreases |b|
  {
    if |a| == |b| {
      assert a == b;
    } else {
      AsideReads(a, b[..|b| - 1]);
      assert Aside(b[|b| - 1]);
    }
  }

  lemma TwoAside(env: Env, ls: Loop, first: J.Event, second: J.Event)
    requires Aside(first) && Aside(second)
    ensures var one := Emit(env, ls, first).0; OnlyAside(ls.emitted, one.emitted) && OnlyAside(ls.emitted, Emit(env, one, second).0.emitted)
  {
    hide Emit, Aside;
    EmitAside(env, ls, first);
    EmitAside(env, Emit(env, ls, first).0, second);
    AsideChain(ls.emitted, Emit(env, ls, first).0.emitted, Emit(env, Emit(env, ls, first).0, second).0.emitted);
  }

  lemma EndsAside(env: Env, ls: Loop)
    ensures forall error: DriveError :: OnlyAside(ls.emitted, Failed(env, ls, error).ls.emitted)
    ensures OnlyAside(ls.emitted, Interrupted(env, ls).ls.emitted)
    ensures OnlyAside(ls.emitted, Completes(env, ls).ls.emitted) && OnlyAside(ls.emitted, Stops(env, ls).ls.emitted)
  {
    TwoAside(env, ls, J.RunFailed, J.RunEnded);
    TwoAside(env, ls, J.RunInterrupted, J.RunEnded);
    TwoAside(env, ls, J.RunCompleted, J.RunEnded);
    EmitAside(env, ls, J.RunEnded);
    hide Emit;
    assert forall l: Loop :: Failed(env, l, SinkFailed).ls == l;
    assert OnlyAside(ls.emitted, ls.emitted);
    hide OnlyAside;
  }

  function Left(t: TurnEnd): Loop {
    match t case Again(next) => next case Over(end) => end.ls
  }

  /** The end of a turn is told first, and nothing about calls after it. */
  lemma FinishAside(env: Env, cfg: Config, ls: Loop, outcome: Outcome)
    requires Reliable(env)
    ensures var t := FinishTurn(env, cfg, ls, outcome);
      && ls.emitted + [J.TurnEnded(ls.usage)] <= Left(t).emitted && OnlyAside(ls.emitted, Left(t).emitted)
      && (t.Again? ==>
            && t.ls.usage == ls.usage && t.ls.iteration == ls.iteration
            && forall start :: Told(start, t.ls.emitted) == ls.usage.counters)
  {
    var ended := Emit(env, ls, J.TurnEnded(ls.usage)).0;
    EmitAside(env, ls, J.TurnEnded(ls.usage));
    assert ended.emitted == ls.emitted + [J.TurnEnded(ls.usage)] && Aside(J.TurnEnded(ls.usage));
    var told := Consulted(env, cfg, ended, outcome.candidate);
    EndsAside(env, ended);
    EndsAside(env, told);
    var reply := HookAnswer(env, cfg, ended, outcome.candidate);
    if reply.Decision? {
      var fed := told.(messages := told.messages + reply.inject);
      EmitAside(env, fed, J.MessagesInjected(reply.inject));
      EndsAside(env, Emit(env, fed, J.MessagesInjected(reply.inject)).0);
    }
    hide Emit, Failed, Completes, Stops, HookAnswer, ValidDecision, Aside, Reliable;
    AfterEnded(ls.emitted, ended.emitted, Left(FinishTurn(env, cfg, ls, outcome)).emitted);
  }

  // ---------------------------------------------------------------------
  // What a turn leads to.

  /** A decision of the hook the driver takes: messages from the user's side if and only if the run is to continue with them. */
  predicate Admissible(action: TurnAction, inject: Transcript) {
    && !action.TurnUnknown? && (action.TurnContinue? <==> inject != [])
    && forall i :: 0 <= i < |inject| ==> inject[i].role == RoleUser
  }

  /**
   * What is said once the turn is completed: that it ended, and then that the run failed, if something in the turn was fatal or the hook's
   * answer is no good; the messages the hook gave; that the run ended, or completed if the turn stands for its output; or the next round.
   */
  predicate Follows(env: Env, cfg: Config, ls: Loop, outcome: Outcome, events: seq<J.Event>) {
    && ls.emitted + [J.TurnEnded(ls.usage)] <= events
    && var rest := events[|ls.emitted| + 1..];
       var reply := if cfg.hooked then env.hook(ls.iteration, ls.messages, outcome.candidate) else Decision(TurnDefault, []);
       if outcome.fatal.Some? || reply.HookError? || !Admissible(reply.action, reply.inject) then [J.RunFailed, J.RunEnded] <= rest
       else match reply.action
         case TurnContinue => rest != [] && rest[0] == J.MessagesInjected(reply.inject)
         case TurnStop => if outcome.candidate then [J.RunCompleted, J.RunEnded] <= rest else [J.RunEnded] <= rest
         case TurnDefault =>
           if outcome.candidate && !outcome.continues then [J.RunCompleted, J.RunEnded] <= rest
           else rest != [] ==> P.BeginsRound(rest[0])
         case TurnUnknown => false
  }

  lemma TwoSaid(env: Env, ls: Loop, first: J.Event, second: J.Event)
    requires Reliable(env)
    ensures Emit(env, ls, first).1 && Emit(env, Emit(env, ls, first).0, second).1
    ensures Emit(env, Emit(env, ls, first).0, second).0.emitted == ls.emitted + [first, second]
  {
  }

  lemma FinishFollows(env: Env, cfg: Config, ls: Loop, outcome: Outcome)
    requires Reliable(env)
    ensures Follows(env, cfg, ls, outcome, Left(FinishTurn(env, cfg, ls, outcome)).emitted)
  {
    EmitAside(env, ls, J.TurnEnded(ls.usage));
    EmitsReliablyHere(env, ls, J.TurnEnded(ls.usage));
    var ended := Emit(env, ls, J.TurnEnded(ls.usage)).0;
    var told := Consulted(env, cfg, ended, outcome.candidate);
    TwoSaid(env, ended, J.RunFailed, J.RunEnded);
    TwoSaid(env, told, J.RunFailed, J.RunEnded);
    TwoSaid(env, told, J.RunCompleted, J.RunEnded);
    EmitAside(env, told, J.RunEnded);
    EmitsReliablyHere(env, told, J.RunEnded);
    var reply := HookAnswer(env, cfg, ended, outcome.candidate);
    if reply.Decision? {
      var fed := told.(messages := told.messages + reply.inject);
      EmitAside(env, fed, J.MessagesInjected(reply.inject));
      EmitsReliablyHere(env, fed, J.MessagesInjected(reply.inject));
    }
    hide Emit, Reliable;
    assert told.emitted == ls.emitted + [J.TurnEnded(ls.usage)] == ended.emitted;
  }

  lemma AfterEnded(a: seq<J.Event>, b: seq<J.Event>, c: seq<J.Event>)
    requires OnlyAside(a, b) && OnlyAside(b, c)
    ensures OnlyAside(a, c) && b <= c
  {
    hide Aside;
    AsideChain(a, b, c);
  }

  // ---------------------------------------------------------------------
  // One turn among the events of its drive.

  /** A turn: the loop when its answer was committed, what was put to the gate, what ran, the fate of each call, and the turn completed. */
  datatype Record = Record(ls: Loop, regular: seq<ToolUse>, run: seq<ToolUse>, fates: seq<T.Fate>, done: Completed)

  /** The answer may be committed: it is one, it is whole, and with it the tokens stay within their limits. */
  predicate MayCommit(cfg: Config, before: Counters, message: Message, usage: Counters, finish: FinishReason) {
    && message.content != [] && finish != FinishError && finish != FinishLength
    && (cfg.limits.Some? ==>
          var l := cfg.limits.value;
          && (l.maxRequestTokens.Some? ==> before.promptTokens + usage.promptTokens <= l.maxRequestTokens.value)
          && (l.maxResponseTokens.Some? ==> before.completionTokens + usage.completionTokens <= l.maxResponseTokens.value)
          && (l.maxTotalTokens.Some? ==> before.totalTokens + usage.totalTokens <= l.maxTotalTokens.value))
  }

  /** One more request, and its tokens. */
  predicate Counted(before: Counters, one: Counters, after: Counters) {
    && after.requests == before.requests + 1 && after.toolCalls == before.toolCalls
    && after.promptTokens - before.promptTokens == one.promptTokens && after.completionTokens - before.completionTokens == one.completionTokens
    && after.totalTokens - before.totalTokens == one.totalTokens && after.reasoningTokens - before.reasoningTokens == one.reasoningTokens
    && after.cacheReadTokens - before.cacheReadTokens == one.cacheReadTokens
    && after.cacheCreationTokens - before.cacheCreationTokens == one.cacheCreationTokens
  }

  /** The usage told when the last turn ended. */
  function Told(start: Counters, events: seq<J.Event>): Counters
    decreases |events|
  {
    if events == [] then start
    else if events[|events| - 1].TurnEnded? then events[|events| - 1].usage.counters
    else Told(start, events[..|events| - 1])
  }

  /** The answer is what the model said to the transcript so far, it may be committed, and its tokens are counted on what was told before. */
  ghost predicate Replied(env: Env, cfg: Config, before: Counters, ls: Loop, message: Message) {
    && ls.messages != [] && ls.messages[|ls.messages| - 1] == message
    && exists usage, finish | env.respond(ls.iteration, ls.messages[..|ls.messages| - 1]) == Answered(message, usage, finish) ::
         MayCommit(cfg, before, message, usage, finish) && Counted(before, usage, ls.usage.counters)
  }

  /**
   * The answer at `k` and its turn: it answers everything committed before, at the iteration its place gives it, and the turn runs and
   * answers its calls as the gate decided. The turn's end, or its suspension, is said next.
   */
  ghost predicate Accounted(env: Env, cfg: Config, base: Transcript, first: int, used: Counters, events: seq<J.Event>, k: nat, t: Record) {
    var e := |t.done.ls.emitted|;
    && k < e < |events| && events[k].AssistantCommitted?
    && t.ls.emitted == events[..k + 1] && t.done.ls.emitted == events[..e]
    && t.ls.messages == base + CommittedAll(events[..k + 1]) && t.ls.iteration + 1 == first + TurnsIn(events[..k])
    && t.ls.usage.counters.toolCalls == used.toolCalls + |E.StartedIn(events[..k])|
    && Replied(env, cfg, Told(used, events[..k]), t.ls, events[k].message)
    && A.TurnObeys(env, cfg, t.ls, events[k].message, t.regular, t.run, t.fates, t.done)
    && (if t.done.outcome.suspension.Some? then events[e] == J.RunSuspended(t.done.outcome.suspension.value)
        else Follows(env, cfg, t.done.ls, t.done.outcome, events))
  }

  /** Work on calls belongs to the answer before it, with nothing but work on that turn in between. */
  predicate Owned(events: seq<J.Event>, from: nat, k: nat)
    requires k < |events|
  {
    exists j :: from <= j < k && events[j].AssistantCommitted? && forall i :: j < i <= k ==> Routine(events[i])
  }

  /** From `from` on, every answer is accounted for, and so is all work on calls. */
  ghost predicate AllAccounted(env: Env, cfg: Config, base: Transcript, first: int, used: Counters, from: nat, events: seq<J.Event>) {
    forall k :: from <= k < |events| ==>
      && (events[k].AssistantCommitted? ==> exists t :: Accounted(env, cfg, base, first, used, events, k, t))
      && (Works(events[k]) ==> Owned(events, from, k))
  }

  lemma AccountedLater(env: Env, cfg: Config, base: Transcript, first: int, used: Counters, a: seq<J.Event>, b: seq<J.Event>, k: nat, t: Record)
    requires Accounted(env, cfg, base, first, used, a, k, t) && a <= b && (|a| < |b| ==> P.BeginsRound(b[|a|]))
    ensures Accounted(env, cfg, base, first, used, b, k, t)
  {
    hide A.TurnObeys, Replied, TurnsIn, E.StartedIn, CommittedAll, Follows;
    var e := |t.done.ls.emitted|;
    if t.done.outcome.suspension.None? {
      FollowsLater(env, cfg, t.done.ls, t.done.outcome, a, b);
    }
    assert b[..k + 1] == a[..k + 1] && b[..e] == a[..e] && b[..k] == a[..k] && b[k] == a[k] && b[e] == a[e];
  }

  lemma FollowsLater(env: Env, cfg: Config, ls: Loop, outcome: Outcome, a: seq<J.Event>, b: seq<J.Event>)
    requires Follows(env, cfg, ls, outcome, a) && a <= b && (|a| < |b| ==> P.BeginsRound(b[|a|]))
    ensures Follows(env, cfg, ls, outcome, b)
  {
    hide Admissible, P.BeginsRound;
    var from := |ls.emitted| + 1;
    assert a[from..] <= b[from..];
    assert b[from..] != [] && a[from..] == [] ==> b[from..][0] == b[|a|];
    assert a[from..] != [] ==> b[from..][0] == a[from..][0];
  }

  lemma AccountedOn(env: Env, cfg: Config, base: Transcript, first: int, used: Counters, from: nat, a: seq<J.Event>, b: seq<J.Event>)
    requires AllAccounted(env, cfg, base, first, used, from, a) && from <= |a|
    requires AllAccounted(env, cfg, base, first, used, |a|, b) && a <= b && (|a| < |b| ==> P.BeginsRound(b[|a|]))
    ensures AllAccounted(env, cfg, base, first, used, from, b)
  {
    hide Accounted;
    forall k | from <= k < |b|
      ensures b[k].AssistantCommitted? ==> exists t :: Accounted(env, cfg, base, first, used, b, k, t)
      ensures Works(b[k]) ==> Owned(b, from, k)
    {
      if k < |a| {
        assert b[k] == a[k];
        if a[k].AssistantCommitted? {
          var t :| Accounted(env, cfg, base, first, used, a, k, t);
          AccountedLater(env, cfg, base, first, used, a, b, k, t);
        }
        if Works(a[k]) {
          var j :| from <= j < k && a[j].AssistantCommitted? && forall i :: j < i <= k ==> Routine(a[i]);
          assert b[j] == a[j] && forall i :: j < i <= k ==> b[i] == a[i];
        }
      }
    }
  }

  lemma AsideAccounted(env: Env, cfg: Config, base: Transcript, first: int, used: Counters, a: seq<J.Event>, b: seq<J.Event>)
    requires OnlyAside(a, b)
    ensures AllAccounted(env, cfg, base, first, used, |a|, b)
  {
  }

  lemma AccountedShape(env: Env, cfg: Config, base: Transcript, first: int, used: Counters, events: seq<J.Event>, k: nat, t: Record)
    requires Accounted(env, cfg, base, first, used, events, k, t)
    ensures k < |t.done.ls.emitted| < |events| && events[k].AssistantCommitted?
  {
    hide A.TurnObeys, Replied, TurnsIn, E.StartedIn, CommittedAll;
  }

  /** An answer, work on its turn, and nothing of either after the turn. */
  lemma TurnAccounted(env: Env, cfg: Config, base: Transcript, first: int, used: Counters, from: nat, events: seq<J.Event>, k: nat, t: Record)
    requires from <= k && Accounted(env, cfg, base, first, used, events, k, t)
    requires forall i :: from <= i < k ==> !events[i].AssistantCommitted? && !Works(events[i])
    requires forall i :: k < i < |t.done.ls.emitted| ==> Routine(events[i])
    requires OnlyAside(t.done.ls.emitted, events)
    ensures AllAccounted(env, cfg, base, first, used, from, events)
  {
    hide Accounted;
    AccountedShape(env, cfg, base, first, used, events, k, t);
    var e := |t.done.ls.emitted|;
    forall i | from <= i < |events|
      ensures events[i].AssistantCommitted? ==> exists t :: Accounted(env, cfg, base, first, used, events, i, t)
      ensures Works(events[i]) ==> Owned(events, from, i)
    {
      if i == k {
        assert Accounted(env, cfg, base, first, used, events, i, t);
      } else if k < i < e && Works(events[i]) {
        assert events[k].AssistantCommitted? && forall m :: k < m <= i ==> Routine(events[m]);
      } else if i >= e {
        assert Aside(events[i]);
      }
    }
  }

  // ---------------------------------------------------------------------
  // One turn.

  lemma {:induction false} AnswerRecorded(env: Env, cfg: Config, base: Transcript, first: int, used: Counters, ls: Loop, message: Message)
      returns (t: Record)
    requires Reliable(env) && DistinctIds(GetToolUses(message)) && Run(Closed, ls.messages).Some?
    requires ls.emitted != [] && ls.emitted[|ls.emitted| - 1] == J.AssistantCommitted(message)
    requires Replied(env, cfg, Told(used, ls.emitted[..|ls.emitted| - 1]), ls, message)
    requires ls.messages == base + CommittedAll(ls.emitted) && ls.iteration + 1 == first + TurnsIn(ls.emitted[..|ls.emitted| - 1])
    requires ls.usage.counters.toolCalls == used.toolCalls + |E.StartedIn(ls.emitted[..|ls.emitted| - 1])|
    ensures var k, end := |ls.emitted| - 1, EndTurn(env, cfg, CompleteTurn(env, cfg, ls, message, None));
      var events := Left(end).emitted;
      && ls.emitted <= events && Accounted(env, cfg, base, first, used, events, k, t)
      && (forall i :: k < i < |t.done.ls.emitted| ==> Routine(events[i])) && OnlyAside(t.done.ls.emitted, events)
      && (end.Again? ==>
            && end.ls.iteration == ls.iteration && end.ls.usage.counters.toolCalls == used.toolCalls + |E.StartedIn(events)|
            && TurnsIn(events) == TurnsIn(ls.emitted) && Told(used, events) == end.ls.usage.counters)
  {
    hide GetToolUses, CompleteTurn, FinishTurn, Run, DistinctIds, Replied, Reliable, A.TurnObeys, Drives.Suspends, TurnsIn, E.StartedIn, CommittedAll,
      Silent, Aside, Routine, Follows;
    var c := CompleteTurn(env, cfg, ls, message, None);
    var regular, run, fates := A.FreshTurn(env, cfg, ls, message);
    t := Record(ls, regular, run, fates, c);
    var end := EndTurn(env, cfg, c);
    CompletionSilent(env, cfg, ls, message);
    TurnIteration(env, cfg, ls, message, None);
    ObeyedEvents(env, cfg, ls, message, regular, run, fates, c);
    if c.outcome.suspension.Some? {
      SuspendAside(env, c.ls, c.outcome.suspension.value);
    } else {
      FinishAside(env, cfg, c.ls, c.outcome);
      FinishFollows(env, cfg, c.ls, c.outcome);
      AsideReads(c.ls.emitted, Left(end).emitted);
    }
    var k, events := |ls.emitted| - 1, Left(end).emitted;
    assert events[..k + 1] == ls.emitted && events[..k] == ls.emitted[..k] && events[..|c.ls.emitted|] == c.ls.emitted;
    assert events[k] == ls.emitted[k];
    assert forall i :: k < i < |c.ls.emitted| ==> events[i] == c.ls.emitted[i];
    if end.Again? {
      TurnCounts(ls, c, run);
    }
  }

  lemma SuspendAside(env: Env, ls: Loop, s: Suspension)
    requires Reliable(env)
    ensures Drives.Suspends(env, ls, s).ls.emitted == ls.emitted + [J.RunSuspended(s)]
    ensures OnlyAside(ls.emitted, Drives.Suspends(env, ls, s).ls.emitted)
  {
  }

  lemma CompletionSilent(env: Env, cfg: Config, ls: Loop, assistant: Message)
    ensures var c := CompleteTurn(env, cfg, ls, assistant, None);
      ls.emitted <= c.ls.emitted && forall i :: |ls.emitted| <= i < |c.ls.emitted| ==> Routine(c.ls.emitted[i])
    ensures TurnsIn(CompleteTurn(env, cfg, ls, assistant, None).ls.emitted) == TurnsIn(ls.emitted)
  {
    hide CompleteWith, RegularStage, GetToolUses, Routine, TurnsIn;
    var calls := GetToolUses(assistant);
    var stage := RegularStage(env, cfg, ls, calls);
    StageSilent(env, cfg, ls, calls);
    CompleteSilent(env, cfg, stage.ls, assistant, stage.regular);
    SilentChain(ls, stage.ls, CompleteTurn(env, cfg, ls, assistant, None).ls);
    SilentAsks(ls, CompleteTurn(env, cfg, ls, assistant, None).ls);
  }

  lemma ObeyedEvents(env: Env, cfg: Config, ls: Loop, message: Message, regular: seq<ToolUse>, run: seq<ToolUse>, fates: seq<T.Fate>, c: Completed)
    requires A.TurnObeys(env, cfg, ls, message, regular, run, fates, c)
    ensures ls.emitted <= c.ls.emitted && E.StartedIn(c.ls.emitted[|ls.emitted|..]) == run
    ensures c.outcome.suspension.None? ==>
      c.ls.usage.counters == ls.usage.counters.(toolCalls := ls.usage.counters.toolCalls + |run|)
  {
    hide GetToolUses, A.Fated, A.Meets, A.MayComplete, T.RunsUnder, T.SuspendsAs, Selects;
  }

  lemma TurnCounts(ls: Loop, c: Completed, run: seq<ToolUse>)
    requires ls.emitted != [] && ls.emitted[|ls.emitted| - 1].AssistantCommitted?
    requires ls.emitted <= c.ls.emitted && E.StartedIn(c.ls.emitted[|ls.emitted|..]) == run
    ensures |E.StartedIn(c.ls.emitted)| == |E.StartedIn(ls.emitted[..|ls.emitted| - 1])| + |run|
  {
    E.ReadConcat(ls.emitted, c.ls.emitted[|ls.emitted|..]);
    assert c.ls.emitted == ls.emitted + c.ls.emitted[|ls.emitted|..];
  }

  // ---------------------------------------------------------------------
  // One round.

  /** The iteration counts the turns, and the tool calls charged are those that started. */
  predicate Steady(first: int, used: Counters, ls: Loop) {
    ls.iteration == first + TurnsIn(ls.emitted) && ls.usage.counters.toolCalls == used.toolCalls + |E.StartedIn(ls.emitted)|
    && ls.usage.counters == Told(used, ls.emitted)
  }

  lemma NoAnswerAccounted(env: Env, cfg: Config, base: Transcript, first: int, used: Counters, a: seq<J.Event>, b: seq<J.Event>)
    requires a <= b && forall i :: |a| <= i < |b| ==> !b[i].AssistantCommitted? && !Works(b[i])
    ensures AllAccounted(env, cfg, base, first, used, |a|, b)
  {
    hide Works;
  }

  lemma StartedAside(before: seq<J.Event>, events: seq<J.Event>)
    requires OnlyAside(before + [J.TurnStarted], events)
    ensures before <= events && forall i :: |before| <= i < |events| ==> !events[i].AssistantCommitted? && !Works(events[i])
  {
    var started := before + [J.TurnStarted];
    assert events[..|started|] == started;
    assert events[|before|] == J.TurnStarted && before == events[..|before|];
  }

  /** The model's answer, committed. */
  function CommittedTo(cfg: Config, started: Loop, reply: ModelReply): Loop
    requires reply.Answered?
  {
    started.(usage := AddResponse(started.usage, reply.usage), finish := reply.finish, messages := started.messages + [reply.message],
             emitted := started.emitted + [J.AssistantCommitted(reply.message)])
  }

  lemma AnswerTaken(env: Env, cfg: Config, started: Loop, reply: ModelReply)
    requires Reliable(env) && reply.Answered?
    ensures var t := TakeAnswer(env, cfg, started, reply.message, reply.usage, reply.finish);
      if Unusable(cfg, AddResponse(started.usage, reply.usage), reply.message, reply.finish).Some? then
        t.Over? && OnlyAside(started.emitted, t.end.ls.emitted)
      else
        && t == EndTurn(env, cfg, CompleteTurn(env, cfg, CommittedTo(cfg, started, reply), reply.message, None))
        && MayCommit(cfg, started.usage.counters, reply.message, reply.usage, reply.finish)
  {
    hide CompleteTurn, EndTurn, Failed, AddResponse, OnlyAside, Aside, MayCommit;
    UsableAnswer(cfg, started.usage, reply.message, reply.usage, reply.finish);
    var counted := started.(usage := AddResponse(started.usage, reply.usage));
    var marked := if AfterResponse(cfg.limits, counted.usage.counters).Some? then counted else counted.(finish := reply.finish);
    EndsAside(env, marked);
    EmitAside(env, marked.(messages := marked.messages + [reply.message]), J.AssistantCommitted(reply.message));
  }

  lemma {:induction false} RoundAccounted(env: Env, cfg: Config, base: Transcript, first: int, used: Counters, ls: Loop)
    requires Reliable(env) && WellBehaved(env) && FullyPaired(ls.messages)
    requires ls.messages == base + CommittedAll(ls.emitted) && Steady(first, used, ls)
    ensures var t := Round(env, cfg, ls);
      && ls.emitted <= Left(t).emitted && AllAccounted(env, cfg, base, first, used, |ls.emitted|, Left(t).emitted)
      && (t.Again? ==> Steady(first, used, t.ls.(iteration := t.ls.iteration + 1)))
  {
    hide Halt, Reliable, WellBehaved, Failed, Interrupted, TakeAnswer, CommittedAll, TurnsIn, E.StartedIn, AllAccounted, Aside, Works, Steady,
      OnlyAside;
    EndsAside(env, ls);
    EmitAside(env, ls, J.TurnStarted);
    var t := Round(env, cfg, ls);
    match Halt(env, cfg, ls)
    case Some(error) =>
      AsidePrefix(ls.emitted, Left(t).emitted);
      AsideAccounted(env, cfg, base, first, used, ls.emitted, Left(t).emitted);
    case None =>
      var started := Emit(env, ls, J.TurnStarted).0;
      EndsAside(env, started);
      var reply := env.respond(started.iteration, started.messages);
      if reply.Answered? {
        AnswerAccounted(env, cfg, base, first, used, ls, started, reply);
      } else {
        StartedAside(ls.emitted, Left(t).emitted);
        NoAnswerAccounted(env, cfg, base, first, used, ls.emitted, Left(t).emitted);
      }
  }

  lemma AsidePrefix(a: seq<J.Event>, b: seq<J.Event>)
    requires OnlyAside(a, b)
    ensures a <= b
  {
  }

  lemma {:induction false} AnswerAccounted(env: Env, cfg: Config, base: Transcript, first: int, used: Counters, ls: Loop, started: Loop,
                                           reply: ModelReply)
    requires Reliable(env) && WellBehaved(env) && FullyPaired(ls.messages)
    requires ls.messages == base + CommittedAll(ls.emitted) && Steady(first, used, ls)
    requires started == ls.(emitted := ls.emitted + [J.TurnStarted])
    requires reply == env.respond(started.iteration, started.messages) && reply.Answered?
    ensures var t := TakeAnswer(env, cfg, started, reply.message, reply.usage, reply.finish);
      && ls.emitted <= Left(t).emitted && AllAccounted(env, cfg, base, first, used, |ls.emitted|, Left(t).emitted)
      && (t.Again? ==> Steady(first, used, t.ls.(iteration := t.ls.iteration + 1)))
  {
    hide TakeAnswer, Reliable, WellBehaved, CommittedAll, TurnsIn, E.StartedIn, AllAccounted, Aside, Works, OnlyAside, CompleteTurn, EndTurn,
      GetToolUses, Run, Accounted, Replied, Routine, Unusable, DistinctIds;
    AnswerTaken(env, cfg, started, reply);
    var t := TakeAnswer(env, cfg, started, reply.message, reply.usage, reply.finish);
    if Unusable(cfg, AddResponse(started.usage, reply.usage), reply.message, reply.finish).Some? {
      StartedAside(ls.emitted, Left(t).emitted);
      NoAnswerAccounted(env, cfg, base, first, used, ls.emitted, Left(t).emitted);
    } else {
      var committed := CommittedTo(cfg, started, reply);
      CommittedReady(env, cfg, base, first, used, ls, started, reply);
      var record := AnswerRecorded(env, cfg, base, first, used, committed, reply.message);
      assert committed.emitted[|committed.emitted| - 1] == J.AssistantCommitted(reply.message);
      BeforeAnswer(ls.emitted, reply.message, Left(t).emitted);
      TurnAccounted(env, cfg, base, first, used, |ls.emitted|, Left(t).emitted, |ls.emitted| + 1, record);
    }
  }

  lemma BeforeAnswer(before: seq<J.Event>, message: Message, events: seq<J.Event>)
    requires before + [J.TurnStarted] + [J.AssistantCommitted(message)] <= events
    ensures before <= events && forall i :: |before| <= i < |before| + 1 ==> !events[i].AssistantCommitted? && !Works(events[i])
  {
    var all := before + [J.TurnStarted] + [J.AssistantCommitted(message)];
    assert events[..|all|] == all && all[..|before|] == before && events[|before|] == all[|before|];
  }

  lemma OpenedRuns(messages: Transcript, calls: seq<ToolUse>)
    requires Opened(messages, calls)
    ensures Run(Closed, messages).Some?
  {
  }

  lemma {:induction false} CommittedReady(env: Env, cfg: Config, base: Transcript, first: int, used: Counters, ls: Loop, started: Loop, reply: ModelReply)
    requires WellBehaved(env) && FullyPaired(ls.messages)
    requires ls.messages == base + CommittedAll(ls.emitted) && Steady(first, used, ls)
    requires started == ls.(emitted := ls.emitted + [J.TurnStarted])
    requires reply == env.respond(started.iteration, started.messages) && reply.Answered?
    requires MayCommit(cfg, started.usage.counters, reply.message, reply.usage, reply.finish)
    ensures var committed := CommittedTo(cfg, started, reply);
      && DistinctIds(GetToolUses(reply.message)) && Run(Closed, committed.messages).Some? 
      && Replied(env, cfg, Told(used, started.emitted), committed, reply.message)
      && committed.emitted[..|committed.emitted| - 1] == started.emitted
      && committed.messages == base + CommittedAll(committed.emitted)
      && committed.iteration + 1 == first + TurnsIn(started.emitted)
      && committed.usage.counters.toolCalls == used.toolCalls + |E.StartedIn(started.emitted)|
      && TurnsIn(committed.emitted) == TurnsIn(started.emitted)
  {
    hide AddResponse, Run, Opened, GetToolUses, DistinctIds, CommittedAll, TurnsIn, E.StartedIn, WellBehaved;
    var committed := CommittedTo(cfg, started, reply);
    AnswersWell(env, started, reply);
    AnswerOpens(ls.messages, reply.message);
    OpenedRuns(committed.messages, GetToolUses(reply.message));
    ReadsReady(ls.emitted, reply.message);
    assert committed.messages[..|committed.messages| - 1] == started.messages;
    assert base + CommittedAll(ls.emitted) + [reply.message] == base + (CommittedAll(ls.emitted) + [reply.message]);
    AddsResponse(started.usage, reply.usage);
    assert committed.emitted[..|committed.emitted| - 1] == started.emitted;
  }

  lemma AnswersWell(env: Env, started: Loop, reply: ModelReply)
    requires WellBehaved(env) && reply == env.respond(started.iteration, started.messages) && reply.Answered?
    ensures WellFormedAnswer(reply.message) && DistinctIds(GetToolUses(reply.message))
  {
    hide GetToolUses, DistinctIds;
  }

  lemma AddsResponse(total: Usage, one: Counters)
    ensures Counted(total.counters, one, AddResponse(total, one).counters)
  {
  }

  lemma ReadsReady(before: seq<J.Event>, message: Message)
    ensures var started := before + [J.TurnStarted]; var committed := started + [J.AssistantCommitted(message)];
      && CommittedAll(committed) == CommittedAll(before) + [message] && TurnsIn(committed) == TurnsIn(started) == TurnsIn(before) + 1
      && E.StartedIn(started) == E.StartedIn(before) && forall start :: Told(start, started) == Told(start, before)
  {
    var started := before + [J.TurnStarted];
    var committed := started + [J.AssistantCommitted(message)];
    assert committed[..|committed| - 1] == started && started[..|started| - 1] == before;
    assert CommittedAll(started) == CommittedAll(before) + [];
  }

  // ---------------------------------------------------------------------
  // Drives.

  lemma {:induction false} DriveAccounted(env: Env, cfg: Config, base: Transcript, start: Usage, first: int, used: Counters, ls: Loop)
    requires Reliable(env) && WellBehaved(env) && FullyPaired(ls.messages) && Kept(env, cfg, base, start, ls) && Steady(first, used, ls)
    ensures var events := DriveFrom(env, cfg, ls).end.ls.emitted;
      ls.emitted <= events && AllAccounted(env, cfg, base, first, used, |ls.emitted|, events)
    decreases if ls.iteration < cfg.maxIterations then cfg.maxIterations - ls.iteration else 0
  {
    hide Round, Asks, Kept, Reliable, WellBehaved, AllAccounted, Steady, CommittedAll, PairedEnd;
    KeptBase(env, cfg, base, start, ls);
    RoundKept(env, cfg, base, start, ls);
    RoundPairs(env, cfg, ls);
    RoundIteration(env, cfg, ls);
    RoundAccounted(env, cfg, base, first, used, ls);
    match Round(env, cfg, ls)
    case Over(end) =>
    case Again(next) =>
      NextKept(env, cfg, base, start, next);
      var on := next.(iteration := next.iteration + 1);
      DriveAccounted(env, cfg, base, start, first, used, on);
      GoesOn(env, cfg, on);
      AccountedOn(env, cfg, base, first, used, |ls.emitted|, next.emitted, DriveFrom(env, cfg, on).end.ls.emitted);
  }

  lemma GoesOn(env: Env, cfg: Config, ls: Loop)
    requires Reliable(env)
    ensures var events := DriveFrom(env, cfg, ls).end.ls.emitted; |ls.emitted| < |events| && P.BeginsRound(events[|ls.emitted|])
  {
    hide DriveFrom, P.BeginsRound;
    var event := P.DriveExtends(env, cfg, ls);
    EmitAside(env, ls, event);
    var all := ls.emitted + [event];
    assert all[|ls.emitted|] == event;
  }

  /** Nothing about answers or calls was said before. */
  lemma AccountedFrom(env: Env, cfg: Config, base: Transcript, first: int, used: Counters, from: nat, before: seq<J.Event>, events: seq<J.Event>)
    requires from <= |before| && before <= events && AllAccounted(env, cfg, base, first, used, |before|, events)
    requires forall i :: from <= i < |before| ==> !before[i].AssistantCommitted? && !Works(before[i])
    ensures AllAccounted(env, cfg, base, first, used, from, events)
  {
    hide Accounted;
    forall k | from <= k < |events|
      ensures events[k].AssistantCommitted? ==> exists t :: Accounted(env, cfg, base, first, used, events, k, t)
      ensures Works(events[k]) ==> Owned(events, from, k)
    {
      if k < |before| {
        assert events[k] == before[k];
      } else if Works(events[k]) {
        var j :| |before| <= j < k && events[j].AssistantCommitted? && forall i :: j < i <= k ==> Routine(events[i]);
        assert from <= j;
      }
    }
  }

  /** Events of which none starts, plans or answers a call are no work on calls. */
  lemma {:induction false} NoWork(events: seq<J.Event>)
    requires E.StartedIn(events) == [] && E.PlannedIn(events) == [] && E.ResultsIn(events) == []
    ensures forall i :: 0 <= i < |events| ==> !Works(events[i])
    decreases |events|
  {
    if events != [] {
      NoWork(events[..|events| - 1]);
    }
  }

  /** A fresh start: every answer of the drive and all work on calls. */
  lemma {:induction false} FreshAccounted(env: Env, cfg: Config, ls: Loop)
    requires Reliable(env) && WellBehaved(env) && FullyPaired(ls.messages)
    requires ls.usage == ZeroUsage && ls.retryCounts == map[] && ls.totalRetries == 0 && ls.emitted == [] && ls.iteration == 0
    ensures AllAccounted(env, cfg, ls.messages, 0, ZeroCounters, 0, DriveLoop(env, cfg, ls, Fresh).end.ls.emitted)
  {
    hide DriveFrom, Kept, Reliable, WellBehaved, AllAccounted, PairedEnd, Run, Steady;
    FreshKept(env, cfg, ls);
    PlainKept(env, cfg, ls.messages, ZeroUsage, ls, J.RunStarted);
    EmitAside(env, ls, J.RunStarted);
    EmitsReliablyHere(env, ls, J.RunStarted);
    var started := Emit(env, ls, J.RunStarted).0;
    assert started.emitted == [J.RunStarted];
    hide Emit;
    OpeningSteady(started);
    DriveAccounted(env, cfg, ls.messages, ZeroUsage, 0, ZeroCounters, started);
    AccountedFrom(env, cfg, ls.messages, 0, ZeroCounters, 0, started.emitted, DriveFrom(env, cfg, started).end.ls.emitted);
  }

  lemma OpeningSteady(started: Loop)
    requires started.emitted == [J.RunStarted] && started.iteration == 0 && started.usage == ZeroUsage
    ensures Steady(0, ZeroCounters, started)
  {
    assert [J.RunStarted][..0] == [];
  }

  // ---------------------------------------------------------------------
  // A drive that enters with a turn to complete.

  /** What is said right after the turn a drive enters with. */
  predicate SaidNext(c: Completed, prompt: Option<Message>, event: J.Event) {
    if c.outcome.suspension.Some? then event == J.RunSuspended(c.outcome.suspension.value)
    else if prompt.Some? && c.outcome.fatal.None? then event == J.MessagesInjected([prompt.value])
    else event == J.TurnEnded(c.ls.usage)
  }

  lemma EnterSays(env: Env, cfg: Config, ls: Loop, entry: Entry)
    requires Reliable(env) && entry.Turn?
    ensures var c, t := CompleteTurn(env, cfg, ls, entry.assistant, entry.regular), EnterTurn(env, cfg, ls, entry);
      && |c.ls.emitted| < |Left(t).emitted| && OnlyAside(c.ls.emitted, Left(t).emitted)
      && SaidNext(c, entry.prompt, Left(t).emitted[|c.ls.emitted|])
      && (t.Again? ==>
            && c.outcome.suspension.None? && t.ls.usage == c.ls.usage && t.ls.iteration == c.ls.iteration
            && forall start :: Told(start, t.ls.emitted) == c.ls.usage.counters)
  {
    hide CompleteTurn, FinishTurn, Told, Reliable, Aside, Emit, Drives.Suspends;
    var c := CompleteTurn(env, cfg, ls, entry.assistant, entry.regular);
    if c.outcome.suspension.Some? {
      SuspendAside(env, c.ls, c.outcome.suspension.value);
    } else if entry.prompt.Some? && c.outcome.fatal.None? {
      var event := J.MessagesInjected([entry.prompt.value]);
      var fed := c.ls.(messages := c.ls.messages + [entry.prompt.value]);
      EmitAside(env, fed, event);
      EmitsReliablyHere(env, fed, event);
      InjectedAside(entry.prompt.value);
      var prompted := WithPrompt(env, c, entry.prompt);
      FinishAside(env, cfg, prompted.ls, prompted.outcome);
      AfterEnded(c.ls.emitted, prompted.ls.emitted, Left(FinishTurn(env, cfg, prompted.ls, prompted.outcome)).emitted);
      assert prompted.ls.emitted[|c.ls.emitted|] == event;
    } else {
      FinishAside(env, cfg, c.ls, c.outcome);
      var told := c.ls.emitted + [J.TurnEnded(c.ls.usage)];
      assert told[|c.ls.emitted|] == J.TurnEnded(c.ls.usage);
    }
  }

  lemma EmitsReliablyHere(env: Env, ls: Loop, event: J.Event)
    requires Reliable(env)
    ensures Emit(env, ls, event).1
  {
  }

  lemma InjectedAside(message: Message)
    ensures Aside(J.MessagesInjected([message]))
  {
  }

  /** The turn a resumption completes: the operator's decisions, the fates of the calls, and the loop at each step. */
  datatype Resumption = Resumption(executable: seq<ToolUse>, decided: seq<T.Fate>, fates: seq<T.Fate>, resolved: Loop, mid: Loop, done: Completed)

  /**
   * The first events of a resumed drive: the calls decided to execute start, the run does, and the calls are answered as decided. What comes of
   * the turn is said next.
   */
  ghost predicate ResumedFirst(env: Env, cfg: Config, messages: Transcript, tool: ToolSuspension, decisions: seq<ToolResumeDecision>,
                               prompt: Option<Message>, events: seq<J.Event>, r: Resumption) {
    var e := |r.done.ls.emitted|;
    && messages != [] && e < |events|
    && A.ResumptionObeys(env, cfg, Restored(messages, tool), tool, decisions, messages[|messages| - 1], r.executable, r.decided, r.fates,
                         r.resolved, r.mid, r.done)
    && r.mid.emitted == E.Starts(T.Attempts(r.decided)) + [J.RunStarted] && r.mid.emitted <= r.done.ls.emitted
    && r.done.ls.emitted == events[..e] && (forall i :: |r.mid.emitted| <= i < e ==> Routine(events[i]))
    && SaidNext(r.done, prompt, events[e])
  }

  lemma {:induction false} ResumeAccounted(env: Env, cfg: Config, ls: Loop, s: Suspension, decisions: seq<ToolResumeDecision>,
                                           prompt: Option<Message>) returns (r: Resumption)
    requires Reliable(env) && WellBehaved(env) && (prompt.Some? ==> Inert(prompt.value) && prompt.value.role == RoleUser)
    requires ls.messages != [] && ls.emitted == [] && ResumeGuards(env, cfg, ls.messages, s) && s.payload.ToolPayload?
    requires Run(Closed, ls.messages) == Some(Frontier(GetToolUses(ls.messages[|ls.messages| - 1]), {}))
    requires var tool := s.payload.tool;
      && T.NamesOnce(tool) && Bounded(cfg, tool.usage.counters.toolCalls, Restored(ls.messages, tool))
      && ResolveTools(env, cfg, Restored(ls.messages, tool), tool, decisions).ResolvedAs?
    ensures var events, tool := ResumePrepared(env, cfg, ls, s, decisions, prompt).end.ls.emitted, s.payload.tool;
      && ResumedFirst(env, cfg, ls.messages, tool, decisions, prompt, events, r)
      && AllAccounted(env, cfg, ls.messages, tool.iteration + 1, tool.usage.counters, |r.done.ls.emitted|, events)
  {
    hide Reliable, WellBehaved, Inert, Run, GetToolUses, ResumeGuards, T.NamesOnce, Bounded, ResolveTools, DriveLoop, A.ResumptionObeys, T.Attempts,
      E.Starts, AllAccounted, ResumedFirst, EnterTurn, CompleteTurn, Kept, Emit;
    var tool, restored, assistant := s.payload.tool, Restored(ls.messages, s.payload.tool), ls.messages[|ls.messages| - 1];
    GuardsNameLast(env, cfg, ls.messages, s);
    var stage := ResolveTools(env, cfg, restored, tool, decisions).stage;
    EmitAside(env, stage.ls, J.RunStarted);
    var mid := Emit(env, stage.ls, J.RunStarted).0;
    EmitsReliablyHere(env, stage.ls, J.RunStarted);
    var executable, decided, fates := A.ResumedTurn(env, cfg, restored, tool, decisions, assistant, mid);
    var c := CompleteTurn(env, cfg, mid, assistant, Some(stage.regular));
    r := Resumption(executable, decided, fates, stage.ls, mid, c);
    ResumedMid(env, cfg, restored, tool, decisions, assistant, r);
    T.NamedCalls(tool);
    ResumedKept(env, cfg, ls.messages, tool, decisions);
    ResumedEnterable(env, cfg, ls.messages, tool, decisions, prompt, mid);
    ResumedTurns(env, cfg, ls.messages, tool, decisions, mid, c);
    ResumedDrive(env, cfg, ls.messages, tool, decisions, prompt, stage, r);
  }

  lemma GuardsNameLast(env: Env, cfg: Config, messages: Transcript, s: Suspension)
    requires ResumeGuards(env, cfg, messages, s) && s.payload.ToolPayload? && messages != []
    requires Run(Closed, messages) == Some(Frontier(GetToolUses(messages[|messages| - 1]), {}))
    ensures s.payload.tool.calls == GetToolUses(messages[|messages| - 1]) && s.payload.tool.calls != []
  {
    hide Run, GetToolUses;
  }

  lemma ResumedMid(env: Env, cfg: Config, restored: Loop, tool: ToolSuspension, decisions: seq<ToolResumeDecision>, assistant: Message, r: Resumption)
    requires restored.emitted == [] && r.mid.emitted == r.resolved.emitted + [J.RunStarted]
    requires A.ResumptionObeys(env, cfg, restored, tool, decisions, assistant, r.executable, r.decided, r.fates, r.resolved, r.mid, r.done)
    ensures r.mid.emitted == E.Starts(T.Attempts(r.decided)) + [J.RunStarted] && r.mid.emitted <= r.done.ls.emitted
    ensures E.StartedIn(r.done.ls.emitted) == T.Attempts(r.decided)
    ensures r.done.outcome.suspension.None? ==>
      r.done.ls.usage.counters.toolCalls == restored.usage.counters.toolCalls + |T.Attempts(r.decided)|
  {
    hide GetToolUses, A.Resumed, A.Meets, E.SomeAsks, E.SomeBreaks, T.NamesEach, T.OperatorFates, T.Attempts, E.Starts, E.StartedIn, E.ResultsIn,
      E.PlannedIn;
    var run := T.Attempts(r.decided);
    assert [] + E.Starts(run) == E.Starts(run);
    MidReads(run, r.mid.emitted, r.done.ls.emitted);
  }

  lemma MidReads(run: seq<ToolUse>, mid: seq<J.Event>, after: seq<J.Event>)
    requires mid == E.Starts(run) + [J.RunStarted] && mid <= after && E.StartedIn(after[|mid|..]) == []
    ensures E.StartedIn(after) == run
  {
    E.ReadStarts(run);
    E.ReadOne(J.RunStarted);
    E.ReadConcat(E.Starts(run), [J.RunStarted]);
    E.ReadConcat(mid, after[|mid|..]);
    hide E.StartedIn, E.Starts;
    assert after == mid + after[|mid|..];
    assert run + [] == run;
  }

  /** The account of a resumed drive when its turn goes on. */
  lemma {:induction false} ResumedKept(env: Env, cfg: Config, messages: Transcript, tool: ToolSuspension, decisions: seq<ToolResumeDecision>)
    requires DistinctIds(tool.calls) && Bounded(cfg, tool.usage.counters.toolCalls, Restored(messages, tool))
    requires ResolveTools(env, cfg, Restored(messages, tool), tool, decisions).ResolvedAs?
    ensures var stage := ResolveTools(env, cfg, Restored(messages, tool), tool, decisions).stage;
      && Kept(env, cfg, messages, tool.usage, Emit(env, stage.ls, J.RunStarted).0)
      && stage.ls.messages == messages && stage.ls.iteration == tool.iteration
  {
    hide ResolveTools, Bounded, Kept, Silent, Emit;
    var restored := Restored(messages, tool);
    RestoredKept(env, cfg, messages, tool);
    ResolvedSound(env, cfg, restored, tool, decisions);
    ResolvedBounded(env, cfg, restored, tool, decisions, tool.usage.counters.toolCalls);
    ResolvedUsage(env, cfg, restored, tool, decisions);
    ResolvedSilent(env, cfg, restored, tool, decisions);
    var stage := ResolveTools(env, cfg, restored, tool, decisions).stage;
    StageKept(env, cfg, messages, tool.usage, restored, stage.ls);
    PlainKept(env, cfg, messages, tool.usage, stage.ls, J.RunStarted);
  }

  lemma {:induction false} ResumedEnterable(env: Env, cfg: Config, messages: Transcript, tool: ToolSuspension, decisions: seq<ToolResumeDecision>,
                                            prompt: Option<Message>, mid: Loop)
    requires messages != [] && DistinctIds(tool.calls) && (prompt.Some? ==> Inert(prompt.value))
    requires tool.calls == GetToolUses(messages[|messages| - 1]) && tool.calls != [] && Run(Closed, messages) == Some(Frontier(tool.calls, {}))
    requires ResolveTools(env, cfg, Restored(messages, tool), tool, decisions).ResolvedAs?
    requires mid == ResolveTools(env, cfg, Restored(messages, tool), tool, decisions).stage.ls.(emitted := mid.emitted)
    ensures var stage := ResolveTools(env, cfg, Restored(messages, tool), tool, decisions).stage;
      Enterable(env, cfg, mid, Turn(messages[|messages| - 1], Some(stage.regular), prompt))
  {
    hide ResolveTools, Run, GetToolUses, ResultsNamed, Envelope, Inert;
    var restored := Restored(messages, tool);
    ResolvedSound(env, cfg, restored, tool, decisions);
    ResolvedEnvelope(env, cfg, restored, tool, decisions);
    var stage := ResolveTools(env, cfg, restored, tool, decisions).stage;
    if stage.regular.suspension.Some? {
      EnvelopeMoves(env, cfg, stage.ls, mid, tool.calls, stage.regular.suspension.value);
    }
  }

  lemma {:induction false} ResumedTurns(env: Env, cfg: Config, messages: Transcript, tool: ToolSuspension, decisions: seq<ToolResumeDecision>,
                                        mid: Loop, c: Completed)
    requires messages != [] && DistinctIds(tool.calls) && ResolveTools(env, cfg, Restored(messages, tool), tool, decisions).ResolvedAs?
    requires var stage := ResolveTools(env, cfg, Restored(messages, tool), tool, decisions).stage;
      && mid == stage.ls.(emitted := stage.ls.emitted + [J.RunStarted])
      && c == CompleteTurn(env, cfg, mid, messages[|messages| - 1], Some(stage.regular))
    ensures TurnsIn(c.ls.emitted) == 0 && c.ls.iteration == tool.iteration
    ensures mid.emitted <= c.ls.emitted && forall i :: |mid.emitted| <= i < |c.ls.emitted| ==> Routine(c.ls.emitted[i])
  {
    hide ResolveTools, CompleteWith, Routine;
    var restored := Restored(messages, tool);
    ResolvedSound(env, cfg, restored, tool, decisions);
    ResolvedSilent(env, cfg, restored, tool, decisions);
    var stage := ResolveTools(env, cfg, restored, tool, decisions).stage;
    SilentAsks(restored, stage.ls);
    assert (stage.ls.emitted + [J.RunStarted])[..|stage.ls.emitted|] == stage.ls.emitted;
    CompletionAsks(env, cfg, mid, messages[|messages| - 1], Some(stage.regular));
    CompleteSilent(env, cfg, mid, messages[|messages| - 1], stage.regular);
    TurnIteration(env, cfg, mid, messages[|messages| - 1], Some(stage.regular));
  }

  lemma {:induction false} ResumedDrive(env: Env, cfg: Config, messages: Transcript, tool: ToolSuspension, decisions: seq<ToolResumeDecision>,
                                        prompt: Option<Message>, stage: Stage, r: Resumption)
    requires Reliable(env) && WellBehaved(env) && (prompt.Some? ==> Inert(prompt.value) && prompt.value.role == RoleUser) && messages != []
    requires r.mid == Emit(env, stage.ls, J.RunStarted).0
    requires r.done == CompleteTurn(env, cfg, r.mid, messages[|messages| - 1], Some(stage.regular))
    requires Enterable(env, cfg, r.mid, Turn(messages[|messages| - 1], Some(stage.regular), prompt))
    requires Kept(env, cfg, messages, tool.usage, r.mid) && r.done.ls.iteration == tool.iteration && TurnsIn(r.done.ls.emitted) == 0
    requires A.ResumptionObeys(env, cfg, Restored(messages, tool), tool, decisions, messages[|messages| - 1], r.executable, r.decided, r.fates,
                               r.resolved, r.mid, r.done)
    requires r.mid.emitted == E.Starts(T.Attempts(r.decided)) + [J.RunStarted] && r.mid.emitted <= r.done.ls.emitted
    requires forall i :: |r.mid.emitted| <= i < |r.done.ls.emitted| ==> Routine(r.done.ls.emitted[i])
    requires E.StartedIn(r.done.ls.emitted) == T.Attempts(r.decided)
    requires r.done.outcome.suspension.None? ==> r.done.ls.usage.counters.toolCalls == tool.usage.counters.toolCalls + |T.Attempts(r.decided)|
    ensures var events := DriveLoop(env, cfg, stage.ls, Turn(messages[|messages| - 1], Some(stage.regular), prompt)).end.ls.emitted;
      && ResumedFirst(env, cfg, messages, tool, decisions, prompt, events, r)
      && AllAccounted(env, cfg, messages, tool.iteration + 1, tool.usage.counters, |r.done.ls.emitted|, events)
  {
    hide Reliable, WellBehaved, Inert, Enterable, A.ResumptionObeys, T.Attempts, E.Starts, AllAccounted, EnterTurn, CompleteTurn, Kept, Emit,
      E.StartedIn, TurnsIn, Routine, DriveFrom, Aside, Works, SaidNext, PairedEnd;
    var entry := Turn(messages[|messages| - 1], Some(stage.regular), prompt);
    var first, used := tool.iteration + 1, tool.usage.counters;
    EmitsReliablyHere(env, stage.ls, J.RunStarted);
    EnterSays(env, cfg, r.mid, entry);
    EnterPairs(env, cfg, r.mid, entry);
    EnterKept(env, cfg, messages, tool.usage, r.mid, entry);
    var before, events := r.done.ls.emitted, DriveLoop(env, cfg, stage.ls, entry).end.ls.emitted;
    match EnterTurn(env, cfg, r.mid, entry)
    case Over(end) =>
      AsideAccounted(env, cfg, messages, first, used, before, end.ls.emitted);
      AsidePrefix(before, events);
    case Again(next) =>
      NextKept(env, cfg, messages, tool.usage, next);
      var on := next.(iteration := next.iteration + 1);
      AsideReads(before, next.emitted);
      DriveAccounted(env, cfg, messages, tool.usage, first, used, on);
      AsideFrom(before, next.emitted);
      AccountedFrom(env, cfg, messages, first, used, |before|, next.emitted, events);
      assert events[|before|] == next.emitted[|before|];
  }

  lemma AsideFrom(a: seq<J.Event>, b: seq<J.Event>)
    requires OnlyAside(a, b)
    ensures a <= b && forall i :: |a| <= i < |b| ==> !b[i].AssistantCommitted? && !Works(b[i])
  {
  }

  // ---------------------------------------------------------------------
  // Started drives.

  /** A run recovered after an answer without calls has that answer to complete first. */
  lemma {:induction false} RecoveredAccounted(env: Env, cfg: Config, ls: Loop, assistant: Message)
    requires Reliable(env) && WellBehaved(env) && FullyPaired(ls.messages) && ls.messages != []
    requires ls.messages[|ls.messages| - 1] == assistant && GetToolUses(assistant) == []
    requires ls.usage == ZeroUsage && ls.retryCounts == map[] && ls.totalRetries == 0 && ls.emitted == [] && ls.iteration == 0
    ensures AllAccounted(env, cfg, ls.messages, 1, ZeroCounters, 0, DriveLoop(env, cfg, ls, Turn(assistant, None, None)).end.ls.emitted)
  {
    hide DriveFrom, Kept, Reliable, WellBehaved, AllAccounted, PairedEnd, EnterTurn, CompleteTurn, Emit, GetToolUses, Works, Aside, TurnsIn,
      E.StartedIn, Run, Opened, DistinctIds, Enterable, OnlyAside;
    var entry, started := Turn(assistant, None, None), Emit(env, ls, J.RunStarted).0;
    RecoveredEnters(env, cfg, ls, assistant);
    EnterSays(env, cfg, started, entry);
    CalllessTurn(env, cfg, started, assistant);
    EmitsReliablyHere(env, ls, J.RunStarted);
    var c := CompleteTurn(env, cfg, started, assistant, None);
    AsideFrom(c.ls.emitted, Left(EnterTurn(env, cfg, started, entry)).emitted);
    QuietJoin(c.ls.emitted, Left(EnterTurn(env, cfg, started, entry)).emitted);
    match EnterTurn(env, cfg, started, entry)
    case Over(end) =>
      NoAnswerAccounted(env, cfg, ls.messages, 1, ZeroCounters, [], end.ls.emitted);
    case Again(next) =>
      TurnIteration(env, cfg, started, assistant, None);
      AsideReads(c.ls.emitted, next.emitted);
      RecoveredGoesOn(env, cfg, ls.messages, next);
  }

  lemma {:induction false} RecoveredEnters(env: Env, cfg: Config, ls: Loop, assistant: Message)
    requires Reliable(env) && WellBehaved(env) && FullyPaired(ls.messages) && ls.messages != []
    requires ls.messages[|ls.messages| - 1] == assistant && GetToolUses(assistant) == []
    requires ls.usage == ZeroUsage && ls.retryCounts == map[] && ls.totalRetries == 0 && ls.emitted == [] && ls.iteration == 0
    ensures var started := Emit(env, ls, J.RunStarted).0;
      && started == ls.(emitted := [J.RunStarted])
      && KeptTurn(env, cfg, ls.messages, ZeroUsage, EnterTurn(env, cfg, started, Turn(assistant, None, None)))
      && PairedTurn(env, cfg, EnterTurn(env, cfg, started, Turn(assistant, None, None)))
  {
    hide Kept, Reliable, WellBehaved, PairedEnd, EnterTurn, CompleteTurn, GetToolUses;
    FreshKept(env, cfg, ls);
    PlainKept(env, cfg, ls.messages, ZeroUsage, ls, J.RunStarted);
    EmitAside(env, ls, J.RunStarted);
    var started := Emit(env, ls, J.RunStarted).0;
    EnterPairs(env, cfg, started, Turn(assistant, None, None));
    EnterKept(env, cfg, ls.messages, ZeroUsage, started, Turn(assistant, None, None));
  }

  lemma {:induction false} RecoveredGoesOn(env: Env, cfg: Config, messages: Transcript, next: Loop)
    requires Reliable(env) && WellBehaved(env) && FullyPaired(next.messages) && Kept(env, cfg, messages, ZeroUsage, next)
    requires next.iteration == 0 && TurnsIn(next.emitted) == 0 && E.StartedIn(next.emitted) == []
    requires next.usage.counters == Told(ZeroCounters, next.emitted) == ZeroCounters
    requires forall i :: 0 <= i < |next.emitted| ==> !next.emitted[i].AssistantCommitted? && !Works(next.emitted[i])
    ensures AllAccounted(env, cfg, messages, 1, ZeroCounters, 0, DriveFrom(env, cfg, next.(iteration := next.iteration + 1)).end.ls.emitted)
  {
    hide DriveFrom, Kept, Reliable, WellBehaved, AllAccounted, Run, TurnsIn, E.StartedIn, Works;
    NextKept(env, cfg, messages, ZeroUsage, next);
    var on := next.(iteration := next.iteration + 1);
    DriveAccounted(env, cfg, messages, ZeroUsage, 1, ZeroCounters, on);
    AccountedFrom(env, cfg, messages, 1, ZeroCounters, 0, next.emitted, DriveFrom(env, cfg, on).end.ls.emitted);
  }

  lemma QuietJoin(a: seq<J.Event>, b: seq<J.Event>)
    requires a <= b && (forall i :: 0 <= i < |a| ==> !a[i].AssistantCommitted? && !Works(a[i]))
    requires forall i :: |a| <= i < |b| ==> !b[i].AssistantCommitted? && !Works(b[i])
    ensures forall i :: 0 <= i < |b| ==> !b[i].AssistantCommitted? && !Works(b[i])
  {
    hide Works;
    assert forall i :: 0 <= i < |a| ==> a[i] == b[i];
  }

  /** A turn without calls starts none, plans none and answers none. */
  lemma {:induction false} CalllessTurn(env: Env, cfg: Config, started: Loop, assistant: Message)
    requires Reliable(env) && GetToolUses(assistant) == [] && FullyPaired(started.messages) && started.emitted == [J.RunStarted]
    ensures var c := CompleteTurn(env, cfg, started, assistant, None);
      && (forall i :: 0 <= i < |c.ls.emitted| ==> !c.ls.emitted[i].AssistantCommitted? && !Works(c.ls.emitted[i]))
      && TurnsIn(c.ls.emitted) == 0 && E.StartedIn(c.ls.emitted) == [] && c.ls.usage.counters == started.usage.counters
      && c.outcome.suspension.None?
  {
    hide CompleteTurn, GetToolUses, TurnsIn, E.StartedIn, E.PlannedIn, E.ResultsIn, A.TurnObeys, Routine, Works, Reliable;
    RunsClosed(started.messages);
    hide Run;
    var c := CompleteTurn(env, cfg, started, assistant, None);
    var regular, run, fates := A.FreshTurn(env, cfg, started, assistant);
    CompletionSilent(env, cfg, started, assistant);
    CalllessEvents(env, cfg, started, assistant, regular, run, fates, c);
    CalllessReads(c.ls.emitted);
  }

  lemma CalllessReads(events: seq<J.Event>)
    requires [J.RunStarted] <= events && forall i :: 1 <= i < |events| ==> Routine(events[i])
    requires E.StartedIn(events[1..]) == [] && E.PlannedIn(events[1..]) == [] && E.ResultsIn(events[1..]) == []
    ensures forall i :: 0 <= i < |events| ==> !events[i].AssistantCommitted? && !Works(events[i])
    ensures E.StartedIn(events) == [] && TurnsIn(events) == 0
  {
    hide E.StartedIn, E.PlannedIn, E.ResultsIn, TurnsIn;
    var rest := events[1..];
    NoWork(rest);
    E.ReadConcat([J.RunStarted], rest);
    E.ReadOne(J.RunStarted);
    assert events == [J.RunStarted] + rest;
    assert E.StartedIn([J.RunStarted]) == [];
    TurnsGrow([], events);
    forall i | 0 <= i < |events| ensures !events[i].AssistantCommitted? && !Works(events[i]) && !events[i].TurnStarted? {
      assert i > 0 ==> events[i] == rest[i - 1];
    }
    NoTurns();
  }

  lemma NoTurns()
    ensures TurnsIn([]) == 0
  {
  }

  lemma RunsClosed(messages: Transcript)
    requires FullyPaired(messages)
    ensures Run(Closed, messages).Some?
  {
  }

  lemma CalllessEvents(env: Env, cfg: Config, ls: Loop, assistant: Message, regular: seq<ToolUse>, run: seq<ToolUse>, fates: seq<T.Fate>,
                       c: Completed)
    requires GetToolUses(assistant) == [] && A.TurnObeys(env, cfg, ls, assistant, regular, run, fates, c)
    ensures ls.emitted <= c.ls.emitted && c.outcome.suspension.None? && c.ls.usage.counters == ls.usage.counters
    ensures var events := c.ls.emitted[|ls.emitted|..];
      E.StartedIn(events) == [] && E.PlannedIn(events) == [] && E.ResultsIn(events) == []
  {
    hide A.Fated, A.Meets, A.MayComplete, T.RunsUnder, T.SuspendsAs;
    SelectsMembers(regular, [], T.Regulars(cfg, []));
    assert T.Regulars(cfg, []) == {};
  }

  /**
   * Of every started drive: each committed answer is the model's own, to the transcript so far; its calls run as the gate decided and are
   * answered with the results it returned or the handlers gave; and no call is planned, started or answered outside such a turn.
   */
  lemma {:induction false} StartAccounted(env: Env, cfg: Config, system: string, mode: InputMode, prompt: Option<Message>, history: Transcript,
                                          d: Drive)
    requires Reliable(env) && WellBehaved(env) && (prompt.Some? ==> Inert(prompt.value))
    requires StartDrive(env, cfg, system, mode, prompt, history) == Some(d)
    ensures var base := OptionalMessage(Inserted(system, history)) + history + OptionalMessage(prompt);
      var recovers := mode == InputRecover && history[|history| - 1].role == RoleAssistant;
      AllAccounted(env, cfg, base, if recovers then 1 else 0, ZeroCounters, 0, d.end.ls.emitted)
  {
    hide DriveLoop, WellBehaved, Reliable, Inert, AllAccounted, GetToolUses, Inserted;
    RunKeepsShape(Closed, history);
    PreparedPairs(system, history, if mode == InputStart then prompt else None);
    var ls := Prepared(system, history, prompt);
    if mode == InputRecover && history[|history| - 1].role == RoleAssistant {
      assert ls.messages == OptionalMessage(Inserted(system, history)) + history;
      RecoveredAccounted(env, cfg, ls, ls.messages[|ls.messages| - 1]);
    } else {
      FreshAccounted(env, cfg, ls);
    }
  }

  // ---------------------------------------------------------------------
  // Resumed drives.

  /**
   * Of every resumed drive: if the driver takes the resumption up, the calls decided to execute start, the others are answered with what the
   * operator supplied, and everything after that turn is accounted for as in a started drive. If it does not, no call starts or is answered.
   */
  lemma {:induction false} ResumptionAccounted(env: Env, cfg: Config, system: string, history: Transcript, s: Suspension,
                                               decisions: seq<ToolResumeDecision>, prompt: Option<Message>, d: Drive) returns (r: Option<Resumption>)
    requires Reliable(env) && WellBehaved(env) && (prompt.Some? ==> Inert(prompt.value))
    requires ResumeDrive(env, cfg, system, history, s, decisions, prompt) == Some(d)
    requires var ls := Prepared(system, history, None);
      Run(Closed, ls.messages) == Some(Frontier(GetToolUses(ls.messages[|ls.messages| - 1]), {}))
    requires s.payload.ToolPayload? ==>
      var tool := s.payload.tool;
      T.NamesOnce(tool) && Bounded(cfg, tool.usage.counters.toolCalls, Restored(Prepared(system, history, None).messages, tool))
    ensures var messages := Prepared(system, history, None).messages;
      r.Some? <==>
        && ResumeGuards(env, cfg, messages, s) && s.payload.ToolPayload?
        && ResolveTools(env, cfg, Restored(messages, s.payload.tool), s.payload.tool, decisions).ResolvedAs?
    ensures r.None? ==> forall k :: 0 <= k < |d.end.ls.emitted| ==> !Works(d.end.ls.emitted[k]) && !d.end.ls.emitted[k].AssistantCommitted?
    ensures r.Some? && s.payload.ToolPayload? ==>
      var messages, tool := Prepared(system, history, None).messages, s.payload.tool;
      && ResumedFirst(env, cfg, messages, tool, decisions, prompt, d.end.ls.emitted, r.value)
      && AllAccounted(env, cfg, messages, tool.iteration + 1, tool.usage.counters, |r.value.done.ls.emitted|, d.end.ls.emitted)
  {
    hide Reliable, WellBehaved, Inert, Run, GetToolUses, ResumeGuards, ResolveTools, T.NamesOnce, Bounded, DriveLoop, Failed, ResumedFirst,
      AllAccounted, Inserted, Works;
    var ls := Prepared(system, history, None);
    r := None;
    EndsAside(env, ls);
    RefusedQuiet(ls, Failed(env, ls, SuspensionMismatch).ls.emitted);
    if ResumeGuards(env, cfg, ls.messages, s) {
      GuardsName(env, cfg, ls.messages, s);
      var restored := Restored(ls.messages, s.payload.tool);
      EndsAside(env, restored);
      match ResolveTools(env, cfg, restored, s.payload.tool, decisions)
      case ResolveFailed(validation) => RefusedQuiet(restored, Failed(env, restored, ResolutionRefused(validation)).ls.emitted);
      case ResolvedAs(_) =>
        var first := ResumeAccounted(env, cfg, ls, s, decisions, prompt);
        r := Some(first);
    }
  }

  lemma RefusedQuiet(ls: Loop, events: seq<J.Event>)
    requires ls.emitted == [] && OnlyAside(ls.emitted, events)
    ensures forall k :: 0 <= k < |events| ==> !Works(events[k]) && !events[k].AssistantCommitted?
  {
  }

  // ---------------------------------------------------------------------
  // Which rounds ask, and which answers are taken.

  /** The next round may ask the model: nobody called the run off, it has rounds left, and no limit on requests or tokens is spent. */
  predicate MayAsk(env: Env, cfg: Config, ls: Loop) {
    && !env.canceled(ls.iteration) && ls.iteration < cfg.maxIterations
    && (cfg.limits.Some? ==>
          var l, c := cfg.limits.value, ls.usage.counters;
          && (l.maxRequests.Some? ==> c.requests < l.maxRequests.value)
          && (l.maxRequestTokens.Some? ==> c.promptTokens <= l.maxRequestTokens.value)
          && (l.maxTotalTokens.Some? ==> c.totalTokens <= l.maxTotalTokens.value))
  }

  /** What a round says: the request and the answer if both may be, and otherwise how the run ends. */
  predicate RoundSays(env: Env, cfg: Config, ls: Loop, said: seq<J.Event>) {
    if !MayAsk(env, cfg, ls) then said == if env.canceled(ls.iteration) then [J.RunInterrupted, J.RunEnded] else [J.RunFailed, J.RunEnded]
    else
      match env.respond(ls.iteration, ls.messages)
      case ModelCanceled => said == [J.TurnStarted, J.RunInterrupted, J.RunEnded]
      case ModelFailed(_) => said == [J.TurnStarted, J.RunFailed, J.RunEnded]
      case Answered(message, usage, finish) =>
        if MayCommit(cfg, ls.usage.counters, message, usage, finish) then [J.TurnStarted, J.AssistantCommitted(message)] <= said
        else said == [J.TurnStarted, J.RunFailed, J.RunEnded]
  }

  lemma EndsSay(env: Env, ls: Loop)
    requires Reliable(env)
    ensures forall error: DriveError :: error != SinkFailed ==> Failed(env, ls, error).ls.emitted == ls.emitted + [J.RunFailed, J.RunEnded]
    ensures Interrupted(env, ls).ls.emitted == ls.emitted + [J.RunInterrupted, J.RunEnded]
  {
    TwoSaid(env, ls, J.RunFailed, J.RunEnded);
    TwoSaid(env, ls, J.RunInterrupted, J.RunEnded);
    hide Emit;
  }

  lemma {:induction false} UsableAnswer(cfg: Config, before: Usage, message: Message, usage: Counters, finish: FinishReason)
    ensures Unusable(cfg, AddResponse(before, usage), message, finish).None? <==> MayCommit(cfg, before.counters, message, usage, finish)
    ensures Unusable(cfg, AddResponse(before, usage), message, finish) != Some(SinkFailed)
  {
  }

  lemma {:induction false} MayHalt(env: Env, cfg: Config, ls: Loop)
    ensures Halt(env, cfg, ls).None? <==> MayAsk(env, cfg, ls)
    ensures Halt(env, cfg, ls) != Some(SinkFailed)
    ensures Halt(env, cfg, ls) == Some(ContextCanceled) <==> env.canceled(ls.iteration)
  {
  }

  /** Every round asks if and only if it may, and commits what it hears if and only if it may. */
  lemma {:induction false} RoundHeard(env: Env, cfg: Config, ls: Loop)
    requires Reliable(env)
    ensures var events := Left(Round(env, cfg, ls)).emitted;
      ls.emitted <= events && RoundSays(env, cfg, ls, events[|ls.emitted|..])
  {
    hide Reliable, Halt, MayAsk, MayCommit, Failed, Interrupted, TakeAnswer, Unusable, AddResponse;
    MayHalt(env, cfg, ls);
    EndsSay(env, ls);
    if MayAsk(env, cfg, ls) {
      EmitAside(env, ls, J.TurnStarted);
      EmitsReliablyHere(env, ls, J.TurnStarted);
      var started := Emit(env, ls, J.TurnStarted).0;
      EndsSay(env, started);
      match env.respond(ls.iteration, ls.messages)
      case Answered(message, usage, finish) => AnswerHeard(env, cfg, started, message, usage, finish);
      case _ =>
    }
  }

  lemma {:induction false} AnswerHeard(env: Env, cfg: Config, started: Loop, message: Message, usage: Counters, finish: FinishReason)
    requires Reliable(env)
    ensures var events := Left(TakeAnswer(env, cfg, started, message, usage, finish)).emitted;
      if MayCommit(cfg, started.usage.counters, message, usage, finish) then started.emitted + [J.AssistantCommitted(message)] <= events
      else events == started.emitted + [J.RunFailed, J.RunEnded]
  {
    hide Reliable, MayCommit, Failed, Unusable, AddResponse, CompleteTurn, FinishTurn, Drives.Suspends, Aside;
    UsableAnswer(cfg, started.usage, message, usage, finish);
    var counted := started.(usage := AddResponse(started.usage, usage));
    EndsSay(env, counted);
    EndsSay(env, counted.(finish := finish));
    if MayCommit(cfg, started.usage.counters, message, usage, finish) {
      AnswerTaken(env, cfg, started, Answered(message, usage, finish));
      var committed := CommittedTo(cfg, started, Answered(message, usage, finish));
      var c := CompleteTurn(env, cfg, committed, message, None);
      CompletionSilent(env, cfg, committed, message);
      if c.outcome.suspension.Some? {
        SuspendAside(env, c.ls, c.outcome.suspension.value);
      } else {
        FinishAside(env, cfg, c.ls, c.outcome);
      }
    }
  }

  // ---------------------------------------------------------------------
  // Read off the accounts.

  lemma {:induction false} StartHeard(events: seq<J.Event>, k: nat)
    requires k < |events| && events[k].ToolStarted?
    ensures events[k].call in E.StartedIn(events)
    decreases |events|
  {
    if k < |events| - 1 {
      StartHeard(events[..|events| - 1], k);
    }
  }

  /** Whatever a started drive runs, the gate decided to execute: it was asked about the regular calls of the answer before it. */
  lemma {:induction false} NothingUndecidedRuns(env: Env, cfg: Config, base: Transcript, first: int, used: Counters, from: nat, events: seq<J.Event>,
                                                k: nat) returns (j: nat, t: Record, p: nat)
    requires AllAccounted(env, cfg, base, first, used, from, events) && from <= k < |events| && events[k].ToolStarted?
    ensures j < k && Accounted(env, cfg, base, first, used, events, j, t) && k < |t.done.ls.emitted|
    ensures p < |t.regular| && t.regular[p] == events[k].call
    ensures Selects(t.regular, GetToolUses(events[j].message), T.Regulars(cfg, GetToolUses(events[j].message)))
    ensures var outcome := env.gate(t.ls.iteration, t.regular);
      && outcome.Decided? && Acceptable(t.regular, outcome.decision) && !T.GateSuspends(env, t.ls, t.regular)
      && outcome.decision.calls[p].kind == DispositionExecute
  {
    hide Accounted, A.TurnObeys, E.StartedIn, GetToolUses, Selects, T.GateSuspends, Fits, T.Regulars;
    assert Works(events[k]) && Owned(events, from, k);
    j :| from <= j < k && events[j].AssistantCommitted? && forall i :: j < i <= k ==> Routine(events[i]);
    t :| Accounted(env, cfg, base, first, used, events, j, t);
    StartedWithin(env, cfg, base, first, used, events, j, t, k);
    p := RunDecided(env, cfg, t.ls, events[j].message, t.regular, t.run, t.fates, t.done, events[k].call);
  }

  /** Work after an answer, with nothing else in between, is work on its turn. */
  lemma {:induction false} StartedWithin(env: Env, cfg: Config, base: Transcript, first: int, used: Counters, events: seq<J.Event>, j: nat, t: Record,
                                         k: nat)
    requires Accounted(env, cfg, base, first, used, events, j, t)
    requires j < k < |events| && events[k].ToolStarted? && forall i :: j < i <= k ==> Routine(events[i])
    ensures k < |t.done.ls.emitted| && t.ls.emitted <= t.done.ls.emitted
    ensures events[k].call in E.StartedIn(t.done.ls.emitted[|t.ls.emitted|..])
    ensures events[j].AssistantCommitted? && A.TurnObeys(env, cfg, t.ls, events[j].message, t.regular, t.run, t.fates, t.done)
  {
    hide A.TurnObeys, Replied, TurnsIn, E.StartedIn, CommittedAll;
    var e := |t.done.ls.emitted|;
    assert !Routine(events[e]);
    var turn := t.done.ls.emitted[|t.ls.emitted|..];
    assert t.done.ls.emitted[k] == events[k] && turn[k - j - 1] == events[k];
    StartHeard(turn, k - j - 1);
  }

  lemma {:induction false} RunDecided(env: Env, cfg: Config, ls: Loop, message: Message, regular: seq<ToolUse>, run: seq<ToolUse>, fates: seq<T.Fate>,
                                      c: Completed, call: ToolUse) returns (p: nat)
    requires A.TurnObeys(env, cfg, ls, message, regular, run, fates, c)
    requires ls.emitted <= c.ls.emitted && call in E.StartedIn(c.ls.emitted[|ls.emitted|..])
    ensures Selects(regular, GetToolUses(message), T.Regulars(cfg, GetToolUses(message)))
    ensures p < |regular| && regular[p] == call
    ensures var outcome := env.gate(ls.iteration, regular);
      && outcome.Decided? && Acceptable(regular, outcome.decision) && !T.GateSuspends(env, ls, regular)
      && outcome.decision.calls[p].kind == DispositionExecute
  {
    hide GetToolUses, Selects, T.GateSuspends, Fits, A.Fated, A.Meets, A.MayComplete, E.StartedIn, E.ResultsIn, E.PlannedIn, T.Refuses,
      T.SuspendsAs, E.SomeAsks, T.Regulars;
    var decision := env.gate(ls.iteration, regular).decision;
    SelectsMembers(run, regular, T.Executing(decision));
    var m :| 0 <= m < |run| && run[m] == call;
    p :| p in T.Executing(decision) && p < |regular| && regular[p] == run[m];
  }

  lemma SelectedDistinct(chosen: seq<ToolUse>, all: seq<ToolUse>, keep: set<nat>)
    requires Selects(chosen, all, keep) && DistinctIds(all)
    ensures DistinctIds(chosen)
  {
    var at: seq<nat> :| Picks(chosen, all, at) && PositionsOf(at) == keep;
  }

  /** In the turn of an answer, a call the gate answered is not run, and is answered with exactly the result it was given. */
  lemma {:induction false} ReturnedNeverRuns(env: Env, cfg: Config, ls: Loop, message: Message, regular: seq<ToolUse>, run: seq<ToolUse>,
                                             fates: seq<T.Fate>, c: Completed, i: nat, p: nat)
    requires A.TurnObeys(env, cfg, ls, message, regular, run, fates, c) && c.outcome.suspension.None? && DistinctIds(GetToolUses(message))
    requires var calls := GetToolUses(message);
      i < |calls| && calls[i].name !in cfg.outputs && !T.EndsEarly(cfg, calls) && p < |regular| && regular[p] == calls[i]
    requires var outcome := env.gate(ls.iteration, regular);
      outcome.Decided? && Acceptable(regular, outcome.decision) && outcome.decision.calls[p].kind == DispositionReturn
    ensures ls.emitted <= c.ls.emitted
    ensures var events := c.ls.emitted[|ls.emitted|..];
      && (forall call :: call in E.StartedIn(events) ==> call.id != GetToolUses(message)[i].id)
      && i < |E.ResultsIn(events)|
      && E.ResultsIn(events)[i] == env.gate(ls.iteration, regular).decision.calls[p].result.value.result
  {
    hide GetToolUses, Selects, Fits, A.MayComplete, E.StartedIn, E.ResultsIn, E.PlannedIn, T.Refuses, T.SuspendsAs, E.SomeAsks, DistinctIds,
      T.RunsUnder, T.EndsEarly, T.HasOutput, E.Names, T.GateFate;
    var calls := GetToolUses(message);
    SelectedDistinct(regular, calls, T.Regulars(cfg, calls));
    var fate := ReturnedFate(env, cfg, ls, calls, regular, i, p, fates[i]);
    assert A.Meets(env, cfg, ls, false, fates[i], calls[i], c.outcome.candidate, c.outcome.results[i]);
    RunNotReturned(env, cfg, ls, regular, run, p);
  }

  lemma ReturnedFate(env: Env, cfg: Config, ls: Loop, calls: seq<ToolUse>, regular: seq<ToolUse>, i: nat, p: nat, fate: T.Fate)
      returns (result: Executed)
    requires DistinctIds(regular) && i < |calls| && p < |regular| && regular[p] == calls[i]
    requires calls[i].name !in cfg.outputs && !T.EndsEarly(cfg, calls) && A.Fated(env, cfg, ls, calls, regular, i, fate)
    requires var outcome := env.gate(ls.iteration, regular);
      outcome.Decided? && Acceptable(regular, outcome.decision) && outcome.decision.calls[p].kind == DispositionReturn
    ensures env.gate(ls.iteration, regular).decision.calls[p].result.Some?
    ensures result == env.gate(ls.iteration, regular).decision.calls[p].result.value && fate == T.Fixed(result)
  {
    hide T.EndsEarly, T.Refuses;
    var decision := env.gate(ls.iteration, regular).decision;
    assert Fits(regular[p], decision.calls[p]);
    result := decision.calls[p].result.value;
    var q :| 0 <= q < |regular| && regular[q] == calls[i] && fate == T.GateFate(env, cfg, ls, regular, q);
    assert q == p;
  }

  lemma {:induction false} RunNotReturned(env: Env, cfg: Config, ls: Loop, regular: seq<ToolUse>, run: seq<ToolUse>, p: nat)
    requires DistinctIds(regular) && T.RunsUnder(env, cfg, ls, regular, run) && p < |regular|
    requires var outcome := env.gate(ls.iteration, regular);
      outcome.Decided? && Acceptable(regular, outcome.decision) && outcome.decision.calls[p].kind == DispositionReturn
    ensures forall call :: call in run ==> call.id != regular[p].id
  {
    hide T.GateSuspends, T.Refuses, Fits, DistinctIds, Selects;
    var decision := env.gate(ls.iteration, regular).decision;
    if run != [] {
      T.RunApart(regular, decision, run, p);
    }
  }

  /** In a resumed turn, a call the operator answered is not run, and is answered with exactly the result that was supplied. */
  lemma {:induction false} SuppliedNeverRuns(env: Env, cfg: Config, ls: Loop, tool: ToolSuspension, decisions: seq<ToolResumeDecision>,
                                             assistant: Message, r: Resumption, i: nat, d: ToolResumeDecision)
    requires A.ResumptionObeys(env, cfg, ls, tool, decisions, assistant, r.executable, r.decided, r.fates, r.resolved, r.mid, r.done)
    requires r.done.outcome.suspension.None? && T.NamesOnce(tool) && tool.calls == GetToolUses(assistant) && DistinctDecisions(decisions)
    requires var calls := GetToolUses(assistant);
      i < |calls| && calls[i].name !in cfg.outputs && !T.EndsEarly(cfg, calls) && calls[i].id in tool.executableIds && d.callId == calls[i].id
    requires d in decisions && d.action == ResumeReturn
    ensures forall call :: call in T.Attempts(r.decided) ==> call.id != d.callId
    ensures var events := r.done.ls.emitted[|r.mid.emitted|..];
      r.mid.emitted <= r.done.ls.emitted && i < |E.ResultsIn(events)| && d.result.Some? && E.ResultsIn(events)[i] == d.result.value.result
  {
    hide GetToolUses, E.ResultsIn, E.StartedIn, E.PlannedIn, E.SomeAsks, E.SomeBreaks, T.EndsEarly, T.HasOutput, E.Names, T.OperatorFates,
      T.Attempts, A.Meets, A.Resumed, E.Starts;
    var calls := GetToolUses(assistant);
    assert |r.decided| == |r.executable| by { A.FatesGiven(decisions, r.executable, r.decided); }
    assert A.Resumed(cfg, calls, r.executable, r.decided, i, r.fates[i]);
    assert A.Meets(env, cfg, ls, tool.handlerSuspension, r.fates[i], calls[i], r.done.outcome.candidate, r.done.outcome.results[i]);
    SuppliedFate(cfg, tool, decisions, calls, r, i, d);
    MeetsFixed(env, cfg, ls, tool.handlerSuspension, calls[i], r.done.outcome.candidate, d.result.value, r.done.outcome.results[i]);
  }

  lemma MeetsFixed(env: Env, cfg: Config, ls: Loop, resumed: bool, call: ToolUse, candidate: bool, result: Executed, r: Executed)
    requires A.Meets(env, cfg, ls, resumed, T.Fixed(result), call, candidate, r)
    ensures r == result
  {
  }

  lemma {:induction false} SuppliedFate(cfg: Config, tool: ToolSuspension, decisions: seq<ToolResumeDecision>, calls: seq<ToolUse>, r: Resumption,
                                        i: nat, d: ToolResumeDecision)
    requires T.NamesOnce(tool) && T.NamesEach(tool.calls, tool.executableIds, r.executable) && T.OperatorFates(decisions, r.executable, r.decided)
    requires calls == tool.calls && i < |calls| && calls[i].id in tool.executableIds && DistinctDecisions(decisions)
    requires |r.fates| == |calls| && calls[i].name !in cfg.outputs && !T.EndsEarly(cfg, calls)
    requires A.Resumed(cfg, calls, r.executable, r.decided, i, r.fates[i])
    requires d in decisions && d.callId == calls[i].id && d.action == ResumeReturn
    ensures d.result.Some? && r.fates[i] == T.Fixed(d.result.value)
    ensures forall call :: call in T.Attempts(r.decided) ==> call.id != d.callId
  {
    hide T.EndsEarly, T.Attempts;
    var n :| 0 <= n < |tool.executableIds| && tool.executableIds[n] == calls[i].id;
    assert r.executable[n].id == calls[i].id && E.Names(r.executable, calls[i].id);
    T.NamedOnce(tool, r.executable);
    DecidedOnce(decisions, r.executable[n], r.decided[n], d);
    forall call | call in T.Attempts(r.decided) ensures call.id != d.callId {
      var m := T.AttemptOf(r.decided, call);
      assert T.OperatorFate(decisions, r.executable[m], r.decided[m]);
      assert call.id == r.executable[m].id;
      assert m != n;
    }
  }

  lemma DecidedOnce(decisions: seq<ToolResumeDecision>, call: ToolUse, fate: T.Fate, d: ToolResumeDecision)
    requires T.OperatorFate(decisions, call, fate) && DistinctDecisions(decisions) && d in decisions && d.callId == call.id
    ensures T.Decreed(call, d, fate)
  {
    var other :| other in decisions && other.callId == call.id && T.Decreed(call, other, fate);
    var a :| 0 <= a < |decisions| && decisions[a] == d;
    var b :| 0 <= b < |decisions| && decisions[b] == other;
    assert a == b;
  }

  /** From the operator to the transcript: what the operator denied never runs and fails, what the operator answered is answered with just that. */
  lemma {:induction false} OperatorObeyed(env: Env, cfg: Config, ls: Loop, s: Suspension, request: ResumeRequest,
                                          decisions: seq<ToolResumeDecision>, assistant: Message, r: Resumption, i: nat, said: ToolResolution)
    requires Plannable(s, request) && Planned(s, request, decisions)
    requires A.ResumptionObeys(env, cfg, ls, s.payload.tool, decisions, assistant, r.executable, r.decided, r.fates, r.resolved, r.mid, r.done)
    requires r.done.outcome.suspension.None? && s.payload.tool.calls == GetToolUses(assistant)
    requires var calls := GetToolUses(assistant);
      i < |calls| && calls[i].name !in cfg.outputs && !T.EndsEarly(cfg, calls) && said.callId == calls[i].id
    requires said in request.resolutions && said.action != ResolutionApprove
    ensures forall call :: call in T.Attempts(r.decided) ==> call.id != said.callId
    ensures r.mid.emitted <= r.done.ls.emitted && i < |E.ResultsIn(r.done.ls.emitted[|r.mid.emitted|..])|
    ensures var result := E.ResultsIn(r.done.ls.emitted[|r.mid.emitted|..])[i];
      && result.toolUseId == said.callId && (result.isError <==> said.action == ResolutionDeny)
      && if said.action == ResolutionDeny then EndsWith(result.content, said.reason) else result.content == said.result.GetOr("")
  {
    hide A.ResumptionObeys, T.EndsEarly, T.Attempts, E.ResultsIn, GetToolUses, EndsWith, Planned;
    var d := PlannedAs(s, request, decisions, said);
    SuppliedNeverRuns(env, cfg, ls, s.payload.tool, decisions, assistant, r, i, d);
  }

  lemma {:induction false} PlannedAs(s: Suspension, request: ResumeRequest, decisions: seq<ToolResumeDecision>, said: ToolResolution)
      returns (d: ToolResumeDecision)
    requires Plannable(s, request) && Planned(s, request, decisions) && said in request.resolutions
    ensures DistinctDecisions(decisions) && d in decisions && d.callId == said.callId && said.callId in s.payload.tool.executableIds
    ensures exists call :: call in s.payload.tool.calls && call.id == said.callId && CarriesOut(call, said, d)
  {
    hide CarriesOut, DistinctDecisions, DecidesAs;
    PlannedObeys(s, request, decisions);
    hide Planned;
    DecisionsNamed(s.payload.tool, request.resolutions, decisions);
    hide Named, DistinctIds;
    var k :| 0 <= k < |request.resolutions| && request.resolutions[k] == said;
    assert ResolutionIds(request.resolutions)[k] == said.callId && said.callId in s.payload.tool.deferral.payload.required;
    d := DecidedAs(s.payload.tool, request.resolutions, decisions, said);
  }

  lemma {:induction false} DecidedAs(tool: ToolSuspension, resolutions: seq<ToolResolution>, decisions: seq<ToolResumeDecision>, said: ToolResolution)
      returns (d: ToolResumeDecision)
    requires PlanObeys(tool, resolutions, decisions) && said in resolutions && Distinct(ResolutionIds(resolutions))
    requires |decisions| == |tool.executableIds| && said.callId in tool.executableIds
    requires forall i :: 0 <= i < |decisions| ==> decisions[i].callId == tool.executableIds[i]
    ensures d in decisions && d.callId == said.callId
    ensures exists call :: call in tool.calls && call.id == said.callId && CarriesOut(call, said, d)
  {
    hide CarriesOut;
    var k :| 0 <= k < |resolutions| && resolutions[k] == said;
    assert ResolutionIds(resolutions)[k] == said.callId;
    var n :| 0 <= n < |tool.executableIds| && tool.executableIds[n] == said.callId;
    d := decisions[n];
    assert DecidesAs(tool, resolutions, tool.executableIds[n], d);
    var call, r :| call in tool.calls && call.id == said.callId && r in resolutions && r.callId == said.callId && CarriesOut(call, r, d);
    var m :| 0 <= m < |resolutions| && resolutions[m] == r;
    assert ResolutionIds(resolutions)[m] == ResolutionIds(resolutions)[k];
  }

  lemma {:induction false} DecisionsNamed(tool: ToolSuspension, resolutions: seq<ToolResolution>, decisions: seq<ToolResumeDecision>)
    requires PlanObeys(tool, resolutions, decisions) && T.NamesOnce(tool) && Named(tool.calls)
    ensures |decisions| == |tool.executableIds| && DistinctDecisions(decisions)
    ensures forall i :: 0 <= i < |decisions| ==> decisions[i].callId == tool.executableIds[i]
  {
    forall i | 0 <= i < |decisions| ensures decisions[i].callId == tool.executableIds[i] && decisions[i].callId != "" {
      assert DecidesAs(tool, resolutions, tool.executableIds[i], decisions[i]);
      var call :| call in tool.calls && call.id == tool.executableIds[i] && (tool.executableIds[i] in ResolutionIds(resolutions) ==>
        exists r :: r in resolutions && r.callId == call.id && CarriesOut(call, r, decisions[i]));
    }
  }
}
