/** The session as the driver's host: a drive played against a live handle, act by act, and settled (harness/session/execution.go). */
module SessionHosts {
  import opened Messages
  import opened Pairing
  import opened Usages
  import opened Suspensions
  import opened ToolControl
  import opened ResumePlan
  import opened Turns
  import opened Resuming
  import opened Drives
  import opened DriveLaws
  import opened DriveAccounts
  import opened Protocols
  import opened Projections
  import opened Hosting
  import opened TurnBounds
  import opened HostedDrives
  import opened Requests
  import opened TidyRuns
  import opened Settlings
  import B = Batches
  import C = DriveChain
  import CP = ContextPolicy
  import J = Journals
  import L = Lawful
  import P = Placement
  import Q = QueueOrders
  import R = Repair
  import S = SessionStates
  import T = SessionSteps
  import opened Sessions

  /** A live handle inside a run. */
  ghost predicate InRun(session: Session)
    reads session, session.journal
  {
    session.Valid() && session.Live() && session.run.Some?
  }

  ghost function HandleOf(session: Session): Handle
    requires InRun(session)
    reads session, session.journal
  {
    Handle(session.Rebuilt(), session.Value(), session.state, session.suspending, session.run.value)
  }

  /** A journal that grew by a batch and stayed lawful folds on from where it was. */
  lemma FoldMoves(entries: seq<J.Entry>, batch: seq<J.Entry>)
    requires L.LawfulJournal(entries) && L.LawfulJournal(entries + batch)
    ensures J.FoldFrom(L.Recovered(entries), batch) == Some(L.Recovered(entries + batch))
  {
    var first := L.CreatedFold(entries[0].budget, entries[0].drainAll);
    L.RecoveredHealthy(entries);
    assert (entries + batch)[1..] == entries[1..] + batch;
    L.LawfulConcat(first, entries[1..], batch);
    L.AppendBatch(entries, batch);
  }

  /** One event to the session's sink: it goes on, or its store refused the entry and the handle is unusable. */
  method SayTo(session: Session, event: J.Event, ghost start: J.ActiveRun, ghost s: Stand, ghost said: seq<J.Event>) returns (ok: bool)
    requires InRun(session) && Hosts(start, s, HandleOf(session), said) && Next(s, Said(event)).Some?
    requires Speaks(Reported(said, start.lastUsage), event)
    modifies session, session.journal
    ensures session.Valid()
    ensures ok ==> InRun(session) && Hosts(start, Next(s, Said(event)).value, HandleOf(session), said + [event])
    ensures ok ==> old(HandleOf(session)).d.run.Some? && Emits(old(HandleOf(session)), event, HandleOf(session))
    ensures !ok ==> session.state == J.Faulted
  {
    hide Hosts, Speaks, Next, Welcome, Emits, S.EmitContract, L.LawfulJournal, L.Recovered, S.Refines, T.EmittedImage, S.EmittedRun;
    ghost var h := HandleOf(session);
    HostedParts(start, s, h, said, event);
    var error := session.Emit(event);
    ok := error.None?;
    if ok {
      ghost var after := HandleOf(session);
      EmitsTo(old(session.journal.entries), session.journal.entries, h, event, after);
      EmitHosted(start, s, h, said, event, after);
    }
  }

  lemma HostedParts(start: J.ActiveRun, s: Stand, h: Handle, said: seq<J.Event>, event: J.Event)
    requires Hosts(start, s, h, said) && Next(s, Said(event)).Some? && Speaks(Reported(said, start.lastUsage), event)
    ensures S.EmitContract(h.f, h.state, h.suspending, h.run, event) && T.UsageAfter(h.d.usage, h.run.lastUsage, event).Some?
  {
    EventWelcome(start, s, h, said, event);
  }

  lemma EmitsTo(before: seq<J.Entry>, entries: seq<J.Entry>, h: Handle, event: J.Event, after: Handle)
    requires L.LawfulJournal(before) && L.LawfulJournal(entries) && h.f == L.Recovered(before) && after.f == L.Recovered(entries)
    requires h.d.run.Some? && T.UsageAfter(h.d.usage, h.run.lastUsage, event).Some?
    requires var used := T.UsageAfter(h.d.usage, h.run.lastUsage, event).value;
      && entries == before + [J.EventEntry(event, S.EmitIds(h.run, event), used)]
      && after.d == T.EmittedImage(h.d, event, used) && after.run == S.EmittedRun(h.run, event)
      && after.state == h.state && after.suspending == S.Suspending(h.suspending, event)
    ensures Emits(h, event, after)
  {
    hide L.LawfulJournal, L.Recovered, T.EmittedImage, S.EmittedRun, J.FoldFrom;
    FoldMoves(before, [J.EventEntry(event, S.EmitIds(h.run, event), T.UsageAfter(h.d.usage, h.run.lastUsage, event).value)]);
  }

  /** One call of the session's hook. The answer is the scripted one, another, or the handle is unusable. */
  method AskOf(session: Session, candidate: bool, reply: HookReply, ghost start: J.ActiveRun, ghost said: seq<J.Event>)
      returns (ok: bool)
    requires InRun(session) && Hosts(start, AtTurnEnd, HandleOf(session), said)
    modifies session, session.journal
    ensures session.Valid()
    ensures ok ==> InRun(session) && Hosts(start, Replied(candidate, reply), HandleOf(session), said)
    ensures ok ==> Steps(old(HandleOf(session)), Moves(Heard(candidate, reply)), HandleOf(session))
  {
    hide Hosts, Replied, L.LawfulJournal, L.Recovered, S.Refines, B.DrainBatch, S.HookInputs, S.ChildExhausted, L.InjectionMatches,
      Q.TakenInTurn, Q.Due;
    ghost var h := HandleOf(session);
    ghost var inputs := S.HookInputs(session.queue, candidate, session.drainAll);
    var answer := session.TurnHook(candidate);
    ok := Conveys(answer, reply) && session.state != J.Faulted;
    if ok {
      ghost var after := HandleOf(session);
      if answer.HookInject? {
        FoldMoves(old(session.journal.entries), B.DrainBatch(inputs));
      }
      assert Hooks(h, candidate, answer, after);
      HookHosted(start, h, said, candidate, answer, reply, after);
    }
  }

  // ---------------------------------------------------------------------
  // The history processor.

  datatype ContextChange = ContextChange(additions: Transcript, recipe: Option<CP.Compaction>)

  /** What the context policy makes of the durable view and the current recipe. */
  type Policy = (Transcript, Option<CP.Compaction>) -> ContextChange

  ghost predicate Disciplined(policy: Policy) {
    forall view: Transcript, recipe: Option<CP.Compaction> :: CP.ContextTail(policy(view, recipe).additions)
  }

  lemma ContextTo(before: seq<J.Entry>, entries: seq<J.Entry>, h: Handle, root: Transcript, change: ContextChange, after: Handle)
    requires L.LawfulJournal(before) && L.LawfulJournal(entries) && h.f == L.Recovered(before) && after.f == L.Recovered(entries)
    requires h.state == J.Running && Viewed(h, root) && CP.ContextTail(change.additions)
    requires entries == before + T.ContextStepBatch(|h.d.messages|, change.additions, change.recipe)
    requires after == h.(f := after.f, d := h.d.(markers := h.d.markers + B.MarkersAt(|h.d.messages|, change.additions),
                                                 compaction := if change.recipe.Some? then change.recipe else h.d.compaction))
    ensures Besides(h, Projecting(root, change.additions, change.recipe), after)
  {
    hide L.LawfulJournal, L.Recovered, Viewed, J.FoldFrom, T.ContextStepBatch;
    FoldMoves(before, T.ContextStepBatch(|h.d.messages|, change.additions, change.recipe));
  }

  lemma NoChange(h: Handle, root: Transcript, additions: Transcript, recipe: Option<CP.Compaction>)
    requires h.state == J.Running && Viewed(h, root) && CP.ContextTail(additions) && additions == [] && recipe.None?
    ensures Besides(h, Projecting(root, additions, recipe), h)
  {
    hide Viewed;
    assert h.d.markers + [] == h.d.markers;
    assert T.ContextStepBatch(|h.d.messages|, additions, recipe) == [];
  }

  /**
   * projectHistory, with the driver's transcript for a request. The comparison with the session's own view passes; the projection is refused
   * only by a session that is no longer running, or by its store.
   */
  method ProjectFor(session: Session, root: Transcript, policy: Policy, ghost start: J.ActiveRun, ghost said: seq<J.Event>)
      returns (failure: Option<S.SessionError>, ghost other: Other)
    requires InRun(session) && Hosts(start, AtRequest, HandleOf(session), said) && Viewed(HandleOf(session), root) && Disciplined(policy)
    modifies session, session.journal
    ensures session.Valid()
    ensures failure.None? ==> InRun(session) && Hosts(start, AtRequest, HandleOf(session), said)
    ensures failure.None? ==> other.Projecting? && Besides(old(HandleOf(session)), other, HandleOf(session))
    ensures failure.Some? ==>
      || (failure == Some(S.RunCanceled) && session.state != J.Running && session.state == old(session.state))
      || (failure == Some(S.AppendRefused) && session.state == J.Faulted)
  {
    hide Hosts, L.LawfulJournal, L.Recovered, S.Refines, CP.ContextTail, T.ContextStepBatch, B.MarkersAt, S.ContextViews, Besides, T.Settled;
    ghost var h := HandleOf(session);
    var error, full := session.InspectView(root);
    assert error.None? && HandleOf(session) == h;
    var change := policy(full, session.compaction);
    other := Projecting(root, change.additions, change.recipe);
    failure := session.CommitContext(change.additions, change.recipe);
    if failure.None? {
      ghost var after := HandleOf(session);
      if change.additions == [] && change.recipe.None? {
        NoChange(h, root, change.additions, change.recipe);
      } else {
        ContextTo(old(session.journal.entries), session.journal.entries, h, root, change, after);
      }
      OtherHosted(start, AtRequest, h, said, other, after);
    }
  }

  // ---------------------------------------------------------------------
  // A whole script.

  /** The drive's script is in order, decent and composed, and its requests are recorded. */
  ghost predicate Playable(d: Drive, start: J.ActiveRun, inserted: Option<Message>) {
    && Walk(Script(d)).Some? && Decent(Script(d), start.lastUsage) && Composed(start, Script(d))
    && Recorded(OptionalMessage(inserted) + start.history + start.expected, 0, 0, d)
    && (inserted.Some? ==> inserted.value.role == RoleSystem && !J.StartsWithSystem(start.history))
  }

  /** The session after the first `k` acts. */
  ghost predicate Reached(session: Session, d: Drive, k: nat, start: J.ActiveRun)
    reads session, session.journal
  {
    && InRun(session) && k <= |Script(d)| && Walk(Script(d)[..k]).Some?
    && Hosts(start, Walk(Script(d)[..k]).value, HandleOf(session), EventsIn(Script(d)[..k]))
    && P.TidyImage(session.Value()) && Owed(HandleOf(session))
  }

  /** The suspension the handle names: the announced one, or the one it held before. */
  predicate Names(d: Drive, k: nat, held: Option<Suspension>, suspension: Option<Suspension>)
    requires k <= |Script(d)|
  {
    Walk(Script(d)[..k]).Some? && !Walk(Script(d)[..k]).value.AtPause? ==> suspension == held
  }

  /** Why a script stops early: a dead store, another answer of the hook, or a request whose context is no longer taken. */
  ghost predicate Stuck(session: Session, d: Drive, k: nat)
    reads session
  {
    || session.state == J.Faulted
    || (k < |Script(d)| && Script(d)[k].Heard?)
    || (k < |Script(d)| && Script(d)[k] == Said(J.TurnStarted) && session.state != J.Running)
  }

  lemma PlayableAt(d: Drive, start: J.ActiveRun, inserted: Option<Message>, k: nat)
    requires Playable(d, start, inserted) && k < |Script(d)|
    ensures Walk(Script(d)[..k]).Some? && Walk(Script(d)[..k + 1]).Some?
    ensures Next(Walk(Script(d)[..k]).value, Script(d)[k]) == Walk(Script(d)[..k + 1])
    ensures Script(d)[..k + 1] == Script(d)[..k] + [Script(d)[k]]
    ensures Script(d)[k].Said? ==> Speaks(Reported(EventsIn(Script(d)[..k]), start.lastUsage), Script(d)[k].event)
    ensures EventsIn(Script(d)[..k + 1])
      == EventsIn(Script(d)[..k]) + (if Script(d)[k].Said? then [Script(d)[k].event] else [])
  {
    hide Walk, Next, Speaks, Reported, Composed, Recorded, Acts;
    WalkOn(Script(d), k);
    assert Script(d)[..k + 1][..k] == Script(d)[..k];
  }

  /** The request of a turn that has just started, as the session sees it. */
  lemma RequestAt(d: Drive, start: J.ActiveRun, inserted: Option<Message>, k: nat, h: Handle)
    requires Playable(d, start, inserted) && k <= |Script(d)| && Walk(Script(d)[..k]) == Some(AtRequest)
    requires Hosts(start, AtRequest, h, EventsIn(Script(d)[..k]))
    ensures var i := TurnsIn(EventsIn(Script(d)[..k])) - 1; 0 <= i < |d.requests| && Viewed(h, d.requests[i].messages)
  {
    hide Walk, Composed, Recorded, Acts, Hosts, Viewed, CommittedAll;
    var acts := Script(d)[..k];
    var base := OptionalMessage(inserted) + start.history + start.expected;
    var i := RequestCarries(d, base, acts);
    HostViews(start, AtRequest, h, EventsIn(acts), inserted);
    var said := CommittedAll(EventsIn(acts));
    assert base + said == OptionalMessage(inserted) + start.history + (start.expected + said);
  }

  method PlayEvent(session: Session, d: Drive, k: nat, event: J.Event, ghost start: J.ActiveRun, ghost inserted: Option<Message>)
      returns (ok: bool)
    requires Playable(d, start, inserted) && k < |Script(d)| && Script(d)[k] == Said(event) && Reached(session, d, k, start)
    modifies session, session.journal
    ensures session.Valid()
    ensures ok ==> Reached(session, d, k + 1, start) && Names(d, k + 1, old(session.suspension), session.suspension)
    ensures ok ==> (session.state == J.Interrupting <==> old(session.state) == J.Interrupting)
    ensures !ok ==> session.state == J.Faulted
  {
    hide Hosts, Walk, Next, Speaks, Composed, Recorded, Decent, Acts, Emits, Owed, P.TidyImage, L.LawfulJournal, L.Recovered, S.Refines,
      Reported, Sound;
    PlayableAt(d, start, inserted, k);
    ghost var h, s := HandleOf(session), Walk(Script(d)[..k]).value;
    ok := SayTo(session, event, start, s, EventsIn(Script(d)[..k]));
    if ok {
      ghost var after := HandleOf(session);
      SaidTidy(start, s, h, Script(d), k, after);
      SaidOwed(h, event, after);
      SaidSame(s, h, event, after);
    }
  }

  lemma SaidSame(s: Stand, h: Handle, event: J.Event, after: Handle)
    requires h.d.run.Some? && Emits(h, event, after) && Next(s, Said(event)).Some?
    ensures after.state == h.state && (!Next(s, Said(event)).value.AtPause? ==> after.d.suspension == h.d.suspension)
  {
    hide J.FoldFrom, S.EmittedRun, T.UsageAfter;
  }

  method PlayHook(session: Session, d: Drive, k: nat, candidate: bool, reply: HookReply, ghost start: J.ActiveRun,
                  ghost inserted: Option<Message>) returns (ok: bool)
    requires Playable(d, start, inserted) && k < |Script(d)| && Script(d)[k] == Heard(candidate, reply) && Reached(session, d, k, start)
    modifies session, session.journal
    ensures session.Valid()
    ensures ok ==> Reached(session, d, k + 1, start) && session.suspension == old(session.suspension)
    ensures ok ==> (session.state == J.Interrupting <==> old(session.state) == J.Interrupting)
  {
    hide Hosts, Walk, Next, Speaks, Composed, Recorded, Decent, Acts, Owed, P.TidyImage, L.LawfulJournal, L.Recovered, S.Refines,
      Reported, Sound, Steps, Replied;
    PlayableAt(d, start, inserted, k);
    ghost var h, s := HandleOf(session), Walk(Script(d)[..k]).value;
    HeardAtEnd(s, candidate, reply);
    ok := AskOf(session, candidate, reply, start, EventsIn(Script(d)[..k]));
    if ok {
      ghost var after := HandleOf(session);
      assert EventsIn(Script(d)[..k]) + [] == EventsIn(Script(d)[..k]);
      QuietTidy(h, Moves(Heard(candidate, reply)), after);
      TidySame(h, after);
      BeatOwed(start, s, h, EventsIn(Script(d)[..k]), Moves(Heard(candidate, reply)), after);
      HeardSame(h, candidate, reply, after);
    }
  }

  lemma TidySame(h: Handle, after: Handle)
    requires P.TidyImage(h.d) && after.d.messages == h.d.messages && after.d.markers == h.d.markers
    ensures P.TidyImage(after.d)
  {
  }

  lemma HeardSame(h: Handle, candidate: bool, reply: HookReply, after: Handle)
    requires Steps(h, Moves(Heard(candidate, reply)), after)
    ensures after.d.suspension == h.d.suspension && (after.state == J.Interrupting <==> h.state == J.Interrupting)
  {
    hide J.FoldFrom, S.HookInputs, S.ChildExhausted, B.RemoveAll;
  }

  lemma HeardAtEnd(s: Stand, candidate: bool, reply: HookReply)
    requires Next(s, Heard(candidate, reply)).Some?
    ensures s == AtTurnEnd && Next(s, Heard(candidate, reply)).value == Replied(candidate, reply)
  {
  }

  method PlayRequest(session: Session, d: Drive, k: nat, policy: Policy, ghost start: J.ActiveRun, ghost inserted: Option<Message>)
      returns (ok: bool)
    requires Playable(d, start, inserted) && k <= |Script(d)| && Walk(Script(d)[..k]) == Some(AtRequest) && Reached(session, d, k, start)
    requires Disciplined(policy)
    modifies session, session.journal
    ensures session.Valid()
    ensures ok ==> Reached(session, d, k, start) && session.suspension == old(session.suspension)
    ensures ok ==> (session.state == J.Interrupting <==> old(session.state) == J.Interrupting)
    ensures !ok ==> session.state != J.Running
  {
    hide Hosts, Walk, Composed, Recorded, Decent, Acts, Owed, P.TidyImage, L.LawfulJournal, L.Recovered, S.Refines, Sound, Besides, Viewed,
      Disciplined;
    ghost var h := HandleOf(session);
    RequestAt(d, start, inserted, k, h);
    var i := TurnsIn(EventsIn(Script(d)[..k])) - 1;
    var failure;
    ghost var other;
    failure, other := ProjectFor(session, d.requests[i].messages, policy, start, EventsIn(Script(d)[..k]));
    ok := failure.None?;
    if ok {
      ghost var after := HandleOf(session);
      PlayableComposed(d, start, inserted);
      ShownTidy(start, h, Script(d), k, other, after);
      BesideOwed(h, other, after);
      ShownSame(h, other, after);
    }
  }

  lemma PlayableComposed(d: Drive, start: J.ActiveRun, inserted: Option<Message>)
    requires Playable(d, start, inserted)
    ensures Composed(start, Script(d)) && Walk(Script(d)).Some?
  {
  }

  lemma ShownSame(h: Handle, other: Other, after: Handle)
    requires other.Projecting? && Besides(h, other, after)
    ensures after.d.suspension == h.d.suspension && after.state == h.state
  {
    hide J.FoldFrom, Viewed;
  }

  /** Plays a script against the session, projecting the context of every request. It says why when it stops early. */
  method Play(session: Session, d: Drive, policy: Policy, ghost start: J.ActiveRun, ghost inserted: Option<Message>)
      returns (played: nat, done: bool)
    requires InRun(session) && Hosts(start, AtStart, HandleOf(session), []) && Playable(d, start, inserted) && Disciplined(policy)
    requires P.TidyImage(session.Value()) && Owed(HandleOf(session)) && session.state != J.Interrupting
    modifies session, session.journal
    ensures session.Valid() && played <= |Script(d)|
    ensures done ==> played == |Script(d)| && Reached(session, d, played, start) && session.state != J.Interrupting
    ensures done ==> Names(d, |Script(d)|, old(session.suspension), session.suspension)
    ensures !done ==> Stuck(session, d, played)
  {
    hide Hosts, Walk, Next, Composed, Recorded, Decent, Acts, Owed, P.TidyImage, L.LawfulJournal, L.Recovered, S.Refines, Disciplined,
      Playable;
    played, done := 0, false;
    BeginsReached(session, d, start, inserted);
    while played < |Script(d)|
      invariant played <= |Script(d)| && Reached(session, d, played, start) && session.state != J.Interrupting && session.Valid()
      invariant Names(d, played, old(session.suspension), session.suspension)
      decreases |Script(d)| - played
    {
      var ok;
      ghost var before := session.suspension;
      match Script(d)[played] {
        case Said(event) =>
          ok := PlayEvent(session, d, played, event, start, inserted);
          if ok && event.TurnStarted? {
            RequestNext(d, start, inserted, played);
            ok := PlayRequest(session, d, played + 1, policy, start, inserted);
          }
        case Heard(candidate, reply) =>
          ok := PlayHook(session, d, played, candidate, reply, start, inserted);
      }
      if !ok {
        return;
      }
      StillNames(d, start, inserted, played, old(session.suspension), before, session.suspension);
      played := played + 1;
    }
    done := true;
  }

  lemma BeginsReached(session: Session, d: Drive, start: J.ActiveRun, inserted: Option<Message>)
    requires InRun(session) && Hosts(start, AtStart, HandleOf(session), []) && Playable(d, start, inserted)
    requires P.TidyImage(session.Value()) && Owed(HandleOf(session))
    ensures Reached(session, d, 0, start)
  {
    hide Hosts, Walk, Composed, Recorded, Decent, Acts, Owed, P.TidyImage, L.LawfulJournal, L.Recovered, S.Refines;
    WalkPrefix(Script(d), 0);
    NothingScripted(start);
    assert Script(d)[..0] == [];
  }

  lemma RequestNext(d: Drive, start: J.ActiveRun, inserted: Option<Message>, k: nat)
    requires Playable(d, start, inserted) && k < |Script(d)| && Script(d)[k] == Said(J.TurnStarted)
    ensures Walk(Script(d)[..k + 1]) == Some(AtRequest)
  {
    hide Walk, Speaks, Reported, Composed, Recorded, Acts, Decent;
    PlayableAt(d, start, inserted, k);
    TurnStartedNext(Walk(Script(d)[..k]).value);
  }

  lemma TurnStartedNext(s: Stand)
    ensures Next(s, Said(J.TurnStarted)).Some? ==> Next(s, Said(J.TurnStarted)) == Some(AtRequest)
  {
  }

  lemma StillNames(d: Drive, start: J.ActiveRun, inserted: Option<Message>, k: nat, first: Option<Suspension>, held: Option<Suspension>,
                   now: Option<Suspension>)
    requires Playable(d, start, inserted) && k < |Script(d)| && Names(d, k, first, held)
    requires Names(d, k + 1, held, now) || now == held
    ensures Names(d, k + 1, first, now)
  {
    hide Walk, Speaks, Reported, Composed, Recorded, Acts, Decent;
    PlayableAt(d, start, inserted, k);
    PauseLast(Walk(Script(d)[..k]).value, Script(d)[k]);
  }

  lemma PauseLast(s: Stand, act: Act)
    ensures s.AtPause? ==> Next(s, act).None?
  {
  }

  // ---------------------------------------------------------------------
  // Settling.

  ghost predicate NothingDrained(f: J.Folded) {
    forall id :: id !in f.queues.drained
  }

  /** A session outside a drive: the fold of its journal, its durable values, its state and the run it may be waiting on. */
  datatype Rest = Rest(f: J.Folded, d: T.Durable, state: J.State, run: Option<J.ActiveRun>)

  ghost function RestOf(session: Session): Rest
    requires session.Valid()
    reads session, session.journal
  {
    Rest(session.Rebuilt(), session.Value(), session.state, session.run)
  }

  /** The settlement of a drive as the store took it. */
  ghost predicate SettledAs(r: Rest, h: Handle, d: Drive, given: Transcript, inserted: Option<Message>) {
    && h.d.run == T.Settled(Some(h.run)) && FaultsWith(h, d, given, None) && r.d == ImageHere(h, d, given)
    && (forall id :: id in r.f.queues.drained ==> id in h.f.queues.drained)
    && match SettlementHere(h, d, given)
       case SettleInterrupt => r.state == J.Idle && r.run.None?
       case SettleBounce => r.state == J.Suspended && r.run == Some(h.run.(volatile := h.run.volatile.(resumeInProgress := false)))
       case SettlePause =>
         r.state == J.Suspended && r.d.suspension == d.end.suspension && r.run == Some(S.PausedRun(h.run, d.end.ls.usage, inserted))
       case SettleClose => r.state == J.Idle && r.run.None?
  }

  method SettleDrive(session: Session, d: Drive, given: Transcript, ghost inserted: Option<Message>) returns (failure: Option<S.SessionError>)
    requires InRun(session) && Alive(session.state) && Returns(HandleOf(session), d, given, inserted)
    modifies session, session.journal
    ensures session.Valid()
    ensures failure.None? ==> SettledAs(RestOf(session), old(HandleOf(session)), d, given, inserted)
    ensures failure.Some? ==>
      && session.state == J.Faulted
      && (FaultsWith(old(HandleOf(session)), d, given, failure)
          || (FaultsWith(old(HandleOf(session)), d, given, None) && failure == Some(S.AppendRefused)))
  {
    hide L.LawfulJournal, L.Recovered, S.Refines, S.ValidateProjection, S.ReportContract, UsageDelta, S.SettlementBatch, S.SettledImage,
      S.SettlementFailure, DrainsWithin;
    ghost var h := HandleOf(session);
    ReturnedHere(h, d, given, inserted);
    LiveRun(session);
    failure := session.FinishExecution(Some(ExecutionOf(d, |given|)), ErrorOf(d.end.error));
    if failure.None? {
      SettlementDrainsNothing(h, d, given);
      FoldMoves(old(session.journal.entries), S.SettlementBatch(h.d, h.state, h.run, Some(ExecutionOf(d, |given|)), ErrorOf(d.end.error)));
      DrainsOnly(h.f, S.SettlementBatch(h.d, h.state, h.run, Some(ExecutionOf(d, |given|)), ErrorOf(d.end.error)), []);
    }
  }

  lemma ReturnedHere(h: Handle, d: Drive, given: Transcript, inserted: Option<Message>)
    requires Returns(h, d, given, inserted)
    ensures h.run.volatile.publicNewStart <= |h.run.expected|
    ensures S.ProjectedSystem(h.run, Some(ExecutionOf(d, |given|))) == S.Match(inserted)
    ensures S.ReturnContract(h.f, h.state, h.suspending, h.d.suspension, h.run, Some(ExecutionOf(d, |given|)), ErrorOf(d.end.error))
  {
    hide S.ValidateProjection, S.ReturnContract;
  }

  lemma LiveRun(session: Session)
    requires InRun(session)
    ensures session.Value().run == T.Settled(session.run)
  {
  }

  // ---------------------------------------------------------------------
  // A session between two drives.

  /**
   * A handle at rest whose transcript is in order: idle with every call answered, or waiting on a suspension of the driver, exactly the
   * calls of the last message open.
   */
  ghost predicate InOrder(session: Session, cfg: Config, system: string)
    reads session, session.journal
  {
    session.Valid() && Orderly(RestOf(session), cfg, system)
  }

  ghost predicate Orderly(r: Rest, cfg: Config, system: string) {
    && (r.state == J.Idle || r.state == J.Suspended) && P.TidyImage(r.d) && NothingDrained(r.f)
    && if r.state == J.Idle then FullyPaired(r.d.messages)
       else r.run.Some? && r.d.suspension.Some? && Waits(cfg, system, r.run.value, r.d.suspension.value)
  }

  /** Idle over calls that nobody answers any more. */
  predicate Stranded(r: Rest) {
    r.state == J.Idle && P.TidyImage(r.d) && !FullyPaired(r.d.messages)
  }

  lemma OwedNothing(start: J.ActiveRun, s: Stand, h: Handle, said: seq<J.Event>)
    requires Hosts(start, s, h, said) && !s.AtHandover? && Owed(h)
    ensures NothingDrained(h.f) && h.run.volatile.pendingInjectionIds == []
  {
    hide Sound, Followed;
  }

  lemma ReachedEnd(session: Session, d: Drive, start: J.ActiveRun)
    requires Reached(session, d, |Script(d)|, start)
    ensures Ends(start, d, HandleOf(session)) && InRun(session) && Alive(session.state) && Owed(HandleOf(session))
  {
    hide Walk, Hosts, Acts, P.TidyImage, L.LawfulJournal, L.Recovered, S.Refines, Owed;
    assert Script(d)[..|Script(d)|] == Script(d);
    HostsFollowed(start, Walk(Script(d)).value, HandleOf(session), EventsIn(Script(d)));
  }

  lemma StartPlayable(env: Env, cfg: Config, system: string, mode: InputMode, prompt: Option<Message>, d: Drive, h: Handle)
    requires Begins(env, cfg, system, mode, prompt, d, h) && P.TidyImage(h.d)
    ensures Playable(d, h.run, Inserted(system, h.run.history)) && Hosts(h.run, AtStart, h, [])
  {
    hide Hosts, Walk, Decent, Reliable, Metered, WellBehaved, StartDrive, Acts, Inserted, Sound, Composed, PairedEnd, P.TidyImage, Run,
      Recorded, P.InertSystem;
    StartReady(env, cfg, system, mode, prompt, d, h);
    StartComposed(env, cfg, system, mode, prompt, d, h);
    StartRecorded(env, cfg, system, mode, prompt, h.run.history);
    InsertedOnlyFirst(system, h.run.history);
  }

  /** What a settled start leaves. */
  lemma StartLeaves(r: Rest, env: Env, cfg: Config, system: string, mode: InputMode, prompt: Option<Message>, d: Drive,
                    h: Handle, after: Handle)
    requires Begins(env, cfg, system, mode, prompt, d, h) && P.TidyImage(h.d) && Ends(h.run, d, after) && Owed(after)
    requires SettledAs(r, after, d, h.run.history, Inserted(system, h.run.history))
    ensures Orderly(r, cfg, system)
  {
    hide Reliable, Metered, WellBehaved, StartDrive, Sound, Inserted, P.TidyImage, Walk, Hosts, Script, Run, L.LawfulJournal, L.Recovered,
      S.Refines, S.SettlementFailure, S.SettledImage, Returns, Waits, PairedEnd, S.SettlementOf, Fitting;
    StartRests(env, cfg, system, mode, prompt, d, h, after);
    StartOrdered(env, cfg, system, mode, prompt, h.run.history);
    NoHandoverHere(d);
    OwedNothing(h.run, Walk(Script(d)).value, after, EventsIn(Script(d)));
    InsertedInert(system, h.run.history);
    SettledTidy(after, d, h.run.history, Inserted(system, h.run.history));
    if SettlementHere(after, d, h.run.history).SettlePause? {
      StartBounds(env, cfg, system, mode, prompt, h.run.history, d);
      PausedHere(env, cfg, system, d, h.run, after, h.run.history, Inserted(system, h.run.history));
    }
  }

  lemma NoHandoverHere(d: Drive)
    requires Ordered(d.end)
    ensures Walk(Script(d)).Some? && !Walk(Script(d)).value.AtHandover?
  {
    NoHandoverLeft(d.end);
  }

  lemma PausedHere(env: Env, cfg: Config, system: string, d: Drive, start: J.ActiveRun, after: Handle, given: Transcript,
                   inserted: Option<Message>)
    requires Ends(start, d, after) && Ordered(d.end) && PairedEnd(env, cfg, d.end) && Returns(after, d, given, inserted)
    requires SettlementHere(after, d, given).SettlePause? && Bounded(cfg, 0, d.end.ls) && C.Seeded(system, d.end.ls.messages)
    ensures d.end.suspension.Some? && Waits(cfg, system, S.PausedRun(after.run, d.end.ls.usage, inserted), d.end.suspension.value)
  {
    hide Bounded, C.Seeded, S.ValidateProjection, S.ReturnContract, Walk, Sound, Followed, P.TidyImage, Waits, Awaits, FullyPaired;
    OrderedPause(d.end);
    PauseWaits(env, cfg, system, d, after, |given|, inserted);
  }

  lemma OrderedPause(end: Ended)
    requires Ordered(end) && end.status == J.ExecutionSuspended
    ensures end.suspension.Some? && Walk(Acts(end.ls.emitted, end.ls.hooks)) == Some(AtPause(end.suspension.value))
  {
  }

  /**
   * The accepted run, or one taken over by a recovery, is driven under its own session and settled. Played to its end, with a store that
   * does not refuse, it leaves the session in order; nothing else can go wrong at the settlement.
   */
  method DriveAccepted(session: Session, env: Env, cfg: Config, system: string, mode: InputMode, prompt: Option<Message>, policy: Policy,
                       d: Drive) returns (played: nat, done: bool, failure: Option<S.SessionError>)
    requires InRun(session) && Begins(env, cfg, system, mode, prompt, d, HandleOf(session)) && Disciplined(policy)
    requires P.TidyImage(session.Value()) && Owed(HandleOf(session))
    modifies session, session.journal
    ensures session.Valid() && played <= |Script(d)|
    ensures done && failure.None? ==> InOrder(session, cfg, system)
    ensures done && failure.Some? ==> session.state == J.Faulted && failure == Some(S.AppendRefused)
    ensures !done ==> Stuck(session, d, played) && failure.None?
  {
    hide Begins, Hosts, Walk, Playable, L.LawfulJournal, L.Recovered, S.Refines, Acts, Inserted, P.TidyImage, Owed, Disciplined, Returns,
      Orderly, SettledAs, Ends, Rests, PairedEnd, Reached;
    ghost var h := HandleOf(session);
    var history := session.run.value.history;
    ghost var inserted := Inserted(system, history);
    BegunRunning(env, cfg, system, mode, prompt, d, h);
    StartPlayable(env, cfg, system, mode, prompt, d, h);
    failure := None;
    played, done := Play(session, d, policy, h.run, inserted);
    if done {
      ReachedEnd(session, d, h.run);
      ghost var after := HandleOf(session);
      StartRests(env, cfg, system, mode, prompt, d, h, after);
      RestsWell(after, d, history, true);
      failure := SettleDrive(session, d, history, inserted);
      if failure.None? {
        StartLeaves(RestOf(session), env, cfg, system, mode, prompt, d, h, after);
      }
    }
  }

  lemma BegunRunning(env: Env, cfg: Config, system: string, mode: InputMode, prompt: Option<Message>, d: Drive, h: Handle)
    requires Begins(env, cfg, system, mode, prompt, d, h)
    ensures h.state == J.Running
  {
    hide Reliable, Metered, WellBehaved, StartDrive, Sound;
  }

  lemma RestsWell(h: Handle, d: Drive, given: Transcript, paired: bool)
    requires Rests(h, d, given, paired)
    ensures FaultsWith(h, d, given, None)
    ensures forall fault :: FaultsWith(h, d, given, fault) ==> fault == None
  {
    hide S.SettlementFailure, S.SettledImage;
  }

  // ---------------------------------------------------------------------
  // Resumptions.

  lemma ResumePlayable(env: Env, cfg: Config, system: string, s: Suspension, decisions: seq<ToolResumeDecision>, prompt: Option<Message>,
                       d: Drive, paused: J.ActiveRun, h: Handle)
    requires Resumes(env, cfg, system, s, decisions, prompt, d, paused, h) && P.TidyImage(h.d)
    ensures Playable(d, h.run, None) && Hosts(h.run, AtStart, h, []) && h.state == J.Running && Ordered(d.end)
  {
    hide Hosts, Walk, Decent, Reliable, Metered, WellBehaved, ResumeDrive, Acts, Sound, Composed, P.TidyImage, Run, Recorded, Belongs,
      HasSystem, Awaited, Inert, Ordered;
    ResumeReady(env, cfg, system, s, decisions, prompt, d, paused, h);
    ResumeComposed(env, cfg, system, s, decisions, prompt, d, paused, h);
    ResumeOrdered(env, cfg, system, paused.history + paused.expected, s, decisions, prompt);
    ReopenedRun(cfg, h, paused, s);
    ResumeRequests(env, cfg, system, s, decisions, prompt, d, h.run);
  }

  lemma ResumeRequests(env: Env, cfg: Config, system: string, s: Suspension, decisions: seq<ToolResumeDecision>, prompt: Option<Message>,
                       d: Drive, run: J.ActiveRun)
    requires Reliable(env) && Belongs(cfg, run, s) && (system == "" || HasSystem(run.history + run.expected))
    requires ResumeDrive(env, cfg, system, run.history + run.expected, s, decisions, prompt) == Some(d)
    ensures Recorded(OptionalMessage(None) + run.history + run.expected, 0, 0, d)
  {
    hide Reliable, Recorded, Run, ResumeGuards, ResumePrepared, HasSystem, Belongs;
    var history := run.history + run.expected;
    PreparedAsIs(system, history);
    var ls := Prepared(system, history, None);
    BelongsBounded(env, cfg, run, s, ls);
    ResumeRecorded(env, cfg, ls, s, decisions, prompt);
    assert OptionalMessage(None) + run.history + run.expected == history;
  }

  /** What a settled resumption leaves. */
  lemma ResumeLeaves(r: Rest, env: Env, cfg: Config, system: string, s: Suspension, decisions: seq<ToolResumeDecision>,
                     prompt: Option<Message>, d: Drive, paused: J.ActiveRun, h: Handle, after: Handle)
    requires Resumes(env, cfg, system, s, decisions, prompt, d, paused, h) && Waits(cfg, system, paused, s)
    requires P.TidyImage(h.d) && Ends(h.run, d, after) && Owed(after) && after.state != J.Interrupting
    requires SettledAs(r, after, d, paused.history + paused.expected, None)
    requires J.RunStarted !in d.end.ls.emitted ==> after.d.suspension == Some(s)
    ensures if Unresolvable(env, cfg, paused.history + paused.expected, s, decisions) then Stranded(r) else Orderly(r, cfg, system)
  {
    hide Reliable, Metered, WellBehaved, ResumeDrive, Reopened, Belongs, HasSystem, Inert, P.TidyImage, Walk, Hosts, Script, Run, Awaited,
      L.LawfulJournal, L.Recovered, S.Refines, S.SettlementFailure, S.SettledImage, Returns, Waits, PairedEnd, Fitting, ResumeGuards,
      ResolveTools, Followed, Reports;
    var history := paused.history + paused.expected;
    ResumeOrdered(env, cfg, system, history, s, decisions, prompt);
    NoHandoverHere(d);
    OwedNothing(h.run, Walk(Script(d)).value, after, EventsIn(Script(d)));
    ResumeEnds(env, cfg, system, s, decisions, prompt, d, paused, h, after);
    ResumeRests(env, cfg, system, s, decisions, prompt, d, paused, h, after);
    StrandsAt(env, cfg, system, s, decisions, prompt, d, paused, h, after);
    SettledTidy(after, d, history, None);
    match SettlementHere(after, d, history)
    case SettlePause => ResumePaused(env, cfg, system, s, decisions, prompt, d, paused, h, after);
    case SettleBounce =>
      NeverStartedSays(env, cfg, system, s, decisions, prompt, d, paused, h);
      BounceWaits(cfg, system, paused, s, d, h, after);
      BouncedImage(after, d, history);
    case _ =>
  }

  lemma BouncedImage(h: Handle, d: Drive, given: Transcript)
    requires h.d.run == T.Settled(Some(h.run)) && FaultsWith(h, d, given, None) && SettlementHere(h, d, given).SettleBounce?
    ensures ImageHere(h, d, given) == h.d
  {
    hide S.SettlementFailure;
  }

  lemma ResumePaused(env: Env, cfg: Config, system: string, s: Suspension, decisions: seq<ToolResumeDecision>, prompt: Option<Message>,
                     d: Drive, paused: J.ActiveRun, h: Handle, after: Handle)
    requires Resumes(env, cfg, system, s, decisions, prompt, d, paused, h) && Waits(cfg, system, paused, s)
    requires Ends(h.run, d, after) && Ordered(d.end) && Returns(after, d, paused.history + paused.expected, None)
    requires SettlementHere(after, d, paused.history + paused.expected).SettlePause?
    ensures d.end.suspension.Some? && Waits(cfg, system, S.PausedRun(after.run, d.end.ls.usage, None), d.end.suspension.value)
  {
    hide Reliable, Metered, WellBehaved, Reopened, Belongs, HasSystem, Inert, Run, Awaited, Returns, Waits, PairedEnd, ResumeGuards, Ends,
      ResolveTools, Bounded, C.Seeded, Ordered, ResumePrepared;
    var history := paused.history + paused.expected;
    PreparedAsIs(system, history);
    var from := ResumeShape(env, cfg, Prepared(system, history, None), s, decisions, prompt);
    ResumeBounds(env, cfg, system, s, decisions, prompt, d, paused);
    PausedHere(env, cfg, system, d, h.run, after, history, None);
  }

  /**
   * A paused run whose resolution was accepted is driven on and settled. Played to its end, with a store that does not refuse, it leaves the
   * session in order, waiting again if the driver refused the resolution; but if the guards passed and the calls could not be resolved for a
   * reason other than validation, it leaves the session idle over open calls.
   */
  method DriveResumed(session: Session, env: Env, cfg: Config, system: string, s: Suspension, decisions: seq<ToolResumeDecision>,
                      prompt: Option<Message>, policy: Policy, d: Drive, ghost paused: J.ActiveRun)
      returns (played: nat, done: bool, failure: Option<S.SessionError>)
    requires InRun(session) && Resumes(env, cfg, system, s, decisions, prompt, d, paused, HandleOf(session)) && Disciplined(policy)
    requires Waits(cfg, system, paused, s) && session.suspension == Some(s) && P.TidyImage(session.Value()) && Owed(HandleOf(session))
    modifies session, session.journal
    ensures session.Valid() && played <= |Script(d)|
    ensures done && failure.None? ==>
      if Unresolvable(env, cfg, paused.history + paused.expected, s, decisions) then Stranded(RestOf(session))
      else InOrder(session, cfg, system)
    ensures done && failure.Some? ==> session.state == J.Faulted && failure == Some(S.AppendRefused)
    ensures !done ==> Stuck(session, d, played) && failure.None?
  {
    hide Resumes, Hosts, Walk, Playable, L.LawfulJournal, L.Recovered, S.Refines, Acts, P.TidyImage, Owed, Disciplined, Returns, Waits,
      Orderly, SettledAs, Ends, Rests, Reached, Names, FaultsWith, Unresolvable, Ordered;
    ghost var h := HandleOf(session);
    var given := session.run.value.history + session.run.value.expected;
    ReopenedGiven(env, cfg, system, s, decisions, prompt, d, paused, h);
    ResumePlayable(env, cfg, system, s, decisions, prompt, d, paused, h);
    failure := None;
    played, done := Play(session, d, policy, h.run, None);
    if done {
      ReachedEnd(session, d, h.run);
      ghost var after := HandleOf(session);
      ResumeReturns(env, cfg, system, s, decisions, prompt, d, paused, h, after);
      StillHeld(env, cfg, system, s, decisions, prompt, d, paused, h, Some(s), session.suspension);
      failure := SettleDrive(session, d, given, None);
      if failure.None? {
        ResumeLeaves(RestOf(session), env, cfg, system, s, decisions, prompt, d, paused, h, after);
      }
    }
  }

  lemma ReopenedGiven(env: Env, cfg: Config, system: string, s: Suspension, decisions: seq<ToolResumeDecision>, prompt: Option<Message>,
                      d: Drive, paused: J.ActiveRun, h: Handle)
    requires Resumes(env, cfg, system, s, decisions, prompt, d, paused, h)
    ensures h.run.history + h.run.expected == paused.history + paused.expected
  {
    hide Reliable, Metered, WellBehaved, ResumeDrive, Belongs, HasSystem, Awaited, Inert, Sound;
  }

  /** Nobody interrupted it: the settlement can only fail at the store. */
  lemma ResumeReturns(env: Env, cfg: Config, system: string, s: Suspension, decisions: seq<ToolResumeDecision>, prompt: Option<Message>,
                      d: Drive, paused: J.ActiveRun, h: Handle, after: Handle)
    requires Resumes(env, cfg, system, s, decisions, prompt, d, paused, h) && P.TidyImage(h.d) && Ends(h.run, d, after)
    requires after.state != J.Interrupting
    ensures Returns(after, d, paused.history + paused.expected, None)
    ensures forall fault :: FaultsWith(after, d, paused.history + paused.expected, fault) ==> fault == None
  {
    hide Resumes, Ends, Returns, ResumeGuards, S.SettlementFailure;
    ResumeEnds(env, cfg, system, s, decisions, prompt, d, paused, h, after);
    FaultsAt(env, cfg, system, s, decisions, prompt, d, paused, h, after);
  }

  /** A drive that never starts does not announce a suspension. */
  lemma StillHeld(env: Env, cfg: Config, system: string, s: Suspension, decisions: seq<ToolResumeDecision>, prompt: Option<Message>, d: Drive,
                  paused: J.ActiveRun, h: Handle, held: Option<Suspension>, suspension: Option<Suspension>)
    requires Resumes(env, cfg, system, s, decisions, prompt, d, paused, h) && Ordered(d.end) && Names(d, |Script(d)|, held, suspension)
    ensures J.RunStarted !in d.end.ls.emitted ==> suspension == held
  {
    hide Resumes, Walk, Acts;
    assert Script(d)[..|Script(d)|] == Script(d);
    if J.RunStarted !in d.end.ls.emitted {
      NeverStartedSays(env, cfg, system, s, decisions, prompt, d, paused, h);
      OrderedNoPause(d.end);
    }
  }

  lemma OrderedNoPause(end: Ended)
    requires Ordered(end) && end.suspension.None?
    ensures Walk(Acts(end.ls.emitted, end.ls.hooks)).Some? && !Walk(Acts(end.ls.emitted, end.ls.hooks)).value.AtPause?
  {
  }

  // ---------------------------------------------------------------------
  // The session's own entry points: in order before, in order after.

  lemma {:induction false} HistoryDrainsNothing(history: Transcript)
    ensures DrainsWithin(S.HistoryBatch(history), [])
    decreases history
  {
    if history != [] {
      HistoryDrainsNothing(history[1..]);
      DrainsJoin([J.MessageEntry(history[0], J.FromInitialHistory, "")], S.HistoryBatch(history[1..]));
    }
  }

  lemma CreatedClear(limits: Option<Limits>, drainAll: bool, history: Transcript)
    requires L.LawfulJournal([J.SessionCreated(limits, drainAll)] + S.HistoryBatch(history))
    ensures NothingDrained(L.Recovered([J.SessionCreated(limits, drainAll)] + S.HistoryBatch(history)))
  {
    hide L.LawfulJournal, L.Recovered;
    var entries := [J.SessionCreated(limits, drainAll)] + S.HistoryBatch(history);
    L.RecoveredHealthy(entries);
    assert entries[1..] == S.HistoryBatch(history);
    HistoryDrainsNothing(history);
    DrainsOnly(L.CreatedFold(limits, drainAll), S.HistoryBatch(history), []);
  }

  lemma CreatedTidy(d: T.Durable)
    requires d.markers == [] && FullyPaired(d.messages) && R.Repaired(d.messages, R.NoPending) == Some(d.messages)
    ensures P.TidyImage(d)
  {
    R.RepairKeepsCommitted(d.messages, R.NoPending);
  }

  /** A session that creation accepts starts in order. */
  method Create(limits: Option<Limits>, drainAll: bool, history: Transcript, ghost cfg: Config, ghost system: string)
      returns (session: Session?, error: Option<S.SessionError>)
    ensures session != null ==> fresh(session) && InOrder(session, cfg, system) && session.state == J.Idle
    ensures session == null ==> error == Some(S.AppendRefused) || R.Repaired(history, R.NoPending) != Some(history)
  {
    hide L.LawfulJournal, L.Recovered, S.Refines, R.Repaired, Run;
    session, error := NewSession(limits, drainAll, history);
    if session != null {
      S.CreationLawful(limits, drainAll, history);
      CreatedClear(limits, drainAll, history);
      RefinedImage(session.Rebuilt(), session.Value(), J.Idle, session.suspending, session.run,
                   T.Durable(history, [], None, [], ZeroUsage, limits, drainAll, None, None), false, None);
      CreatedTidy(session.Value());
    }
  }

  lemma RefinedImage(f: J.Folded, d: T.Durable, state: J.State, suspending: bool, run: Option<J.ActiveRun>, e: T.Durable, other: bool,
                     another: Option<J.ActiveRun>)
    requires S.Refines(f, d, state, suspending, run) && S.Refines(f, e, state, other, another)
    ensures d == e
  {
  }

  lemma QueueUsers(session: Session)
    requires session.Valid() && session.Live()
    ensures P.FromUsers(B.MessagesOf(session.queue))
  {
    B.PendingWaits(session.Rebuilt().queues);
    var queue := session.queue;
    forall i | 0 <= i < |queue| ensures B.MessagesOf(queue)[i].role == RoleUser {
      assert queue[i].id in session.Rebuilt().queues.pending;
    }
  }

  lemma StartClear(f: J.Folded, d: T.Durable, suspending: bool, run: Option<J.ActiveRun>, id: string, limits: Option<Limits>,
                   instructions: string, prompt: Message, after: J.Folded)
    requires S.Refines(f, d, J.Idle, suspending, run) && id != "" && prompt.role == RoleUser && NothingDrained(f)
    requires J.FoldFrom(f, T.StartBatch(id, limits, instructions, B.OfKinds(d.queue, {J.QueueNextTurn}), prompt, None)) == Some(after)
    ensures NothingDrained(after)
  {
    hide S.Refines, T.StartBatch, L.LawfulFrom;
    var g := S.StartKeeps(f, d, suspending, run, id, limits, instructions, prompt, None);
    hide B.OfKinds;
  }

  lemma StartBegins(env: Env, cfg: Config, system: string, prompt: Message, h: Handle, before: T.Durable, id: string,
                    limits: Option<Limits>, instructions: string) returns (d: Drive)
    requires Reliable(env) && Metered(env) && WellBehaved(env) && cfg.hooked && prompt.role == RoleUser
    requires Sound(h) && h.state == J.Running && !h.suspending && Some(h.run) == h.d.run
    requires h.d == T.StartedImage(before, id, limits, instructions, prompt)
    requires P.TidyImage(before) && FullyPaired(before.messages) && P.FromUsers(B.MessagesOf(before.queue))
    requires AllInert(P.StartInputs(before) + [prompt])
    ensures Begins(env, cfg, system, InputStart, Some(prompt), d, h) && P.TidyImage(h.d)
  {
    hide Reliable, Metered, WellBehaved, Sound, P.TidyImage, Run, Inert, DriveLoop, J.ProviderHistory, B.OfKinds, B.RemoveAll, Prepared;
    P.StartTidy(before, id, limits, instructions, prompt);
    PairedValid(prompt, h.run.history);
    d := StartDrive(env, cfg, system, InputStart, Some(prompt), h.run.history).value;
  }

  lemma PairedValid(prompt: Message, history: Transcript)
    requires FullyPaired(history) && prompt.role == RoleUser
    ensures ValidInput(InputStart, Some(prompt), history)
  {
  }

  /**
   * Prompt, on a session in order: its messages carry no tool traffic, and everything else is the driver's and the session's own doing.
   * Played to its end it leaves the session in order; otherwise it was refused with nothing changed, or the store failed.
   */
  method Prompt(session: Session, env: Env, cfg: Config, system: string, prompt: Message, id: string, instructions: string, policy: Policy)
      returns (d: Option<Drive>, played: nat, done: bool, failure: Option<S.SessionError>)
    requires InOrder(session, cfg, system) && session.state == J.Idle && id != "" && Disciplined(policy)
    requires Reliable(env) && Metered(env) && WellBehaved(env) && cfg.hooked && AllInert(P.StartInputs(session.Value()) + [prompt])
    modifies session, session.journal
    ensures session.Valid()
    ensures done && failure.None? ==> InOrder(session, cfg, system)
    ensures failure.Some? ==>
      || (failure == Some(S.AppendRefused) && session.state == J.Faulted)
      || (d.None? && failure != Some(S.AppendRefused) && InOrder(session, cfg, system) && session.state == J.Idle)
    ensures !done && failure.None? ==> d.Some? && Stuck(session, d.value, played)
  {
    hide Reliable, Metered, WellBehaved, L.LawfulJournal, L.Recovered, S.Refines, Run, Inert, Disciplined, P.TidyImage, Begins, Owed,
      Stuck, T.StartBatch, T.StartedImage, B.OfKinds, Waits, T.Settled, StartDrive;
    d, played, done := None, 0, false;
    ghost var before, entries := session.Value(), session.journal.entries;
    ghost var f, suspending, run := session.Rebuilt(), session.suspending, session.run;
    QueueUsers(session);
    failure := session.PrepareStart(prompt, id, instructions, None, false);
    if failure.Some? {
      return;
    }
    ghost var limits := RunLimits(session.budget, before.usage).value;
    FoldMoves(entries, T.StartBatch(id, limits, instructions, B.OfKinds(before.queue, {J.QueueNextTurn}), prompt, None));
    StartClear(f, before, suspending, run, id, limits, instructions, prompt, session.Rebuilt());
    StartedRun(session, before, id, limits, instructions, prompt);
    ghost var h := HandleOf(session);
    SoundHere(session);
    ghost var begun := StartBegins(env, cfg, system, prompt, h, before, id, limits, instructions);
    BegunDrive(env, cfg, system, prompt, begun, h);
    ClearOwes(h);
    d := StartDrive(env, cfg, system, InputStart, Some(prompt), session.run.value.history);
    played, done, failure := DriveAccepted(session, env, cfg, system, InputStart, Some(prompt), policy, d.value);
  }

  lemma StartedRun(session: Session, before: T.Durable, id: string, limits: Option<Limits>, instructions: string, prompt: Message)
    requires session.Value() == T.StartedImage(before, id, limits, instructions, prompt) && session.run == session.Value().run
    ensures session.run.Some?
  {
  }

  lemma SoundHere(session: Session)
    requires InRun(session)
    ensures Sound(HandleOf(session))
  {
  }

  lemma BegunDrive(env: Env, cfg: Config, system: string, prompt: Message, d: Drive, h: Handle)
    requires Begins(env, cfg, system, InputStart, Some(prompt), d, h)
    ensures StartDrive(env, cfg, system, InputStart, Some(prompt), h.run.history) == Some(d)
  {
    hide StartDrive, Sound, Reliable, Metered, WellBehaved;
  }

  lemma ClearOwes(h: Handle)
    requires NothingDrained(h.f)
    ensures Owed(h)
  {
  }

  lemma ResumedClear(f: J.Folded, d: T.Durable, suspending: bool, run: J.ActiveRun, id: string, after: J.Folded)
    requires S.Refines(f, d, J.Suspended, suspending, Some(run)) && J.FoldFrom(f, T.ResumeBatch(id, None)) == Some(after)
    ensures after == f
  {
    hide S.Refines, T.ResumeBatch, L.LawfulFrom;
    S.ResumeKeeps(f, d, suspending, run, id, None);
  }

  lemma ResumeBegins(env: Env, cfg: Config, system: string, s: Suspension, decisions: seq<ToolResumeDecision>, prompt: Option<Message>,
                     paused: J.ActiveRun, h: Handle) returns (d: Drive)
    requires Reliable(env) && Metered(env) && WellBehaved(env) && cfg.hooked
    requires prompt.Some? ==> Inert(prompt.value) && prompt.value.role == RoleUser
    requires Sound(h) && h.state == J.Running && !h.suspending && h.run == S.ResumedRun(paused) && Waits(cfg, system, paused, s)
    ensures Resumes(env, cfg, system, s, decisions, prompt, d, paused, h)
  {
    hide Reliable, Metered, WellBehaved, Sound, Inert, Bounded, HasSystem, ResumePrepared, Prepared, Belongs;
    WaitsBelongs(cfg, system, paused, s);
    AwaitedOpen(paused.history + paused.expected);
    d := ResumeDrive(env, cfg, system, paused.history + paused.expected, s, decisions, prompt).value;
  }

  /**
   * Resume, on a session in order that waits on its driver, with whatever decisions the planner made of the operator's answers. Played to its
   * end it leaves the session in order, unless the driver passed its guards and could not resolve the calls for a reason other than
   * validation: then, and only then, the session is left idle over open calls.
   */
  method Resume(session: Session, env: Env, cfg: Config, system: string, decisions: seq<ToolResumeDecision>, prompt: Option<Message>,
                policy: Policy) returns (d: Option<Drive>, played: nat, done: bool, failure: Option<S.SessionError>)
    requires InOrder(session, cfg, system) && session.state == J.Suspended && session.suspension.value.kind != S.INDETERMINATE
    requires Reliable(env) && Metered(env) && WellBehaved(env) && cfg.hooked && Disciplined(policy)
    requires prompt.Some? ==> Inert(prompt.value) && prompt.value.role == RoleUser
    modifies session, session.journal
    ensures session.Valid()
    ensures done && failure.None? ==>
      if old(Unresolvable(env, cfg, session.run.value.history + session.run.value.expected, session.suspension.value, decisions))
      then Stranded(RestOf(session))
      else InOrder(session, cfg, system)
    ensures failure.Some? ==>
      || (failure == Some(S.AppendRefused) && session.state == J.Faulted)
      || (d.None? && failure == Some(S.InvalidResume) && InOrder(session, cfg, system) && session.state == J.Suspended)
    ensures !done && failure.None? ==> d.Some? && Stuck(session, d.value, played)
  {
    hide Reliable, Metered, WellBehaved, L.LawfulJournal, L.Recovered, S.Refines, Run, Inert, Disciplined, P.TidyImage, Resumes, Owed,
      Stuck, T.ResumeBatch, Waits, T.Settled, ResumeDrive, Unresolvable, Stranded;
    d, played, done := None, 0, false;
    ghost var before, entries := session.Value(), session.journal.entries;
    ghost var f, suspending := session.Rebuilt(), session.suspending;
    ghost var paused := session.run.value;
    var s := session.suspension.value;
    failure := session.PrepareResume(s, true, ResumeRequest(s.id, [], prompt), None, false);
    if failure.Some? {
      return;
    }
    FoldMoves(entries, T.ResumeBatch(s.id, None));
    ResumedClear(f, before, suspending, paused, s.id, session.Rebuilt());
    ghost var h := HandleOf(session);
    SoundHere(session);
    ghost var begun := ResumeBegins(env, cfg, system, s, decisions, prompt, paused, h);
    ResumedDrive(env, cfg, system, s, decisions, prompt, begun, paused, h);
    ClearOwes(h);
    d := ResumeDrive(env, cfg, system, session.run.value.history + session.run.value.expected, s, decisions, prompt);
    played, done, failure := DriveResumed(session, env, cfg, system, s, decisions, prompt, policy, d.value, paused);
  }

  lemma ResumedDrive(env: Env, cfg: Config, system: string, s: Suspension, decisions: seq<ToolResumeDecision>, prompt: Option<Message>,
                     d: Drive, paused: J.ActiveRun, h: Handle)
    requires Resumes(env, cfg, system, s, decisions, prompt, d, paused, h)
    ensures ResumeDrive(env, cfg, system, h.run.history + h.run.expected, s, decisions, prompt) == Some(d)
    ensures h.run.history + h.run.expected == paused.history + paused.expected
  {
    hide ResumeDrive, Sound, Reliable, Metered, WellBehaved, Belongs, HasSystem, Awaited, Inert;
  }
}
