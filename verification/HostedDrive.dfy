/** A whole drive under the session: every act is welcome, and what the driver returns is what the session asks of it. */
module HostedDrives {
  import opened Messages
  import opened Pairing
  import opened Usages
  import opened Suspensions
  import opened ToolControl
  import opened ResumePlan
  import opened Turns
  import opened Resuming
  import opened TurnBounds
  import opened Drives
  import opened DriveLaws
  import opened DriveAccounts
  import opened Protocols
  import opened Projections
  import opened Hosting
  import opened Requests
  import C = DriveChain
  import J = Journals
  import S = SessionStates
  import SessionSteps

  // ---------------------------------------------------------------------
  // A joint run.

  /** One step of a joint run: the driver's next act, or something beside it. */
  datatype Beat = Moves(act: Act) | Beside(other: Other)

  ghost predicate Steps(h: Handle, beat: Beat, after: Handle) {
    match beat
    case Moves(Said(event)) => h.d.run.Some? && Emits(h, event, after)
    case Moves(Heard(candidate, reply)) => exists answer :: Hooks(h, candidate, answer, after) && Conveys(answer, reply)
    case Beside(other) => Besides(h, other, after)
  }

  /** A projection was taken since the driver's last act. */
  predicate Shown(beats: seq<Beat>) {
    beats != [] && beats[|beats| - 1].Beside? && (beats[|beats| - 1].other.Projecting? || Shown(beats[..|beats| - 1]))
  }

  /** The history processor is called while the model is being asked, and the model answers only what went through it. */
  predicate Placed(before: seq<Beat>, beat: Beat) {
    match beat
    case Beside(Projecting(_, _, _)) => Walk(Taken(before)) == Some(AtRequest)
    case Moves(Said(AssistantCommitted(_))) => Shown(before)
    case _ => true
  }

  ghost predicate Joint(beats: seq<Beat>, handles: seq<Handle>) {
    && |handles| == |beats| + 1
    && forall k :: 0 <= k < |beats| ==> Steps(handles[k], beats[k], handles[k + 1]) && Placed(beats[..k], beats[k])
  }

  /** The session goes from one handle to another while the driver plays a part of the script. */
  ghost predicate Plays(acts: seq<Act>, h: Handle, beats: seq<Beat>, handles: seq<Handle>, after: Handle) {
    Joint(beats, handles) && Taken(beats) <= acts && handles[0] == h && handles[|beats|] == after
  }

  /** The driver's acts among the beats. */
  function Taken(beats: seq<Beat>): seq<Act> {
    if beats == [] then []
    else Taken(beats[..|beats| - 1]) + (if beats[|beats| - 1].Moves? then [beats[|beats| - 1].act] else [])
  }

  function EventsIn(acts: seq<Act>): seq<J.Event> {
    if acts == [] then []
    else EventsIn(acts[..|acts| - 1]) + (if acts[|acts| - 1].Said? then [acts[|acts| - 1].event] else [])
  }

  /** The events among the acts commit no system message and never report less than before. */
  ghost predicate Decent(acts: seq<Act>, used: Usage) {
    forall n :: 0 <= n < |acts| && acts[n].Said? ==> Speaks(Reported(EventsIn(acts[..n]), used), acts[n].event)
  }

  lemma {:induction false} WalkPrefix(acts: seq<Act>, n: nat)
    requires n <= |acts| && Walk(acts).Some?
    ensures Walk(acts[..n]).Some?
    decreases |acts|
  {
    if n < |acts| {
      assert acts[..|acts| - 1][..n] == acts[..n];
      WalkPrefix(acts[..|acts| - 1], n);
    } else {
      assert acts[..n] == acts;
    }
  }

  lemma WalkOn(acts: seq<Act>, n: nat)
    requires n < |acts| && Walk(acts).Some?
    ensures Walk(acts[..n]).Some? && Next(Walk(acts[..n]).value, acts[n]) == Walk(acts[..n + 1]) && Walk(acts[..n + 1]).Some?
  {
    hide Next;
    WalkPrefix(acts, n);
    WalkPrefix(acts, n + 1);
    assert acts[..n + 1] == acts[..n] + [acts[n]];
    WalkThen(acts[..n], acts[n]);
  }

  /** Through every joint run on an ordered, decent script, the session keeps step with the driver. */
  lemma {:induction false} JointHosts(start: J.ActiveRun, acts: seq<Act>, beats: seq<Beat>, handles: seq<Handle>)
    requires Walk(acts).Some? && Decent(acts, start.lastUsage) && Joint(beats, handles) && Taken(beats) <= acts
    requires Hosts(start, AtStart, handles[0], [])
    ensures Walk(Taken(beats)).Some?
    ensures Hosts(start, Walk(Taken(beats)).value, handles[|beats|], EventsIn(Taken(beats)))
    decreases |beats|
  {
    hide Hosts, Emits, Hooks, Besides, Conveys, Speaks, Reported, Next;
    if beats != [] {
      var n := |beats| - 1;
      var before, beat, h, after := beats[..n], beats[n], handles[n], handles[n + 1];
      assert Steps(h, beat, after);
      JointPrefix(beats, handles, n);
      JointHosts(start, acts, before, handles[..n + 1]);
      var taken := Taken(before);
      if beat.Moves? {
        var k := |taken|;
        assert Taken(beats) == taken + [beat.act] && taken == acts[..k] && beat.act == acts[k];
        WalkOn(acts, k);
        assert acts[..k + 1] == taken + [beat.act];
        MoveHosted(start, Walk(taken).value, h, taken, beat.act, after);
      } else {
        assert Taken(beats) == taken + [] == taken;
        OtherHosted(start, Walk(taken).value, h, EventsIn(taken), beat.other, after);
      }
    }
  }

  lemma JointPrefix(beats: seq<Beat>, handles: seq<Handle>, n: nat)
    requires Joint(beats, handles) && n <= |beats|
    ensures Joint(beats[..n], handles[..n + 1])
  {
    hide Steps, Placed;
    forall k | 0 <= k < n ensures beats[..n][..k] == beats[..k] {}
  }

  lemma MoveHosted(start: J.ActiveRun, s: Stand, h: Handle, taken: seq<Act>, act: Act, after: Handle)
    requires Hosts(start, s, h, EventsIn(taken)) && Next(s, act).Some? && Steps(h, Moves(act), after)
    requires act.Said? ==> Speaks(Reported(EventsIn(taken), start.lastUsage), act.event)
    ensures Hosts(start, Next(s, act).value, after, EventsIn(taken + [act]))
  {
    hide Hosts, Emits, Hooks, Conveys, Speaks, Reported;
    assert (taken + [act])[..|taken|] == taken;
    match act
    case Said(event) => EmitHosted(start, s, h, EventsIn(taken), event, after);
    case Heard(candidate, reply) =>
      var answer :| Hooks(h, candidate, answer, after) && Conveys(answer, reply);
      HookHosted(start, h, EventsIn(taken), candidate, answer, reply, after);
      assert EventsIn(taken) + [] == EventsIn(taken);
  }

  /** Whatever has happened so far, the driver's next event is one the session takes. */
  ghost predicate Attends(acts: seq<Act>, beats: seq<Beat>, h: Handle) {
    |Taken(beats)| < |acts| && acts[|Taken(beats)|].Said? ==> Welcome(h, acts[|Taken(beats)|].event)
  }

  lemma ScriptHosted(start: J.ActiveRun, acts: seq<Act>, h: Handle, beats: seq<Beat>, handles: seq<Handle>, after: Handle)
    requires Walk(acts).Some? && Decent(acts, start.lastUsage) && Plays(acts, h, beats, handles, after) && Hosts(start, AtStart, h, [])
    ensures Attends(acts, beats, after) && Taken(beats) <= acts
    ensures Walk(Taken(beats)).Some? && Hosts(start, Walk(Taken(beats)).value, after, EventsIn(Taken(beats)))
  {
    hide Hosts, Speaks, Next, Welcome;
    JointHosts(start, acts, beats, handles);
    var n := |Taken(beats)|;
    assert Taken(beats) == acts[..n];
    if n < |acts| && acts[n].Said? {
      WalkOn(acts, n);
      EventWelcome(start, Walk(acts[..n]).value, after, EventsIn(acts[..n]), acts[n].event);
    }
  }

  // ---------------------------------------------------------------------
  // The script of a drive.

  function Script(d: Drive): seq<Act> {
    Acts(d.end.ls.emitted, d.end.ls.hooks)
  }

  lemma {:induction false} ScriptEvents(events: seq<J.Event>, hooks: seq<HookCall>)
    ensures EventsIn(Acts(events, hooks)) == events
    decreases |events| + |hooks|
  {
    var acts := Acts(events, hooks);
    if hooks != [] && hooks[|hooks| - 1].at >= |events| {
      ScriptEvents(events, hooks[..|hooks| - 1]);
      assert acts[..|acts| - 1] == Acts(events, hooks[..|hooks| - 1]);
    } else if events != [] {
      ScriptEvents(events[..|events| - 1], hooks);
      assert acts[..|acts| - 1] == Acts(events[..|events| - 1], hooks);
    }
  }

  lemma {:induction false} EventsPrefix(acts: seq<Act>, n: nat)
    requires n <= |acts|
    ensures EventsIn(acts[..n]) <= EventsIn(acts)
    decreases |acts|
  {
    if n < |acts| {
      assert acts[..|acts| - 1][..n] == acts[..n];
      EventsPrefix(acts[..|acts| - 1], n);
    } else {
      assert acts[..n] == acts;
    }
  }

  lemma ScriptDecent(env: Env, cfg: Config, base: Transcript, used: Usage, ls: Loop)
    requires Reliable(env) && Metered(env) && WellBehaved(env) && Kept(env, cfg, base, used, ls)
    ensures Decent(Acts(ls.emitted, ls.hooks), used)
  {
    hide Kept, Reliable, Metered, WellBehaved, Reported, J.Committed;
    var acts := Acts(ls.emitted, ls.hooks);
    ScriptEvents(ls.emitted, ls.hooks);
    forall n | 0 <= n < |acts| && acts[n].Said? ensures Speaks(Reported(EventsIn(acts[..n]), used), acts[n].event) {
      EventAt(acts, n);
      var k := |EventsIn(acts[..n])|;
      assert ls.emitted[k] == acts[n].event && ls.emitted[..k] == EventsIn(acts[..n]);
      EventsAccepted(env, cfg, base, used, ls, k);
    }
  }

  lemma EventAt(acts: seq<Act>, n: nat)
    requires n < |acts| && acts[n].Said?
    ensures EventsIn(acts[..n]) + [acts[n].event] <= EventsIn(acts)
  {
    EventsPrefix(acts, n + 1);
    assert acts[..n + 1][..n] == acts[..n];
  }

  /** How the session classes the error a drive returns. */
  function ErrorOf(error: DriveError): S.RunError {
    match error
    case NoDriveError => S.NoError
    case SuspensionMismatch => S.ResumeValidation
    case ResolutionRefused(validation) => if validation then S.ResumeValidation else S.OtherError
    case _ => S.OtherError
  }

  /** The execution a driver returns; `given` is the length of the history it was handed. */
  function ExecutionOf(d: Drive, given: nat): S.Execution {
    S.Execution(d.end.status, Some(ResultOf(d.end.ls, given)), d.end.suspension)
  }

  /** Everything FinishExecution asks of a returned execution, at the end of an ordered script. */
  lemma EndReturns(start: J.ActiveRun, h: Handle, d: Drive, given: nat)
    requires Ordered(d.end) && Walk(Script(d)).Some? && Hosts(start, Walk(Script(d)).value, h, d.end.ls.emitted)
    requires S.ReportContract(h.run, Some(ExecutionOf(d, given)))
    ensures S.ReturnContract(h.f, h.state, h.suspending, h.d.suspension, h.run, Some(ExecutionOf(d, given)), ErrorOf(d.end.error))
  {
    hide S.ReportContract, Followed, Walk;
    SoundFacts(h);
    hide Sound;
  }

  // ---------------------------------------------------------------------
  // Every request is one the session recognizes.

  /** While the model is being asked, the transcript the driver hands over is the view the session expects. */
  ghost predicate Shows(d: Drive, beats: seq<Beat>, h: Handle) {
    Walk(Taken(beats)) == Some(AtRequest) ==>
      var i := TurnsIn(EventsIn(Taken(beats))) - 1;
      0 <= i < |d.requests| && Viewed(h, d.requests[i].messages)
  }

  lemma AskedLast(acts: seq<Act>)
    requires Walk(acts) == Some(AtRequest)
    ensures acts != [] && acts[|acts| - 1] == Said(J.TurnStarted)
    ensures var said := EventsIn(acts);
      said != [] && said[|said| - 1] == J.TurnStarted && said[..|said| - 1] == EventsIn(acts[..|acts| - 1])
  {
    WalkPrefix(acts, |acts| - 1);
  }

  lemma RequestCarries(d: Drive, base: Transcript, acts: seq<Act>) returns (i: nat)
    requires Recorded(base, 0, 0, d) && acts <= Script(d) && Walk(acts) == Some(AtRequest)
    ensures i == TurnsIn(EventsIn(acts)) - 1 && i < |d.requests|
    ensures d.requests[i].messages == base + CommittedAll(EventsIn(acts))
  {
    hide Walk, J.Committed;
    AskedLast(acts);
    EventsPrefix(Script(d), |acts|);
    assert Script(d)[..|acts|] == acts;
    ScriptEvents(d.end.ls.emitted, d.end.ls.hooks);
    var said, events := EventsIn(acts), d.end.ls.emitted;
    var k := |said| - 1;
    assert events[k] == said[k] && events[..k] == said[..k];
    assert Carries(base, 0, events, d.requests, k);
    i := TurnsIn(said[..k]);
    assert CommittedAll(said) == CommittedAll(said[..k]) + [] by { NothingCommitted(); }
  }

  lemma NothingCommitted()
    ensures J.Committed(J.EventEntry(J.TurnStarted, [], None)) == []
  {
  }

  lemma RequestShown(start: J.ActiveRun, d: Drive, system: Option<Message>, beats: seq<Beat>, s: Stand, h: Handle)
    requires Recorded(OptionalMessage(system) + start.history + start.expected, 0, 0, d)
    requires Taken(beats) <= Script(d) && Walk(Taken(beats)) == Some(s) && Hosts(start, s, h, EventsIn(Taken(beats)))
    requires system.Some? ==> system.value.role == RoleSystem && !J.StartsWithSystem(start.history)
    ensures Shows(d, beats, h)
  {
    hide Recorded, Hosts, Walk, Viewed, CommittedAll;
    if s.AtRequest? {
      var said := EventsIn(Taken(beats));
      var base := OptionalMessage(system) + start.history + start.expected;
      var i := RequestCarries(d, base, Taken(beats));
      HostViews(start, s, h, said, system);
      assert base + CommittedAll(said) == OptionalMessage(system) + start.history + (start.expected + CommittedAll(said));
    }
  }

  // ---------------------------------------------------------------------
  // Started drives.

  /** A run just opened with the prompt, or taken over by a recovery. */
  ghost predicate Opened(h: Handle, prompt: Option<Message>) {
    && Sound(h) && h.state == J.Running && !h.suspending
    && h.run.expected == OptionalMessage(prompt) && h.run.lastUsage == ZeroUsage && h.run.volatile == J.Quiet
  }

  lemma OpenedHosts(h: Handle, prompt: Option<Message>)
    requires Opened(h, prompt)
    ensures Hosts(h.run, AtStart, h, [])
  {
    FollowedAtStart(h.run);
    SoundFacts(h);
  }

  /** The session accepts the returned transcript, finding the inserted system message, and settles the execution as announced. */
  ghost predicate Returns(h: Handle, d: Drive, given: Transcript, inserted: Option<Message>) {
    && h.run.volatile.publicNewStart <= |h.run.expected|
    && S.ValidateProjection(h.run, ResultOf(d.end.ls, |given|)) == S.Match(inserted)
    && S.ReturnContract(h.f, h.state, h.suspending, h.d.suspension, h.run, Some(ExecutionOf(d, |given|)), ErrorOf(d.end.error))
  }

  /** At the end of the script of a started drive. */
  lemma StartSettles(env: Env, cfg: Config, system: string, mode: InputMode, prompt: Option<Message>, d: Drive, h: Handle, after: Handle)
    requires Reliable(env) && Metered(env) && WellBehaved(env) && cfg.hooked
    requires Opened(h, prompt) && StartDrive(env, cfg, system, mode, prompt, h.run.history) == Some(d)
    requires Walk(Script(d)).Some? && Hosts(h.run, Walk(Script(d)).value, after, EventsIn(Script(d)))
    ensures Returns(after, d, h.run.history, Inserted(system, h.run.history)) && SessionSteps.Reportable(after.run.lastUsage, d.end.ls.usage)
    ensures !after.run.volatile.resumeInProgress && Alive(after.state)
  {
    hide Reliable, Metered, WellBehaved, Walk, StartDrive, Ordered, S.ValidateProjection, S.ReportContract, S.ReturnContract, Inserted,
      SessionSteps.Reportable, Hosts;
    StartOrdered(env, cfg, system, mode, prompt, h.run.history);
    ScriptEvents(d.end.ls.emitted, d.end.ls.hooks);
    HostsFollowed(h.run, Walk(Script(d)).value, after, d.end.ls.emitted);
    StartProjects(env, cfg, system, mode, prompt, d, h.run, after.run);
    EndReturns(h.run, after, d, |h.run.history|);
  }

  lemma StartReady(env: Env, cfg: Config, system: string, mode: InputMode, prompt: Option<Message>, d: Drive, h: Handle)
    requires Reliable(env) && Metered(env) && WellBehaved(env) && cfg.hooked && Opened(h, prompt)
    requires StartDrive(env, cfg, system, mode, prompt, h.run.history) == Some(d)
    ensures Walk(Script(d)).Some? && Decent(Script(d), h.run.lastUsage) && Hosts(h.run, AtStart, h, [])
  {
    hide Hosts, Walk, Decent, Reliable, Metered, WellBehaved, StartDrive, Acts, Kept, Inserted, Ordered, Sound;
    OpenedHosts(h, prompt);
    StartOrdered(env, cfg, system, mode, prompt, h.run.history);
    OrderedWalks(d.end);
    StartKept(env, cfg, system, mode, prompt, h.run.history);
    ScriptDecent(env, cfg, OptionalMessage(Inserted(system, h.run.history)) + h.run.history + OptionalMessage(prompt), ZeroUsage, d.end.ls);
  }

  lemma StartShows(env: Env, cfg: Config, system: string, mode: InputMode, prompt: Option<Message>, d: Drive, h: Handle,
                   beats: seq<Beat>, s: Stand, after: Handle)
    requires Reliable(env) && h.run.expected == OptionalMessage(prompt)
    requires StartDrive(env, cfg, system, mode, prompt, h.run.history) == Some(d)
    requires Taken(beats) <= Script(d) && Walk(Taken(beats)) == Some(s) && Hosts(h.run, s, after, EventsIn(Taken(beats)))
    ensures Shows(d, beats, after)
  {
    hide Reliable, StartDrive, Hosts, Walk, Shows, Recorded, Inserted;
    StartRecorded(env, cfg, system, mode, prompt, h.run.history);
    InsertedOnlyFirst(system, h.run.history);
    RequestShown(h.run, d, Inserted(system, h.run.history), beats, s, after);
  }

  /**
   * A started drive under a session that others go on using: every event the driver says is one the session takes, every request it makes
   * is one the session finds in its own view, and when the script is over, the session accepts the returned transcript and usage, and
   * settles the execution as announced.
   */
  lemma StartHosted(env: Env, cfg: Config, system: string, mode: InputMode, prompt: Option<Message>, d: Drive,
                    h: Handle, beats: seq<Beat>, handles: seq<Handle>, after: Handle)
    requires Reliable(env) && Metered(env) && WellBehaved(env) && cfg.hooked
    requires Opened(h, prompt) && StartDrive(env, cfg, system, mode, prompt, h.run.history) == Some(d)
    requires Plays(Script(d), h, beats, handles, after)
    ensures Attends(Script(d), beats, after) && Shows(d, beats, after)
    ensures Taken(beats) == Script(d) ==>
      Returns(after, d, h.run.history, Inserted(system, h.run.history)) && SessionSteps.Reportable(after.run.lastUsage, d.end.ls.usage)
  {
    hide Reliable, Metered, WellBehaved, Plays, Attends, Shows, Hosts, Decent, Walk, StartDrive, Returns, Inserted, SessionSteps.Reportable,
      Sound;
    StartReady(env, cfg, system, mode, prompt, d, h);
    ScriptHosted(h.run, Script(d), h, beats, handles, after);
    StartShows(env, cfg, system, mode, prompt, d, h, beats, Walk(Taken(beats)).value, after);
    if Taken(beats) == Script(d) {
      StartSettles(env, cfg, system, mode, prompt, d, h, after);
    }
  }

  lemma OrderedWalks(end: Ended)
    requires Ordered(end)
    ensures Walk(Acts(end.ls.emitted, end.ls.hooks)).Some?
  {
  }

  lemma HostsFollowed(start: J.ActiveRun, s: Stand, h: Handle, said: seq<J.Event>)
    requires Hosts(start, s, h, said)
    ensures Followed(start, h.run, said) && h.run.volatile.publicNewStart <= |h.run.expected| && Alive(h.state)
  {
    SoundFacts(h);
  }

  // ---------------------------------------------------------------------
  // Resumed drives.

  /** A paused run whose resolution was just accepted. */
  ghost predicate Reopened(h: Handle, paused: J.ActiveRun) {
    && Sound(h) && h.state == J.Running && !h.suspending
    && h.run == S.ResumedRun(paused) && paused.volatile.pendingInjectionIds == []
  }

  lemma ReopenedHosts(h: Handle, paused: J.ActiveRun)
    requires Reopened(h, paused)
    ensures Hosts(h.run, AtStart, h, [])
    ensures h.run.history == [] && h.run.expected != [] ==> h.run.expected[0].role != RoleSystem
  {
    FollowedAtStart(h.run);
    SoundFacts(h);
    S.LiveFacts(h.f, h.d, h.state, h.suspending, Some(h.run));
  }

  /** The suspension belongs to the paused run: the driver's counters are where the run's last report was, within bounds. */
  ghost predicate Belongs(cfg: Config, run: J.ActiveRun, s: Suspension) {
    s.payload.ToolPayload? ==>
      var tool := s.payload.tool;
      run.lastUsage == tool.usage && Bounded(cfg, tool.usage.counters.toolCalls, Restored(run.history + run.expected, tool))
  }

  /** The counters of a resumption the guards refuse are zero: at least the run's last report if and only if that was of nothing. */
  predicate Reports(guarded: bool, d: Drive, last: Usage, after: Usage) {
    if guarded then SessionSteps.Reportable(after, d.end.ls.usage)
    else
      && d.end.error == SuspensionMismatch && d.end.ls.usage == ZeroUsage && after == last
      && (UsageDelta(d.end.ls.usage, after).Some? <==> AtMost(last.counters, ZeroCounters) && last.perRequest == [])
  }

  /** At the end of the script of a resumed drive. */
  lemma ResumeSettles(env: Env, cfg: Config, system: string, s: Suspension, decisions: seq<ToolResumeDecision>, prompt: Option<Message>,
                      d: Drive, paused: J.ActiveRun, h: Handle, after: Handle)
    requires Reliable(env) && Metered(env) && WellBehaved(env) && cfg.hooked
    requires Reopened(h, paused) && Belongs(cfg, paused, s) && (system == "" || HasSystem(paused.history + paused.expected))
    requires ResumeDrive(env, cfg, system, paused.history + paused.expected, s, decisions, prompt) == Some(d)
    requires Walk(Script(d)).Some? && Hosts(h.run, Walk(Script(d)).value, after, EventsIn(Script(d)))
    ensures Returns(after, d, paused.history + paused.expected, None) && Alive(after.state)
    ensures Reports(ResumeGuards(env, cfg, paused.history + paused.expected, s), d, paused.lastUsage, after.run.lastUsage)
  {
    hide Reliable, Metered, WellBehaved, Hosts, Walk, ResumeDrive, Ordered, S.ValidateProjection, S.ReportContract, S.ReturnContract,
      SessionSteps.Reportable, ResumeGuards, Bounded, Restored, Sound, HasSystem;
    var history := paused.history + paused.expected;
    ReopenedHosts(h, paused);
    ResumeOrdered(env, cfg, system, history, s, decisions, prompt);
    ScriptEvents(d.end.ls.emitted, d.end.ls.hooks);
    HostsFollowed(h.run, Walk(Script(d)).value, after, d.end.ls.emitted);
    ResumedHistory(env, cfg, system, history, s, decisions, prompt, d);
    if ResumeGuards(env, cfg, history, s) {
      GuardsName(env, cfg, history, s);
      ResumeProjects(env, cfg, system, s, decisions, prompt, d, h.run, after.run);
    } else {
      RefusedProjects(env, cfg, system, s, decisions, prompt, d, h.run, after.run);
    }
    EndReturns(h.run, after, d, |history|);
  }

  lemma ResumeReady(env: Env, cfg: Config, system: string, s: Suspension, decisions: seq<ToolResumeDecision>, prompt: Option<Message>,
                    d: Drive, paused: J.ActiveRun, h: Handle)
    requires Reliable(env) && Metered(env) && WellBehaved(env) && cfg.hooked
    requires Reopened(h, paused) && Belongs(cfg, paused, s) && (system == "" || HasSystem(paused.history + paused.expected))
    requires ResumeDrive(env, cfg, system, paused.history + paused.expected, s, decisions, prompt) == Some(d)
    ensures Walk(Script(d)).Some? && Decent(Script(d), h.run.lastUsage) && Hosts(h.run, AtStart, h, [])
  {
    hide Reliable, Metered, WellBehaved, Hosts, Decent, Walk, ResumeDrive, Ordered, Bounded, Restored, Sound, HasSystem;
    ReopenedHosts(h, paused);
    ResumeOrdered(env, cfg, system, paused.history + paused.expected, s, decisions, prompt);
    OrderedWalks(d.end);
    ResumedDecent(env, cfg, system, s, decisions, prompt, d, paused);
  }

  lemma ResumeShows(env: Env, cfg: Config, system: string, s: Suspension, decisions: seq<ToolResumeDecision>, prompt: Option<Message>,
                    d: Drive, run: J.ActiveRun, beats: seq<Beat>, at: Stand, after: Handle)
    requires Reliable(env) && Belongs(cfg, run, s) && (system == "" || HasSystem(run.history + run.expected))
    requires ResumeDrive(env, cfg, system, run.history + run.expected, s, decisions, prompt) == Some(d)
    requires Taken(beats) <= Script(d) && Walk(Taken(beats)) == Some(at) && Hosts(run, at, after, EventsIn(Taken(beats)))
    ensures Shows(d, beats, after)
  {
    hide Reliable, Hosts, Walk, Shows, Recorded, Run, ResumeGuards, ResumePrepared, Bounded, Restored, HasSystem;
    var history := run.history + run.expected;
    PreparedAsIs(system, history);
    var ls := Prepared(system, history, None);
    if ResumeGuards(env, cfg, history, s) {
      GuardsName(env, cfg, history, s);
      RestoredSame(ls.messages, history, s.payload.tool);
    }
    ResumeRecorded(env, cfg, ls, s, decisions, prompt);
    assert OptionalMessage(None) + run.history + run.expected == history;
    RequestShown(run, d, None, beats, at, after);
  }

  /** A resumed drive, whatever the decisions, in the same company. */
  lemma ResumeHosted(env: Env, cfg: Config, system: string, s: Suspension, decisions: seq<ToolResumeDecision>, prompt: Option<Message>,
                     d: Drive, paused: J.ActiveRun, h: Handle, beats: seq<Beat>, handles: seq<Handle>, after: Handle)
    requires Reliable(env) && Metered(env) && WellBehaved(env) && cfg.hooked
    requires Reopened(h, paused) && Belongs(cfg, paused, s) && (system == "" || HasSystem(paused.history + paused.expected))
    requires ResumeDrive(env, cfg, system, paused.history + paused.expected, s, decisions, prompt) == Some(d)
    requires Plays(Script(d), h, beats, handles, after)
    ensures Attends(Script(d), beats, after) && Shows(d, beats, after)
    ensures Taken(beats) == Script(d) ==>
      && Returns(after, d, paused.history + paused.expected, None)
      && Reports(ResumeGuards(env, cfg, paused.history + paused.expected, s), d, paused.lastUsage, after.run.lastUsage)
  {
    hide Reliable, Metered, WellBehaved, Plays, Attends, Shows, Hosts, Decent, Walk, ResumeDrive, Returns, Reports, Reopened, Belongs, HasSystem,
      ResumeGuards;
    ResumeReady(env, cfg, system, s, decisions, prompt, d, paused, h);
    ScriptHosted(h.run, Script(d), h, beats, handles, after);
    ReopenedRun(cfg, h, paused, s);
    ResumeShows(env, cfg, system, s, decisions, prompt, d, h.run, beats, Walk(Taken(beats)).value, after);
    if Taken(beats) == Script(d) {
      ResumeSettles(env, cfg, system, s, decisions, prompt, d, paused, h, after);
    }
  }

  lemma ReopenedRun(cfg: Config, h: Handle, paused: J.ActiveRun, s: Suspension)
    requires Reopened(h, paused) && Belongs(cfg, paused, s)
    ensures h.run.history + h.run.expected == paused.history + paused.expected && Belongs(cfg, h.run, s)
  {
    hide Sound, Bounded, Restored;
  }

  lemma ResumedHistory(env: Env, cfg: Config, system: string, history: Transcript, s: Suspension, decisions: seq<ToolResumeDecision>,
                       prompt: Option<Message>, d: Drive)
    requires ResumeDrive(env, cfg, system, history, s, decisions, prompt) == Some(d)
    ensures history != []
  {
  }

  lemma ResumedDecent(env: Env, cfg: Config, system: string, s: Suspension, decisions: seq<ToolResumeDecision>, prompt: Option<Message>,
                      d: Drive, run: J.ActiveRun)
    requires Reliable(env) && Metered(env) && WellBehaved(env) && Belongs(cfg, run, s)
    requires var history := run.history + run.expected;
      ResumeDrive(env, cfg, system, history, s, decisions, prompt) == Some(d) && (system == "" || HasSystem(history))
    ensures Decent(Script(d), run.lastUsage)
  {
    hide Reliable, Metered, WellBehaved, Kept, Decent, ResumeGuards, Bounded, Restored, Inserted, ResolveTools, DriveLoop, Failed, Run;
    var history := run.history + run.expected;
    PreparedAsIs(system, history);
    var ls := Prepared(system, history, None);
    if ResumeGuards(env, cfg, history, s) {
      GuardsName(env, cfg, history, s);
      RestoredSame(ls.messages, history, s.payload.tool);
      ResumeKept(env, cfg, ls, s, decisions, prompt);
      ScriptDecent(env, cfg, history, run.lastUsage, d.end.ls);
    } else {
      RefusedEnd(env, ls);
      PlainDecent(run.lastUsage, d.end.ls);
    }
  }

  lemma PlainDecent(used: Usage, ls: Loop)
    requires ls.emitted == [J.RunFailed, J.RunEnded]
    ensures Decent(Acts(ls.emitted, ls.hooks), used)
  {
    hide Reported, Acts, EventsIn;
    var acts := Acts(ls.emitted, ls.hooks);
    ScriptEvents(ls.emitted, ls.hooks);
    forall n | 0 <= n < |acts| && acts[n].Said? ensures Speaks(Reported(EventsIn(acts[..n]), used), acts[n].event) {
      EventAt(acts, n);
      assert acts[n].event == ls.emitted[|EventsIn(acts[..n])|];
    }
  }

  // ---------------------------------------------------------------------
  // From one drive to the next.

  /** What a settled pause leaves is what the resumption of the same suspension starts from. */
  lemma PauseHandsOver(cfg: Config, system: string, d: Drive, h: Handle, given: nat, inserted: Option<Message>)
    requires C.Settled(cfg, d) && d.end.suspension.Some? && C.Seeded(system, d.end.ls.messages)
    requires Fitting(AtPause(d.end.suspension.value), h) && h.run.volatile.publicNewStart <= |h.run.expected|
    requires S.ValidateProjection(h.run, ResultOf(d.end.ls, given)) == S.Match(inserted)
    ensures var paused := S.PausedRun(h.run, d.end.ls.usage, inserted);
      && paused.history + paused.expected == d.end.ls.messages && (system == "" || HasSystem(paused.history + paused.expected))
      && paused.volatile.pendingInjectionIds == [] && Belongs(cfg, paused, d.end.suspension.value)
  {
    hide Bounded, S.ValidateProjection, Run, HasSystem;
    S.MatchIsMirror(h.run, ResultOf(d.end.ls, given));
    var paused := S.PausedRun(h.run, d.end.ls.usage, inserted);
    assert OptionalMessage(inserted) + h.run.history + h.run.expected == paused.history + paused.expected;
    var tool := d.end.suspension.value.payload.tool;
    SameBounds(cfg, 0, d.end.ls, Restored(d.end.ls.messages, tool));
    C.OwnBounds(cfg, Restored(d.end.ls.messages, tool));
  }

  // ---------------------------------------------------------------------
  // Past a release.

  lemma NotRunningStays(h: Handle, beat: Beat, after: Handle)
    requires Steps(h, beat, after) && h.state != J.Running
    ensures after.state != J.Running && !(beat.Beside? && beat.other.Projecting?)
  {
    hide SessionSteps.EmittedImage, S.EmittedRun, J.FoldFrom;
  }

  /** Once the session has left Running, it takes no context projection for the rest of the drive. */
  lemma {:induction false} NeverRunsAgain(beats: seq<Beat>, handles: seq<Handle>, i: nat, j: nat)
    requires Joint(beats, handles) && i <= j <= |beats| && handles[i].state != J.Running
    ensures handles[j].state != J.Running
    ensures j < |beats| ==> !(beats[j].Beside? && beats[j].other.Projecting?)
    decreases j
  {
    hide Steps;
    if i < j {
      NeverRunsAgain(beats, handles, i, j - 1);
      NotRunningStays(handles[j - 1], beats[j - 1], handles[j]);
    }
    if j < |beats| {
      NotRunningStays(handles[j], beats[j], handles[j + 1]);
    }
  }

  lemma {:induction false} ShownSince(beats: seq<Beat>, i: nat) returns (j: nat)
    requires i < |beats| && beats[i].Moves? && Shown(beats)
    ensures i < j < |beats| && beats[j].Beside? && beats[j].other.Projecting?
    decreases |beats|
  {
    j := |beats| - 1;
    if !beats[j].other.Projecting? {
      assert i < j;
      j := ShownSince(beats[..j], i);
    }
  }

  /** Where the driver can be after a release it did not complete, when the model no longer answers. */
  predicate Adrift(s: Option<Stand>) {
    s == Some(AtRequest) || s == Some(AtStop)
  }

  lemma {:induction false} StaysAdrift(acts: seq<Act>, p: nat, n: nat)
    requires Walk(acts).Some? && p + 2 <= n <= |acts| && Walk(acts[..p + 1]) == Some(AtRelease) && acts[p + 1] != Said(J.RunCompleted)
    requires forall k :: p < k < |acts| && acts[k].Said? ==> !acts[k].event.AssistantCommitted?
    ensures Adrift(Walk(acts[..n]))
    decreases n
  {
    WalkOn(acts, n - 1);
    assert acts[..n - 1 + 1] == acts[..n];
    if n > p + 2 {
      StaysAdrift(acts, p, n - 1);
    }
  }

  /**
   * The session let a candidate stand, and the driver did not complete at once, as with a prompt that came with the resumption. From then
   * on it has no projection taken, so that the model answers nothing, and the drive neither completes nor suspends nor reaches another turn end.
   */
  lemma ReleaseIsFinal(beats: seq<Beat>, handles: seq<Handle>, i: nat)
    requires Joint(beats, handles) && i < |beats| && Walk(Taken(beats)).Some?
    requires beats[i] == Moves(Heard(true, Decision(TurnDefault, []))) && Sound(handles[i])
    requires var p := |Taken(beats[..i])|; p + 1 < |Taken(beats)| && Taken(beats)[p + 1] != Said(J.RunCompleted)
    ensures handles[|beats|].state != J.Running
    ensures forall j :: i < j < |beats| ==> !(beats[j].Beside? && beats[j].other.Projecting?)
    ensures Adrift(Walk(Taken(beats)))
  {
    hide Walk, Hooks, Conveys, Sound, Emits, Besides;
    assert Steps(handles[i], beats[i], handles[i + 1]);
    ReleaseLeaves(handles[i], handles[i + 1]);
    forall j | i < j <= |beats|
      ensures handles[j].state != J.Running
      ensures j < |beats| ==> !(beats[j].Beside? && beats[j].other.Projecting?)
    {
      NeverRunsAgain(beats, handles, i + 1, j);
    }
    var acts, p := Taken(beats), |Taken(beats[..i])|;
    forall k | p < k < |acts| && acts[k].Said? ensures !acts[k].event.AssistantCommitted? {
      Unanswered(beats, handles, i, k);
    }
    ReleasedAt(beats, i);
    assert acts[..|acts|] == acts;
    StaysAdrift(acts, p, |acts|);
  }

  lemma Unanswered(beats: seq<Beat>, handles: seq<Handle>, i: nat, k: nat)
    requires Joint(beats, handles) && i < |beats| && beats[i].Moves? && |Taken(beats[..i])| < k < |Taken(beats)|
    requires forall j :: i < j < |beats| ==> !(beats[j].Beside? && beats[j].other.Projecting?)
    ensures Taken(beats)[k].Said? ==> !Taken(beats)[k].event.AssistantCommitted?
  {
    hide Walk, Steps;
    var j := BeatOf(beats, k);
    TakenGrows(beats, j, i);
    assert Placed(beats[..j], beats[j]);
    if Shown(beats[..j]) {
      var shown := ShownSince(beats[..j], i);
    }
  }

  lemma ReleasedAt(beats: seq<Beat>, i: nat)
    requires i < |beats| && Walk(Taken(beats)).Some? && beats[i] == Moves(Heard(true, Decision(TurnDefault, [])))
    ensures var p := |Taken(beats[..i])|;
      p < |Taken(beats)| && Taken(beats)[p] == beats[i].act && Walk(Taken(beats)[..p + 1]) == Some(AtRelease)
  {
    hide Walk;
    var acts, p := Taken(beats), |Taken(beats[..i])|;
    assert beats[..i + 1][..i] == beats[..i];
    TakenPrefix(beats, i + 1);
    assert Taken(beats[..i + 1]) == Taken(beats[..i]) + [beats[i].act];
    WalkOn(acts, p);
    HeardDefault(Walk(acts[..p]).value);
  }

  lemma HeardDefault(s: Stand)
    ensures var next := Next(s, Heard(true, Decision(TurnDefault, []))); next.Some? ==> next == Some(AtRelease)
  {
  }

  lemma ReleaseLeaves(h: Handle, after: Handle)
    requires Sound(h) && Steps(h, Moves(Heard(true, Decision(TurnDefault, []))), after)
    ensures after.state != J.Running
  {
    hide Sound, S.HookInputs, S.ChildExhausted;
  }

  /** The beat that played an act. */
  lemma {:induction false} BeatOf(beats: seq<Beat>, k: nat) returns (j: nat)
    requires k < |Taken(beats)|
    ensures j < |beats| && beats[j] == Moves(Taken(beats)[k]) && |Taken(beats[..j])| == k
    decreases |beats|
  {
    var n := |beats| - 1;
    if k < |Taken(beats[..n])| {
      j := BeatOf(beats[..n], k);
      assert beats[..n][..j] == beats[..j];
    } else {
      j := n;
    }
  }

  lemma {:induction false} TakenGrows(beats: seq<Beat>, i: nat, j: nat)
    requires i <= |beats| && j <= |beats|
    ensures i <= j ==> |Taken(beats[..i])| <= |Taken(beats[..j])|
    decreases j
  {
    if i < j {
      TakenGrows(beats, i, j - 1);
      assert beats[..j][..j - 1] == beats[..j - 1];
    }
  }

  /** A hook that let the candidate stand, a prompt that goes on regardless, and the first thing said after it. */
  lemma PromptedScript(env: Env, cfg: Config, ls: Loop, entry: Entry, d: Drive) returns (before: seq<Act>, event: J.Event)
    requires Reliable(env) && cfg.hooked && entry.Turn? && entry.prompt.Some? && Stands(ls, AtStart)
    requires d == DriveLoop(env, cfg, ls, entry) && CandidateStood(env, cfg, ls, entry)
    ensures BeginsRound(event) && before + [Heard(true, Decision(TurnDefault, []))] + [Said(event)] <= Script(d)
  {
    hide Stands, Extends, Emit, Reliable, CompleteTurn, HookAnswer, Consulted, DriveFrom, Acts, Timely;
    var started := Emit(env, ls, J.RunStarted).0;
    SayStands(env, ls, J.RunStarted, AtStart);
    CompleteStands(env, cfg, started, entry.assistant, entry.regular);
    var c := CompleteTurn(env, cfg, started, entry.assistant, entry.regular);
    var fed := c.ls.(messages := c.ls.messages + [entry.prompt.value]);
    TranscriptStands(c.ls, fed, AtWork);
    SayStands(env, fed, J.MessagesInjected([entry.prompt.value]), AtWork);
    var prompted := WithPrompt(env, c, entry.prompt);
    SayStands(env, prompted.ls, J.TurnEnded(prompted.ls.usage), AtWork);
    var ended := Emit(env, prompted.ls, J.TurnEnded(prompted.ls.usage)).0;
    var told := Consulted(env, cfg, ended, true);
    assert EnterTurn(env, cfg, started, entry) == Again(told);
    var on := told.(iteration := told.iteration + 1);
    event := DriveExtends(env, cfg, on);
    before := Acts(ended.emitted, ended.hooks);
    ActsHeard(env, cfg, ended, true);
    TimelyOn(told, on);
    ActsSaid(env, on, event);
    ScriptExtends(Emit(env, on, event).0, d.end.ls);
  }

  lemma TimelyOn(a: Loop, b: Loop)
    requires Timely(a) && a.emitted == b.emitted && a.hooks == b.hooks
    ensures Timely(b)
  {
  }

  /**
   * A turn completed at the start of a drive whose candidate the session lets stand, and a prompt beside it: in no joint run, whatever
   * else happens to the session, does the drive complete or suspend; and the session has left Running.
   */
  lemma PromptedNeverCompletes(env: Env, cfg: Config, ls: Loop, entry: Entry, d: Drive, start: J.ActiveRun, h: Handle, beats: seq<Beat>,
                               handles: seq<Handle>, after: Handle)
    requires Reliable(env) && cfg.hooked && entry.Turn? && entry.prompt.Some? && Stands(ls, AtStart)
    requires d == DriveLoop(env, cfg, ls, entry) && CandidateStood(env, cfg, ls, entry)
    requires Hosts(start, AtStart, h, []) && Decent(Script(d), start.lastUsage)
    requires Plays(Script(d), h, beats, handles, after) && Taken(beats) == Script(d)
    ensures d.end.status != J.ExecutionCompleted && d.end.status != J.ExecutionSuspended && after.state != J.Running
  {
    hide DriveLoop, Reliable, Stands, Emit, CandidateStood, Hosts, Decent, Walk, Acts, Steps, BeginsRound;
    LoopOrdered(env, cfg, ls, entry);
    var acts := Script(d);
    OrderedWalks(d.end);
    var before, event := PromptedScript(env, cfg, ls, entry, d);
    var p := |before|;
    assert acts[p] == Heard(true, Decision(TurnDefault, [])) && acts[p + 1] == Said(event);
    NotOpening(event);
    var i := BeatOf(beats, p);
    JointPrefix(beats, handles, i);
    TakenPrefix(beats, i);
    JointHosts(start, acts, beats[..i], handles[..i + 1]);
    HostsSound(start, Walk(Taken(beats[..i])).value, handles[i], EventsIn(Taken(beats[..i])));
    ReleaseIsFinal(beats, handles, i);
    AdriftEnd(d.end);
  }

  lemma AdriftEnd(end: Ended)
    requires Ordered(end) && Adrift(Walk(Acts(end.ls.emitted, end.ls.hooks)))
    ensures end.status != J.ExecutionCompleted && end.status != J.ExecutionSuspended
  {
  }

  lemma TakenPrefix(beats: seq<Beat>, i: nat)
    requires i <= |beats|
    ensures Taken(beats[..i]) <= Taken(beats)
    decreases |beats|
  {
    if i < |beats| {
      assert beats[..|beats| - 1][..i] == beats[..i];
      TakenPrefix(beats[..|beats| - 1], i);
    } else {
      assert beats[..i] == beats;
    }
  }

  lemma HostsSound(start: J.ActiveRun, s: Stand, h: Handle, said: seq<J.Event>)
    requires Hosts(start, s, h, said)
    ensures Sound(h)
  {
  }

  lemma NotOpening(event: J.Event)
    ensures BeginsRound(event) ==> event != J.RunCompleted
  {
  }
}
