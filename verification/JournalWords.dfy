/** The folded state read off the journal: each part of it is what the newest entry about it says. */
module JournalWords {
  import opened Messages
  import opened Usages
  import opened Suspensions
  import opened ContextPolicy
  import opened Journals
  import opened Lawful

  /** The newest entry of a kind. */
  function Newest(entries: seq<Entry>, about: Entry -> bool): Option<Entry> {
    if entries == [] then None
    else if about(entries[|entries| - 1]) then Some(entries[|entries| - 1])
    else Newest(entries[..|entries| - 1], about)
  }

  lemma {:induction false} NewestCons(head: Entry, rest: seq<Entry>, about: Entry -> bool)
    ensures Newest([head] + rest, about) ==
      if Newest(rest, about).Some? then Newest(rest, about) else if about(head) then Some(head) else None
    decreases |rest|
  {
    var all := [head] + rest;
    if rest == [] {
      assert all[..0] == [];
    } else {
      assert all[..|all| - 1] == [head] + rest[..|rest| - 1] && all[|all| - 1] == rest[|rest| - 1];
      NewestCons(head, rest[..|rest| - 1], about);
    }
  }

  // ---------------------------------------------------------------------
  // What the entries are about.

  predicate OnRecipe(e: Entry) { e.CompactionEntry? }

  /** A run begins, is taken over, or ends. */
  predicate OnRun(e: Entry) { e.RunOpened? || e.RunRecovered? || e.RunClosed? }

  predicate OnPause(e: Entry) {
    OnRun(e) || e.RecoverySuspension? || (e.EventEntry? && e.event.RunSuspended?)
  }

  predicate OnReport(e: Entry) {
    OnRun(e) || e.UsageCommitted? || (e.EventEntry? && e.event.TurnEnded?)
  }

  predicate OnCharge(e: Entry) { OnRun(e) || e.ChildUsage? }

  predicate OnInterrupt(e: Entry) {
    e.RunClosed? || (e.CommandAccepted? && e.command.kind == CommandInterrupt && e.command.rejection == "")
  }

  predicate OnCompletion(e: Entry) {
    e.RunOpened? || e.RunRecovered? || (e.EventEntry? && e.event.RunCompleted?)
  }

  // ---------------------------------------------------------------------
  // What they say.

  /** The parts of a fold that one entry can settle. */
  datatype Words = Words(recipe: Option<Compaction>, pause: Option<Suspension>, run: Option<Header>, report: Usage, charged: bool,
                         interrupt: string, completed: bool)

  datatype Header = Header(id: string, mode: DriveMode, limits: Option<Limits>, instructions: string)

  function WordsOf(f: Folded): Words {
    Words(f.compaction, f.phase.suspension,
          if f.run.None? then None else Some(Header(f.run.value.id, f.run.value.mode, f.run.value.limits, f.run.value.instructions)),
          if f.run.None? then ZeroUsage else f.run.value.lastUsage, f.run.Some? && f.run.value.childUsageCharged,
          f.phase.pendingInterrupt, f.phase.completed)
  }

  function RecipeSaid(e: Entry): Option<Compaction> {
    match e case CompactionEntry(recipe) => Some(recipe) case _ => None
  }

  function PauseSaid(e: Entry): Option<Suspension> {
    match e
    case RecoverySuspension(suspension) => Some(suspension)
    case EventEntry(RunSuspended(suspension), _, _) => Some(suspension)
    case _ => None
  }

  function RunSaid(e: Entry): Option<Header> {
    match e
    case RunOpened(id, mode, limits, instructions) => Some(Header(id, mode, limits, instructions))
    case RunRecovered(id, limits, instructions) => Some(Header(id, DriveContinue, limits, instructions))
    case _ => None
  }

  function ReportSaid(e: Entry): Usage {
    match e
    case UsageCommitted(run, _) => run
    case EventEntry(TurnEnded(usage), _, _) => usage
    case _ => ZeroUsage
  }

  function InterruptSaid(e: Entry): string {
    match e case CommandAccepted(c) => c.runId case _ => ""
  }

  /** The words after some entries: the newest about each part, or what was said before. */
  function Said(entries: seq<Entry>, before: Words): Words {
    var run := match Newest(entries, OnRun) case None => before.run case Some(e) => RunSaid(e);
    Words(
      (match Newest(entries, OnRecipe) case None => before.recipe case Some(e) => RecipeSaid(e)),
      (match Newest(entries, OnPause) case None => before.pause case Some(e) => PauseSaid(e)),
      run,
      (match Newest(entries, OnReport) case None => before.report case Some(e) => ReportSaid(e)),
      run.Some? && (match Newest(entries, OnCharge) case None => before.charged case Some(e) => e.ChildUsage?),
      (match Newest(entries, OnInterrupt) case None => before.interrupt case Some(e) => InterruptSaid(e)),
      (match Newest(entries, OnCompletion) case None => before.completed case Some(e) => e.EventEntry?))
  }

  const Silence := Words(None, None, None, ZeroUsage, false, "", false)

  lemma SaidCons(head: Entry, rest: seq<Entry>, before: Words)
    ensures Said([head] + rest, before) == Said(rest, Said([head], before))
  {
    NewestCons(head, rest, OnRecipe);
    NewestCons(head, rest, OnPause);
    NewestCons(head, rest, OnRun);
    NewestCons(head, rest, OnReport);
    NewestCons(head, rest, OnCharge);
    NewestCons(head, rest, OnInterrupt);
    NewestCons(head, rest, OnCompletion);
    OneWord(head, before);
    NoneOfFewer(rest, OnRun, OnCharge);
    ChargeOnRun(head);
    hide RecipeSaid, PauseSaid, RunSaid, ReportSaid, InterruptSaid, OnRecipe, OnPause, OnRun, OnReport, OnCharge, OnInterrupt, OnCompletion;
  }

  lemma ChargeOnRun(e: Entry)
    ensures OnRun(e) ==> OnCharge(e)
  {
  }

  lemma {:induction false} NoneOfFewer(entries: seq<Entry>, few: Entry -> bool, many: Entry -> bool)
    requires forall e :: few(e) ==> many(e)
    ensures Newest(entries, many).None? ==> Newest(entries, few).None?
    decreases |entries|
  {
    if entries != [] {
      NoneOfFewer(entries[..|entries| - 1], few, many);
    }
  }

  lemma OneNewest(e: Entry, about: Entry -> bool)
    ensures Newest([e], about) == if about(e) then Some(e) else None
  {
    NewestCons(e, [], about);
    assert [e] + [] == [e];
  }

  lemma OneWord(e: Entry, before: Words)
    ensures Said([e], before) == Words(
      if OnRecipe(e) then RecipeSaid(e) else before.recipe, if OnPause(e) then PauseSaid(e) else before.pause,
      if OnRun(e) then RunSaid(e) else before.run, if OnReport(e) then ReportSaid(e) else before.report,
      (if OnRun(e) then RunSaid(e) else before.run).Some? && (if OnCharge(e) then e.ChildUsage? else before.charged),
      if OnInterrupt(e) then InterruptSaid(e) else before.interrupt, if OnCompletion(e) then e.EventEntry? else before.completed)
  {
    OneNewest(e, OnRecipe);
    OneNewest(e, OnPause);
    OneNewest(e, OnRun);
    OneNewest(e, OnReport);
    OneNewest(e, OnCharge);
    OneNewest(e, OnInterrupt);
    OneNewest(e, OnCompletion);
    hide RecipeSaid, PauseSaid, RunSaid, ReportSaid, InterruptSaid, OnRecipe, OnPause, OnRun, OnReport, OnCharge, OnInterrupt, OnCompletion,
      Newest;
  }

  lemma StepSays(f: Folded, e: Entry)
    requires Healthy(f) && Legal(f, e)
    ensures WordsOf(FoldStep(f, e)) == Said([e], WordsOf(f))
  {
    OneWord(e, WordsOf(f));
    hide ViewStep, QueueStep, UsageStep, ViewHealthy, QueueHealthy, SystemLeads, CallStep, VolatileStep, ProviderHistory, LegalMessage, FirstIsPlain,
      InjectionMatches, Report, NoTargeted, Extend, Said;
  }

  lemma {:induction false} SuffixSays(f: Folded, entries: seq<Entry>)
    requires Healthy(f) && LawfulFrom(f, entries)
    ensures FoldFrom(f, entries).Some? && WordsOf(FoldFrom(f, entries).value) == Said(entries, WordsOf(f))
    decreases entries
  {
    hide Healthy, Legal, FoldStep, Newest;
    if entries == [] {
      NothingSaid(WordsOf(f));
    } else {
      hide Said, WordsOf;
      LegalKeepsHealthy(f, entries[0]);
      StepSays(f, entries[0]);
      SuffixSays(FoldStep(f, entries[0]), entries[1..]);
      SaidCons(entries[0], entries[1..], WordsOf(f));
      assert entries == [entries[0]] + entries[1..];
    }
  }

  lemma NothingSaid(before: Words)
    requires before.charged ==> before.run.Some?
    ensures Said([], before) == before
  {
  }

  /**
   * Of every lawful journal: compaction recipe, suspension, identity and limits of the open run, its last usage report, whether a child was
   * charged to it, the interrupt it owes and whether it completed are what the newest entry about each says; budget and drain mode are those
   * of the creation.
   */
  lemma JournalSays(entries: seq<Entry>)
    requires LawfulJournal(entries)
    ensures WordsOf(Recovered(entries)) == Said(entries[1..], Silence)
    ensures Recovered(entries).budget == entries[0].budget && Recovered(entries).drainAll == entries[0].drainAll
  {
    var first := CreatedFold(entries[0].budget, entries[0].drainAll);
    assert WordsOf(first) == Silence;
    CreatedHealthy(entries[0].budget, entries[0].drainAll);
    RecoveredHealthy(entries);
    hide Said, Healthy, LawfulFrom, FoldFrom, WordsOf;
    SuffixSays(first, entries[1..]);
    SuffixSettings(first, entries[1..]);
  }

  lemma {:induction false} SuffixSettings(f: Folded, entries: seq<Entry>)
    requires Healthy(f) && LawfulFrom(f, entries)
    ensures FoldFrom(f, entries).Some?
    ensures FoldFrom(f, entries).value.budget == f.budget && FoldFrom(f, entries).value.drainAll == f.drainAll
    decreases entries
  {
    hide Healthy;
    if entries != [] {
      LegalKeepsHealthy(f, entries[0]);
      SettingsStay(f, entries[0]);
      hide FoldStep, Legal;
      SuffixSettings(FoldStep(f, entries[0]), entries[1..]);
    }
  }

  lemma SettingsStay(f: Folded, e: Entry)
    requires Legal(f, e)
    ensures FoldStep(f, e).budget == f.budget && FoldStep(f, e).drainAll == f.drainAll && !Corrupt(f, e)
  {
    hide ViewStep, QueueStep, PhaseStep, UsageStep, RunStep, LegalMessage, InjectionMatches, Report, NoTargeted, FirstIsPlain;
  }
}
