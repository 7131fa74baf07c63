/** The protocol view over one session: its maps and claims, one method per critical section (harness/session/loop_view.go). */
module LoopViews {
  import opened Messages
  import opened Usages
  import opened Dispatches
  import A = Attributions
  import J = Journals
  import S = SessionSteps
  import Batches

  datatype DispatchError = ViewUnavailable | CommandConflict | KeyInFlight | CommandRefused | AcceptanceUnknown | InvalidCommand

  class LoopView {
    var journal: seq<J.Entry>
    var cursor: nat
    var idempotency: map<string, Kept>
    var idempotencyClaims: map<string, nat>
    var runCommands: map<string, string>
    var queueCommands: map<string, string>
    var resolutionCommands: map<nat, string>
    /** Program counters of the dispatchers inside the claim window. */
    ghost var owners: map<nat, Owner>
    var acceptanceFault: bool
    var faulted: bool
    var closed: bool

    ghost function Value(): View
      reads this
    {
      View(journal, cursor, idempotency, idempotencyClaims, owners, acceptanceFault, faulted, closed)
    }

    /** Which command a run, a queued input or a resolution is attributed to. */
    function Names(): A.Names
      reads this
    {
      A.Names(runCommands, queueCommands, resolutionCommands)
    }

    constructor (journal: seq<J.Entry>)
      ensures Names() == A.Nameless
      ensures this.journal == journal && cursor == |journal| && idempotency == map[] && idempotencyClaims == map[] && owners == map[]
      ensures !acceptanceFault && !faulted && !closed
    {
      this.journal, cursor, idempotency, idempotencyClaims, owners := journal, |journal|, map[], map[], map[];
      acceptanceFault, faulted, closed := false, false, false;
      runCommands, queueCommands, resolutionCommands := map[], map[], map[];
    }

    /** restoreCommandAcceptances: one pass over the journal. */
    method RestoreCommandAcceptances() returns (ok: bool)
      requires idempotency == map[] && Names() == A.Nameless
      modifies `idempotency, `runCommands, `queueCommands, `resolutionCommands
      ensures match Restore(journal, |journal|)
        case RestoreFailed => !ok
        case RestoredAs(kept) => ok && idempotency == kept && Names() == A.Restored(journal)
    {
      var lastResolutionSequence := 0;
      for i := 0 to |journal|
        invariant Restore(journal, i) == RestoredAs(idempotency)
        invariant forall key :: key in idempotency ==> idempotency[key].receipt.position <= i
        invariant A.Scanned(journal, i) == A.Scan(Names(), lastResolutionSequence)
      {
        var entry := journal[i];
        if entry.ResolutionAccepted? {
          lastResolutionSequence := i + 1;
        } else if entry.CommandAccepted? {
          if !WellMarked(entry.command) {
            FailureStays(journal, i + 1);
            return false;
          }
          var kept := KeptAt(journal, i);
          if entry.command.key in idempotency {
            FailureStays(journal, i + 1);
            return false;
          }
          idempotency := idempotency[entry.command.key := kept];
          if entry.command.rejection == "" {
            RestoreAttribution(entry.command, lastResolutionSequence);
          }
        }
      }
      ok := true;
    }

    /** What one durable acceptance says of its run, its input or its resolution. */
    method RestoreAttribution(c: J.Command, lastResolutionSequence: nat)
      modifies `runCommands, `queueCommands, `resolutionCommands
      ensures Names() ==
        if c.kind == J.CommandResolve && lastResolutionSequence == 0 then
          A.Attribute(old(Names()), c, 0).(resolutions := old(resolutionCommands))
        else A.Attribute(old(Names()), c, lastResolutionSequence)
    {
      match c.kind
      case CommandStart => runCommands := runCommands[c.runId := c.commandId];
      case CommandResolve =>
        if c.runId !in runCommands {
          runCommands := runCommands[c.runId := c.commandId];
        }
        if lastResolutionSequence != 0 {
          resolutionCommands := resolutionCommands[lastResolutionSequence := c.commandId];
        }
      case CommandInterrupt =>
      case _ => queueCommands := queueCommands[c.queueId := c.commandId];
    }

    /** The callbacks of an accepted start, input or resolution, under the view's lock; `committed` is the stored batch. */
    method AttributeAccepted(c: J.Command, committed: seq<J.Entry>, before: nat)
      requires A.Fits(A.Does(c, false, committed)) || A.Fits(A.Does(c, true, committed))
      modifies `runCommands, `queueCommands, `resolutionCommands
      ensures Names() == A.Attribute(old(Names()), c, before + 1)
    {
      match c.kind
      case CommandStart => runCommands := runCommands[c.runId := c.commandId];
      case CommandInterrupt =>
      case CommandResolve =>
        if c.runId !in runCommands {
          runCommands := runCommands[c.runId := c.commandId];
        }
        for i := 0 to |committed|
          invariant runCommands == if c.runId in old(runCommands) then old(runCommands) else old(runCommands)[c.runId := c.commandId]
          invariant queueCommands == old(queueCommands)
          invariant resolutionCommands == if i == 0 then old(resolutionCommands) else old(resolutionCommands)[before + 1 := c.commandId]
        {
          assert i > 0 ==> committed[i] == committed[1..][i - 1];
          if committed[i].ResolutionAccepted? {
            resolutionCommands := resolutionCommands[before + i + 1 := c.commandId];
          }
        }
      case _ => queueCommands := queueCommands[c.queueId := c.commandId];
    }

    method Availability() returns (ok: bool)
      ensures ok == Available(Value())
    {
      ok := !closed && !acceptanceFault;
    }

    /** One pass of claimIdempotencyKey, under the view's lock. */
    method TryClaim(who: nat, key: string, digest: string) returns (answer: Answer)
      requires Valid(Value()) && Enabled(Value(), Claim(who, key, digest))
      modifies `idempotencyClaims, `owners
      ensures answer == Resolve(old(Value()), key, digest)
      ensures Valid(Value()) && Value() == Next(old(Value()), Claim(who, key, digest))
    {
      hide Valid;
      StepKeeps(Value(), Claim(who, key, digest));
      if key in idempotency {
        var accepted := idempotency[key];
        if accepted.digest != digest {
          return Conflicts;
        }
        return Replayed(accepted.receipt);
      }
      if key in idempotencyClaims {
        return Waits;
      }
      idempotencyClaims := idempotencyClaims[key := who];
      owners := owners[who := Owning(key, digest)];
      answer := Granted;
    }

    /** appendAcceptanceLocked for the owner of a key: the reply of the journal decides, whatever it really did. */
    method AppendAcceptance(who: nat, batch: seq<J.Entry>, outcome: Outcome) returns (ok: bool)
      requires Valid(Value()) && Enabled(Value(), Accept(who, batch, outcome))
      modifies `journal, `cursor, `owners, `acceptanceFault, `faulted
      ensures ok == outcome.Stored?
      ensures Valid(Value()) && Value() == Next(old(Value()), Accept(who, batch, outcome))
    {
      hide Valid;
      StepKeeps(Value(), Accept(who, batch, outcome));
      ok := outcome.Stored?;
      ghost var at := |journal| + |batch| - 1;
      if !outcome.Lost? {
        journal := journal + batch;
      }
      if ok {
        cursor := |journal|;
        owners := owners[who := Accepted(owners[who].key, at)];
      } else {
        acceptanceFault, faulted := true, true;
      }
    }

    /** rememberCommandAcceptance. */
    method RememberCommandAcceptance(ghost who: nat, at: nat) returns (receipt: Receipt)
      requires Valid(Value()) && Enabled(Value(), Remember(who)) && owners[who].at == at
      modifies `idempotency, `owners
      ensures at < |journal| && journal[at].CommandAccepted? && receipt == LiveReceipt(old(Value()), at)
      ensures Valid(Value()) && Value() == Next(old(Value()), Remember(who))
    {
      hide Valid;
      StepKeeps(Value(), Remember(who));
      AcceptedLast(Value(), who);
      var c := journal[at].command;
      receipt := ReceiptAt(journal, at);
      if c.kind == J.CommandInterrupt && c.rejection == "" {
        receipt := receipt.(position := cursor);
      }
      idempotency := idempotency[c.key := Kept(c.digest, receipt)];
      owners := owners[who := Remembered(owners[who].key)];
    }

    /** releaseIdempotencyClaim. */
    method ReleaseClaim(ghost who: nat, key: string)
      requires Valid(Value()) && Enabled(Value(), Release(who)) && owners[who].key == key
      modifies `idempotencyClaims, `owners
      ensures Valid(Value()) && Value() == Next(old(Value()), Release(who))
    {
      hide Valid;
      StepKeeps(Value(), Release(who));
      idempotencyClaims := idempotencyClaims - {key};
      owners := owners - {who};
    }

    /** Appends of the running session and of unkeyed commands. */
    method AppendOther(batch: seq<J.Entry>, outcome: Outcome, acceptance: bool) returns (ok: bool)
      requires Valid(Value()) && Enabled(Value(), Background(batch, outcome, acceptance))
      modifies `journal, `cursor, `acceptanceFault, `faulted
      ensures Valid(Value()) && Value() == Next(old(Value()), Background(batch, outcome, acceptance))
    {
      hide Valid;
      StepKeeps(Value(), Background(batch, outcome, acceptance));
      ok := outcome.Stored?;
      if !outcome.Lost? {
        journal := journal + batch;
      }
      if ok {
        cursor := |journal|;
      } else {
        acceptanceFault, faulted := acceptanceFault || acceptance, true;
      }
    }

    /** The owner's half of a dispatch: append, and on success remember the receipt before anyone else can ask for it. */
    method AcceptAndRemember(who: nat, batch: seq<J.Entry>, outcome: Outcome) returns (ok: bool, receipt: Receipt)
      requires Valid(Value()) && Enabled(Value(), Accept(who, batch, outcome))
      modifies this
      ensures Valid(Value()) && ok == outcome.Stored? && closed == old(closed)
      ensures var key := old(owners[who].key);
        if ok then
          && journal == old(journal) + batch && receipt.commandId == batch[|batch| - 1].command.commandId
          && receipt.rejection == batch[|batch| - 1].command.rejection
          && idempotency == old(idempotency)[key := Kept(old(owners[who].digest), receipt)]
          && owners == old(owners)[who := Remembered(key)] && faulted == old(faulted) && acceptanceFault == old(acceptanceFault)
        else
          && old(journal) <= journal && idempotency == old(idempotency) && owners == old(owners) && faulted && acceptanceFault
    {
      hide Valid, WellMarked;
      receipt := Receipt("", "", "", 0, "");
      ok := AppendAcceptance(who, batch, outcome);
      if ok {
        AcceptedLast(Value(), who);
        assert journal[|journal| - 1] == batch[|batch| - 1];
        receipt := RememberCommandAcceptance(who, |journal| - 1);
      }
    }

    /**
     * Dispatch of one keyed command with nothing else in between. `refused` is the session's own refusal (state, stale run,
     * canceled context): it comes before the append. A success returns the one receipt of the key.
     */
    method Dispatch(who: nat, key: string, digest: string, batch: seq<J.Entry>, refused: bool, outcome: Outcome)
      returns (error: Option<DispatchError>, receipt: Receipt)
      requires Valid(Value()) && who !in owners && key != "" && Marks(batch, key, digest)
      modifies this
      ensures Valid(Value()) && old(journal) <= journal && owners == old(owners)
      ensures old(closed) || old(acceptanceFault) ==> error == Some(ViewUnavailable) && unchanged(this)
      ensures old(faulted) ==> journal == old(journal)
      ensures key in old(idempotency) ==> unchanged(this)
      ensures error.None? ==>
        && key in idempotency && idempotency[key] == Kept(digest, receipt)
        && (key !in old(idempotency) ==>
              && journal == old(journal) + batch && receipt.commandId == batch[|batch| - 1].command.commandId
              && receipt.rejection == batch[|batch| - 1].command.rejection)
      ensures error == Some(CommandConflict) <==> old(Available(Value())) && key in old(idempotency) && old(idempotency[key].digest) != digest
      ensures error == Some(AcceptanceUnknown) ==> acceptanceFault && !Available(Value())
    {
      hide Valid, Marks, Known;
      receipt := Receipt("", "", "", 0, "");
      var ok := Availability();
      if !ok {
        return Some(ViewUnavailable), receipt;
      }
      var answer := TryClaim(who, key, digest);
      match answer
      case Replayed(recorded) => return None, recorded;
      case Conflicts => return Some(CommandConflict), receipt;
      case Waits => return Some(KeyInFlight), receipt;
      case Granted =>
      if refused || faulted {
        ReleaseClaim(who, key);
        return Some(CommandRefused), receipt;
      }
      ok, receipt := AcceptAndRemember(who, batch, outcome);
      ReleaseClaim(who, key);
      error := if ok then None else Some(AcceptanceUnknown);
    }

    /** Acceptance: a pure lookup; it never claims and never appends. */
    method Acceptance(key: string, digest: string, commandId: string) returns (error: Option<DispatchError>, found: Option<Receipt>)
      requires Valid(Value())
      ensures error.None? && found.None? ==> key == "" || key !in idempotency
      ensures error.None? && found.Some? ==>
        key in idempotency && idempotency[key] == Kept(digest, found.value) && (commandId != "" ==> found.value.commandId == commandId)
      ensures error == Some(CommandConflict) <==>
        Available(Value()) && key != "" && key in idempotency
        && (idempotency[key].digest != digest || (commandId != "" && idempotency[key].receipt.commandId != commandId))
      ensures Available(Value()) && key != "" && error.None? && found.None? && !Known(Value(), key) ==> !Holds(journal, key)
    {
      found := None;
      if key == "" {
        return Some(InvalidCommand), None;
      }
      var ok := Availability();
      if !ok {
        return Some(ViewUnavailable), None;
      }
      if key !in idempotency {
        return None, None;
      }
      var accepted := idempotency[key];
      if accepted.digest != digest || (commandId != "" && accepted.receipt.commandId != commandId) {
        return Some(CommandConflict), None;
      }
      return None, Some(accepted.receipt);
    }

    /** Reject: a terminal refusal under the same claim and the same journal; a key that was accepted keeps its receipt. */
    method Reject(who: nat, command: J.Command, outcome: Outcome) returns (error: Option<DispatchError>, receipt: Receipt)
      requires Valid(Value()) && who !in owners
      requires WellMarked(command) && command.rejection != ""
      modifies this
      ensures Valid(Value()) && old(journal) <= journal
      ensures error.None? ==>
        receipt.commandId == command.commandId && command.key in idempotency && idempotency[command.key] == Kept(command.digest, receipt)
      ensures old(Available(Value())) && command.key in old(idempotency) ==> unchanged(this)
      ensures error.None? && command.key !in old(idempotency) ==>
        journal == old(journal) + [J.CommandAccepted(command)] && receipt.rejection == command.rejection
    {
      hide Valid;
      var batch := [J.CommandAccepted(command)];
      error, receipt := Dispatch(who, command.key, command.digest, batch, false, outcome);
      if error.None? && receipt.commandId != command.commandId {
        error := Some(CommandConflict);
      }
    }

    method Shut()
      requires Valid(Value()) && Enabled(Value(), Close)
      modifies `closed
      ensures Valid(Value()) && Value() == Next(old(Value()), Close)
    {
      StepKeeps(Value(), Close);
      closed := true;
    }
  }

  /** The owner whose acceptance was just stored finds it at the end of the journal. */
  lemma AcceptedLast(v: View, who: nat)
    requires Valid(v) && who in v.owners && v.owners[who].Accepted?
    ensures v.owners[who].at < |v.journal| && v.journal[v.owners[who].at].CommandAccepted?
    ensures v.journal[v.owners[who].at].command.key == v.owners[who].key
  {
    hide Backed, WellMarked;
  }

  lemma {:induction false} FailureStays(journal: seq<J.Entry>, n: nat)
    requires n <= |journal| && Restore(journal, n).RestoreFailed?
    ensures Restore(journal, |journal|).RestoreFailed?
    decreases |journal| - n
  {
    if n < |journal| {
      FailureStays(journal, n + 1);
    }
  }

  /** NewLoopView on whatever any run left behind: restoring always succeeds, and the new view is valid. */
  method Reopened(left: View) returns (view: LoopView)
    requires Valid(left)
    ensures fresh(view) && Valid(view.Value()) && Enabled(left, Reopen) && view.Value() == Next(left, Reopen)
    ensures view.Names() == A.Restored(left.journal)
  {
    hide Valid;
    ValidRestores(left);
    StepKeeps(left, Reopen);
    view := new LoopView(left.journal);
    var ok := view.RestoreCommandAcceptances();
    assert ok;
  }

  lemma ValidRestores(v: View)
    requires Valid(v)
    ensures Restore(v.journal, |v.journal|).RestoredAs?
  {
    RestoreExactly(v.journal);
  }

  // ---------------------------------------------------------------------
  // The session's acceptance batches.

  lemma {:induction false} NextTurnUnmarked(entries: seq<J.QueueEntry>)
    ensures Unmarked(Batches.NextTurnBatch(entries)) && A.NoResolution(Batches.NextTurnBatch(entries))
    decreases entries
  {
    if entries != [] {
      NextTurnUnmarked(entries[1..]);
    }
  }

  lemma {:induction false} MessagesUnmarked(messages: Transcript, source: J.Source)
    ensures Unmarked(S.MessageBatch(messages, source)) && A.NoResolution(S.MessageBatch(messages, source))
    decreases messages
  {
    if messages != [] {
      MessagesUnmarked(messages[1..], source);
    }
  }

  lemma TailMarks(batch: seq<J.Entry>, c: J.Command)
    requires Unmarked(batch) && WellMarked(c)
    ensures Marks(batch + S.CommandTail(Some(c)), c.key, c.digest)
  {
  }

  /** Every keyed acceptance of the session is one atomic batch that carries its marker last: start, queue input, resolution, resolution of
      an indeterminate frontier, and the marker alone for an interrupt and a rejection. */
  lemma SessionBatchesMark(c: J.Command, entry: J.QueueEntry, id: string, limits: Option<Limits>, instructions: string, next: seq<J.QueueEntry>,
                           prompt: Message, closing: string, added: Transcript, resume: Option<Message>)
    requires WellMarked(c)
    ensures Marks(S.StartBatch(id, limits, instructions, next, prompt, Some(c)), c.key, c.digest)
    ensures Marks(S.AcceptBatch(entry, Some(c)), c.key, c.digest)
    ensures Marks(S.ResumeBatch(id, Some(c)), c.key, c.digest)
    ensures Marks(S.ResolveBatch(closing, id, added, resume, id, limits, instructions, Some(c)), c.key, c.digest)
    ensures Marks(S.CommandTail(Some(c)), c.key, c.digest)
  {
    NextTurnUnmarked(next);
    MessagesUnmarked(added, J.FromRecoveryResolution);
    TailMarks([J.RunOpened(id, J.DriveStart, limits, instructions)] + Batches.NextTurnBatch(next) + [J.MessageEntry(prompt, J.FromPrompt, "")], c);
    TailMarks([J.QueueAccepted(entry)], c);
    TailMarks([J.ResolutionAccepted(id)], c);
    TailMarks([J.ResolutionAccepted(id)] + [J.RunClosed(closing, J.ExecutionInterrupted)] + S.MessageBatch(added, J.FromRecoveryResolution)
              + S.PromptTail(resume) + [J.RunOpened(id, J.DriveContinue, limits, instructions)], c);
    TailMarks([], c);
  }

  /** The same batches carry a resolution's entry first, and no other does: what attribution is restored from. */
  lemma SessionBatchesFit(c: J.Command, entry: J.QueueEntry, id: string, limits: Option<Limits>, instructions: string, next: seq<J.QueueEntry>,
                          prompt: Message, closing: string, added: Transcript, resume: Option<Message>, keyed: bool)
    requires c.rejection == ""
    ensures var tail := if keyed then Some(c) else None;
      match c.kind
      case CommandStart => A.Fits(A.Does(c, keyed, S.StartBatch(id, limits, instructions, next, prompt, tail)))
      case CommandResolve =>
        && A.Fits(A.Does(c, keyed, S.ResumeBatch(id, tail)))
        && A.Fits(A.Does(c, keyed, S.ResolveBatch(closing, id, added, resume, id, limits, instructions, tail)))
      case CommandInterrupt => A.Fits(A.Does(c, keyed, S.CommandTail(tail)))
      case _ => A.Fits(A.Does(c, keyed, S.AcceptBatch(entry, tail)))
  {
    hide A.Fits, S.StartBatch, S.AcceptBatch, S.ResumeBatch, S.ResolveBatch, S.CommandTail;
    RunsFit(c, entry, id, limits, instructions, next, prompt, keyed);
    ResolutionsFit(c, id, limits, instructions, closing, added, resume, keyed);
  }

  lemma RunsFit(c: J.Command, entry: J.QueueEntry, id: string, limits: Option<Limits>, instructions: string, next: seq<J.QueueEntry>,
                prompt: Message, keyed: bool)
    requires c.rejection == ""
    ensures var tail := if keyed then Some(c) else None;
      c.kind != J.CommandResolve ==>
        && A.Fits(A.Does(c, keyed, S.StartBatch(id, limits, instructions, next, prompt, tail)))
        && A.Fits(A.Does(c, keyed, S.AcceptBatch(entry, tail))) && A.Fits(A.Does(c, keyed, S.CommandTail(tail)))
  {
    hide A.Fits;
    NextTurnUnmarked(next);
    TailFits([J.RunOpened(id, J.DriveStart, limits, instructions)] + Batches.NextTurnBatch(next) + [J.MessageEntry(prompt, J.FromPrompt, "")], c, keyed);
    TailFits([J.QueueAccepted(entry)], c, keyed);
    TailFits([], c, keyed);
    assert [] + S.CommandTail(if keyed then Some(c) else None) == S.CommandTail(if keyed then Some(c) else None);
  }

  lemma ResolutionsFit(c: J.Command, id: string, limits: Option<Limits>, instructions: string, closing: string, added: Transcript,
                       resume: Option<Message>, keyed: bool)
    requires c.rejection == ""
    ensures var tail := if keyed then Some(c) else None;
      c.kind == J.CommandResolve ==>
        && A.Fits(A.Does(c, keyed, S.ResumeBatch(id, tail)))
        && A.Fits(A.Does(c, keyed, S.ResolveBatch(closing, id, added, resume, id, limits, instructions, tail)))
  {
    hide A.Fits;
    MessagesUnmarked(added, J.FromRecoveryResolution);
    var rest := [J.RunClosed(closing, J.ExecutionInterrupted)] + S.MessageBatch(added, J.FromRecoveryResolution) + S.PromptTail(resume)
                + [J.RunOpened(id, J.DriveContinue, limits, instructions)];
    ResolutionFits(id, [], c, keyed);
    ResolutionFits(id, rest, c, keyed);
    var tail := if keyed then Some(c) else None;
    assert [J.ResolutionAccepted(id)] + [] + S.CommandTail(tail) == S.ResumeBatch(id, tail);
    assert [J.ResolutionAccepted(id)] + rest + S.CommandTail(tail) == S.ResolveBatch(closing, id, added, resume, id, limits, instructions, tail);
  }

  lemma TailFits(batch: seq<J.Entry>, c: J.Command, keyed: bool)
    requires Unmarked(batch) && A.NoResolution(batch) && c.rejection == ""
    ensures c.kind != J.CommandResolve ==> A.Fits(A.Does(c, keyed, batch + S.CommandTail(if keyed then Some(c) else None)))
  {
    var all := batch + S.CommandTail(if keyed then Some(c) else None);
    assert keyed ==> all[..|all| - 1] == batch;
    assert !keyed ==> all == batch;
  }

  lemma ResolutionFits(id: string, rest: seq<J.Entry>, c: J.Command, keyed: bool)
    requires Unmarked(rest) && A.NoResolution(rest) && c.rejection == ""
    ensures c.kind == J.CommandResolve ==>
      A.Fits(A.Does(c, keyed, [J.ResolutionAccepted(id)] + rest + S.CommandTail(if keyed then Some(c) else None)))
  {
    var tail := S.CommandTail(if keyed then Some(c) else None);
    var all := [J.ResolutionAccepted(id)] + rest + tail;
    assert all[1..] == rest + tail;
    assert keyed ==> all[..|all| - 1] == [J.ResolutionAccepted(id)] + rest;
    assert !keyed ==> all == [J.ResolutionAccepted(id)] + rest;
  }
}
