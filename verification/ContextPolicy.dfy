/** Provider views and compaction recipes over an append-only transcript (harness/contextpolicy/contextpolicy.go). */
module ContextPolicy {
  import opened Messages
  import opened Pairing

  /** `prefixHash` is an arbitrary function of the prefix: nothing below needs it to be injective. */
  type PrefixHash = Transcript -> string

  datatype Compaction = Compaction(version: int, start: int, cut: int, prefixHash: string, summary: Message)

  function Apply(hash: PrefixHash, messages: Transcript, c: Compaction): Option<Transcript> {
    if c.version != 1 || c.start < 0 || c.cut <= c.start || c.cut > |messages| || c.summary.role != RoleUser then None
    else if hash(messages[c.start..c.cut]) != c.prefixHash then None
    else Some(messages[..c.start] + [c.summary] + messages[c.cut..])
  }

  /** A context addition: a non-empty user message of text parts. */
  predicate ContextAddition(message: Message) {
    && message.role == RoleUser
    && message.content != []
    && forall i :: 0 <= i < |message.content| ==> message.content[i].Text?
  }

  predicate ContextTail(messages: Transcript) {
    forall i :: 0 <= i < |messages| ==> ContextAddition(messages[i])
  }

  // ---------------------------------------------------------------------
  // The compactor's own pairing scan: only the set of outstanding call IDs.

  function OpenAll(open: set<string>, uses: seq<ToolUse>): Option<set<string>>
    decreases uses
  {
    if uses == [] then Some(open)
    else if uses[0].id == "" || uses[0].id in open then None
    else OpenAll(open + {uses[0].id}, uses[1..])
  }

  function CloseAll(open: set<string>, results: seq<ToolResult>): Option<set<string>>
    decreases results
  {
    if results == [] then Some(open)
    else if results[0].toolUseId !in open then None
    else CloseAll(open - {results[0].toolUseId}, results[1..])
  }

  function Scan(open: set<string>, message: Message): Option<set<string>> {
    var uses := GetToolUses(message);
    if uses != [] && open != {} then None
    else
      match OpenAll(open, uses)
      case None => None
      case Some(all) => CloseAll(all, GetToolResults(message))
  }

  function ScanAll(open: set<string>, messages: Transcript): Option<set<string>>
    decreases messages
  {
    if messages == [] then Some(open)
    else
      match Scan(open, messages[0])
      case None => None
      case Some(next) => ScanAll(next, messages[1..])
  }

  lemma {:induction false} ScanConcat(open: set<string>, left: Transcript, right: Transcript)
    ensures ScanAll(open, left + right) == (match ScanAll(open, left) case None => None case Some(o) => ScanAll(o, right))
    decreases left
  {
    if left == [] {
      assert left + right == right;
    } else {
      assert (left + right)[0] == left[0] && (left + right)[1..] == left[1..] + right;
      match Scan(open, left[0])
      case None =>
      case Some(next) => ScanConcat(next, left[1..], right);
    }
  }

  /** No call is outstanding after the first `boundary` messages. */
  predicate ScanBoundary(messages: Transcript, boundary: nat) {
    boundary <= |messages| && ScanAll({}, messages[..boundary]) == Some({})
  }

  datatype CutResult = NoCut | CutAt(start: nat, cut: nat) | Invalid

  function CutStart(messages: Transcript): nat {
    if |messages| > 0 && messages[0].role == RoleSystem then 1 else 0
  }

  /** The system message of a transcript that has one. */
  function LeadingSystem(messages: Transcript): Transcript {
    if messages != [] && messages[0].role == RoleSystem then [messages[0]] else []
  }

  predicate Candidate(messages: Transcript, recent: int, boundary: nat) {
    CutStart(messages) < boundary <= |messages| - recent && ScanBoundary(messages, boundary)
  }

  /** The two inner loops over one message. */
  method ScanMessage(before: set<string>, message: Message) returns (r: Option<set<string>>)
    ensures r == Scan(before, message)
  {
    hide GetToolUses, GetToolResults;
    var open := before;
    var uses, results := GetToolUses(message), GetToolResults(message);
    if |uses| > 0 && open != {} {
      return None;
    }
    for i := 0 to |uses|
      invariant OpenAll(before, uses) == OpenAll(open, uses[i..])
    {
      assert uses[i..][1..] == uses[i + 1..];
      if uses[i].id == "" || uses[i].id in open {
        return None;
      }
      open := open + {uses[i].id};
    }
    ghost var widened := open;
    for i := 0 to |results|
      invariant CloseAll(widened, results) == CloseAll(open, results[i..])
    {
      assert results[i..][1..] == results[i + 1..];
      if results[i].toolUseId !in open {
        return None;
      }
      open := open - {results[i].toolUseId};
    }
    return Some(open);
  }

  lemma ScanSnoc(messages: Transcript, last: Message)
    ensures ScanAll({}, messages + [last]) == (match ScanAll({}, messages) case None => None case Some(o) => Scan(o, last))
  {
    ScanConcat({}, messages, [last]);
    match ScanAll({}, messages)
    case None =>
    case Some(o) =>
      match Scan(o, last)
      case None =>
      case Some(p) => assert [last][1..] == [];
  }

  lemma ScanPrefixFails(messages: Transcript, boundary: nat)
    requires boundary <= |messages| && ScanAll({}, messages[..boundary]).None?
    ensures ScanAll({}, messages).None?
  {
    assert messages == messages[..boundary] + messages[boundary..];
    ScanConcat({}, messages[..boundary], messages[boundary..]);
  }

  method CompactionCut(messages: Transcript, recent: nat) returns (r: CutResult)
    ensures r.Invalid? <==> CutStart(messages) < |messages| - recent && ScanAll({}, messages).None?
    ensures r.CutAt? ==> r.start == CutStart(messages) && Candidate(messages, recent, r.cut)
    ensures r.CutAt? ==> forall b: nat :: Candidate(messages, recent, b) ==> b <= r.cut
    // A leading system message stays in front of what is replaced, and nothing else does.
    ensures r.CutAt? ==> r.start < r.cut <= |messages| && messages[..r.start] == LeadingSystem(messages)
    ensures r.NoCut? ==> forall b: nat :: !Candidate(messages, recent, b)
  {
    var start := 0;
    if |messages| > 0 && messages[0].role == RoleSystem {
      start := 1;
    }
    var maxCut := |messages| - recent;
    if maxCut <= start {
      return NoCut;
    }
    var open: set<string> := {};
    var best := -1;
    for index := 0 to |messages|
      invariant ScanAll({}, messages[..index]) == Some(open)
      invariant best == -1 || (0 <= best && Candidate(messages, recent, best))
      invariant forall b: nat :: b <= index && Candidate(messages, recent, b) ==> b <= best
    {
      ScanSnoc(messages[..index], messages[index]);
      assert messages[..index + 1] == messages[..index] + [messages[index]];
      var next := ScanMessage(open, messages[index]);
      if next.None? {
        ScanPrefixFails(messages, index + 1);
        return Invalid;
      }
      open := next.value;
      var boundary := index + 1;
      if boundary > start && boundary <= maxCut && open == {} {
        best := boundary;
      }
    }
    assert messages[..|messages|] == messages;
    if best < 0 {
      return NoCut;
    }
    return CutAt(start, best);
  }

  // ---------------------------------------------------------------------
  // The scan agrees with the root checker on every accepted transcript.

  function Outstanding(f: Frontier): set<string> {
    Ids(f.calls) - f.resolved
  }

  lemma {:induction false} OpenAllDistinct(open: set<string>, uses: seq<ToolUse>)
    requires DistinctIds(uses) && open !! Ids(uses)
    ensures OpenAll(open, uses) == Some(open + Ids(uses))
    decreases uses
  {
    if uses == [] {
      assert open + Ids(uses) == open;
    } else {
      var tail := uses[1..];
      assert Ids(uses) == {uses[0].id} + Ids(tail) by { assert uses == [uses[0]] + tail; }
      forall i | 0 <= i < |tail| ensures tail[i].id != uses[0].id { assert tail[i] == uses[i + 1]; }
      OpenAllDistinct(open + {uses[0].id}, tail);
      assert open + {uses[0].id} + Ids(tail) == open + Ids(uses);
    }
  }

  lemma {:induction false} CloseAllResolved(index: map<string, ToolUse>, resolved: set<string>, results: seq<ToolResult>)
    requires ResolveResults(index, resolved, results).Some?
    ensures CloseAll(index.Keys - resolved, results) == Some(index.Keys - ResolveResults(index, resolved, results).value)
    decreases results
  {
    if results != [] {
      var id := results[0].toolUseId;
      assert index.Keys - resolved - {id} == index.Keys - (resolved + {id});
      CloseAllResolved(index, resolved + {id}, results[1..]);
    }
  }

  lemma ScanAgrees(f: Frontier, message: Message)
    requires WellFormed(f) && Advance(f, message).Some?
    ensures Scan(Outstanding(f), message) == Some(Outstanding(Advance(f, message).value))
  {
    var current := OpenCalls(f, message).value;
    var uses := GetToolUses(message);
    if uses != [] {
      OpenAllDistinct({}, uses);
      assert Outstanding(f) == {} && {} + Ids(uses) == Outstanding(current);
    }
    assert OpenAll(Outstanding(f), uses) == Some(Outstanding(current));
    if GetToolResults(message) != [] {
      CloseAllResolved(IndexById(current.calls), current.resolved, GetToolResults(message));
      var after := Frontier(current.calls, ResolveResults(IndexById(current.calls), current.resolved, GetToolResults(message)).value);
      if Complete(after) {
        assert Outstanding(after) == {} == Outstanding(Closed);
      }
    }
  }

  lemma {:induction false} ScanAllAgrees(f: Frontier, messages: Transcript)
    requires WellFormed(f) && Run(f, messages).Some?
    ensures ScanAll(Outstanding(f), messages) == Some(Outstanding(Run(f, messages).value))
    decreases messages
  {
    if messages != [] {
      ScanAgrees(f, messages[0]);
      AdvanceKeepsShape(f, messages[0]);
      ScanAllAgrees(Advance(f, messages[0]).value, messages[1..]);
    }
  }

  lemma OutstandingEmpty(f: Frontier)
    requires WellFormed(f)
    ensures Outstanding(f) == {} <==> f == Closed
  {
    if Outstanding(f) == {} && f.calls != [] {
      forall i | 0 <= i < |f.calls| ensures f.calls[i].id in f.resolved {
        assert f.calls[i].id in Ids(f.calls) && f.calls[i].id !in Outstanding(f);
      }
      assert Complete(f);
    }
  }

  /** On accepted transcripts the scan never fails, and its boundaries are exactly the closed prefixes. */
  lemma BoundariesAreClosedPrefixes(messages: Transcript, boundary: nat)
    requires Accepted(messages) && boundary <= |messages|
    ensures ScanAll({}, messages).Some?
    ensures ScanBoundary(messages, boundary) <==> FullyPaired(messages[..boundary])
  {
    assert Outstanding(Closed) == {};
    ScanAllAgrees(Closed, messages);
    assert messages == messages[..boundary] + messages[boundary..];
    PrefixAccepted(messages[..boundary], messages[boundary..]);
    ScanAllAgrees(Closed, messages[..boundary]);
    RunKeepsShape(Closed, messages[..boundary]);
    OutstandingEmpty(FrontierOf(messages[..boundary]));
  }

  // ---------------------------------------------------------------------
  // Applying a recipe.

  lemma {:induction false} TextOnlyIsInert(content: seq<Part>)
    requires forall i :: 0 <= i < |content| ==> content[i].Text?
    ensures PartUses(content) == [] && PartResults(content) == []
    decreases content
  {
    if content != [] {
      TextOnlyIsInert(content[1..]);
    }
  }

  lemma SpliceKeepsFrontier(head: Transcript, middle: Transcript, tail: Transcript, summary: Message)
    requires Inert(summary) && FullyPaired(head) && FullyPaired(middle)
    ensures Run(Closed, head + [summary] + tail) == Run(Closed, middle + tail)
  {
    InertStaysClosed(summary);
    RunSnoc(Closed, head, summary);
    RunConcat(Closed, head + [summary], tail);
    RunConcat(Closed, middle, tail);
  }

  /** Replacing the messages between two closed boundaries by one inert message leaves the pairing state alone. */
  lemma ReplacementKeepsFrontier(messages: Transcript, start: nat, cut: nat, summary: Message)
    requires start <= cut <= |messages| && Inert(summary)
    requires FullyPaired(messages[..start]) && FullyPaired(messages[..cut])
    ensures Run(Closed, messages[..start] + [summary] + messages[cut..]) == Run(Closed, messages)
  {
    SpliceKeepsFrontier(messages[..start], messages[..cut], messages[cut..], summary);
    assert messages == messages[..cut] + messages[cut..];
  }

  lemma StartIsClosed(messages: Transcript)
    requires Accepted(messages)
    ensures CutStart(messages) <= |messages| && FullyPaired(messages[..CutStart(messages)])
  {
    if CutStart(messages) == 1 {
      assert messages[..1] == [messages[0]] && [messages[0]][1..] == [];
      assert Run(Closed, messages).Some?;
      assert Advance(Closed, messages[0]).Some?;
    } else {
      assert messages[..0] == [];
    }
  }

  /** A recipe that still matches this transcript and cuts it only at closed boundaries. */
  predicate Honest(hash: PrefixHash, messages: Transcript, c: Compaction) {
    && Apply(hash, messages, c).Some?
    && ContextAddition(c.summary)
    && FullyPaired(messages[..c.start]) && FullyPaired(messages[..c.cut])
  }

  /** An honest recipe yields a view with the same open frontier. */
  lemma HonestKeepsFrontier(hash: PrefixHash, messages: Transcript, c: Compaction)
    requires Honest(hash, messages, c)
    ensures Run(Closed, Apply(hash, messages, c).value) == Run(Closed, messages)
  {
    TextOnlyIsInert(c.summary.content);
    ReplacementKeepsFrontier(messages, c.start, c.cut, c.summary);
  }

  /** A recipe commutes with later appends, so it stays applicable and honest on the append-only view. */
  lemma ApplyCommutesWithAppend(hash: PrefixHash, messages: Transcript, later: Transcript, c: Compaction)
    requires Apply(hash, messages, c).Some?
    ensures Apply(hash, messages + later, c) == Some(Apply(hash, messages, c).value + later)
    ensures Honest(hash, messages, c) ==> Honest(hash, messages + later, c)
  {
    var all := messages + later;
    assert all[c.start..c.cut] == messages[c.start..c.cut];
    assert all[..c.start] == messages[..c.start] && all[..c.cut] == messages[..c.cut];
    assert all[c.cut..] == messages[c.cut..] + later;
    assert messages[..c.start] + [c.summary] + messages[c.cut..] + later
        == messages[..c.start] + [c.summary] + (messages[c.cut..] + later);
  }

  /** The recipe built from the chosen cut is honest. */
  lemma CutIsHonest(hash: PrefixHash, messages: Transcript, recent: nat, cut: nat, summary: Message)
    requires Accepted(messages) && Candidate(messages, recent, cut) && ContextAddition(summary)
    ensures var start := CutStart(messages);
            Honest(hash, messages, Compaction(1, start, cut, hash(messages[start..cut]), summary))
  {
    StartIsClosed(messages);
    BoundariesAreClosedPrefixes(messages, cut);
  }

  // ---------------------------------------------------------------------
  // The projector.

  /** What one transform leaves behind: an error, a cleared partition, or both partitions. */
  datatype TransformOutcome = TransformFailed | PartitionCleared | Transformed(durable: Transcript, ephemeral: Transcript)

  type Transform = (Transcript, Transcript) -> TransformOutcome

  datatype Config = Config(window: nat, triggerPercent: nat, targetPercent: nat, recent: nat)

  datatype ProjectError = TransformError | InvalidTransform | CompactionInvalid | WindowExceeded | EstimateError | SummaryError

  datatype ProjectResult =
    | Failed(error: ProjectError)
    | Projected(messages: Transcript, additions: Transcript, ephemeral: Transcript, compaction: Option<Compaction>, changed: bool)

  /** `estimate` is None when encoding or counting fails. */
  type Estimate = Transcript -> Option<nat>

  type Summarize = Transcript -> Option<Message>

  function Threshold(window: nat, percent: nat): nat {
    window * percent / 100
  }

  /** The view a projection stands for, before its recipe is applied. */
  function FullView(request: Transcript, r: ProjectResult): Transcript
    requires r.Projected?
  {
    request + r.additions + r.ephemeral
  }

  /** The provider view is the full view with the returned recipe applied, if there is one. */
  predicate ViewIsRecipe(hash: PrefixHash, request: Transcript, r: ProjectResult)
    requires r.Projected?
  {
    match r.compaction
    case None => r.messages == FullView(request, r)
    case Some(c) => Apply(hash, FullView(request, r), c) == Some(r.messages)
  }

  method RunTransforms(request: Transcript, transforms: seq<Transform>)
      returns (error: Option<ProjectError>, additions: Transcript, ephemeral: Transcript)
    ensures error.None? ==> ContextTail(additions) && ContextTail(ephemeral)
    ensures transforms == [] ==> error.None? && additions == [] && ephemeral == []
  {
    var durable := request;
    additions, ephemeral := [], [];
    for i := 0 to |transforms|
      invariant durable == request + additions
      invariant ContextTail(additions) && ContextTail(ephemeral)
      invariant i == 0 ==> additions == [] && ephemeral == []
    {
      var outcome := transforms[i](durable, ephemeral);
      if outcome.TransformFailed? {
        return Some(TransformError), additions, ephemeral;
      }
      if outcome.PartitionCleared? {
        return Some(InvalidTransform), additions, ephemeral;
      }
      if |outcome.durable| < |durable| || outcome.durable[..|durable|] != durable {
        return Some(InvalidTransform), additions, ephemeral;
      }
      var tail := outcome.durable[|durable|..];
      if !ContextTail(tail) || !ContextTail(outcome.ephemeral) {
        return Some(InvalidTransform), additions, ephemeral;
      }
      assert outcome.durable == request + (additions + tail);
      durable, additions, ephemeral := outcome.durable, additions + tail, outcome.ephemeral;
    }
    return None, additions, ephemeral;
  }

  method Project(hash: PrefixHash, config: Config, transforms: seq<Transform>, compactor: Option<Summarize>,
                 estimate: Estimate, request: Transcript, current: Option<Compaction>)
      returns (r: ProjectResult)
    ensures r.Projected? ==> ContextTail(r.additions) && ContextTail(r.ephemeral)
    ensures r.Projected? ==> ViewIsRecipe(hash, request, r)
    ensures r.Projected? ==> (r.changed <==> r.compaction != current)
    // A recipe is replaced only by the largest closed cut, and the result is within the target.
    ensures r.Projected? && r.changed ==>
      && compactor.Some? && r.compaction.Some?
      && Candidate(request + r.additions, config.recent, r.compaction.value.cut)
      && (forall b: nat :: Candidate(request + r.additions, config.recent, b) ==> b <= r.compaction.value.cut)
      && estimate(r.messages).Some? && estimate(r.messages).value <= Threshold(config.window, config.targetPercent)
    // A new recipe keeps the system message, puts the summary of what it replaces right behind it, and keeps everything after the cut.
    ensures r.Projected? && r.changed && compactor.Some? && r.compaction.Some? ==>
      Summarizes(compactor.value, request + r.additions, r.ephemeral, r.compaction.value, r.messages)
    // With a compactor, an untouched recipe means the view was below the trigger or is already at the target.
    ensures r.Projected? && !r.changed && compactor.Some? && config.window > 0 ==>
      && estimate(r.messages).Some?
      && (|| estimate(r.messages).value < Threshold(config.window, config.triggerPercent)
          || estimate(r.messages).value <= Threshold(config.window, config.targetPercent))
    // Honest recipes stay honest, and a paired transcript yields a paired view.
    ensures r.Projected? && FullyPaired(request) && (current.Some? ==> Honest(hash, request, current.value)) ==>
      && FullyPaired(r.messages)
      && (r.compaction.Some? ==> Honest(hash, request + r.additions, r.compaction.value))
  {
    hide LeadingSystem, Summarizes;
    var error, additions, ephemeral := RunTransforms(request, transforms);
    if error.Some? {
      return Failed(error.value);
    }
    var durable := request + additions;
    var view := durable + ephemeral;
    if current.Some? {
      var compacted := Apply(hash, view, current.value);
      if compacted.None? {
        return Failed(CompactionInvalid);
      }
      view := compacted.value;
    }
    CurrentViewPaired(hash, request, additions, ephemeral, current);
    if compactor.None? || config.window == 0 {
      return Projected(view, additions, ephemeral, current, false);
    }
    var size := estimate(view);
    if size.None? {
      return Failed(EstimateError);
    }
    if size.value < Threshold(config.window, config.triggerPercent) {
      return Projected(view, additions, ephemeral, current, false);
    }
    var cut := CompactionCut(durable, config.recent);
    if cut.Invalid? {
      return Failed(CompactionInvalid);
    }
    if cut.NoCut? {
      return Failed(WindowExceeded);
    }
    var summary := compactor.value(durable[cut.start..cut.cut]);
    if summary.None? {
      return Failed(SummaryError);
    }
    if !ContextAddition(summary.value) {
      return Failed(CompactionInvalid);
    }
    var next := Compaction(1, cut.start, cut.cut, hash(durable[cut.start..cut.cut]), summary.value);
    ApplyCommutesWithAppend(hash, durable, ephemeral, next);
    var compacted := Apply(hash, durable + ephemeral, next);
    NextViewPaired(hash, request, additions, ephemeral, config.recent, next);
    NextSummarizes(hash, compactor.value, durable, ephemeral, next);
    var after := estimate(compacted.value);
    if after.None? {
      return Failed(EstimateError);
    }
    if after.value > Threshold(config.window, config.targetPercent) {
      return Failed(WindowExceeded);
    }
    return Projected(compacted.value, additions, ephemeral, Some(next), current != Some(next));
  }

  /** The view is the system message, if there is one, the summary of what stood between it and the cut, and everything behind the cut. */
  predicate Summarizes(compactor: Summarize, durable: Transcript, ephemeral: Transcript, c: Compaction, view: Transcript) {
    && 0 <= c.start < c.cut <= |durable| && durable[..c.start] == LeadingSystem(durable)
    && compactor(durable[c.start..c.cut]) == Some(c.summary)
    && view == LeadingSystem(durable) + [c.summary] + durable[c.cut..] + ephemeral
  }

  lemma NextSummarizes(hash: PrefixHash, compactor: Summarize, durable: Transcript, ephemeral: Transcript, c: Compaction)
    requires 0 <= c.start < c.cut <= |durable| && durable[..c.start] == LeadingSystem(durable)
    requires compactor(durable[c.start..c.cut]) == Some(c.summary) && Apply(hash, durable + ephemeral, c).Some?
    ensures Summarizes(compactor, durable, ephemeral, c, Apply(hash, durable + ephemeral, c).value)
  {
    var all := durable + ephemeral;
    assert all[c.cut..] == durable[c.cut..] + ephemeral && all[..c.start] == durable[..c.start];
    assert durable[..c.start] + [c.summary] + (durable[c.cut..] + ephemeral) == durable[..c.start] + [c.summary] + durable[c.cut..] + ephemeral;
  }

  lemma CurrentViewPaired(hash: PrefixHash, request: Transcript, additions: Transcript, ephemeral: Transcript,
                          current: Option<Compaction>)
    requires ContextTail(additions) && ContextTail(ephemeral)
    ensures FullyPaired(request) ==> FullyPaired(request + additions) && FullyPaired(request + additions + ephemeral)
    ensures FullyPaired(request) && current.Some? && Honest(hash, request, current.value) ==>
      && Honest(hash, request + additions, current.value)
      && Apply(hash, request + additions + ephemeral, current.value).Some?
      && FullyPaired(Apply(hash, request + additions + ephemeral, current.value).value)
  {
    if FullyPaired(request) {
      TailKeepsFrontier(request, additions);
      TailKeepsFrontier(request + additions, ephemeral);
      if current.Some? && Honest(hash, request, current.value) {
        ApplyCommutesWithAppend(hash, request, additions, current.value);
        ApplyCommutesWithAppend(hash, request + additions, ephemeral, current.value);
        HonestKeepsFrontier(hash, request + additions + ephemeral, current.value);
      }
    }
  }

  lemma NextViewPaired(hash: PrefixHash, request: Transcript, additions: Transcript, ephemeral: Transcript,
                       recent: nat, next: Compaction)
    requires ContextTail(additions) && ContextTail(ephemeral) && ContextAddition(next.summary)
    requires var durable := request + additions;
      && 0 <= next.cut && next.start == CutStart(durable) && Candidate(durable, recent, next.cut)
      && next == Compaction(1, next.start, next.cut, hash(durable[next.start..next.cut]), next.summary)
    ensures FullyPaired(request) ==>
      && Honest(hash, request + additions, next)
      && Apply(hash, request + additions + ephemeral, next).Some?
      && FullyPaired(Apply(hash, request + additions + ephemeral, next).value)
  {
    if FullyPaired(request) {
      TailKeepsFrontier(request, additions);
      CutIsHonest(hash, request + additions, recent, next.cut, next.summary);
      ApplyCommutesWithAppend(hash, request + additions, ephemeral, next);
      TailKeepsFrontier(request + additions, ephemeral);
      HonestKeepsFrontier(hash, request + additions + ephemeral, next);
    }
  }

  lemma {:induction false} TailKeepsFrontier(messages: Transcript, tail: Transcript)
    requires FullyPaired(messages) && ContextTail(tail)
    ensures FullyPaired(messages + tail)
    decreases |tail|
  {
    if tail == [] {
      assert messages + tail == messages;
    } else {
      TextOnlyIsInert(tail[0].content);
      InertStaysClosed(tail[0]);
      RunSnoc(Closed, messages, tail[0]);
      TailKeepsFrontier(messages + [tail[0]], tail[1..]);
      assert messages + [tail[0]] + tail[1..] == messages + tail;
    }
  }
}
