/** The root driver's pairing checker (transcript.go) and what acceptance means. */
module Pairing {
  import opened Messages

  /** Pairing state: the open frontier's calls and which of them already have a result. */
  datatype Frontier = Frontier(calls: seq<ToolUse>, resolved: set<string>)

  const Closed := Frontier([], {})

  predicate Complete(f: Frontier) {
    forall i :: 0 <= i < |f.calls| ==> f.calls[i].id in f.resolved
  }

  function Settle(f: Frontier): Frontier {
    if Complete(f) then Closed else f
  }

  /** Records one message's results against the open frontier, refusing strays, repeats and renames. */
  function ResolveResults(index: map<string, ToolUse>, resolved: set<string>, results: seq<ToolResult>): (r: Option<set<string>>)
    decreases results
  {
    if results == [] then Some(resolved)
    else
      var head := results[0];
      if head.toolUseId !in index || head.toolUseId in resolved then None
      else if head.name != "" && head.name != index[head.toolUseId].name then None
      else ResolveResults(index, resolved + {head.toolUseId}, results[1..])
  }

  function OpenCalls(f: Frontier, message: Message): Option<Frontier> {
    var uses := GetToolUses(message);
    if uses == [] then Some(f)
    else if message.role != RoleAssistant || f.calls != [] || !DistinctIds(uses) then None
    else Some(Frontier(uses, {}))
  }

  function Advance(f: Frontier, message: Message): Option<Frontier> {
    match OpenCalls(f, message)
    case None => None
    case Some(current) =>
      if GetToolResults(message) != [] then
        if message.role != RoleTool || current.calls == [] then None
        else
          match ResolveResults(IndexById(current.calls), current.resolved, GetToolResults(message))
          case None => None
          case Some(resolved) => Some(Settle(Frontier(current.calls, resolved)))
      else if current.calls != [] && message.role != RoleTool && GetToolUses(message) == [] then None
      else Some(current)
  }

  function Run(f: Frontier, messages: Transcript): Option<Frontier>
    decreases messages
  {
    if messages == [] then Some(f)
    else
      match Advance(f, messages[0])
      case None => None
      case Some(next) => Run(next, messages[1..])
  }

  predicate Accepted(messages: Transcript) {
    Run(Closed, messages).Some?
  }

  /** Accepted, and every call has its result. */
  predicate FullyPaired(messages: Transcript) {
    Run(Closed, messages) == Some(Closed)
  }

  function FrontierOf(messages: Transcript): Frontier
    requires Accepted(messages)
  {
    Run(Closed, messages).value
  }

  function Unresolved(f: Frontier): seq<ToolUse> {
    UnresolvedFrom(f.calls, f.resolved)
  }

  function UnresolvedFrom(calls: seq<ToolUse>, resolved: set<string>): seq<ToolUse> {
    if calls == [] then []
    else (if calls[0].id in resolved then [] else [calls[0]]) + UnresolvedFrom(calls[1..], resolved)
  }

  /** Shape every reachable automaton state has. */
  predicate WellFormed(f: Frontier) {
    && DistinctIds(f.calls)
    && f.resolved <= Ids(f.calls)
    && (f.calls != [] ==> !Complete(f))
    && (f.calls == [] ==> f.resolved == {})
  }

  lemma {:induction false} RunConcat(f: Frontier, left: Transcript, right: Transcript)
    ensures Run(f, left + right) == (match Run(f, left) case None => None case Some(g) => Run(g, right))
    decreases left
  {
    if left == [] {
      assert left + right == right;
    } else {
      assert (left + right)[0] == left[0] && (left + right)[1..] == left[1..] + right;
      match Advance(f, left[0])
      case None =>
      case Some(next) => RunConcat(next, left[1..], right);
    }
  }

  lemma RunCons(f: Frontier, head: Message, tail: Transcript)
    ensures Run(f, [head] + tail) == (match Advance(f, head) case None => None case Some(g) => Run(g, tail))
  {
    assert ([head] + tail)[1..] == tail;
  }

  lemma RunSnoc(f: Frontier, messages: Transcript, last: Message)
    ensures Run(f, messages + [last]) == (match Run(f, messages) case None => None case Some(g) => Advance(g, last))
  {
    RunConcat(f, messages, [last]);
    match Run(f, messages)
    case None =>
    case Some(g) =>
      match Advance(g, last)
      case None =>
      case Some(h) => assert [last][1..] == [];
  }

  lemma {:induction false} ResolveKeepsBounds(index: map<string, ToolUse>, resolved: set<string>, results: seq<ToolResult>)
    requires resolved <= index.Keys
    ensures match ResolveResults(index, resolved, results)
      case None => true
      case Some(after) => resolved <= after <= index.Keys
    decreases results
  {
    if results != [] && ResolveResults(index, resolved, results).Some? {
      ResolveKeepsBounds(index, resolved + {results[0].toolUseId}, results[1..]);
    }
  }

  lemma AdvanceKeepsShape(f: Frontier, message: Message)
    requires WellFormed(f)
    ensures Advance(f, message).Some? ==> WellFormed(Advance(f, message).value)
  {
    if Advance(f, message).Some? {
      var current := OpenCalls(f, message).value;
      assert DistinctIds(current.calls) && current.resolved <= Ids(current.calls);
      if GetToolResults(message) != [] {
        ResolveKeepsBounds(IndexById(current.calls), current.resolved, GetToolResults(message));
      } else if GetToolUses(message) != [] {
        assert current.calls[0].id !in current.resolved;
      }
    }
  }

  lemma {:induction false} RunKeepsShape(f: Frontier, messages: Transcript)
    requires WellFormed(f)
    ensures Run(f, messages).Some? ==> WellFormed(Run(f, messages).value)
    decreases messages
  {
    if messages != [] && Advance(f, messages[0]).Some? {
      AdvanceKeepsShape(f, messages[0]);
      RunKeepsShape(Advance(f, messages[0]).value, messages[1..]);
    }
  }

  lemma {:induction false} PrefixAccepted(left: Transcript, right: Transcript)
    requires Accepted(left + right)
    ensures Accepted(left)
  {
    RunConcat(Closed, left, right);
  }

  lemma {:induction false} UnresolvedMembers(calls: seq<ToolUse>, resolved: set<string>)
    ensures forall c :: c in UnresolvedFrom(calls, resolved) <==> c in calls && c.id !in resolved
    ensures DistinctIds(calls) ==> DistinctIds(UnresolvedFrom(calls, resolved))
  {
    if calls != [] {
      UnresolvedMembers(calls[1..], resolved);
      var rest := UnresolvedFrom(calls[1..], resolved);
      assert calls == [calls[0]] + calls[1..];
      if DistinctIds(calls) {
        assert DistinctIds(calls[1..]);
        forall j | 0 <= j < |rest| ensures rest[j].id != calls[0].id {
          assert rest[j] in calls[1..];
          var k :| 0 <= k < |calls[1..]| && calls[1..][k] == rest[j];
          assert calls[k + 1] == rest[j];
        }
      }
    }
  }

  lemma UnresolvedEmptyIffComplete(f: Frontier)
    ensures Unresolved(f) == [] <==> Complete(f)
  {
    UnresolvedMembers(f.calls, f.resolved);
    if Unresolved(f) == [] {
      forall i | 0 <= i < |f.calls| ensures f.calls[i].id in f.resolved {
        assert f.calls[i] in f.calls;
        assert f.calls[i] !in Unresolved(f);
      }
    }
    if Unresolved(f) != [] {
      assert Unresolved(f)[0] in Unresolved(f);
    }
  }

  // ---------------------------------------------------------------------
  // What acceptance means, without the automaton: a transcript is a series of
  // plain messages and exchanges, an exchange being one assistant message with
  // calls and the tool messages that answer each call exactly once by name.

  function AllResults(messages: Transcript): seq<ToolResult> {
    if messages == [] then [] else GetToolResults(messages[0]) + AllResults(messages[1..])
  }

  function ResultIds(results: seq<ToolResult>): set<string> {
    set i | 0 <= i < |results| :: results[i].toolUseId
  }

  predicate NamedFor(index: map<string, ToolUse>, result: ToolResult) {
    result.toolUseId in index && (result.name == "" || result.name == index[result.toolUseId].name)
  }

  /** The results are new, distinct and correctly named for open calls. */
  predicate Fresh(index: map<string, ToolUse>, resolved: set<string>, results: seq<ToolResult>) {
    && (forall i :: 0 <= i < |results| ==> NamedFor(index, results[i]) && results[i].toolUseId !in resolved)
    && (forall i, j :: 0 <= i < j < |results| ==> results[i].toolUseId != results[j].toolUseId)
  }

  predicate Answers(uses: seq<ToolUse>, results: seq<ToolResult>) {
    Fresh(IndexById(uses), {}, results) && ResultIds(results) == Ids(uses)
  }

  predicate ToolBlock(block: Transcript) {
    forall i :: 0 <= i < |block| ==> block[i].role == RoleTool && GetToolUses(block[i]) == []
  }

  predicate Opens(call: Message) {
    && call.role == RoleAssistant && GetToolUses(call) != [] && DistinctIds(GetToolUses(call))
    && GetToolResults(call) == []
  }

  predicate Exchange(call: Message, block: Transcript) {
    && Opens(call)
    && ToolBlock(block) && block != [] && GetToolResults(block[|block| - 1]) != []
    && Answers(GetToolUses(call), AllResults(block))
  }

  ghost predicate Grammar(messages: Transcript)
    decreases |messages|
  {
    messages != [] ==>
      var head, rest := messages[0], messages[1..];
      || (Inert(head) && Grammar(rest))
      || (exists k | 1 <= k <= |rest| :: Exchange(head, rest[..k]) && Grammar(rest[k..]))
  }

  lemma FreshCons(index: map<string, ToolUse>, resolved: set<string>, results: seq<ToolResult>)
    requires results != []
    ensures Fresh(index, resolved, results) <==>
      && NamedFor(index, results[0]) && results[0].toolUseId !in resolved
      && Fresh(index, resolved + {results[0].toolUseId}, results[1..])
  {
    var id, tail := results[0].toolUseId, results[1..];
    if Fresh(index, resolved, results) {
      forall i | 0 <= i < |tail| ensures NamedFor(index, tail[i]) && tail[i].toolUseId !in resolved + {id} {
        assert tail[i] == results[i + 1];
      }
    }
    if NamedFor(index, results[0]) && id !in resolved && Fresh(index, resolved + {id}, tail) {
      assert forall i :: 1 <= i < |results| ==> results[i] == tail[i - 1];
    }
  }

  lemma {:induction false} ResolveExact(index: map<string, ToolUse>, resolved: set<string>, results: seq<ToolResult>)
    ensures ResolveResults(index, resolved, results) ==
      if Fresh(index, resolved, results) then Some(resolved + ResultIds(results)) else None
    decreases results
  {
    if results == [] {
      assert resolved + ResultIds(results) == resolved;
    } else {
      var id, tail := results[0].toolUseId, results[1..];
      FreshCons(index, resolved, results);
      ResolveExact(index, resolved + {id}, tail);
      assert resolved + ResultIds(results) == resolved + {id} + ResultIds(tail) by {
        assert results == [results[0]] + tail;
        forall i | 0 <= i < |tail| ensures tail[i].toolUseId in ResultIds(results) { assert results[i + 1] == tail[i]; }
      }
    }
  }

  lemma FreshConcat(index: map<string, ToolUse>, resolved: set<string>, left: seq<ToolResult>, right: seq<ToolResult>)
    ensures Fresh(index, resolved, left + right) <==>
      Fresh(index, resolved, left) && Fresh(index, resolved + ResultIds(left), right)
    ensures ResultIds(left + right) == ResultIds(left) + ResultIds(right)
  {
    var all := left + right;
    assert ResultIds(all) == ResultIds(left) + ResultIds(right) by {
      forall i | 0 <= i < |left| ensures left[i].toolUseId in ResultIds(all) { assert all[i] == left[i]; }
      forall i | 0 <= i < |right| ensures right[i].toolUseId in ResultIds(all) { assert all[|left| + i] == right[i]; }
    }
    if Fresh(index, resolved, all) {
      assert forall i :: 0 <= i < |left| ==> all[i] == left[i];
      forall i | 0 <= i < |right|
        ensures NamedFor(index, right[i]) && right[i].toolUseId !in resolved + ResultIds(left)
      {
        assert all[|left| + i] == right[i];
        assert forall k :: 0 <= k < |left| ==> all[k].toolUseId != all[|left| + i].toolUseId;
      }
      forall i, j | 0 <= i < j < |right| ensures right[i].toolUseId != right[j].toolUseId {
        assert all[|left| + i] == right[i] && all[|left| + j] == right[j];
      }
    }
  }

  /** One tool message that leaves a result outstanding, in the declarative terms. */
  lemma PartialAnswer(f: Frontier, message: Message, id: string)
    requires WellFormed(f) && f.calls != []
    requires message.role == RoleTool && GetToolUses(message) == []
    requires Fresh(IndexById(f.calls), f.resolved, GetToolResults(message))
    requires id in Ids(f.calls) && id !in f.resolved + ResultIds(GetToolResults(message))
    ensures Advance(f, message) == Some(Frontier(f.calls, f.resolved + ResultIds(GetToolResults(message))))
    ensures WellFormed(Advance(f, message).value)
  {
    var results := GetToolResults(message);
    ResolveExact(IndexById(f.calls), f.resolved, results);
    var next := Frontier(f.calls, f.resolved + ResultIds(results));
    assert !Complete(next) by {
      var i :| 0 <= i < |f.calls| && f.calls[i].id == id;
      assert f.calls[i].id !in next.resolved;
    }
    if results == [] {
      assert next == f;
    }
    AdvanceKeepsShape(f, message);
  }

  lemma FinalAnswer(f: Frontier, message: Message)
    requires WellFormed(f) && f.calls != []
    requires message.role == RoleTool && GetToolUses(message) == [] && GetToolResults(message) != []
    requires Fresh(IndexById(f.calls), f.resolved, GetToolResults(message))
    requires f.resolved + ResultIds(GetToolResults(message)) == Ids(f.calls)
    ensures Advance(f, message) == Some(Closed)
  {
    ResolveExact(IndexById(f.calls), f.resolved, GetToolResults(message));
  }

  /** The first message of a longer block leaves an open frontier that the rest of it closes. */
  lemma BlockStep(f: Frontier, block: Transcript)
    requires WellFormed(f) && f.calls != [] && Closes(f, block) && |block| > 1
    ensures Advance(f, block[0]).Some? && WellFormed(Advance(f, block[0]).value) && Advance(f, block[0]).value.calls == f.calls
    ensures Closes(Advance(f, block[0]).value, block[1..])
  {
    hide IndexById, GetToolResults, GetToolUses, Advance, WellFormed;
    var results, rest := GetToolResults(block[0]), AllResults(block[1..]);
    FreshConcat(IndexById(f.calls), f.resolved, results, rest);
    LastResultOpen(block[1..]);
    assert rest[0].toolUseId in ResultIds(rest);
    PartialAnswer(f, block[0], rest[0].toolUseId);
  }

  lemma SingleCloses(f: Frontier, message: Message)
    requires WellFormed(f) && f.calls != [] && Closes(f, [message])
    ensures Run(f, [message]) == Some(Closed)
  {
    hide GetToolResults, GetToolUses, IndexById, Advance, WellFormed, Fresh;
    assert AllResults([message][1..]) == [] && GetToolResults(message) + [] == GetToolResults(message);
    FinalAnswer(f, message);
    assert Run(Closed, [message][1..]) == Some(Closed);
  }

  /** Running a tool block from an open frontier, in the declarative terms. */
  lemma {:induction false} BlockRuns(f: Frontier, block: Transcript)
    requires WellFormed(f) && f.calls != [] && Closes(f, block)
    ensures Run(f, block) == Some(Closed)
    decreases block
  {
    hide Advance, WellFormed, Closes;
    if |block| <= 1 {
      BlockStarts(f, block);
      assert block == [block[0]];
      SingleCloses(f, block[0]);
    } else {
      BlockStep(f, block);
      BlockRuns(Advance(f, block[0]).value, block[1..]);
    }
  }

  lemma BlockStarts(f: Frontier, block: Transcript)
    requires Closes(f, block)
    ensures block != []
  {
    hide Fresh, IndexById, GetToolResults;
  }

  lemma {:induction false} LastResultOpen(block: Transcript)
    requires block != [] && GetToolResults(block[|block| - 1]) != []
    ensures AllResults(block) != []
  {
    if |block| > 1 {
      LastResultOpen(block[1..]);
    }
  }

  /** `block` answers exactly what frontier `f` still has open, and its last message does so. */
  predicate Closes(f: Frontier, block: Transcript) {
    && ToolBlock(block) && block != [] && GetToolResults(block[|block| - 1]) != []
    && Fresh(IndexById(f.calls), f.resolved, AllResults(block))
    && f.resolved + ResultIds(AllResults(block)) == Ids(f.calls)
  }

  lemma ClosesSingle(f: Frontier, message: Message)
    requires WellFormed(f) && f.calls != [] && Advance(f, message) == Some(Closed)
    ensures Closes(f, [message])
  {
    var results := GetToolResults(message);
    ResolveExact(IndexById(f.calls), f.resolved, results);
    assert [message][1..] == [] && AllResults([message]) == results + [] == results;
    assert Complete(Frontier(f.calls, f.resolved + ResultIds(results)));
    assert Ids(f.calls) <= f.resolved + ResultIds(results);
  }

  lemma AllResultsCons(message: Message, block: Transcript)
    ensures AllResults([message] + block) == GetToolResults(message) + AllResults(block)
  {
    assert ([message] + block)[1..] == block;
  }

  lemma OpenAdvance(f: Frontier, message: Message)
    requires WellFormed(f) && f.calls != [] && Advance(f, message).Some? && Advance(f, message).value != Closed
    ensures message.role == RoleTool && GetToolUses(message) == []
    ensures Fresh(IndexById(f.calls), f.resolved, GetToolResults(message))
    ensures Advance(f, message).value == Frontier(f.calls, f.resolved + ResultIds(GetToolResults(message)))
  {
    ResolveExact(IndexById(f.calls), f.resolved, GetToolResults(message));
    if GetToolResults(message) == [] {
      assert f.resolved + ResultIds(GetToolResults(message)) == f.resolved;
    }
  }

  lemma ClosesCons(f: Frontier, message: Message, block: Transcript)
    requires WellFormed(f) && f.calls != [] && Advance(f, message).Some? && Advance(f, message).value != Closed
    requires Closes(Advance(f, message).value, block)
    ensures Closes(f, [message] + block)
  {
    OpenAdvance(f, message);
    AllResultsCons(message, block);
    FreshConcat(IndexById(f.calls), f.resolved, GetToolResults(message), AllResults(block));
    var all := [message] + block;
    assert all[|all| - 1] == block[|block| - 1];
  }

  /** One named result for a call that is still open. */
  lemma ResultAdvances(f: Frontier, call: ToolUse, content: string, isError: bool)
    requires WellFormed(f) && call in f.calls && call.id !in f.resolved
    ensures Advance(f, NewToolResultMessageFor(call.id, call.name, content, isError))
      == Some(Settle(Frontier(f.calls, f.resolved + {call.id})))
  {
    ResultMessageParts(call.id, call.name, content, isError);
    var results := [ToolResult(call.id, call.name, content, isError)];
    var i :| 0 <= i < |f.calls| && f.calls[i] == call;
    IndexFindsCall(f.calls, i);
    assert results[1..] == [];
    assert ResolveResults(IndexById(f.calls), f.resolved, results) == Some(f.resolved + {call.id});
  }

  /** A tool message that holds one named result, for this call. */
  predicate ResultFor(call: ToolUse, message: Message) {
    && message.role == RoleTool && |message.content| == 1 && message.content[0].Result?
    && message.content[0].result.toolUseId == call.id && message.content[0].result.name == call.name
  }

  /** One result message per call, in call order. */
  predicate AnswersEach(calls: seq<ToolUse>, messages: Transcript) {
    |messages| == |calls| && forall i :: 0 <= i < |calls| ==> ResultFor(calls[i], messages[i])
  }

  lemma {:induction false} UnresolvedDropsHead(calls: seq<ToolUse>, resolved: set<string>)
    requires DistinctIds(calls) && UnresolvedFrom(calls, resolved) != []
    ensures var u := UnresolvedFrom(calls, resolved);
            UnresolvedFrom(calls, resolved + {u[0].id}) == u[1..]
  {
    if calls[0].id in resolved {
      UnresolvedDropsHead(calls[1..], resolved);
    } else {
      UnresolvedSkips(calls[1..], resolved, calls[0].id);
    }
  }

  lemma {:induction false} UnresolvedSkips(calls: seq<ToolUse>, resolved: set<string>, id: string)
    requires forall i :: 0 <= i < |calls| ==> calls[i].id != id
    ensures UnresolvedFrom(calls, resolved + {id}) == UnresolvedFrom(calls, resolved)
  {
    if calls != [] {
      UnresolvedSkips(calls[1..], resolved, id);
    }
  }

  /** A result for the first unresolved call leaves the others unresolved. */
  lemma OneAnswer(f: Frontier, message: Message) returns (next: Frontier)
    requires WellFormed(f) && Unresolved(f) != [] && ResultFor(Unresolved(f)[0], message)
    ensures Advance(f, message) == Some(next) && WellFormed(next) && Unresolved(next) == Unresolved(f)[1..]
    ensures Unresolved(f)[1..] == [] ==> next == Closed
  {
    var call, result := Unresolved(f)[0], message.content[0].result;
    UnresolvedMembers(f.calls, f.resolved);
    assert call in Unresolved(f);
    assert message == NewToolResultMessageFor(call.id, call.name, result.content, result.isError);
    ResultAdvances(f, call, result.content, result.isError);
    var after := Frontier(f.calls, f.resolved + {call.id});
    UnresolvedDropsHead(f.calls, f.resolved);
    UnresolvedEmptyIffComplete(after);
    AdvanceKeepsShape(f, message);
    next := Settle(after);
  }

  /** One result per unresolved call, whatever the results say, closes the frontier. */
  lemma {:induction false} AnswersClose(f: Frontier, messages: Transcript)
    requires WellFormed(f) && AnswersEach(Unresolved(f), messages)
    ensures Run(f, messages) == Some(Closed)
    decreases |messages|
  {
    hide WellFormed, Advance, ResultFor;
    if messages == [] {
      NothingUnresolved(f);
    } else {
      assert ResultFor(Unresolved(f)[0], messages[0]);
      var next := OneAnswer(f, messages[0]);
      if messages[1..] != [] {
        AnswersClose(next, messages[1..]);
      }
    }
  }

  lemma NothingUnresolved(f: Frontier)
    requires WellFormed(f)
    ensures Unresolved(f) == [] <==> f == Closed
  {
    UnresolvedEmptyIffComplete(f);
  }

  /** A run that closes an open frontier splits at the message that closes it. */
  lemma {:induction false} BlockFound(f: Frontier, messages: Transcript) returns (k: nat)
    requires WellFormed(f) && f.calls != []
    requires Run(f, messages) == Some(Closed)
    ensures 1 <= k <= |messages|
    ensures Closes(f, messages[..k])
    ensures Run(Closed, messages[k..]) == Some(Closed)
    decreases messages
  {
    hide Advance, Closes, WellFormed;
    var next := Advance(f, messages[0]).value;
    AdvanceKeepsShape(f, messages[0]);
    if next == Closed {
      k := 1;
      ClosesSingle(f, messages[0]);
      assert messages[..1] == [messages[0]];
    } else {
      var rest := BlockFound(next, messages[1..]);
      k := rest + 1;
      ClosesCons(f, messages[0], messages[1..][..rest]);
      assert messages[..k] == [messages[0]] + messages[1..][..rest];
      assert messages[1..][rest..] == messages[k..];
    }
  }

  lemma OpensExactly(head: Message)
    ensures Opens(head) ==> Advance(Closed, head) == Some(Frontier(GetToolUses(head), {}))
    ensures Advance(Closed, head).Some? && !Inert(head) ==> Opens(head)
  {
  }

  lemma AnswersCloses(uses: seq<ToolUse>, block: Transcript)
    ensures Closes(Frontier(uses, {}), block) <==>
      ToolBlock(block) && block != [] && GetToolResults(block[|block| - 1]) != [] && Answers(uses, AllResults(block))
  {
    var ids := ResultIds(AllResults(block));
    assert {} + ids == ids;
  }

  lemma ExchangeRuns(head: Message, block: Transcript, rest: Transcript)
    requires Exchange(head, block)
    ensures Run(Closed, [head] + (block + rest)) == Run(Closed, rest)
  {
    var f := Frontier(GetToolUses(head), {});
    OpensExactly(head);
    AdvanceKeepsShape(Closed, head);
    AnswersCloses(GetToolUses(head), block);
    BlockRuns(f, block);
    RunConcat(f, block, rest);
    RunCons(Closed, head, block + rest);
  }

  lemma ExchangeFound(head: Message, rest: Transcript) returns (k: nat)
    requires FullyPaired([head] + rest) && !Inert(head)
    ensures 1 <= k <= |rest| && Exchange(head, rest[..k])
    ensures FullyPaired(rest[k..])
  {
    RunCons(Closed, head, rest);
    OpensExactly(head);
    AdvanceKeepsShape(Closed, head);
    var f := Frontier(GetToolUses(head), {});
    k := BlockFound(f, rest);
    AnswersCloses(GetToolUses(head), rest[..k]);
  }

  /** One level of the grammar, on the head and the rest. */
  ghost predicate GrammarStep(head: Message, rest: Transcript) {
    || (Inert(head) && FullyPaired(rest))
    || (exists k | 1 <= k <= |rest| :: Exchange(head, rest[..k]) && FullyPaired(rest[k..]))
  }

  lemma InertStaysClosed(message: Message)
    requires Inert(message)
    ensures Advance(Closed, message) == Some(Closed)
  {
  }

  lemma PairedStep(head: Message, rest: Transcript)
    ensures FullyPaired([head] + rest) <==> GrammarStep(head, rest)
  {
    hide Exchange, Advance;
    RunCons(Closed, head, rest);
    if Inert(head) {
      InertStaysClosed(head);
    } else if FullyPaired([head] + rest) {
      var k := ExchangeFound(head, rest);
    }
    if k :| 1 <= k <= |rest| && Exchange(head, rest[..k]) && FullyPaired(rest[k..]) {
      ExchangeRuns(head, rest[..k], rest[k..]);
      assert rest == rest[..k] + rest[k..];
    }
  }

  /** The checker accepts a transcript with nothing open exactly when it is a series of plain messages and exchanges. */
  lemma {:induction false} FullyPairedIffGrammar(messages: Transcript)
    ensures FullyPaired(messages) <==> Grammar(messages)
    decreases |messages|
  {
    if messages != [] {
      var head, rest := messages[0], messages[1..];
      assert messages == [head] + rest;
      PairedStep(head, rest);
      FullyPairedIffGrammar(rest);
      forall k | 1 <= k <= |rest| ensures FullyPaired(rest[k..]) <==> Grammar(rest[k..]) {
        FullyPairedIffGrammar(rest[k..]);
      }
    }
  }

  // ---------------------------------------------------------------------
  // The checker as the driver runs it.

  /** The `seen` loop: empty or repeated identifiers are refused. */
  method CheckDistinct(uses: seq<ToolUse>) returns (ok: bool)
    ensures ok <==> DistinctIds(uses)
  {
    var seen: set<string> := {};
    for i := 0 to |uses|
      invariant DistinctIds(uses[..i])
      invariant seen == Ids(uses[..i])
    {
      if uses[i].id == "" || uses[i].id in seen {
        return false;
      }
      assert uses[..i + 1] == uses[..i] + [uses[i]];
      seen := seen + {uses[i].id};
    }
    assert uses[..|uses|] == uses;
    return true;
  }

  /** The result loop of one message, over the index built from the frontier. */
  method RecordResults(index: map<string, ToolUse>, before: set<string>, results: seq<ToolResult>)
      returns (ok: bool, resolved: set<string>)
    ensures ResolveResults(index, before, results) == if ok then Some(resolved) else None
  {
    resolved := before;
    for i := 0 to |results|
      invariant ResolveResults(index, before, results) == ResolveResults(index, resolved, results[i..])
    {
      var result := results[i];
      assert results[i..][1..] == results[i + 1..];
      if result.toolUseId !in index || result.toolUseId in resolved {
        return false, resolved;
      }
      if result.name != "" && result.name != index[result.toolUseId].name {
        return false, resolved;
      }
      resolved := resolved + {result.toolUseId};
    }
    return true, resolved;
  }

  method CheckComplete(calls: seq<ToolUse>, resolved: set<string>) returns (complete: bool)
    ensures complete <==> Complete(Frontier(calls, resolved))
  {
    for i := 0 to |calls|
      invariant forall k :: 0 <= k < i ==> calls[k].id in resolved
    {
      if calls[i].id !in resolved {
        return false;
      }
    }
    return true;
  }

  method BuildIndex(calls: seq<ToolUse>) returns (index: map<string, ToolUse>)
    ensures index == IndexById(calls)
  {
    index := map[];
    for i := 0 to |calls|
      invariant index == IndexById(calls[..i])
    {
      assert calls[..i + 1][..i] == calls[..i];
      index := index[calls[i].id := calls[i]];
    }
    assert calls[..|calls|] == calls;
  }

  /** None is the checker's single error, ErrTranscriptInvalid. */
  method InspectTranscript(messages: Transcript) returns (r: Option<seq<ToolUse>>)
    ensures r == (match Run(Closed, messages) case None => None case Some(f) => Some(f.calls))
  {
    var frontier: seq<ToolUse>, resolved: set<string> := [], {};
    for i := 0 to |messages|
      invariant Run(Closed, messages) == Run(Frontier(frontier, resolved), messages[i..])
    {
      var message := messages[i];
      var uses, results := GetToolUses(message), GetToolResults(message);
      ghost var f := Frontier(frontier, resolved);
      ghost var tail := messages[i + 1..];
      assert messages[i..] == [message] + tail;
      RunCons(f, message, tail);
      if |uses| > 0 {
        if message.role != RoleAssistant || |frontier| > 0 {
          return None;
        }
        var distinct := CheckDistinct(uses);
        if !distinct {
          return None;
        }
        frontier, resolved := uses, {};
      }
      if |results| > 0 {
        if message.role != RoleTool || |frontier| == 0 {
          return None;
        }
        var index := BuildIndex(frontier);
        var ok, after := RecordResults(index, resolved, results);
        if !ok {
          return None;
        }
        resolved := after;
        var complete := CheckComplete(frontier, resolved);
        if complete {
          frontier, resolved := [], {};
        }
        continue;
      }
      if |frontier| > 0 && message.role != RoleTool && |uses| == 0 {
        return None;
      }
    }
    return Some(frontier);
  }
}
