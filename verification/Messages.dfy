/** Messages, tool calls and tool results as the runtime exchanges them. */
module Messages {

  datatype Option<+T> = None | Some(value: T) {
    function GetOr(default: T): T {
      match this
      case None => default
      case Some(v) => v
    }
  }

  datatype Role = RoleSystem | RoleUser | RoleAssistant | RoleTool | RoleOther(name: string)

  /** `input` is the canonical JSON text of the arguments. */
  datatype ToolUse = ToolUse(id: string, name: string, input: string)

  datatype ToolResult = ToolResult(toolUseId: string, name: string, content: string, isError: bool)

  /** Every part kind that is neither text nor tool traffic is `Other`. */
  datatype Part =
    | Text(text: string)
    | Use(use: ToolUse)
    | Result(result: ToolResult)
    | Other(kind: string, payload: string)

  datatype Message = Message(role: Role, content: seq<Part>)

  type Transcript = seq<Message>

  function PartUses(content: seq<Part>): (uses: seq<ToolUse>)
  {
    if content == [] then []
    else (if content[0].Use? then [content[0].use] else []) + PartUses(content[1..])
  }

  function PartResults(content: seq<Part>): (results: seq<ToolResult>)
  {
    if content == [] then []
    else (if content[0].Result? then [content[0].result] else []) + PartResults(content[1..])
  }

  function GetToolUses(message: Message): seq<ToolUse> {
    PartUses(message.content)
  }

  function GetToolResults(message: Message): seq<ToolResult> {
    PartResults(message.content)
  }

  function NewTextMessage(role: Role, text: string): Message {
    Message(role, [Text(text)])
  }

  function NewToolResultMessageFor(toolUseId: string, name: string, content: string, isError: bool): Message {
    Message(RoleTool, [Result(ToolResult(toolUseId, name, content, isError))])
  }

  /** No tool traffic at all: such a message never moves a pairing automaton. */
  predicate Inert(message: Message) {
    GetToolUses(message) == [] && GetToolResults(message) == []
  }

  predicate AllInert(messages: Transcript) {
    forall i :: 0 <= i < |messages| ==> Inert(messages[i])
  }

  function OptionalMessage(message: Option<Message>): Transcript {
    match message case None => [] case Some(m) => [m]
  }

  predicate Distinct(items: seq<string>) {
    forall i, j :: 0 <= i < j < |items| ==> items[i] != items[j]
  }

  predicate DistinctIds(calls: seq<ToolUse>) {
    && (forall i :: 0 <= i < |calls| ==> calls[i].id != "")
    && (forall i, j :: 0 <= i < j < |calls| ==> calls[i].id != calls[j].id)
  }

  function Ids(calls: seq<ToolUse>): set<string> {
    set i | 0 <= i < |calls| :: calls[i].id
  }

  /** The call index a Go loop builds: a later entry overwrites an earlier one. */
  function IndexById(calls: seq<ToolUse>): (index: map<string, ToolUse>)
    ensures index.Keys == Ids(calls)
  {
    if calls == [] then map[]
    else
      var last := |calls| - 1;
      assert Ids(calls) == Ids(calls[..last]) + {calls[last].id};
      IndexById(calls[..last])[calls[last].id := calls[last]]
  }

  lemma {:induction false} IndexFindsCall(calls: seq<ToolUse>, i: nat)
    requires DistinctIds(calls) && i < |calls|
    ensures calls[i].id in IndexById(calls) && IndexById(calls)[calls[i].id] == calls[i]
  {
    var last := |calls| - 1;
    if i < last {
      IndexFindsCall(calls[..last], i);
    }
  }

  lemma {:induction false} PartUsesConcat(left: seq<Part>, right: seq<Part>)
    ensures PartUses(left + right) == PartUses(left) + PartUses(right)
  {
    if left == [] {
      assert left + right == right;
    } else {
      var tail := left[1..];
      PartUsesConcat(tail, right);
      var all := left + right;
      assert all[0] == left[0] && all[1..] == tail + right;
      var head := if left[0].Use? then [left[0].use] else [];
      assert PartUses(all) == head + PartUses(all[1..]) && PartUses(left) == head + PartUses(tail);
      assert head + (PartUses(tail) + PartUses(right)) == head + PartUses(tail) + PartUses(right);
    }
  }

  lemma {:induction false} PartResultsConcat(left: seq<Part>, right: seq<Part>)
    ensures PartResults(left + right) == PartResults(left) + PartResults(right)
  {
    if left == [] {
      assert left + right == right;
    } else {
      var tail := left[1..];
      PartResultsConcat(tail, right);
      var all := left + right;
      assert all[0] == left[0] && all[1..] == tail + right;
      var head := if left[0].Result? then [left[0].result] else [];
      assert PartResults(all) == head + PartResults(all[1..]) && PartResults(left) == head + PartResults(tail);
      assert head + (PartResults(tail) + PartResults(right)) == head + PartResults(tail) + PartResults(right);
    }
  }

  lemma ResultMessageParts(id: string, name: string, content: string, isError: bool)
    ensures var m := NewToolResultMessageFor(id, name, content, isError);
            GetToolUses(m) == [] && GetToolResults(m) == [ToolResult(id, name, content, isError)]
  {
    var m := NewToolResultMessageFor(id, name, content, isError);
    assert m.content[0] == Part.Result(ToolResult(id, name, content, isError));
    assert PartUses(m.content[1..]) == [] && PartResults(m.content[1..]) == [];
  }
}
