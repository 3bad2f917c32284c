/** The transcript's vocabulary: messages, content blocks, tool uses and tool results. Message text
    matters only where the engine looks at it (blank or not). */
module Messages {
  import opened Collections

  datatype Role = User | Assistant | System

  /** A tool input is a JSON object; its values are opaque. */
  type Input = map<string, string>

  datatype ToolUse = ToolUse(id: string, name: string, input: Input)

  datatype Block =
    | Text(text: string)
    | Thinking(text: string)
    | Image
    | ToolUseBlock(use: ToolUse)
    | ToolResultBlock(toolUseID: string, isError: bool)

  datatype Message = Message(role: Role, content: seq<Block>)

  /** The part of ToolUseContext that a tool result may change. */
  datatype ToolContext = ToolContext(permissionMode: string, executionMode: string, workingDirectory: string)

  /** A context modifier, named by a token: the closures live with the tools that return them. */
  datatype ContextModifier = ContextModifier(token: nat)

  /** What a tool call returns. */
  datatype CallResult = CallResult(isError: bool, newMessages: seq<Message>, modifier: Option<ContextModifier>)

  /** NewErrorResult: an error, no new messages, no context modifier. */
  const ErrorResult := CallResult(true, [], None)

  /** The canonical answer to one tool use: its tool_result message, then the messages of the result,
      then the runtime's extra messages. */
  function ResultMessages(use: ToolUse, result: CallResult, extra: seq<Message>): seq<Message> {
    [Message(User, [ToolResultBlock(use.id, result.isError)])] + result.newMessages + extra
  }

  /** The tool uses of a content list, in order. */
  function ToolUses(content: seq<Block>): seq<ToolUse> {
    if content == [] then []
    else (if content[0].ToolUseBlock? then [content[0].use] else []) + ToolUses(content[1..])
  }

  /** The ids answered by the tool_result blocks of a content list, in order. */
  function ResultIdsOf(content: seq<Block>): seq<string> {
    if content == [] then []
    else (if content[0].ToolResultBlock? then [content[0].toolUseID] else []) + ResultIdsOf(content[1..])
  }

  function Ids(uses: seq<ToolUse>): (ids: seq<string>)
    ensures |ids| == |uses| && forall i :: 0 <= i < |uses| ==> ids[i] == uses[i].id
  {
    seq(|uses|, i requires 0 <= i < |uses| => uses[i].id)
  }

  /** The white space of strings.TrimSpace. */
  predicate IsSpace(c: char) {
    || c in "\t\n\U{000B}\U{000C}\r \U{0085}\U{00A0}\U{1680}\U{2028}\U{2029}\U{202F}\U{205F}\U{3000}"
    || '\U{2000}' <= c <= '\U{200A}'
  }

  /** What strings.TrimSpace trims to nothing. */
  predicate Blank(s: string) {
    forall i :: 0 <= i < |s| ==> IsSpace(s[i])
  }

  /** isToolResultMessage: some block of the message is a tool result. */
  predicate IsToolResult(m: Message) {
    exists i :: 0 <= i < |m.content| && m.content[i].ToolResultBlock?
  }

  predicate NoToolResult(ms: seq<Message>) {
    forall i :: 0 <= i < |ms| ==> !IsToolResult(ms[i])
  }

  lemma {:induction false} ToolUsesAppend(a: seq<Block>, b: seq<Block>)
    ensures ToolUses(a + b) == ToolUses(a) + ToolUses(b)
  {
    if a == [] {
      assert a + b == b;
    } else {
      assert (a + b)[1..] == a[1..] + b;
      ToolUsesAppend(a[1..], b);
    }
  }

  lemma {:induction false} NoResultIds(content: seq<Block>)
    requires forall i :: 0 <= i < |content| ==> !content[i].ToolResultBlock?
    ensures ResultIdsOf(content) == []
  {
    if content != [] {
      NoResultIds(content[1..]);
    }
  }

  /** A message that neither answers a tool use nor speaks for the model. */
  predicate Plain(m: Message) {
    m.role != Assistant && !IsToolResult(m)
  }

  predicate AllPlain(ms: seq<Message>) {
    forall i :: 0 <= i < |ms| ==> Plain(ms[i])
  }

  /** The ids answered by a list of messages, in order. */
  function ResultIds(ms: seq<Message>): seq<string> {
    if ms == [] then [] else ResultIdsOf(ms[0].content) + ResultIds(ms[1..])
  }

  lemma {:induction false} ResultIdsAppend(a: seq<Message>, b: seq<Message>)
    ensures ResultIds(a + b) == ResultIds(a) + ResultIds(b)
  {
    if a == [] {
      assert a + b == b;
    } else {
      assert (a + b)[1..] == a[1..] + b;
      ResultIdsAppend(a[1..], b);
    }
  }

  lemma {:induction false} PlainAnswersNothing(ms: seq<Message>)
    requires AllPlain(ms)
    ensures ResultIds(ms) == []
  {
    if ms != [] {
      NoResultIds(ms[0].content);
      PlainAnswersNothing(ms[1..]);
    }
  }

  /** A tool result with plain messages around it answers its tool use and nothing else. */
  lemma BatchAnswersItsUse(use: ToolUse, result: CallResult, extra: seq<Message>)
    requires AllPlain(result.newMessages) && AllPlain(extra)
    ensures ResultIds(ResultMessages(use, result, extra)) == [use.id]
  {
    var first := Message(User, [ToolResultBlock(use.id, result.isError)]);
    var rest := result.newMessages + extra;
    assert ResultMessages(use, result, extra) == [first] + rest;
    assert first.content[1..] == [];
    assert ResultIdsOf(first.content) == [use.id] + ResultIdsOf([]) == [use.id];
    assert ResultMessages(use, result, extra)[1..] == rest;
    PlainAnswersNothing(rest);
  }

  lemma {:induction false} BatchesAnswerInOrder(batches: seq<seq<Message>>, ids: seq<string>)
    requires |batches| == |ids| && forall i :: 0 <= i < |ids| ==> ResultIds(batches[i]) == [ids[i]]
    ensures ResultIds(Flatten(batches)) == ids
  {
    if batches != [] {
      ResultIdsAppend(batches[0], Flatten(batches[1..]));
      BatchesAnswerInOrder(batches[1..], ids[1..]);
      assert ids == [ids[0]] + ids[1..];
    }
  }

  lemma {:induction false} FlattenKeeps(batches: seq<seq<Message>>, p: Message -> bool)
    requires forall i, j :: 0 <= i < |batches| && 0 <= j < |batches[i]| ==> p(batches[i][j])
    ensures forall j :: 0 <= j < |Flatten(batches)| ==> p(Flatten(batches)[j])
  {
    if batches != [] {
      FlattenKeeps(batches[1..], p);
    }
  }
}
