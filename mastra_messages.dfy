/** `convertMessagesToMastraMessages`: the run input's history rewritten
    into the backend's message format before the backend is asked to
    stream. Assistant messages become a text part (when there is text)
    followed by one tool-call part per recorded tool call, whose JSON
    arguments are parsed; user messages keep their text; tool messages
    become one tool-result part; every other role is dropped. `JSON.parse`
    is the caller-supplied `parse`, with `None` for text it rejects. */
module MastraMessages {
  import opened Wrappers
  import opened Messages

  /** A parsed JSON value (numbers as integers). */
  datatype Json =
    | JNull
    | JBool(b: bool)
    | JNumber(n: int)
    | JString(s: string)
    | JArray(items: seq<Json>)
    | JObject(members: seq<(string, Json)>)

  /** One part of a backend message. */
  datatype CorePart =
    | CoreText(text: string)
    | CoreToolCall(toolCallId: string, toolName: string, args: Json)
    | CoreToolResult(forToolCallId: Option<string>, resultToolName: string, result: Option<string>)

  /** A backend message: assistant and tool messages carry parts, a user
      message carries its text. */
  datatype CoreMessage =
    | CoreAssistant(parts: seq<CorePart>)
    | CoreUser(content: string)
    | CoreTool(parts: seq<CorePart>)

  /** `JSON.parse` threw on a tool call's arguments. */
  datatype ConvertError = InvalidToolCallArguments(toolCallId: string, arguments: string)

  /** The tool name every converted tool result carries. */
  const UnknownToolName: string := "unknown"

  /** The content is truthy: present and not empty. */
  predicate HasText(m: Message) {
    m.content.Some? && m.content.value != ""
  }

  /** Tool call `j` is the first whose arguments do not parse. */
  predicate FirstUnparsable(calls: seq<ToolCall>, parse: string -> Option<Json>, j: int) {
    && 0 <= j < |calls|
    && parse(calls[j].arguments).None?
    && forall i :: 0 <= i < j ==> parse(calls[i].arguments).Some?
  }

  /** The tool-call parts of an assistant message, in order; the first
      call whose arguments do not parse stops the conversion. */
  function ToolCallParts(calls: seq<ToolCall>, parse: string -> Option<Json>): Result<seq<CorePart>, ConvertError>
    decreases |calls|
  {
    if calls == [] then Success([])
    else
      var n := |calls| - 1;
      match ToolCallParts(calls[..n], parse)
      case Failure(e) => Failure(e)
      case Success(ps) =>
        match parse(calls[n].arguments)
        case None => Failure(InvalidToolCallArguments(calls[n].id, calls[n].arguments))
        case Some(a) => Success(ps + [CoreToolCall(calls[n].id, calls[n].name, a)])
  }

  /** The tool-call parts succeed exactly when every call's arguments
      parse; then there is one part per call, in order, with the call's id,
      name and parsed arguments; otherwise the error names the first call
      whose arguments do not parse. */
  lemma {:induction false} ToolCallPartsSpec(calls: seq<ToolCall>, parse: string -> Option<Json>)
    ensures var r := ToolCallParts(calls, parse);
      && (r.Success? <==> forall j :: 0 <= j < |calls| ==> parse(calls[j].arguments).Some?)
      && (r.Success? ==> |r.value| == |calls|)
      && (r.Success? ==> forall j :: 0 <= j < |calls| ==>
            parse(calls[j].arguments).Some?
            && r.value[j] == CoreToolCall(calls[j].id, calls[j].name, parse(calls[j].arguments).value))
      && (r.Failure? ==> exists j ::
            && FirstUnparsable(calls, parse, j)
            && r.error == InvalidToolCallArguments(calls[j].id, calls[j].arguments))
    decreases |calls|
  {
    if calls != [] {
      var n := |calls| - 1;
      var prefix := calls[..n];
      ToolCallPartsSpec(prefix, parse);
      assert forall j :: 0 <= j < n ==> prefix[j] == calls[j];
      match ToolCallParts(prefix, parse)
      case Failure(e) =>
        var j :| FirstUnparsable(prefix, parse, j) && e == InvalidToolCallArguments(prefix[j].id, prefix[j].arguments);
        assert FirstUnparsable(calls, parse, j);
      case Success(ps) =>
        if parse(calls[n].arguments).None? {
          assert FirstUnparsable(calls, parse, n);
        }
    }
  }

  /** The parts of an assistant message: its text, when it has any, then
      its tool calls. */
  function AssistantParts(m: Message, parse: string -> Option<Json>): Result<seq<CorePart>, ConvertError> {
    match ToolCallParts(m.toolCalls, parse)
    case Failure(e) => Failure(e)
    case Success(calls) => Success((if HasText(m) then [CoreText(m.content.value)] else []) + calls)
  }

  /** One history message: `None` when its role is dropped. */
  function ConvertMessage(m: Message, parse: string -> Option<Json>): Result<Option<CoreMessage>, ConvertError> {
    match m.role
    case Assistant =>
      (match AssistantParts(m, parse)
       case Failure(e) => Failure(e)
       case Success(parts) => Success(Some(CoreAssistant(parts))))
    case User => Success(Some(CoreUser(if m.content.Some? then m.content.value else "")))
    case Tool => Success(Some(CoreTool([CoreToolResult(m.toolCallId, UnknownToolName, m.content)])))
    case System => Success(None)
  }

  /** The whole history, in order; the first failing message stops it. */
  function Converted(messages: seq<Message>, parse: string -> Option<Json>): Result<seq<CoreMessage>, ConvertError>
    decreases |messages|
  {
    if messages == [] then Success([])
    else
      var n := |messages| - 1;
      match Converted(messages[..n], parse)
      case Failure(e) => Failure(e)
      case Success(out) =>
        match ConvertMessage(messages[n], parse)
        case Failure(e) => Failure(e)
        case Success(None) => Success(out)
        case Success(Some(c)) => Success(out + [c])
  }

  /** `convertMessagesToMastraMessages`: a loop over the history appending
      to `result`. */
  method ConvertMessagesToMastraMessages(messages: seq<Message>, parse: string -> Option<Json>)
    returns (r: Result<seq<CoreMessage>, ConvertError>)
    ensures r == Converted(messages, parse)
  {
    var result: seq<CoreMessage> := [];
    var i := 0;
    while i < |messages|
      invariant 0 <= i <= |messages|
      invariant Converted(messages[..i], parse) == Success(result)
    {
      var message := messages[i];
      assert messages[..i + 1][..i] == messages[..i];
      if message.role == Assistant {
        var parts := CollectAssistantParts(message, parse);
        if parts.Failure? {
          r := Failure(parts.error);
          FailurePersists(messages, i + 1, parse);
          return;
        }
        result := result + [CoreAssistant(parts.value)];
      } else if message.role == User {
        result := result + [CoreUser(if message.content.Some? then message.content.value else "")];
      } else if message.role == Tool {
        result := result + [CoreTool([CoreToolResult(message.toolCallId, UnknownToolName, message.content)])];
      }
      i := i + 1;
    }
    assert messages[..i] == messages;
    r := Success(result);
  }

  /** The assistant branch of the loop: `parts` starts with the text part,
      when there is text, and the tool-call loop appends to it. */
  method CollectAssistantParts(message: Message, parse: string -> Option<Json>)
    returns (r: Result<seq<CorePart>, ConvertError>)
    ensures r == AssistantParts(message, parse)
  {
    var parts: seq<CorePart> := if HasText(message) then [CoreText(message.content.value)] else [];
    var text := parts;
    var calls := message.toolCalls;
    var j := 0;
    while j < |calls|
      invariant 0 <= j <= |calls|
      invariant ToolCallParts(calls[..j], parse).Success?
      invariant parts == text + ToolCallParts(calls[..j], parse).value
    {
      ToolCallPartsSnoc(calls, j, parse);
      var args := parse(calls[j].arguments);
      if args.None? {
        r := Failure(InvalidToolCallArguments(calls[j].id, calls[j].arguments));
        ConvertPrefixOfAll(calls, j + 1, parse);
        return;
      }
      parts := parts + [CoreToolCall(calls[j].id, calls[j].name, args.value)];
      j := j + 1;
    }
    assert calls[..j] == calls;
    r := Success(parts);
  }

  /** Converting one more tool call. */
  lemma ToolCallPartsSnoc(calls: seq<ToolCall>, j: nat, parse: string -> Option<Json>)
    requires j < |calls| && ToolCallParts(calls[..j], parse).Success?
    ensures ToolCallParts(calls[..j + 1], parse)
      == if parse(calls[j].arguments).None? then Failure(InvalidToolCallArguments(calls[j].id, calls[j].arguments))
         else Success(ToolCallParts(calls[..j], parse).value + [CoreToolCall(calls[j].id, calls[j].name, parse(calls[j].arguments).value)])
  {
    assert calls[..j + 1][..j] == calls[..j];
  }

  /** A failure on a prefix of the tool calls is the failure of them all. */
  lemma {:induction false} ConvertPrefixOfAll(calls: seq<ToolCall>, n: nat, parse: string -> Option<Json>)
    requires n <= |calls| && ToolCallParts(calls[..n], parse).Failure?
    ensures ToolCallParts(calls, parse) == ToolCallParts(calls[..n], parse)
    decreases |calls| - n
  {
    if n < |calls| {
      assert calls[..n + 1][..n] == calls[..n];
      ConvertPrefixOfAll(calls, n + 1, parse);
    } else {
      assert calls[..n] == calls;
    }
  }

  /** A failure on a prefix of the history is the failure of it all. */
  lemma {:induction false} FailurePersists(messages: seq<Message>, n: nat, parse: string -> Option<Json>)
    requires n <= |messages| && Converted(messages[..n], parse).Failure?
    ensures Converted(messages, parse) == Converted(messages[..n], parse)
    decreases |messages| - n
  {
    if n < |messages| {
      assert messages[..n + 1][..n] == messages[..n];
      FailurePersists(messages, n + 1, parse);
    } else {
      assert messages[..n] == messages;
    }
  }

  /** The messages the conversion keeps: every role but system. */
  function Kept(messages: seq<Message>): (r: seq<Message>)
    ensures |r| <= |messages|
    ensures forall i :: 0 <= i < |r| ==> r[i].role != System
    decreases |messages|
  {
    if messages == [] then []
    else
      var n := |messages| - 1;
      Kept(messages[..n]) + (if messages[n].role != System then [messages[n]] else [])
  }

  /** An assistant message with a tool call whose arguments do not parse. */
  predicate Unparsable(m: Message, parse: string -> Option<Json>) {
    m.role == Assistant && exists j :: 0 <= j < |m.toolCalls| && parse(m.toolCalls[j].arguments).None?
  }

  /** The per-role rules, stated on their own: a user message becomes its
      text ("" when absent); a tool message becomes one tool result for the
      same tool call id, with tool name "unknown" and the message's content;
      an assistant message becomes a text part exactly when its content is
      non-empty, followed by one tool-call part per tool call, in order. */
  predicate Corresponds(m: Message, c: CoreMessage, parse: string -> Option<Json>) {
    match m.role
    case User => c == CoreUser(if m.content.Some? then m.content.value else "")
    case Tool => c == CoreTool([CoreToolResult(m.toolCallId, UnknownToolName, m.content)])
    case System => false
    case Assistant =>
      && c.CoreAssistant?
      && var offset := if HasText(m) then 1 else 0;
      && |c.parts| == offset + |m.toolCalls|
      && (HasText(m) ==> c.parts[0] == CoreText(m.content.value))
      && (forall j :: 0 <= j < |m.toolCalls| ==>
            && parse(m.toolCalls[j].arguments).Some?
            && c.parts[offset + j] == CoreToolCall(m.toolCalls[j].id, m.toolCalls[j].name, parse(m.toolCalls[j].arguments).value))
  }

  /** One message: dropped exactly when its role is system; failing exactly
      when it is an assistant message with unparsable arguments, naming the
      first such call; otherwise converted by the per-role rules. */
  lemma ConvertMessageSpec(m: Message, parse: string -> Option<Json>)
    ensures ConvertMessage(m, parse) == Success(None) <==> m.role == System
    ensures ConvertMessage(m, parse).Failure? <==> Unparsable(m, parse)
    ensures ConvertMessage(m, parse).Failure? ==> exists j ::
      && FirstUnparsable(m.toolCalls, parse, j)
      && ConvertMessage(m, parse).error == InvalidToolCallArguments(m.toolCalls[j].id, m.toolCalls[j].arguments)
    ensures ConvertMessage(m, parse).Success? && ConvertMessage(m, parse).value.Some? ==>
      Corresponds(m, ConvertMessage(m, parse).value.value, parse)
  {
    ToolCallPartsSpec(m.toolCalls, parse);
  }

  /** The conversion succeeds exactly when no assistant message has
      unparsable tool-call arguments; it then yields one message per kept
      message, in order, each converted by the per-role rules. */
  lemma {:induction false} ConvertedSucceeds(messages: seq<Message>, parse: string -> Option<Json>)
    ensures Converted(messages, parse).Success? <==> forall i :: 0 <= i < |messages| ==> !Unparsable(messages[i], parse)
    ensures Converted(messages, parse).Success? ==>
      && |Converted(messages, parse).value| == |Kept(messages)|
      && forall i :: 0 <= i < |Kept(messages)| ==> Corresponds(Kept(messages)[i], Converted(messages, parse).value[i], parse)
    decreases |messages|
  {
    if messages != [] {
      var n := |messages| - 1;
      var prefix := messages[..n];
      ConvertedSucceeds(prefix, parse);
      ConvertMessageSpec(messages[n], parse);
      assert forall i :: 0 <= i < n ==> prefix[i] == messages[i];
      var kept := Kept(prefix);
      match Converted(prefix, parse)
      case Failure(_) =>
      case Success(out) =>
        match ConvertMessage(messages[n], parse)
        case Failure(_) =>
        case Success(None) =>
        case Success(Some(c)) =>
          assert Kept(messages) == kept + [messages[n]];
          assert Converted(messages, parse).value == out + [c];
          forall i | 0 <= i < |Kept(messages)|
            ensures Corresponds(Kept(messages)[i], Converted(messages, parse).value[i], parse)
          {
            if i < |kept| {
              assert Kept(messages)[i] == kept[i];
              assert Converted(messages, parse).value[i] == out[i];
            }
          }
    }
  }

  /** A failing conversion fails at the first message with unparsable
      tool-call arguments, with that message's error. */
  lemma {:induction false} ConvertedFails(messages: seq<Message>, parse: string -> Option<Json>)
    requires Converted(messages, parse).Failure?
    ensures exists i ::
      && 0 <= i < |messages|
      && Unparsable(messages[i], parse)
      && (forall k :: 0 <= k < i ==> !Unparsable(messages[k], parse))
      && ConvertMessage(messages[i], parse) == Failure(Converted(messages, parse).error)
    decreases |messages|
  {
    var n := |messages| - 1;
    var prefix := messages[..n];
    assert forall i :: 0 <= i < n ==> prefix[i] == messages[i];
    ConvertMessageSpec(messages[n], parse);
    if Converted(prefix, parse).Failure? {
      ConvertedFails(prefix, parse);
      var i :| && 0 <= i < n && Unparsable(prefix[i], parse)
        && (forall k :: 0 <= k < i ==> !Unparsable(prefix[k], parse))
        && ConvertMessage(prefix[i], parse) == Failure(Converted(prefix, parse).error);
      assert ConvertMessage(messages[i], parse) == Failure(Converted(messages, parse).error);
    } else {
      ConvertedSucceeds(prefix, parse);
      assert ConvertMessage(messages[n], parse) == Failure(Converted(messages, parse).error);
    }
  }
}
