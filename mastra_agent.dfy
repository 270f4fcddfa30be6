/** The Mastra adapter's `run`: on subscription it converts the history,
    emits RUN_STARTED, asks the backend to stream, and translates each
    backend part through a callback that shares one mutable
    `currentMessageId`. Emission is appending to `events`; once the stream
    has completed or failed further emissions are dropped, as an rxjs
    subscriber drops them. The backend's parts, the uuid it draws and
    `JSON.stringify` are caller-supplied. */
module MastraAgent {
  import opened Wrappers
  import opened Messages
  import opened Events
  import opened MastraMessages

  /** A part of the backend's data stream. */
  datatype Part =
    | TextPart(text: string)
    | FinishMessagePart
    | ToolCallPart(toolCallId: string, toolName: string, args: Json)
    | ToolCallDeltaPart(deltaToolCallId: string, argsTextDelta: string)
    | ToolCallStreamingStartPart(startToolCallId: string, startToolName: string)
    | ToolResultPart(resultToolCallId: string, result: Json)

  /** Why the stream failed: the history did not convert (the error is
      thrown while subscribing), or the backend request was rejected. */
  datatype Failure = ConversionFailed(cause: ConvertError) | BackendFailed(reason: string)

  /** The subscriber's state: not yet subscribed, open, completed, failed. */
  datatype Status = Idle | Open | Finished | Failed(failure: Failure)

  /** The text message open while `currentMessageId` is set. */
  function OpenMessages(current: Option<string>): set<string> {
    if current.Some? then {current.value} else {}
  }

  /** The message id after a part: the first text part draws the fresh id;
      nothing ever clears it. */
  function NextMessageId(current: Option<string>, p: Part, freshId: string): Option<string> {
    if p.TextPart? && current.None? then Some(freshId) else current
  }

  /** What the callback for one part emits while the stream is open. */
  function PartEvents(input: RunInput, current: Option<string>, p: Part, freshId: string, stringify: Json -> string): seq<Event> {
    match p
    case TextPart(text) =>
      (if current.None? then [TextMessageStart(freshId, Some(Assistant))] else [])
      + [TextMessageContent(NextMessageId(current, p, freshId).value, text)]
    case FinishMessagePart =>
      (if current.Some? then [TextMessageEnd(current.value)] else [])
      + [RunFinished(input.threadId, input.runId)]
    case ToolCallPart(id, name, args) =>
      [ToolCallStart(id, name), ToolCallArgs(id, stringify(args)), ToolCallEnd(id)]
    case ToolCallDeltaPart(_, _) => []
    case ToolCallStreamingStartPart(_, _) => []
    case ToolResultPart(_, _) => []
  }

  /** Some part is the finish part. */
  predicate FinishIn(parts: seq<Part>) {
    exists k :: 0 <= k < |parts| && parts[k].FinishMessagePart?
  }

  /** What the parts emit after RUN_STARTED, starting from message id
      `current`: each part's events, up to and including the first finish
      part, after which the stream is complete. */
  function Translation(input: RunInput, current: Option<string>, parts: seq<Part>, freshId: string, stringify: Json -> string): seq<Event>
    decreases |parts|
  {
    if parts == [] then []
    else
      PartEvents(input, current, parts[0], freshId, stringify)
      + (if parts[0].FinishMessagePart? then []
         else Translation(input, NextMessageId(current, parts[0], freshId), parts[1..], freshId, stringify))
  }

  /** The message id after all the parts, or at the first finish part. */
  function IdAfter(current: Option<string>, parts: seq<Part>, freshId: string): Option<string>
    decreases |parts|
  {
    if parts == [] || parts[0].FinishMessagePart? then current
    else IdAfter(NextMessageId(current, parts[0], freshId), parts[1..], freshId)
  }

  /** Reading one part's events from an open run: the finish part ends the
      run; every other part leaves no tool call open and exactly the
      current message (if any) open. */
  lemma PartScan(input: RunInput, current: Option<string>, p: Part, freshId: string, stringify: Json -> string)
    ensures var t, r := input.threadId, input.runId;
      ScanFrom(Running(t, r, OpenMessages(current), {}), PartEvents(input, current, p, freshId, stringify))
        == if p.FinishMessagePart? then Some(Ended)
           else Some(Running(t, r, OpenMessages(NextMessageId(current, p, freshId)), {}))
  {
    var t, r := input.threadId, input.runId;
    var s := Running(t, r, OpenMessages(current), {});
    var es := PartEvents(input, current, p, freshId, stringify);
    match p
    case TextPart(text) =>
      var m := NextMessageId(current, p, freshId).value;
      var s1 := Running(t, r, {m}, {});
      if current.None? {
        assert {} + {m} == {m};
        assert Step(s, es[0]) == Some(s1);
        assert es[1..] == [TextMessageContent(m, text)];
        assert ScanFrom(s1, es[1..]) == Some(s1) by {
          assert es[1..][1..] == [];
        }
      } else {
        assert s == s1;
        assert es[1..] == [];
      }
    case FinishMessagePart =>
      if current.Some? {
        var m := current.value;
        assert {m} - {m} == {};
        var s0 := Running(t, r, {}, {});
        assert Step(s, es[0]) == Some(s0);
        assert es[1..] == [RunFinished(t, r)];
        assert ScanFrom(s0, es[1..]) == Some(Ended) by {
          assert es[1..][1..] == [];
        }
      } else {
        assert es[1..] == [];
      }
    case ToolCallPart(id, name, args) =>
      var s1 := Running(t, r, OpenMessages(current), {id});
      assert {} + {id} == {id};
      assert {id} - {id} == {};
      assert Step(s, es[0]) == Some(s1);
      assert Step(s1, es[1]) == Some(s1);
      assert Step(s1, es[2]) == Some(s);
      assert ScanFrom(s1, es[2..]) == Some(s) by {
        assert es[2..][1..] == [];
      }
      assert ScanFrom(s1, es[1..]) == Some(s) by {
        assert es[1..][1..] == es[2..];
      }
    case ToolCallDeltaPart(_, _) =>
    case ToolCallStreamingStartPart(_, _) =>
    case ToolResultPart(_, _) =>
  }

  /** Reading the whole translation from an open run: it ends the run
      exactly when some part is the finish part; otherwise the run stays
      open with only the current text message open. */
  lemma {:induction false} TranslationScan(input: RunInput, current: Option<string>, parts: seq<Part>, freshId: string, stringify: Json -> string)
    ensures var t, r := input.threadId, input.runId;
      ScanFrom(Running(t, r, OpenMessages(current), {}), Translation(input, current, parts, freshId, stringify))
        == if FinishIn(parts) then Some(Ended)
           else Some(Running(t, r, OpenMessages(IdAfter(current, parts, freshId)), {}))
    decreases |parts|
  {
    var t, r := input.threadId, input.runId;
    var s := Running(t, r, OpenMessages(current), {});
    if parts == [] {
      assert !FinishIn(parts);
    } else {
      var p := parts[0];
      var head := PartEvents(input, current, p, freshId, stringify);
      PartScan(input, current, p, freshId, stringify);
      if p.FinishMessagePart? {
        assert FinishIn(parts);
        assert Translation(input, current, parts, freshId, stringify) == head;
        assert head + [] == head;
      } else {
        var next := NextMessageId(current, p, freshId);
        var tail := Translation(input, next, parts[1..], freshId, stringify);
        TranslationScan(input, next, parts[1..], freshId, stringify);
        ScanAppend(s, head, tail);
        assert FinishIn(parts) == FinishIn(parts[1..]) by {
          if FinishIn(parts) {
            var k :| 0 <= k < |parts| && parts[k].FinishMessagePart?;
            assert parts[1..][k - 1] == parts[k];
          }
          if FinishIn(parts[1..]) {
            var k :| 0 <= k < |parts[1..]| && parts[1..][k].FinishMessagePart?;
            assert parts[k + 1] == parts[1..][k];
          }
        }
      }
    }
  }

  /** The whole adapter stream, RUN_STARTED then the translation, is well
      formed exactly when the backend sends a finish part; without one the
      run is left in progress. */
  lemma AdapterStreamWellFormed(input: RunInput, parts: seq<Part>, freshId: string, stringify: Json -> string)
    ensures var es := [RunStarted(input.threadId, input.runId)] + Translation(input, None, parts, freshId, stringify);
      && (FinishIn(parts) ==> WellFormed(es))
      && (!FinishIn(parts) ==> InProgress(es, input.threadId, input.runId, OpenMessages(IdAfter(None, parts, freshId)), {}))
  {
    var t, r := input.threadId, input.runId;
    TranslationScan(input, None, parts, freshId, stringify);
    ScanAppend(Fresh, [RunStarted(t, r)], Translation(input, None, parts, freshId, stringify));
    assert ScanFrom(Fresh, [RunStarted(t, r)]) == Some(Running(t, r, {}, {}));
  }

  /** The texts of the text parts, up to the first finish part. */
  function Texts(parts: seq<Part>): seq<string>
    decreases |parts|
  {
    if parts == [] || parts[0].FinishMessagePart? then []
    else (if parts[0].TextPart? then [parts[0].text] else []) + Texts(parts[1..])
  }

  /** Every TEXT_MESSAGE_CONTENT delta is the text of the part that
      produced it: the deltas are exactly the texts of the text parts, in
      order, up to the finish part. */
  lemma {:induction false} TranslationDeltas(input: RunInput, current: Option<string>, parts: seq<Part>, freshId: string, stringify: Json -> string)
    ensures Deltas(Translation(input, current, parts, freshId, stringify)) == Texts(parts)
    decreases |parts|
  {
    if parts != [] {
      var p := parts[0];
      var head := PartEvents(input, current, p, freshId, stringify);
      var next := NextMessageId(current, p, freshId);
      var tail := if p.FinishMessagePart? then [] else Translation(input, next, parts[1..], freshId, stringify);
      DeltasAppend(head, tail);
      if !p.FinishMessagePart? {
        TranslationDeltas(input, next, parts[1..], freshId, stringify);
      }
      match p
      case TextPart(text) =>
        if current.None? {
          assert Deltas(head) == Deltas(head[1..]);
        }
        assert Deltas(head[|head| - 1..]) == [text];
        assert head[|head| - 1..] == [TextMessageContent(next.value, text)];
      case FinishMessagePart =>
        if current.Some? {
          assert Deltas(head) == Deltas(head[1..]);
        }
      case ToolCallPart(_, _, _) =>
        assert Deltas(head) == Deltas(head[1..]) == Deltas(head[2..]) == Deltas(head[3..]);
      case ToolCallDeltaPart(_, _) =>
      case ToolCallStreamingStartPart(_, _) =>
      case ToolResultPart(_, _) =>
    }
  }

  /** The id the run's text message has, given the current id. */
  function MessageIdFrom(current: Option<string>, freshId: string): string {
    if current.Some? then current.value else freshId
  }

  lemma PartMessageId(input: RunInput, current: Option<string>, p: Part, freshId: string, stringify: Json -> string)
    ensures AllCarry(PartEvents(input, current, p, freshId, stringify), MessageIdFrom(current, freshId))
  {
  }

  /** One text message only: every text event of the translation carries
      the same id, the current one or else the fresh one drawn at the first
      text part. */
  lemma {:induction false} TranslationMessageId(input: RunInput, current: Option<string>, parts: seq<Part>, freshId: string, stringify: Json -> string)
    ensures AllCarry(Translation(input, current, parts, freshId, stringify), MessageIdFrom(current, freshId))
    decreases |parts|
  {
    var id := MessageIdFrom(current, freshId);
    if parts != [] {
      var p := parts[0];
      var head := PartEvents(input, current, p, freshId, stringify);
      var next := NextMessageId(current, p, freshId);
      assert MessageIdFrom(next, freshId) == id;
      PartMessageId(input, current, p, freshId, stringify);
      if p.FinishMessagePart? {
        assert head + [] == head;
      } else {
        var tail := Translation(input, next, parts[1..], freshId, stringify);
        TranslationMessageId(input, next, parts[1..], freshId, stringify);
        AllCarryAppend(head, tail, id);
      }
    }
  }

  /** The backend names every tool call by its own id. */
  predicate DistinctToolCallIds(parts: seq<Part>) {
    forall i, j :: 0 <= i < j < |parts| && parts[i].ToolCallPart? && parts[j].ToolCallPart? ==>
      parts[i].toolCallId != parts[j].toolCallId
  }

  /** What one part opens: a text message only for the first text part, a
      tool call only for a tool-call part, under the part's id. */
  lemma PartOpened(input: RunInput, current: Option<string>, p: Part, freshId: string, stringify: Json -> string, id: string)
    ensures var es := PartEvents(input, current, p, freshId, stringify);
      && Opened(es, MessageSpan, id) == Indicator(p.TextPart? && current.None? && id == freshId)
      && Opened(es, ToolCallSpan, id) == Indicator(p.ToolCallPart? && p.toolCallId == id)
  {
    var es := PartEvents(input, current, p, freshId, stringify);
    match p
    case TextPart(_) =>
      assert Opened(es[|es| - 1..], MessageSpan, id) == 0;
      assert Opened(es[|es| - 1..], ToolCallSpan, id) == 0;
      if current.None? {
        assert es[1..] == es[|es| - 1..];
      }
    case FinishMessagePart =>
      assert Opened(es[|es| - 1..], MessageSpan, id) == 0;
      assert Opened(es[|es| - 1..], ToolCallSpan, id) == 0;
      if current.Some? {
        assert es[1..] == es[|es| - 1..];
      }
    case ToolCallPart(_, _, _) =>
      var last := es[2..];
      assert es[1..][1..] == last && last[1..] == [];
      assert Opened(last, MessageSpan, id) == 0 && Opened(last, ToolCallSpan, id) == 0;
      assert Opened(es[1..], MessageSpan, id) == 0 && Opened(es[1..], ToolCallSpan, id) == 0;
    case ToolCallDeltaPart(_, _) =>
    case ToolCallStreamingStartPart(_, _) =>
    case ToolResultPart(_, _) =>
  }

  /** A part closes a tool call exactly when it is a tool-call part, under
      the part's id. */
  lemma PartClosesToolCall(input: RunInput, current: Option<string>, p: Part, freshId: string, stringify: Json -> string, id: string)
    ensures Closed(PartEvents(input, current, p, freshId, stringify), ToolCallSpan, id)
      == Indicator(p.ToolCallPart? && p.toolCallId == id)
  {
    var es := PartEvents(input, current, p, freshId, stringify);
    match p
    case TextPart(_) =>
      assert Closed(es[|es| - 1..], ToolCallSpan, id) == 0;
      if current.None? {
        assert es[1..] == es[|es| - 1..];
      }
    case FinishMessagePart =>
      assert Closed(es[|es| - 1..], ToolCallSpan, id) == 0;
      if current.Some? {
        assert es[1..] == es[|es| - 1..];
      }
    case ToolCallPart(_, _, _) =>
      var last := es[2..];
      assert es[1..][1..] == last && last[1..] == [];
      assert Closed(last, ToolCallSpan, id) == Indicator(p.toolCallId == id);
      assert !Closes(es[0], ToolCallSpan, id) && !Closes(es[1], ToolCallSpan, id);
      assert Closed(es[1..], ToolCallSpan, id) == Closed(last, ToolCallSpan, id);
    case ToolCallDeltaPart(_, _) =>
    case ToolCallStreamingStartPart(_, _) =>
    case ToolResultPart(_, _) =>
  }

  /** Once a message id is set, no further TEXT_MESSAGE_START is sent; before
      that, at most one is. */
  lemma {:induction false} TranslationOpensOneMessage(input: RunInput, current: Option<string>, parts: seq<Part>, freshId: string, stringify: Json -> string, id: string)
    ensures Opened(Translation(input, current, parts, freshId, stringify), MessageSpan, id) <= Indicator(current.None?)
    decreases |parts|
  {
    if parts != [] {
      var p := parts[0];
      var head := PartEvents(input, current, p, freshId, stringify);
      var next := NextMessageId(current, p, freshId);
      PartOpened(input, current, p, freshId, stringify, id);
      if p.FinishMessagePart? {
        assert Translation(input, current, parts, freshId, stringify) == head;
      } else {
        var tail := Translation(input, next, parts[1..], freshId, stringify);
        TranslationOpensOneMessage(input, next, parts[1..], freshId, stringify, id);
        CountAppend(head, tail, MessageSpan, id);
      }
    }
  }

  /** Parts that never name `id` open no tool call `id`. */
  lemma {:induction false} TranslationOpensNoToolCall(input: RunInput, current: Option<string>, parts: seq<Part>, freshId: string, stringify: Json -> string, id: string)
    requires forall i :: 0 <= i < |parts| && parts[i].ToolCallPart? ==> parts[i].toolCallId != id
    ensures Opened(Translation(input, current, parts, freshId, stringify), ToolCallSpan, id) == 0
    decreases |parts|
  {
    if parts != [] {
      var p := parts[0];
      var head := PartEvents(input, current, p, freshId, stringify);
      var next := NextMessageId(current, p, freshId);
      PartOpened(input, current, p, freshId, stringify, id);
      if p.FinishMessagePart? {
        assert Translation(input, current, parts, freshId, stringify) == head;
      } else {
        var tail := Translation(input, next, parts[1..], freshId, stringify);
        assert forall i :: 0 <= i < |parts[1..]| ==> parts[1..][i] == parts[i + 1];
        TranslationOpensNoToolCall(input, next, parts[1..], freshId, stringify, id);
        CountAppend(head, tail, ToolCallSpan, id);
      }
    }
  }

  /** With distinct tool-call ids from the backend, each tool call is
      opened at most once. */
  lemma {:induction false} TranslationOpensToolCallOnce(input: RunInput, current: Option<string>, parts: seq<Part>, freshId: string, stringify: Json -> string, id: string)
    requires DistinctToolCallIds(parts)
    ensures Opened(Translation(input, current, parts, freshId, stringify), ToolCallSpan, id) <= 1
    decreases |parts|
  {
    if parts != [] {
      var p := parts[0];
      var head := PartEvents(input, current, p, freshId, stringify);
      var next := NextMessageId(current, p, freshId);
      PartOpened(input, current, p, freshId, stringify, id);
      if p.FinishMessagePart? {
        assert Translation(input, current, parts, freshId, stringify) == head;
      } else {
        var rest := parts[1..];
        var tail := Translation(input, next, rest, freshId, stringify);
        assert forall i :: 0 <= i < |rest| ==> rest[i] == parts[i + 1];
        assert DistinctToolCallIds(rest);
        if p.ToolCallPart? && p.toolCallId == id {
          TranslationOpensNoToolCall(input, next, rest, freshId, stringify, id);
        } else {
          TranslationOpensToolCallOnce(input, next, rest, freshId, stringify, id);
        }
        CountAppend(head, tail, ToolCallSpan, id);
      }
    }
  }

  /** The adapter opens one text message at most, and, when the backend's
      tool-call ids are distinct, each tool call at most once; so in a
      finished stream each span is also closed at most once. The adapter
      forwards the backend's ids unchanged, so the condition is needed. */
  lemma AdapterSpansOnce(input: RunInput, parts: seq<Part>, freshId: string, stringify: Json -> string)
    requires DistinctToolCallIds(parts)
    ensures var es := [RunStarted(input.threadId, input.runId)] + Translation(input, None, parts, freshId, stringify);
      && OpensOnce(es)
      && (FinishIn(parts) ==> forall k, id :: Closed(es, k, id) <= 1)
  {
    var start := [RunStarted(input.threadId, input.runId)];
    var tr := Translation(input, None, parts, freshId, stringify);
    var es := start + tr;
    forall k, id
      ensures Opened(es, k, id) <= 1
    {
      CountAppend(start, tr, k, id);
      OpenedNone(start, k, id);
      if k == MessageSpan {
        TranslationOpensOneMessage(input, None, parts, freshId, stringify, id);
      } else {
        TranslationOpensToolCallOnce(input, None, parts, freshId, stringify, id);
      }
    }
    if FinishIn(parts) {
      AdapterStreamWellFormed(input, parts, freshId, stringify);
      forall k, id
        ensures Closed(es, k, id) <= 1
      {
        ClosedOnce(es, k, id);
      }
    }
  }

  /** A backend that repeats a tool-call id makes the adapter open and close
      that tool call twice in one run. */
  lemma RepeatedToolCallIdIsForwarded(input: RunInput, freshId: string, stringify: Json -> string, args: Json)
    ensures var parts := [ToolCallPart("c", "t", args), ToolCallPart("c", "t", args), FinishMessagePart];
      var es := [RunStarted(input.threadId, input.runId)] + Translation(input, None, parts, freshId, stringify);
      Opened(es, ToolCallSpan, "c") == 2 && Closed(es, ToolCallSpan, "c") == 2
  {
    var parts := [ToolCallPart("c", "t", args), ToolCallPart("c", "t", args), FinishMessagePart];
    var start := [RunStarted(input.threadId, input.runId)];
    var e0 := PartEvents(input, None, parts[0], freshId, stringify);
    var e1 := PartEvents(input, None, parts[1], freshId, stringify);
    var e2 := PartEvents(input, None, parts[2], freshId, stringify);
    PartOpened(input, None, parts[0], freshId, stringify, "c");
    PartOpened(input, None, parts[1], freshId, stringify, "c");
    PartOpened(input, None, parts[2], freshId, stringify, "c");
    PartClosesToolCall(input, None, parts[0], freshId, stringify, "c");
    PartClosesToolCall(input, None, parts[1], freshId, stringify, "c");
    PartClosesToolCall(input, None, parts[2], freshId, stringify, "c");
    assert parts[1..][1..] == [FinishMessagePart];
    assert Translation(input, None, parts[1..][1..], freshId, stringify) == e2 + [];
    assert Translation(input, None, parts[1..], freshId, stringify) == e1 + (e2 + []);
    assert Translation(input, None, parts, freshId, stringify) == e0 + (e1 + (e2 + []));
    assert e2 + [] == e2;
    CountAppend(e1, e2, ToolCallSpan, "c");
    CountAppend(e0, e1 + e2, ToolCallSpan, "c");
    CountAppend(start, e0 + (e1 + e2), ToolCallSpan, "c");
    OpenedNone(start, ToolCallSpan, "c");
  }

  /** The adapter for one run: the closure state of `run` and what the
      subscriber has been sent. */
  class MastraRun {
    const input: RunInput
    var status: Status
    var currentMessageId: Option<string>
    var events: seq<Event>
    /** The converted history handed to the backend. */
    var request: seq<CoreMessage>

    /** Open: a run in progress whose only open span is the current text
        message. Finished: a well-formed run ending in RUN_FINISHED.
        Failed: nothing sent, or a run cut off before any terminal event. */
    ghost predicate Valid()
      reads this
    {
      match status
      case Idle => events == [] && currentMessageId == None
      case Open => InProgress(events, input.threadId, input.runId, OpenMessages(currentMessageId), {})
      case Finished =>
        && WellFormed(events) && |events| >= 1
        && events[|events| - 1] == RunFinished(input.threadId, input.runId)
      case Failed(_) => Unfinished(events)
    }

    constructor(input: RunInput)
      ensures this.input == input && status == Idle && currentMessageId == None
      ensures events == [] && request == []
      ensures Valid()
    {
      this.input := input;
      status := Idle;
      currentMessageId := None;
      events := [];
      request := [];
    }

    /** Subscribing: the history is converted first; if that throws the
        stream fails with nothing sent, otherwise RUN_STARTED with the
        input's ids is sent before any backend part is read. */
    method Subscribe(parse: string -> Option<Json>)
      requires Valid() && status == Idle
      modifies this
      ensures Valid() && currentMessageId == None
      ensures match Converted(input.messages, parse)
        case Success(converted) =>
          status == Open && events == [RunStarted(input.threadId, input.runId)] && request == converted
        case Failure(e) =>
          status == Failed(ConversionFailed(e)) && events == [] && request == old(request)
    {
      var converted := ConvertMessagesToMastraMessages(input.messages, parse);
      match converted
      case Failure(e) =>
        status := Failed(ConversionFailed(e));
      case Success(c) =>
        request := c;
        events := events + [RunStarted(input.threadId, input.runId)];
        status := Open;
        assert ScanFrom(Fresh, events) == ScanFrom(Running(input.threadId, input.runId, {}, {}), []);
    }

    /** Sending a part's events keeps an open run valid. */
    lemma SendPreservesValid(oldEvents: seq<Event>, current: Option<string>, p: Part, freshId: string, stringify: Json -> string)
      requires InProgress(oldEvents, input.threadId, input.runId, OpenMessages(current), {})
      ensures var es := oldEvents + PartEvents(input, current, p, freshId, stringify);
        if p.FinishMessagePart? then WellFormed(es) && es[|es| - 1] == RunFinished(input.threadId, input.runId)
        else InProgress(es, input.threadId, input.runId, OpenMessages(NextMessageId(current, p, freshId)), {})
    {
      PartScan(input, current, p, freshId, stringify);
      ScanAppend(Fresh, oldEvents, PartEvents(input, current, p, freshId, stringify));
    }

    /** `onTextPart`: the first text part draws the fresh id and sends
        TEXT_MESSAGE_START with role assistant; every text part then sends
        its text as CONTENT under the current id. */
    method OnTextPart(text: string, freshId: string)
      requires Valid() && status != Idle
      modifies this
      ensures Valid() && status == old(status) && request == old(request)
      ensures currentMessageId == (if old(currentMessageId).None? then Some(freshId) else old(currentMessageId))
      ensures events == old(events) +
        (if old(status).Open? then
           (if old(currentMessageId).None? then [TextMessageStart(freshId, Some(Assistant))] else [])
           + [TextMessageContent(currentMessageId.value, text)]
         else [])
    {
      ghost var stringify: Json -> string := (j: Json) => "";
      ghost var current := currentMessageId;
      ghost var before := events;
      if currentMessageId.None? {
        currentMessageId := Some(freshId);
        if status.Open? {
          events := events + [TextMessageStart(freshId, Some(Assistant))];
        }
      }
      if status.Open? {
        events := events + [TextMessageContent(currentMessageId.value, text)];
        assert events == before + PartEvents(input, current, TextPart(text), freshId, stringify);
        SendPreservesValid(before, current, TextPart(text), freshId, stringify);
      }
    }

    /** `onFinishMessagePart`: closes the open text message, if any, sends
        RUN_FINISHED and completes the stream. */
    method OnFinishMessagePart()
      requires Valid() && status != Idle
      modifies this
      ensures Valid() && request == old(request) && currentMessageId == old(currentMessageId)
      ensures status == (if old(status).Open? then Finished else old(status))
      ensures events == old(events) +
        (if old(status).Open? then
           (if currentMessageId.Some? then [TextMessageEnd(currentMessageId.value)] else [])
           + [RunFinished(input.threadId, input.runId)]
         else [])
    {
      ghost var stringify: Json -> string := (j: Json) => "";
      ghost var before := events;
      if status.Open? {
        if currentMessageId.Some? {
          events := events + [TextMessageEnd(currentMessageId.value)];
        }
        events := events + [RunFinished(input.threadId, input.runId)];
        assert events == before + PartEvents(input, currentMessageId, FinishMessagePart, "", stringify);
        SendPreservesValid(before, currentMessageId, FinishMessagePart, "", stringify);
        status := Finished;
      }
    }

    /** `onToolCallPart`: TOOL_CALL_START with the tool's name, ARGS with
        the serialized arguments and END, all under the part's id. */
    method OnToolCallPart(toolCallId: string, toolName: string, args: Json, stringify: Json -> string)
      requires Valid() && status != Idle
      modifies this
      ensures Valid() && status == old(status) && request == old(request)
      ensures currentMessageId == old(currentMessageId)
      ensures events == old(events) +
        (if old(status).Open? then
           [ToolCallStart(toolCallId, toolName), ToolCallArgs(toolCallId, stringify(args)), ToolCallEnd(toolCallId)]
         else [])
    {
      ghost var before := events;
      if status.Open? {
        events := events + [ToolCallStart(toolCallId, toolName)];
        events := events + [ToolCallArgs(toolCallId, stringify(args))];
        events := events + [ToolCallEnd(toolCallId)];
        assert events == before + PartEvents(input, currentMessageId, ToolCallPart(toolCallId, toolName, args), "", stringify);
        SendPreservesValid(before, currentMessageId, ToolCallPart(toolCallId, toolName, args), "", stringify);
      }
    }

    /** The data-stream dispatch: each part goes to its callback; the
        tool-call-delta, streaming-start and tool-result callbacks only log,
        so those parts send nothing and change nothing. */
    method OnPart(p: Part, freshId: string, stringify: Json -> string)
      requires Valid() && status != Idle
      modifies this
      ensures Valid() && request == old(request)
      ensures currentMessageId == NextMessageId(old(currentMessageId), p, freshId)
      ensures status == (if old(status).Open? && p.FinishMessagePart? then Finished else old(status))
      ensures events == old(events) +
        (if old(status).Open? then PartEvents(input, old(currentMessageId), p, freshId, stringify) else [])
    {
      match p
      case TextPart(text) => OnTextPart(text, freshId);
      case FinishMessagePart => OnFinishMessagePart();
      case ToolCallPart(id, name, args) => OnToolCallPart(id, name, args, stringify);
      case ToolCallDeltaPart(_, _) =>
      case ToolCallStreamingStartPart(_, _) =>
      case ToolResultPart(_, _) =>
    }

    /** The backend request was rejected: the stream fails; nothing more is
        sent, in particular no RUN_FINISHED. A stream already complete is
        unaffected. */
    method Fail(reason: string)
      requires Valid() && status != Idle
      modifies this
      ensures Valid() && events == old(events) && request == old(request)
      ensures currentMessageId == old(currentMessageId)
      ensures status == (if old(status).Open? then Failed(BackendFailed(reason)) else old(status))
    {
      if status.Open? {
        status := Failed(BackendFailed(reason));
      }
    }
  }

  /** One step of the translation: a part's events, then, unless it is
      the finish part, the rest. */
  lemma TranslationAt(input: RunInput, current: Option<string>, parts: seq<Part>, i: nat, freshId: string, stringify: Json -> string)
    requires i < |parts|
    ensures Translation(input, current, parts[i..], freshId, stringify)
      == PartEvents(input, current, parts[i], freshId, stringify)
         + (if parts[i].FinishMessagePart? then []
            else Translation(input, NextMessageId(current, parts[i], freshId), parts[i + 1..], freshId, stringify))
  {
    assert parts[i..][0] == parts[i] && parts[i..][1..] == parts[i + 1..];
  }

  lemma FeedStep(input: RunInput, before: seq<Event>, current: Option<string>, parts: seq<Part>, i: nat, freshId: string, stringify: Json -> string)
    requires i < |parts|
    ensures before + Translation(input, current, parts[i..], freshId, stringify)
      == (before + PartEvents(input, current, parts[i], freshId, stringify))
         + (if parts[i].FinishMessagePart? then []
            else Translation(input, NextMessageId(current, parts[i], freshId), parts[i + 1..], freshId, stringify))
  {
    TranslationAt(input, current, parts, i, freshId, stringify);
  }

  /** Feeding the backend's parts to an open run, in order: the run sends
      exactly the translation of the parts and is finished exactly when one
      of them is the finish part. */
  method Feed(run: MastraRun, parts: seq<Part>, freshId: string, stringify: Json -> string)
    requires run.Valid() && run.status == Open
    modifies run
    ensures run.Valid() && run.request == old(run.request)
    ensures run.events == old(run.events) + Translation(run.input, old(run.currentMessageId), parts, freshId, stringify)
    ensures run.status == (if FinishIn(parts) then Finished else Open)
  {
    ghost var full := run.events + Translation(run.input, run.currentMessageId, parts, freshId, stringify);
    var i := 0;
    while i < |parts| && run.status == Open
      invariant 0 <= i <= |parts|
      invariant run.Valid() && run.request == old(run.request)
      invariant run.status == Open || run.status == Finished
      invariant run.status == Open ==>
        && run.events + Translation(run.input, run.currentMessageId, parts[i..], freshId, stringify) == full
        && forall k :: 0 <= k < i ==> !parts[k].FinishMessagePart?
      invariant run.status == Finished ==> run.events == full && 0 < i && parts[i - 1].FinishMessagePart?
    {
      ghost var before := run.events;
      ghost var current := run.currentMessageId;
      FeedStep(run.input, before, current, parts, i, freshId, stringify);
      run.OnPart(parts[i], freshId, stringify);
      i := i + 1;
    }
    if run.status == Open {
      assert parts[i..] == [];
    }
  }

  /** A subscription to the adapter's `run`, from start to end: the backend
      either rejects the request or streams `parts`; a finished stream is
      well formed, and a failed one holds no RUN_FINISHED. */
  method Run(input: RunInput, parse: string -> Option<Json>, backend: Result<seq<Part>, string>,
             freshId: string, stringify: Json -> string)
    returns (run: MastraRun)
    ensures fresh(run) && run.Valid() && run.input == input
    ensures match Converted(input.messages, parse)
      case Failure(e) => run.status == Failed(ConversionFailed(e)) && run.events == []
      case Success(converted) =>
        && run.request == converted
        && match backend
          case Failure(reason) =>
            run.status == Failed(BackendFailed(reason)) && run.events == [RunStarted(input.threadId, input.runId)]
          case Success(parts) =>
            && run.events == [RunStarted(input.threadId, input.runId)] + Translation(input, None, parts, freshId, stringify)
            && run.status == (if FinishIn(parts) then Finished else Open)
  {
    run := new MastraRun(input);
    run.Subscribe(parse);
    if run.status.Open? {
      match backend
      case Failure(reason) =>
        run.Fail(reason);
      case Success(parts) =>
        Feed(run, parts, freshId, stringify);
    }
  }
}
