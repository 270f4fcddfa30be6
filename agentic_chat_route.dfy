/** The scripted agentic-chat SSE route. `POST` validates the request body
    and answers with a stream whose `start` sends RUN_STARTED, then either
    the fixed change-background tool call (when the last message says
    "change_background") or a countdown text message, then RUN_FINISHED,
    and closes. Each event is encoded by itself and enqueued as one chunk.
    The event encoder, the message id drawn by uuid and the validated body
    are caller-supplied. */
module AgenticChatRoute {
  import opened Wrappers
  import opened Messages
  import opened Events
  import opened JsString

  newtype byte = x: int | 0 <= x < 256

  /** The frame of each event, in order. */
  function Frames(encode: Event -> seq<byte>, es: seq<Event>): seq<seq<byte>> {
    seq(|es|, i requires 0 <= i < |es| => encode(es[i]))
  }

  /** The chunks of a stream laid end to end. */
  function Flatten(chunks: seq<seq<byte>>): seq<byte>
    decreases |chunks|
  {
    if chunks == [] then [] else Flatten(chunks[..|chunks| - 1]) + chunks[|chunks| - 1]
  }

  /** The bytes of two runs of chunks are the bytes of each, one after the
      other. */
  lemma {:induction false} FlattenAppend(a: seq<seq<byte>>, b: seq<seq<byte>>)
    ensures Flatten(a + b) == Flatten(a) + Flatten(b)
    decreases |b|
  {
    if b == [] {
      assert a + b == a;
    } else {
      var b', last := b[..|b| - 1], b[|b| - 1];
      assert (a + b)[..|a + b| - 1] == a + b';
      assert (a + b)[|a + b| - 1] == last;
      FlattenAppend(a, b');
      calc {
        Flatten(a + b);
        Flatten(a + b') + last;
        (Flatten(a) + Flatten(b')) + last;
        Flatten(a) + (Flatten(b') + last);
        Flatten(a) + Flatten(b);
      }
    }
  }

  /** The response body: what `sendEvent` has enqueued so far, and the
      events it came from. */
  class EventStream {
    /** Event encoder then text encoder, as one per-event function. */
    const encode: Event -> seq<byte>
    var chunks: seq<seq<byte>>
    var closed: bool
    ghost var sent: seq<Event>

    /** The chunks are the frames of the events sent, in order. */
    ghost predicate Valid()
      reads this
    {
      chunks == Frames(encode, sent)
    }

    /** The bytes on the wire. */
    function Bytes(): seq<byte>
      reads this
    {
      Flatten(chunks)
    }

    constructor(encode: Event -> seq<byte>)
      ensures this.encode == encode && chunks == [] && sent == [] && !closed
      ensures Valid()
    {
      this.encode := encode;
      chunks := [];
      closed := false;
      sent := [];
    }

    /** `sendEvent`: encode one event and enqueue it as its own chunk, so
        the bytes grow by exactly that event's frame. */
    method SendEvent(e: Event)
      requires Valid() && !closed
      modifies this
      ensures Valid() && !closed
      ensures sent == old(sent) + [e] && chunks == old(chunks) + [encode(e)]
      ensures Bytes() == old(Bytes()) + encode(e)
    {
      chunks := chunks + [encode(e)];
      sent := sent + [e];
      assert chunks[..|chunks| - 1] == old(chunks);
    }

    /** `controller.close()`. */
    method Close()
      requires !closed
      modifies this
      ensures closed && chunks == old(chunks) && sent == old(sent)
    {
      closed := true;
    }
  }

  const ChangeBackground: string := "change_background"

  /** `JSON.stringify` of the one-key object naming the new background. */
  const GradientArgs: string := "{\"background\":\"linear-gradient(135deg, #667eea 0%, #764ba2 100%)\"}"

  const CountdownIntro: string := "Mastra integration in: "
  const CheckMark: string := "\U{2713}"

  /** What `sendToolCallEvents` sends. */
  function ToolCallScript(): seq<Event> {
    [ ToolCallStart(ChangeBackground, ChangeBackground),
      ToolCallArgs(ChangeBackground, GradientArgs),
      ToolCallEnd(ChangeBackground) ]
  }

  /** The delta for one value of the countdown. */
  function Tick(count: nat): string {
    DecimalString(count) + "  "
  }

  /** The countdown deltas, from 10 down to 1. */
  function Countdown(): seq<string> {
    seq(10, k requires 0 <= k < 10 => Tick(10 - k))
  }

  function CountdownEvents(messageId: string): seq<Event> {
    seq(10, k requires 0 <= k < 10 => TextMessageContent(messageId, Countdown()[k]))
  }

  /** What `sendTextMessageEvents` sends under the message id it draws. */
  function TextScript(messageId: string): seq<Event> {
    [ TextMessageStart(messageId, Some(Assistant)), TextMessageContent(messageId, CountdownIntro) ]
    + CountdownEvents(messageId)
    + [ TextMessageContent(messageId, CheckMark), TextMessageEnd(messageId) ]
  }

  /** The branch test: the last message's content is "change_background";
      an empty history, or a last message without content, fails it. */
  predicate TakesToolBranch(messages: seq<Message>) {
    |messages| > 0 && messages[|messages| - 1].content == Some(ChangeBackground)
  }

  /** Everything the stream's `start` sends. */
  function Script(input: RunInput, messageId: string): seq<Event> {
    [RunStarted(input.threadId, input.runId)]
    + (if TakesToolBranch(input.messages) then ToolCallScript() else TextScript(messageId))
    + [RunFinished(input.threadId, input.runId)]
  }

  /** `sendToolCallEvents`. */
  method SendToolCallEvents(stream: EventStream)
    requires stream.Valid() && !stream.closed
    modifies stream
    ensures stream.Valid() && !stream.closed && stream.sent == old(stream.sent) + ToolCallScript()
  {
    stream.SendEvent(ToolCallStart(ChangeBackground, ChangeBackground));
    stream.SendEvent(ToolCallArgs(ChangeBackground, GradientArgs));
    stream.SendEvent(ToolCallEnd(ChangeBackground));
  }

  /** `sendTextMessageEvents`, with the countdown loop from 10 down to 1. */
  method SendTextMessageEvents(stream: EventStream, messageId: string)
    requires stream.Valid() && !stream.closed
    modifies stream
    ensures stream.Valid() && !stream.closed && stream.sent == old(stream.sent) + TextScript(messageId)
  {
    ghost var head := old(stream.sent) + [TextMessageStart(messageId, Some(Assistant)), TextMessageContent(messageId, CountdownIntro)];
    stream.SendEvent(TextMessageStart(messageId, Some(Assistant)));
    stream.SendEvent(TextMessageContent(messageId, CountdownIntro));
    var count := 10;
    while count >= 1
      invariant 0 <= count <= 10
      invariant stream.Valid() && !stream.closed
      invariant stream.sent == head + CountdownEvents(messageId)[..10 - count]
    {
      ghost var before := stream.sent;
      CountdownPrefix(messageId, count);
      stream.SendEvent(TextMessageContent(messageId, Tick(count)));
      Snoc(head, CountdownEvents(messageId)[..10 - count], TextMessageContent(messageId, Tick(count)),
           CountdownEvents(messageId)[..10 - count + 1]);
      count := count - 1;
    }
    ghost var middle := stream.sent;
    stream.SendEvent(TextMessageContent(messageId, CheckMark));
    stream.SendEvent(TextMessageEnd(messageId));
    TextScriptAfter(old(stream.sent), messageId, middle, stream.sent);
  }

  lemma Snoc(head: seq<Event>, prefix: seq<Event>, e: Event, next: seq<Event>)
    requires next == prefix + [e]
    ensures (head + prefix) + [e] == head + next
  {
  }

  /** The text script is its two opening events, the countdown and its two
      closing events. */
  lemma TextScriptAfter(before: seq<Event>, messageId: string, middle: seq<Event>, after: seq<Event>)
    requires middle == before + [TextMessageStart(messageId, Some(Assistant)), TextMessageContent(messageId, CountdownIntro)]
                      + CountdownEvents(messageId)[..10]
    requires after == middle + [TextMessageContent(messageId, CheckMark)] + [TextMessageEnd(messageId)]
    ensures after == before + TextScript(messageId)
  {
    assert CountdownEvents(messageId)[..10] == CountdownEvents(messageId);
  }

  /** The countdown sent so far grows by the tick for `count`. */
  lemma CountdownPrefix(messageId: string, count: nat)
    requires 1 <= count <= 10
    ensures CountdownEvents(messageId)[..10 - count + 1]
      == CountdownEvents(messageId)[..10 - count] + [TextMessageContent(messageId, Tick(count))]
  {
    var events := CountdownEvents(messageId);
    var k := 10 - count;
    assert Countdown()[k] == Tick(count);
    assert events[k] == TextMessageContent(messageId, Tick(count));
    assert events[..k + 1] == events[..k] + [events[k]];
  }

  /** `POST`: a body the schema rejects throws before any stream exists;
      otherwise the stream holds the script, framed event by event, and is
      closed. */
  method Post(body: Option<RunInput>, messageId: string, encode: Event -> seq<byte>)
    returns (stream: EventStream?)
    ensures body.None? <==> stream == null
    ensures stream != null ==>
      && fresh(stream) && stream.Valid() && stream.closed && stream.encode == encode
      && stream.sent == Script(body.value, messageId)
      && stream.Bytes() == Flatten(Frames(encode, Script(body.value, messageId)))
  {
    if body.None? {
      return null;
    }
    var input := body.value;
    stream := new EventStream(encode);
    stream.SendEvent(RunStarted(input.threadId, input.runId));
    ghost var branch: seq<Event>;
    if |input.messages| > 0 && input.messages[|input.messages| - 1].content == Some(ChangeBackground) {
      SendToolCallEvents(stream);
      branch := ToolCallScript();
    } else {
      SendTextMessageEvents(stream, messageId);
      branch := TextScript(messageId);
    }
    stream.SendEvent(RunFinished(input.threadId, input.runId));
    ScriptOf(input, messageId, branch, stream.sent);
    stream.Close();
  }

  lemma ScriptOf(input: RunInput, messageId: string, branch: seq<Event>, sent: seq<Event>)
    requires branch == if TakesToolBranch(input.messages) then ToolCallScript() else TextScript(messageId)
    requires sent == [RunStarted(input.threadId, input.runId)] + branch + [RunFinished(input.threadId, input.runId)]
    ensures sent == Script(input, messageId)
  {
  }

  /** Content events for an open message leave the reader's state as it
      was. */
  lemma {:induction false} ContentsKeepState(s: Scan, messageId: string, es: seq<Event>)
    requires s.Running? && messageId in s.openMessages
    requires forall i :: 0 <= i < |es| ==> es[i].TextMessageContent? && es[i].messageId == messageId
    ensures ScanFrom(s, es) == Some(s)
    decreases |es|
  {
    if es != [] {
      assert es[0].TextMessageContent?;
      ContentsKeepState(s, messageId, es[1..]);
    }
  }

  /** The tool branch closes the tool call it opens. */
  lemma ToolCallScriptScan(t: string, r: string, ms: set<string>)
    ensures ScanFrom(Running(t, r, ms, {}), ToolCallScript()) == Some(Running(t, r, ms, {}))
  {
    var s := Running(t, r, ms, {});
    var s1 := Running(t, r, ms, {ChangeBackground});
    var es := ToolCallScript();
    assert {} + {ChangeBackground} == {ChangeBackground};
    assert {ChangeBackground} - {ChangeBackground} == {};
    assert Step(s, es[0]) == Some(s1);
    assert ScanFrom(s1, es[2..]) == Some(s) by {
      assert es[2..][1..] == [];
    }
    assert ScanFrom(s1, es[1..]) == Some(s) by {
      assert es[1..][1..] == es[2..];
    }
  }

  /** The text branch closes the message it opens. */
  lemma TextScriptScan(t: string, r: string, messageId: string)
    ensures ScanFrom(Running(t, r, {}, {}), TextScript(messageId)) == Some(Running(t, r, {}, {}))
  {
    var s := Running(t, r, {}, {});
    var s1 := Running(t, r, {messageId}, {});
    var contents := [TextMessageContent(messageId, CountdownIntro)] + CountdownEvents(messageId) + [TextMessageContent(messageId, CheckMark)];
    var es := TextScript(messageId);
    assert es == [TextMessageStart(messageId, Some(Assistant))] + contents + [TextMessageEnd(messageId)];
    assert {} + {messageId} == {messageId};
    assert {messageId} - {messageId} == {};
    ContentsKeepState(s1, messageId, contents);
    ScanAppend(s, [TextMessageStart(messageId, Some(Assistant))] + contents, [TextMessageEnd(messageId)]);
    ScanAppend(s, [TextMessageStart(messageId, Some(Assistant))], contents);
    assert ScanFrom(s, [TextMessageStart(messageId, Some(Assistant))]) == Some(s1);
    assert ScanFrom(s1, [TextMessageEnd(messageId)]) == Some(s);
  }

  /** Whatever the history, the route sends one well-formed run: first
      RUN_STARTED and last RUN_FINISHED, both with the input's ids. */
  lemma ScriptWellFormed(input: RunInput, messageId: string)
    ensures var es := Script(input, messageId);
      && WellFormed(es)
      && es[0] == RunStarted(input.threadId, input.runId)
      && es[|es| - 1] == RunFinished(input.threadId, input.runId)
  {
    if TakesToolBranch(input.messages) {
      ToolCallScriptScan(input.threadId, input.runId, {});
      EnvelopeWellFormed(input.threadId, input.runId, ToolCallScript());
    } else {
      TextScriptScan(input.threadId, input.runId, messageId);
      EnvelopeWellFormed(input.threadId, input.runId, TextScript(messageId));
    }
  }

  /** Every id is opened, and closed, at most once in the script: the one
      span either branch opens is the only one. */
  lemma ScriptSpansOnce(input: RunInput, messageId: string)
    ensures OpensOnce(Script(input, messageId))
    ensures forall k, id :: Closed(Script(input, messageId), k, id) <= 1
  {
    var es := Script(input, messageId);
    if !TakesToolBranch(input.messages) {
      var body := TextScript(messageId);
      TextScriptShape(messageId);
      assert |es| == 16;
      forall i | 0 <= i < |es| && i != 1
        ensures !es[i].TextMessageStart? && !es[i].ToolCallStart?
      {
        if 1 <= i < 15 {
          assert es[i] == body[i - 1];
        }
      }
    }
    OpensOnlyAt(es, 1);
    ScriptWellFormed(input, messageId);
    forall k, id
      ensures Closed(es, k, id) <= 1
    {
      ClosedOnce(es, k, id);
    }
  }

  /** The branch is observable: the run is the five-event tool call exactly
      when the last message says "change_background", and the sixteen-event
      countdown otherwise, in particular for an empty history. */
  lemma BranchChoice(input: RunInput, messageId: string)
    ensures var es := Script(input, messageId);
      && (es[1] == ToolCallStart(ChangeBackground, ChangeBackground) <==> TakesToolBranch(input.messages))
      && (|es| == 5 <==> TakesToolBranch(input.messages))
      && (|es| == 16 <==> !TakesToolBranch(input.messages))
      && (input.messages == [] ==> es[1..15] == TextScript(messageId))
  {
    var es := Script(input, messageId);
    assert |TextScript(messageId)| == 14;
    if !TakesToolBranch(input.messages) {
      assert es[1] == TextScript(messageId)[0];
      assert es[1..15] == TextScript(messageId);
    }
  }

  /** The text branch: fourteen events, the first TEXT_MESSAGE_START with
      role assistant and the last TEXT_MESSAGE_END, all under the one id;
      its deltas are the intro, the countdown and the check mark. */
  lemma TextScriptShape(messageId: string)
    ensures var es := TextScript(messageId);
      && |es| == 14
      && es[0] == TextMessageStart(messageId, Some(Assistant))
      && es[13] == TextMessageEnd(messageId)
      && (forall i :: 1 <= i < 13 ==> es[i].TextMessageContent?)
      && AllCarry(es, messageId)
      && Deltas(es) == [CountdownIntro] + Countdown() + [CheckMark]
  {
    var es := TextScript(messageId);
    var contents := [TextMessageContent(messageId, CountdownIntro)] + CountdownEvents(messageId) + [TextMessageContent(messageId, CheckMark)];
    assert es == [TextMessageStart(messageId, Some(Assistant))] + contents + [TextMessageEnd(messageId)];
    CountdownDeltas(messageId);
    DeltasAppend([TextMessageStart(messageId, Some(Assistant))] + contents, [TextMessageEnd(messageId)]);
    DeltasAppend([TextMessageStart(messageId, Some(Assistant))], contents);
    DeltasAppend([TextMessageContent(messageId, CountdownIntro)] + CountdownEvents(messageId), [TextMessageContent(messageId, CheckMark)]);
    DeltasAppend([TextMessageContent(messageId, CountdownIntro)], CountdownEvents(messageId));
  }

  lemma CountdownDeltas(messageId: string)
    ensures Deltas(CountdownEvents(messageId)) == Countdown()
  {
    ContentDeltas(CountdownEvents(messageId), messageId, Countdown());
  }

  lemma {:induction false} ContentDeltas(es: seq<Event>, messageId: string, deltas: seq<string>)
    requires |es| == |deltas|
    requires forall i :: 0 <= i < |es| ==> es[i] == TextMessageContent(messageId, deltas[i])
    ensures Deltas(es) == deltas
    decreases |es|
  {
    if es != [] {
      ContentDeltas(es[1..], messageId, deltas[1..]);
      assert deltas == [deltas[0]] + deltas[1..];
    }
  }

  /** The countdown counts down: its k-th delta is the number 10 - k,
      written in decimal, then two spaces; so it runs "10  " to "1  ". */
  lemma CountdownCountsDown()
    ensures |Countdown()| == 10
    ensures forall k :: 0 <= k < 10 ==>
      var d := Countdown()[k];
      && |d| >= 3 && d[|d| - 2..] == "  "
      && (forall i :: 0 <= i < |d| - 2 ==> '0' <= d[i] <= '9')
      && DecimalValue(d[..|d| - 2]) == 10 - k
  {
    forall k | 0 <= k < 10
      ensures var d := Countdown()[k];
        && |d| >= 3 && d[|d| - 2..] == "  "
        && (forall i :: 0 <= i < |d| - 2 ==> '0' <= d[i] <= '9')
        && DecimalValue(d[..|d| - 2]) == 10 - k
    {
      var d := Countdown()[k];
      assert d[..|d| - 2] == DecimalString(10 - k);
      DecimalRoundTrip(10 - k);
    }
  }

  /** The countdown's first and last deltas. */
  lemma CountdownEnds()
    ensures Countdown()[0] == "10  " && Countdown()[9] == "1  "
  {
    assert DecimalString(10) == "10" by {
      assert DecimalString(1) == "1";
    }
  }

  /** The response body is the frames of the run's events laid end to end,
      so it splits at the frame boundaries of any split of the run. */
  lemma FramesSplit(encode: Event -> seq<byte>, a: seq<Event>, b: seq<Event>)
    ensures Flatten(Frames(encode, a + b)) == Flatten(Frames(encode, a)) + Flatten(Frames(encode, b))
  {
    assert Frames(encode, a + b) == Frames(encode, a) + Frames(encode, b);
    FlattenAppend(Frames(encode, a), Frames(encode, b));
  }
}
