/** The transform stage shared by the two private-event agents: each
    `response` event their `run` emits is rewritten into a complete run
    envelope of five protocol events; any other event kind fails the stream.
    Both agents carry this code verbatim (stochastic-parrot.ts and
    your-custom-agent.ts). */
module ResponseTransform {
  import opened Wrappers
  import opened Messages
  import opened Events

  /** An agent's private event: a kind tag and the response text. */
  datatype AgentEvent = AgentEvent(kind: string, response: string)

  const ResponseKind: string := "response"

  /** The five events one response becomes. The message id is the
      caller-supplied rendering of `Date.now()`; TEXT_MESSAGE_START carries
      no role. */
  function Envelope(input: RunInput, messageId: string, response: string): seq<Event> {
    [ RunStarted(input.threadId, input.runId),
      TextMessageStart(messageId, None),
      TextMessageContent(messageId, response),
      TextMessageEnd(messageId),
      RunFinished(input.threadId, input.runId) ]
  }

  /** The `mergeMap` body for one private event. */
  function TransformEvent(input: RunInput, e: AgentEvent, messageId: string): Result<seq<Event>, string> {
    if e.kind == ResponseKind then Success(Envelope(input, messageId, e.response))
    else Failure("Unexpected event type: " + e.kind)
  }

  /** The transformed stream: envelopes for the source's events in order,
      stopping at the first event that is not a response. `messageIds[i]` is
      the id chosen while rewriting `source[i]`. */
  function Transform(input: RunInput, source: seq<AgentEvent>, messageIds: seq<string>): (r: Stream)
    requires |messageIds| == |source|
    ensures r.end.Completed? <==> forall i :: 0 <= i < |source| ==> source[i].kind == ResponseKind
    ensures r.end.Errored? ==>
      exists i :: 0 <= i < |source| && source[i].kind != ResponseKind
        && r.end.error == "Unexpected event type: " + source[i].kind
    ensures |r.events| % 5 == 0 && |r.events| <= 5 * |source|
    decreases |source|
  {
    if source == [] then Stream([], Completed)
    else
      match TransformEvent(input, source[0], messageIds[0])
      case Failure(msg) => Stream([], Errored(msg))
      case Success(es) =>
        var rest := Transform(input, source[1..], messageIds[1..]);
        Stream(es + rest.events, rest.end)
  }

  /** How many leading source events are responses. */
  function ResponsePrefix(source: seq<AgentEvent>): (k: nat)
    ensures k <= |source|
    ensures forall i :: 0 <= i < k ==> source[i].kind == ResponseKind
    ensures k < |source| ==> source[k].kind != ResponseKind
    decreases |source|
  {
    if source == [] || source[0].kind != ResponseKind then 0 else 1 + ResponsePrefix(source[1..])
  }

  /** One response is a complete, well-formed run: START, CONTENT and END share
      the message id, CONTENT carries the response, and both run events carry
      the input's thread and run ids. */
  lemma EnvelopeIsWellFormedRun(input: RunInput, messageId: string, response: string)
    ensures WellFormed(Envelope(input, messageId, response))
  {
    var t, r := input.threadId, input.runId;
    var body := [TextMessageStart(messageId, None), TextMessageContent(messageId, response), TextMessageEnd(messageId)];
    var s0 := Running(t, r, {}, {});
    var s1 := Running(t, r, {messageId}, {});
    assert {messageId} - {messageId} == {};
    assert {} + {messageId} == {messageId};
    assert Step(s0, body[0]) == Some(s1);
    assert Step(s1, body[1]) == Some(s1);
    assert Step(s1, body[2]) == Some(s0);
    assert ScanFrom(s1, body[2..]) == Some(s0) by {
      assert body[2..] == [TextMessageEnd(messageId)];
      assert body[2..][1..] == [];
    }
    assert ScanFrom(s1, body[1..]) == Some(s0) by {
      assert body[1..][1..] == body[2..];
    }
    assert ScanFrom(s0, body) == Some(s0);
    EnvelopeWellFormed(t, r, body);
    assert [RunStarted(t, r)] + body + [RunFinished(t, r)] == Envelope(input, messageId, response);
  }

  /** One response opens its message, and closes it, exactly once, and
      opens or closes no other span. */
  lemma EnvelopeSpansOnce(input: RunInput, messageId: string, response: string)
    ensures OpensOnce(Envelope(input, messageId, response))
    ensures forall k, id :: Closed(Envelope(input, messageId, response), k, id) <= 1
    ensures Opened(Envelope(input, messageId, response), MessageSpan, messageId) == 1
    ensures Closed(Envelope(input, messageId, response), MessageSpan, messageId) == 1
    ensures forall k, id :: k != MessageSpan || id != messageId ==>
      Opened(Envelope(input, messageId, response), k, id) == 0
      && Closed(Envelope(input, messageId, response), k, id) == 0
  {
    var es := Envelope(input, messageId, response);
    forall k, id
      ensures Opened(es, k, id) == Indicator(k == MessageSpan && id == messageId)
      ensures Closed(es, k, id) == Indicator(k == MessageSpan && id == messageId)
    {
      EnvelopeCounts(input, messageId, response, k, id);
    }
    OpensOnlyAt(es, 1);
    EnvelopeIsWellFormedRun(input, messageId, response);
    forall k, id
      ensures Closed(es, k, id) <= 1
    {
      ClosedOnce(es, k, id);
    }
  }

  /** How often one envelope opens and closes a span: once for its message,
      never for anything else. */
  lemma EnvelopeCounts(input: RunInput, messageId: string, response: string, k: SpanKind, id: string)
    ensures Opened(Envelope(input, messageId, response), k, id) == Indicator(k == MessageSpan && id == messageId)
    ensures Closed(Envelope(input, messageId, response), k, id) == Indicator(k == MessageSpan && id == messageId)
  {
    var es := Envelope(input, messageId, response);
    assert es[4..][1..] == [];
    assert Opened(es[4..], k, id) == 0 && Closed(es[4..], k, id) == 0;
    assert es[3..][1..] == es[4..];
    assert Opened(es[3..], k, id) == 0;
    assert es[2..][1..] == es[3..];
    assert Opened(es[2..], k, id) == 0 && Closed(es[2..], k, id) == Closed(es[3..], k, id);
    assert es[1..][1..] == es[2..];
    assert Closed(es[1..], k, id) == Closed(es[2..], k, id);
  }

  /** The transformed stream, exactly: one envelope per leading response, in
      order, with the i-th envelope built from the i-th id; it completes when
      every source event is a response, and otherwise fails with
      "Unexpected event type: <kind>" for the first one that is not, emitting
      nothing for it or after it. */
  lemma {:induction false} TransformSpec(input: RunInput, source: seq<AgentEvent>, messageIds: seq<string>)
    requires |messageIds| == |source|
    ensures var k := ResponsePrefix(source);
      |Transform(input, source, messageIds).events| == 5 * k
      && (forall i :: 0 <= i < k ==>
            Transform(input, source, messageIds).events[5 * i .. 5 * i + 5]
              == Envelope(input, messageIds[i], source[i].response))
      && Transform(input, source, messageIds).end
           == (if k == |source| then Completed else Errored("Unexpected event type: " + source[k].kind))
    decreases |source|
  {
    if source != [] && source[0].kind == ResponseKind {
      var env := Envelope(input, messageIds[0], source[0].response);
      var rest := Transform(input, source[1..], messageIds[1..]);
      TransformSpec(input, source[1..], messageIds[1..]);
      var k := ResponsePrefix(source);
      assert k == 1 + ResponsePrefix(source[1..]);
      var out := Transform(input, source, messageIds).events;
      assert out == env + rest.events;
      forall i | 0 <= i < k
        ensures out[5 * i .. 5 * i + 5] == Envelope(input, messageIds[i], source[i].response)
      {
        if i == 0 {
          assert out[0..5] == env;
        } else {
          assert out[5 * i .. 5 * i + 5] == rest.events[5 * (i - 1) .. 5 * (i - 1) + 5];
        }
      }
    }
  }

  /** A source of a single response becomes exactly one well-formed run. */
  lemma SingleResponseRun(input: RunInput, response: string, messageId: string)
    ensures Transform(input, [AgentEvent(ResponseKind, response)], [messageId])
         == Stream(Envelope(input, messageId, response), Completed)
    ensures WellFormed(Envelope(input, messageId, response))
  {
    var src := [AgentEvent(ResponseKind, response)];
    assert src[1..] == [];
    assert [messageId][1..] == [];
    assert Envelope(input, messageId, response) + [] == Envelope(input, messageId, response);
    EnvelopeIsWellFormedRun(input, messageId, response);
  }

  /** The transform is per event: a source of two or more responses yields a
      second RUN_STARTED, so only a `run` that emits exactly one response gives
      a well-formed stream. */
  lemma SeveralResponsesAreNotOneRun(input: RunInput, source: seq<AgentEvent>, messageIds: seq<string>)
    requires |messageIds| == |source| && |source| >= 2
    requires source[0].kind == ResponseKind && source[1].kind == ResponseKind
    ensures !WellFormed(Transform(input, source, messageIds).events)
  {
    TransformSpec(input, source, messageIds);
    var out := Transform(input, source, messageIds).events;
    assert ResponsePrefix(source) >= 2 by {
      assert ResponsePrefix(source[1..]) >= 1;
    }
    assert out[5..10] == Envelope(input, messageIds[1], source[1].response);
    assert out[5] == RunStarted(input.threadId, input.runId);
    if WellFormed(out) {
      WellFormedShape(out);
    }
  }
}
