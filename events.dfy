/** The agent run event protocol: the closed set of event kinds an agent
    streams back for one run, and the ordering discipline every stream must
    obey. `WellFormed` is stated as the receiver's span-tracking state
    machine; the lemmas below derive the declarative ordering rules from it. */
module Events {
  import opened Wrappers
  import opened Messages

  /** One protocol event. Field names are the canonical camelCase ones. */
  datatype Event =
    | RunStarted(threadId: string, runId: string)
    | RunFinished(threadId: string, runId: string)
    | RunError(threadId: string, runId: string, message: string)
    | TextMessageStart(messageId: string, role: Option<Role>)
    | TextMessageContent(messageId: string, delta: string)
    | TextMessageEnd(messageId: string)
    | ToolCallStart(toolCallId: string, toolCallName: string)
    | ToolCallArgs(toolCallId: string, delta: string)
    | ToolCallEnd(toolCallId: string)
  {
    /** RUN_FINISHED and RUN_ERROR end a run. */
    predicate IsTerminal() {
      RunFinished? || RunError?
    }
  }

  /** How an emitted stream ended: completed, or failed with an error
      (an rxjs `subscriber.error`, not a RUN_ERROR event). */
  datatype StreamEnd = Completed | Errored(error: string)

  /** What a subscriber observes: the events, then the way the stream ended. */
  datatype Stream = Stream(events: seq<Event>, end: StreamEnd)

  /** The receiver's view of a run while it reads the stream. */
  datatype Scan =
    | Fresh
    | Running(threadId: string, runId: string, openMessages: set<string>, openToolCalls: set<string>)
    | Ended

  /** Reading one event; `None` is a protocol violation. */
  function Step(s: Scan, e: Event): Option<Scan> {
    match s
    case Fresh =>
      if e.RunStarted? then Some(Running(e.threadId, e.runId, {}, {})) else None
    case Ended => None
    case Running(t, r, ms, ts) =>
      match e
      case RunStarted(_, _) => None
      case RunFinished(t', r') =>
        if t' == t && r' == r && ms == {} && ts == {} then Some(Ended) else None
      case RunError(t', r', _) =>
        if t' == t && r' == r then Some(Ended) else None
      case TextMessageStart(m, _) =>
        if m !in ms then Some(Running(t, r, ms + {m}, ts)) else None
      case TextMessageContent(m, _) =>
        if m in ms then Some(s) else None
      case TextMessageEnd(m) =>
        if m in ms then Some(Running(t, r, ms - {m}, ts)) else None
      case ToolCallStart(c, _) =>
        if c !in ts then Some(Running(t, r, ms, ts + {c})) else None
      case ToolCallArgs(c, _) =>
        if c in ts then Some(s) else None
      case ToolCallEnd(c) =>
        if c in ts then Some(Running(t, r, ms, ts - {c})) else None
  }

  /** Reading a whole sequence of events, front to back. */
  function ScanFrom(s: Scan, es: seq<Event>): Option<Scan>
    decreases |es|
  {
    if es == [] then Some(s)
    else
      match Step(s, es[0])
      case None => None
      case Some(s') => ScanFrom(s', es[1..])
  }

  function Continue(o: Option<Scan>, es: seq<Event>): Option<Scan> {
    match o
    case None => None
    case Some(s) => ScanFrom(s, es)
  }

  /** A complete run: one RUN_STARTED first; every message and tool-call
      span opened is closed before RUN_FINISHED; CONTENT, ARGS and END only
      for an open span; one terminal event, last, carrying the run's ids. */
  predicate WellFormed(es: seq<Event>) {
    ScanFrom(Fresh, es) == Some(Ended)
  }

  /** A run that has started and not ended, with exactly these spans open. */
  predicate InProgress(es: seq<Event>, threadId: string, runId: string, ms: set<string>, ts: set<string>) {
    ScanFrom(Fresh, es) == Some(Running(threadId, runId, ms, ts))
  }

  /** The two kinds of span. */
  datatype SpanKind = MessageSpan | ToolCallSpan

  predicate Opens(e: Event, k: SpanKind, id: string) {
    match k
    case MessageSpan => e.TextMessageStart? && e.messageId == id
    case ToolCallSpan => e.ToolCallStart? && e.toolCallId == id
  }

  predicate Closes(e: Event, k: SpanKind, id: string) {
    match k
    case MessageSpan => e.TextMessageEnd? && e.messageId == id
    case ToolCallSpan => e.ToolCallEnd? && e.toolCallId == id
  }

  /** TEXT_MESSAGE_CONTENT and TOOL_CALL_ARGS: deltas inside a span. */
  predicate Extends(e: Event, k: SpanKind, id: string) {
    match k
    case MessageSpan => e.TextMessageContent? && e.messageId == id
    case ToolCallSpan => e.ToolCallArgs? && e.toolCallId == id
  }

  function Opened(es: seq<Event>, k: SpanKind, id: string): nat
    decreases |es|
  {
    if es == [] then 0 else (if Opens(es[0], k, id) then 1 else 0) + Opened(es[1..], k, id)
  }

  function Closed(es: seq<Event>, k: SpanKind, id: string): nat
    decreases |es|
  {
    if es == [] then 0 else (if Closes(es[0], k, id) then 1 else 0) + Closed(es[1..], k, id)
  }

  function OpenSpans(s: Scan, k: SpanKind): set<string>
    requires s.Running?
  {
    match k
    case MessageSpan => s.openMessages
    case ToolCallSpan => s.openToolCalls
  }

  function Indicator(b: bool): nat {
    if b then 1 else 0
  }

  /** Reading `a + b` is reading `a`, then `b` from where `a` left off. */
  lemma {:induction false} ScanAppend(s: Scan, a: seq<Event>, b: seq<Event>)
    ensures ScanFrom(s, a + b) == Continue(ScanFrom(s, a), b)
    decreases |a|
  {
    if a == [] {
      assert a + b == b;
    } else {
      assert (a + b)[0] == a[0];
      assert (a + b)[1..] == a[1..] + b;
      match Step(s, a[0])
      case None =>
      case Some(s') => ScanAppend(s', a[1..], b);
    }
  }

  /** Nothing may follow the terminal event. */
  lemma EndedIsLast(es: seq<Event>)
    requires ScanFrom(Ended, es).Some?
    ensures es == [] && ScanFrom(Ended, es) == Some(Ended)
  {
  }

  /** From a running state, reaching the end means: no RUN_STARTED at all, a
      terminal event with the run's ids last, and no terminal event before it. */
  lemma {:induction false} RunningShape(t: string, r: string, ms: set<string>, ts: set<string>, es: seq<Event>)
    requires ScanFrom(Running(t, r, ms, ts), es) == Some(Ended)
    ensures |es| >= 1
    ensures es[|es| - 1].IsTerminal() && es[|es| - 1].threadId == t && es[|es| - 1].runId == r
    ensures forall i :: 0 <= i < |es| ==> !es[i].RunStarted?
    ensures forall i :: 0 <= i < |es| - 1 ==> !es[i].IsTerminal()
    decreases |es|
  {
    var s' := Step(Running(t, r, ms, ts), es[0]).value;
    if es[0].IsTerminal() {
      assert s' == Ended;
      EndedIsLast(es[1..]);
    } else {
      assert s'.Running? && s'.threadId == t && s'.runId == r;
      RunningShape(t, r, s'.openMessages, s'.openToolCalls, es[1..]);
      assert es == [es[0]] + es[1..];
    }
  }

  /** The declarative reading of `WellFormed`: exactly one RUN_STARTED, first;
      exactly one terminal event, last, with the same thread and run ids. */
  lemma WellFormedShape(es: seq<Event>)
    requires WellFormed(es)
    ensures |es| >= 2
    ensures es[0].RunStarted?
    ensures forall i :: 1 <= i < |es| ==> !es[i].RunStarted?
    ensures es[|es| - 1].IsTerminal()
    ensures es[|es| - 1].threadId == es[0].threadId && es[|es| - 1].runId == es[0].runId
    ensures forall i :: 0 <= i < |es| - 1 ==> !es[i].IsTerminal()
  {
    assert es != [];
    assert es[0].RunStarted?;
    RunningShape(es[0].threadId, es[0].runId, {}, {}, es[1..]);
    forall i | 1 <= i < |es|
      ensures !es[i].RunStarted?
    {
      assert es[i] == es[1..][i - 1];
    }
    forall i | 0 <= i < |es| - 1
      ensures !es[i].IsTerminal()
    {
      if i > 0 {
        assert es[i] == es[1..][i - 1];
      }
    }
  }

  lemma StepCount(s: Scan, e: Event, s1: Scan, k: SpanKind, id: string)
    requires s.Running? && s1.Running? && Step(s, e) == Some(s1)
    ensures Indicator(id in OpenSpans(s, k)) + Indicator(Opens(e, k, id))
         == Indicator(id in OpenSpans(s1, k)) + Indicator(Closes(e, k, id))
  {
  }

  /** The span-count invariant: what was open, plus what opens, equals what is
      open afterwards, plus what closes. */
  lemma {:induction false} SpanCount(s: Scan, es: seq<Event>, s2: Scan, k: SpanKind, id: string)
    requires s.Running? && s2.Running? && ScanFrom(s, es) == Some(s2)
    ensures Indicator(id in OpenSpans(s, k)) + Opened(es, k, id)
         == Indicator(id in OpenSpans(s2, k)) + Closed(es, k, id)
    decreases |es|
  {
    if es != [] {
      var s1 := Step(s, es[0]).value;
      if s1 == Ended {
        EndedIsLast(es[1..]);
      } else {
        StepCount(s, es[0], s1, k, id);
        SpanCount(s1, es[1..], s2, k, id);
      }
    }
  }

  lemma {:induction false} CountAppend(a: seq<Event>, b: seq<Event>, k: SpanKind, id: string)
    ensures Opened(a + b, k, id) == Opened(a, k, id) + Opened(b, k, id)
    ensures Closed(a + b, k, id) == Closed(a, k, id) + Closed(b, k, id)
    decreases |a|
  {
    if a == [] {
      assert a + b == b;
    } else {
      assert (a + b)[0] == a[0];
      assert (a + b)[1..] == a[1..] + b;
      CountAppend(a[1..], b, k, id);
    }
  }

  /** No event returns the receiver to its initial state. */
  lemma {:induction false} NeverFresh(s: Scan, es: seq<Event>)
    requires s != Fresh && ScanFrom(s, es).Some?
    ensures ScanFrom(s, es).value != Fresh
    decreases |es|
  {
    if es != [] {
      NeverFresh(Step(s, es[0]).value, es[1..]);
    }
  }

  /** Reading a prefix of a well-formed run that stops before its last
      event leaves the run in progress. */
  lemma PrefixInProgress(es: seq<Event>, n: nat)
    requires WellFormed(es) && 1 <= n < |es|
    ensures ScanFrom(Fresh, es[..n]).Some?
    ensures ScanFrom(Fresh, es[..n]).value.Running?
    ensures Step(ScanFrom(Fresh, es[..n]).value, es[n]).Some?
  {
    assert es == es[..n] + es[n..];
    ScanAppend(Fresh, es[..n], es[n..]);
    var p := ScanFrom(Fresh, es[..n]).value;
    assert es[n..][0] == es[n];
    if p == Ended {
      EndedIsLast(es[n..]);
    }
    var s0 := Running(es[0].threadId, es[0].runId, {}, {});
    assert es[..n] == [es[0]] + es[1..n];
    assert ScanFrom(Fresh, es[..n]) == ScanFrom(s0, es[1..n]);
    NeverFresh(s0, es[1..n]);
  }

  /** A stream cut off before its terminal event: nothing yet, or a run
      that has started and not ended. */
  predicate Unfinished(es: seq<Event>) {
    es == [] || (ScanFrom(Fresh, es).Some? && ScanFrom(Fresh, es).value.Running?)
  }

  lemma {:induction false} RunningHasNoTerminal(s: Scan, es: seq<Event>)
    requires s.Running? && ScanFrom(s, es).Some? && ScanFrom(s, es).value.Running?
    ensures forall i :: 0 <= i < |es| ==> !es[i].IsTerminal()
    decreases |es|
  {
    if es != [] {
      assert !es[0].IsTerminal() by {
        if es[0].IsTerminal() {
          EndedIsLast(es[1..]);
        }
      }
      RunningHasNoTerminal(Step(s, es[0]).value, es[1..]);
      assert forall i :: 1 <= i < |es| ==> es[i] == es[1..][i - 1];
    }
  }

  /** An unfinished stream holds no RUN_FINISHED and no RUN_ERROR. */
  lemma UnfinishedHasNoTerminal(es: seq<Event>)
    requires Unfinished(es)
    ensures forall i :: 0 <= i < |es| ==> !es[i].IsTerminal()
  {
    if es != [] {
      var s0 := Step(Fresh, es[0]).value;
      RunningHasNoTerminal(s0, es[1..]);
      assert forall i :: 1 <= i < |es| ==> es[i] == es[1..][i - 1];
    }
  }

  /** Every span of a well-formed run, at every point before its terminal
      event: a span is open at most once (starts minus ends is 0 or 1); a
      START comes only when its id is not open; CONTENT, ARGS and END only
      when it is. */
  lemma SpanDiscipline(es: seq<Event>, n: nat, k: SpanKind, id: string)
    requires WellFormed(es) && n < |es|
    ensures Closed(es[..n], k, id) <= Opened(es[..n], k, id) <= Closed(es[..n], k, id) + 1
    ensures Opens(es[n], k, id) ==> Opened(es[..n], k, id) == Closed(es[..n], k, id)
    ensures Extends(es[n], k, id) || Closes(es[n], k, id) ==> Opened(es[..n], k, id) == Closed(es[..n], k, id) + 1
  {
    if n == 0 {
      WellFormedShape(es);
    } else {
      PrefixInProgress(es, n);
      var p := ScanFrom(Fresh, es[..n]).value;
      var s0 := Running(es[0].threadId, es[0].runId, {}, {});
      assert es[..n] == [es[0]] + es[1..n];
      assert ScanFrom(Fresh, es[..n]) == ScanFrom(s0, es[1..n]);
      SpanCount(s0, es[1..n], p, k, id);
      CountAppend([es[0]], es[1..n], k, id);
    }
  }

  /** On a run that ends with RUN_FINISHED, every span that opened also
      closed: per id, as many ENDs as STARTs. */
  lemma FinishedRunBalanced(es: seq<Event>, k: SpanKind, id: string)
    requires WellFormed(es) && es[|es| - 1].RunFinished?
    ensures Opened(es, k, id) == Closed(es, k, id)
  {
    var n := |es| - 1;
    WellFormedShape(es);
    PrefixInProgress(es, n);
    var p := ScanFrom(Fresh, es[..n]).value;
    assert OpenSpans(p, k) == {};
    var s0 := Running(es[0].threadId, es[0].runId, {}, {});
    assert es[..n] == [es[0]] + es[1..n];
    assert ScanFrom(Fresh, es[..n]) == ScanFrom(s0, es[1..n]);
    SpanCount(s0, es[1..n], p, k, id);
    CountAppend([es[0]], es[1..n], k, id);
    assert es == es[..n] + [es[n]];
    CountAppend(es[..n], [es[n]], k, id);
  }

  /** The shape every generator here uses: RUN_STARTED, a body that leaves
      no span open, RUN_FINISHED with the same ids. */
  lemma EnvelopeWellFormed(t: string, r: string, body: seq<Event>)
    requires ScanFrom(Running(t, r, {}, {}), body) == Some(Running(t, r, {}, {}))
    ensures WellFormed([RunStarted(t, r)] + body + [RunFinished(t, r)])
  {
    ScanAppend(Fresh, [RunStarted(t, r)] + body, [RunFinished(t, r)]);
    ScanAppend(Fresh, [RunStarted(t, r)], body);
    assert ScanFrom(Fresh, [RunStarted(t, r)]) == Some(Running(t, r, {}, {}));
    assert ScanFrom(Ended, []) == Some(Ended);
    assert ScanFrom(Running(t, r, {}, {}), [RunFinished(t, r)]) == Some(Ended);
  }

  /** The TEXT_MESSAGE_CONTENT deltas of an event sequence, in order. */
  function Deltas(es: seq<Event>): seq<string>
    decreases |es|
  {
    if es == [] then []
    else (if es[0].TextMessageContent? then [es[0].delta] else []) + Deltas(es[1..])
  }

  lemma {:induction false} DeltasAppend(a: seq<Event>, b: seq<Event>)
    ensures Deltas(a + b) == Deltas(a) + Deltas(b)
    decreases |a|
  {
    if a == [] {
      assert a + b == b;
    } else {
      assert (a + b)[0] == a[0];
      assert (a + b)[1..] == a[1..] + b;
      DeltasAppend(a[1..], b);
    }
  }

  /** The message id of a text message event. */
  predicate CarriesMessageId(e: Event, id: string) {
    (e.TextMessageStart? || e.TextMessageContent? || e.TextMessageEnd?) ==> e.messageId == id
  }

  /** Every text event of `es` carries `id`. */
  predicate AllCarry(es: seq<Event>, id: string) {
    forall i :: 0 <= i < |es| ==> CarriesMessageId(es[i], id)
  }

  lemma AllCarryAppend(a: seq<Event>, b: seq<Event>, id: string)
    requires AllCarry(a, id) && AllCarry(b, id)
    ensures AllCarry(a + b, id)
  {
    forall i | 0 <= i < |a + b|
      ensures CarriesMessageId((a + b)[i], id)
    {
      if i >= |a| {
        assert (a + b)[i] == b[i - |a|];
      }
    }
  }

  /** Every id opens at most one text message and at most one tool call. */
  ghost predicate OpensOnce(es: seq<Event>) {
    forall k, id :: Opened(es, k, id) <= 1
  }

  lemma {:induction false} OpenedNone(es: seq<Event>, k: SpanKind, id: string)
    requires forall i :: 0 <= i < |es| ==> !Opens(es[i], k, id)
    ensures Opened(es, k, id) == 0
    decreases |es|
  {
    if es != [] {
      OpenedNone(es[1..], k, id);
    }
  }

  /** A stream with at most one event that opens spans, at index `j`, opens
      every id at most once. */
  lemma OpensOnlyAt(es: seq<Event>, j: nat)
    requires forall i :: 0 <= i < |es| && i != j ==> !es[i].TextMessageStart? && !es[i].ToolCallStart?
    ensures OpensOnce(es)
  {
    forall k, id
      ensures Opened(es, k, id) <= 1
    {
      if j < |es| {
        CountAppend(es[..j + 1], es[j + 1..], k, id);
        CountAppend(es[..j], [es[j]], k, id);
        assert es[..j + 1] + es[j + 1..] == es;
        assert es[..j + 1] == es[..j] + [es[j]];
        OpenedNone(es[..j], k, id);
        OpenedNone(es[j + 1..], k, id);
      } else {
        OpenedNone(es, k, id);
      }
    }
  }

  /** In a well-formed stream that opens every id at most once, every id is
      also closed at most once. */
  lemma ClosedOnce(es: seq<Event>, k: SpanKind, id: string)
    requires WellFormed(es) && OpensOnce(es)
    ensures Closed(es, k, id) <= 1
  {
    WellFormedShape(es);
    var n := |es| - 1;
    SpanDiscipline(es, n, k, id);
    CountAppend(es[..n], [es[n]], k, id);
    assert es[..n] + [es[n]] == es;
    assert Opened(es, k, id) <= 1;
    assert Closed([es[n]], k, id) == 0 by {
      assert !Closes(es[n], k, id);
    }
  }
}
