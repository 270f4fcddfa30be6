# Event-sequence generators of the AG-UI dojo, in Dafny

The dojo holds small agents that answer a run request with a stream of
agent-protocol events: RUN_STARTED, text messages (START, CONTENT, END),
tool calls (START, ARGS, END) and RUN_FINISHED. This project models four of
those generators and proves what each of them sends:

- **The Mastra adapter** (`MastraAgent`, `MastraMessages`). It converts the run's
  message history into the backend's message form. It then sends RUN_STARTED
  and translates the backend's data-stream parts into protocol events. The
  translation uses one mutable `currentMessageId` shared by the part
  callbacks. The adapter is a class, `MastraRun`, with one method per
  callback. The history converter is a loop method checked against a
  recursive reference definition.
- **The two private-event agents** (`StochasticParrot`, `YourCustomAgent`,
  `ResponseTransform`). Each emits one private `response` event, and
  `transform` expands every response into the five-event run envelope. The
  parrot's `completion` trims, lower-cases and splits the prompt, reflects
  pronouns through a table, and wraps the result in a random question and
  interjection. `JsString` models the string built-ins this needs.
- **The scripted SSE route** (`AgenticChatRoute`). `POST` streams either the
  fixed change-background tool call or a countdown text message, inside one
  run. Each event is encoded on its own and enqueued as one chunk.

`Events` defines the protocol's events. It also gives a receiver's state
machine (`Scan`, `Step`, `ScanFrom`), from which `WellFormed` is
defined. Under it, a stream is one run. RUN_STARTED comes first. Text
messages and tool calls are opened before use and, before RUN_FINISHED,
closed once. The terminal event comes last with the run's ids. RUN_FINISHED
needs every span closed. RUN_ERROR may end a run with spans still open. Lemmas derive the
declarative ordering rules from the machine. Every generator is proved to
produce a `WellFormed` sequence on its successful path.

Foreign calls are parameters:

- uuid: `freshId` and `messageId`;
- `Date.now().toString()`: the `messageIds` of `Transform`;
- `Math.random()`: draws in [0, 1);
- `JSON.parse` and `JSON.stringify`: `parse` and `stringify`;
- the event encoder: `encode`;
- the backend's outcome: `backend`;
- the validated request body: `body`.

The protocol has a RUN_ERROR event for a failed run, but the Mastra
adapter does not send it. A failed backend request makes the adapter call
`subscriber.error` instead. The model follows the code: `MastraAgent.Run`
ends such a stream `Failed` after RUN_STARTED, with no terminal event.

## Model

| member | source | states |
|---|---|---|
| Events.WellFormedShape | src/app/api/sse/agentic_chat/route.ts:110-130 | a well-formed stream starts with RUN_STARTED, has no other RUN_STARTED, and ends with its only terminal event, which carries the same thread and run ids |
| Events.FinishedRunBalanced | src/examples/mastra-agent.ts:86-100 | in a well-formed stream ending in RUN_FINISHED, every text message and tool call opened is closed |
| Events.SpanDiscipline | src/examples/mastra-agent.ts:64-121 | in a well-formed stream a span is opened only while closed, and extended or closed only while open |
| Events.UnfinishedHasNoTerminal | src/examples/mastra-agent.ts:134-138 | a stream cut off before its end (the failed adapter stream) holds no RUN_FINISHED or RUN_ERROR |
| Events.EnvelopeWellFormed | src/app/api/sse/agentic_chat/route.ts:110-130 | RUN_STARTED, a body that leaves no span open and RUN_FINISHED with the same ids form a well-formed stream |
| Events.PrefixInProgress | src/examples/mastra-agent.ts:46-104 | every non-empty proper prefix of a well-formed stream is a run in progress that accepts the next event |
| Events.OpensOnlyAt | src/app/api/sse/agentic_chat/route.ts:19-84 | a stream whose only START event is at one position opens every text message and tool call at most once |
| Events.ClosedOnce | src/examples/mastra-agent.ts:86-121 | in a well-formed stream that opens each span at most once, each span is also closed at most once |
| MastraMessages.ToolCallPartsSpec | src/examples/mastra-agent.ts:156-163 | tool calls convert exactly when every argument string parses; then one tool-call part per call, in order, with the call's id, name and parsed arguments; otherwise the error names the first unparsable call |
| MastraMessages.ConvertMessageSpec | src/examples/mastra-agent.ts:151-185 | a message is dropped exactly when its role is system, fails exactly when an argument string does not parse, and otherwise follows the per-role rules |
| MastraMessages.ConvertedSucceeds | src/examples/mastra-agent.ts:148-188 | the history converts exactly when no message fails; then there is one output per non-system message, in input order, each following the per-role rules |
| MastraMessages.ConvertedFails | src/examples/mastra-agent.ts:151-163 | a failed conversion reports the error of the first message that fails |
| MastraMessages.Kept | src/examples/mastra-agent.ts:151-186 | the converter keeps at most as many messages as it is given, and none of them is a system message |
| MastraMessages.CollectAssistantParts | src/examples/mastra-agent.ts:152-163 | the parts loop yields a text part when content is non-empty, then one tool-call part per call, or the first parse error |
| MastraMessages.ConvertMessagesToMastraMessages | src/examples/mastra-agent.ts:148-189 | the converter loop computes the reference conversion, including its error |
| MastraAgent.PartScan | src/examples/mastra-agent.ts:66-132 | from an open run, a finish part's events end the run; any other part's events leave no tool call open and only the current text message open |
| MastraAgent.TranslationScan | src/examples/mastra-agent.ts:66-132 | the translation of the parts ends the run exactly when some part is the finish part |
| MastraAgent.AdapterStreamWellFormed | src/examples/mastra-agent.ts:46-104 | RUN_STARTED followed by the translation is well formed when the backend sends a finish part, and is a run in progress otherwise |
| MastraAgent.TranslationDeltas | src/examples/mastra-agent.ts:79-84 | the CONTENT deltas are exactly the texts of the text parts, in order, up to the finish part |
| MastraAgent.TranslationMessageId | src/examples/mastra-agent.ts:64-85 | every text event carries one id: the current one, or the fresh one drawn at the first text part |
| MastraAgent.PartOpened | src/examples/mastra-agent.ts:67-121 | a part opens a text message exactly when it is a text part and no message id is set yet, under the fresh id, and a tool call exactly when it is a tool-call part, under the part's id |
| MastraAgent.TranslationOpensOneMessage | src/examples/mastra-agent.ts:64-85 | the translation opens no text message once an id is set, and at most one before |
| MastraAgent.TranslationOpensNoToolCall | src/examples/mastra-agent.ts:105-121 | parts that never name an id open no tool call with that id |
| MastraAgent.TranslationOpensToolCallOnce | src/examples/mastra-agent.ts:105-121 | with distinct backend tool-call ids, every tool call is opened at most once |
| MastraAgent.AdapterSpansOnce | src/examples/mastra-agent.ts:46-121 | with distinct backend tool-call ids, the adapter stream opens every span at most once and, when finished, closes every span at most once |
| MastraAgent.PartClosesToolCall | src/examples/mastra-agent.ts:105-121 | a part closes a tool call exactly when it is a tool-call part, under the part's id |
| MastraAgent.RepeatedToolCallIdIsForwarded | src/examples/mastra-agent.ts:105-121 | a backend that repeats a tool-call id makes the adapter open and close that tool call twice |
| MastraAgent.MastraRun.Subscribe | src/examples/mastra-agent.ts:46-55 | a history that converts makes the stream open with exactly RUN_STARTED (input's ids) sent before any part; one that does not fails the stream with nothing sent |
| MastraAgent.MastraRun.OnTextPart | src/examples/mastra-agent.ts:67-85 | the first text part draws the fresh id and sends START (role assistant) then CONTENT; later ones send only CONTENT under the same id; nothing is sent after the stream ended |
| MastraAgent.MastraRun.OnFinishMessagePart | src/examples/mastra-agent.ts:86-104 | END for the open message only if a text part was seen, then RUN_FINISHED, and the stream completes as a well-formed run |
| MastraAgent.MastraRun.OnToolCallPart | src/examples/mastra-agent.ts:105-122 | exactly START (the tool's name), ARGS (the serialized arguments) and END, all with the part's id |
| MastraAgent.MastraRun.OnPart | src/examples/mastra-agent.ts:66-132 | dispatch to the callbacks; tool-call-delta, streaming-start and tool-result parts send nothing and keep the message id |
| MastraAgent.MastraRun.Fail | src/examples/mastra-agent.ts:134-138 | a rejected backend request fails an open stream and sends nothing more, in particular no RUN_FINISHED |
| MastraAgent.Feed | src/examples/mastra-agent.ts:66-132 | feeding the parts sends exactly their translation; the run is finished exactly when a finish part arrived |
| MastraAgent.Run | src/examples/mastra-agent.ts:46-138 | the whole subscription: conversion failure sends nothing; backend failure sends only RUN_STARTED; otherwise RUN_STARTED then the translation, finished exactly when a finish part arrived |
| ResponseTransform.EnvelopeIsWellFormedRun | src/examples/stochastic-parrot.ts:47-84 | one response's five events form a well-formed run whose START, CONTENT and END share the id |
| ResponseTransform.EnvelopeSpansOnce | src/examples/stochastic-parrot.ts:47-84 | one envelope opens and closes its own message exactly once, and opens or closes no other span |
| ResponseTransform.EnvelopeCounts | src/examples/stochastic-parrot.ts:47-84 | per span, the envelope opens and closes it once when it is the envelope's message and never otherwise |
| ResponseTransform.Transform | src/examples/stochastic-parrot.ts:38-90 | the stream completes exactly when every source event is a response; an error names the kind of a source event that is not one; five events per envelope, at most one envelope per source event |
| ResponseTransform.TransformSpec | src/examples/stochastic-parrot.ts:41-89 | one envelope per leading response, in order, built from its own id and response; completion when all are responses, else the "Unexpected event type" error with nothing more sent |
| ResponseTransform.ResponsePrefix | src/examples/stochastic-parrot.ts:43-88 | the number of leading response events, followed by a non-response if any |
| ResponseTransform.SingleResponseRun | src/examples/stochastic-parrot.ts:78-84 | a single response becomes exactly the five-event run and the stream completes |
| ResponseTransform.SeveralResponsesAreNotOneRun | src/examples/stochastic-parrot.ts:41-89 | two responses give two RUN_STARTED events, so the output would not be one run |
| StochasticParrot.LastUserPrompt | src/examples/stochastic-parrot.ts:24-27 | the content of the last user message, or "My life is complicated" when there is none or its content is empty |
| StochasticParrot.PickIndex | src/examples/stochastic-parrot.ts:99-107 | `Math.floor(draw * length)` is an index of the list |
| StochasticParrot.Completion | src/examples/stochastic-parrot.ts:94-110 | a listed question, the reflected words in double quotes, "? " and a listed interjection |
| StochasticParrot.CompletionAsWritten | src/examples/stochastic-parrot.ts:94-110 | the same shape, around the reflection as written, with the inherited-member lookup |
| StochasticParrot.CompletionsAgree | src/examples/stochastic-parrot.ts:94-110 | the completion as written and the corrected one are equal on every input none of whose words is an inherited member name |
| StochasticParrot.Run | src/examples/stochastic-parrot.ts:22-36 | exactly one `response` event, carrying the completion of the last user prompt |
| StochasticParrot.PipelineIsOneRun | src/examples/stochastic-parrot.ts:22-90 | `run` then `transform` is exactly one well-formed run whose CONTENT is the completion of the last user prompt |
| StochasticParrot.EchoesNeutralText | src/examples/stochastic-parrot.ts:95-97 | clean lower-case text with no table word is reflected unchanged |
| StochasticParrot.ReflectsWordByWord | src/examples/stochastic-parrot.ts:95-97 | on clean lower-case words joined with single spaces, the reply text is the reflected words joined with single spaces |
| StochasticParrot.ReflectsPronouns | src/examples/stochastic-parrot.ts:95-130 | "I am sad" is reflected to "you are sad" |
| StochasticParrot.ConstructorIsReflectedAsWritten | src/examples/stochastic-parrot.ts:97 | the lookup as written turns "constructor", which is not in the table, into the text of a function; the corrected lookup keeps it |
| YourCustomAgent.Run | src/examples/your-custom-agent.ts:22-32 | exactly one response event |
| YourCustomAgent.PipelineIsOneRun | src/examples/your-custom-agent.ts:22-86 | the pipeline is exactly RUN_STARTED, START, CONTENT "Hello, world!", END, RUN_FINISHED, and well formed |
| JsString.TrimStartSpec | src/examples/stochastic-parrot.ts:95 | `trimStart` drops exactly the leading whitespace |
| JsString.TrimEndSpec | src/examples/stochastic-parrot.ts:95 | `trimEnd` drops exactly the trailing whitespace |
| JsString.Trim | src/examples/stochastic-parrot.ts:95 | the trimmed string has no whitespace at either end |
| JsString.TrimOfTrimmed | src/examples/stochastic-parrot.ts:95 | trimming leaves a trimmed string as it is |
| JsString.ToLower | src/examples/stochastic-parrot.ts:95 | lower-casing keeps the length |
| JsString.ToLowerOfJoin | src/examples/stochastic-parrot.ts:95 | lower-case words joined stay as they are under lower-casing |
| JsString.SplitJoinRoundTrip | src/examples/stochastic-parrot.ts:95 | splitting on whitespace runs gives back non-empty whitespace-free words joined with single spaces (one direction; SplitWordsCollapse is the other) |
| JsString.SplitFromCollapse | src/examples/stochastic-parrot.ts:95 | joining what the split reads, with a word in hand, gives that word followed by the rest with every whitespace run collapsed to one space |
| JsString.SplitWordsCollapse | src/examples/stochastic-parrot.ts:95 | joining the words of any string with single spaces gives the string with every whitespace run collapsed to one space |
| JsString.JoinIsTrimmed | src/examples/stochastic-parrot.ts:95 | such a join has no whitespace at either end |
| JsString.DecimalString | src/app/api/sse/agentic_chat/route.ts:43 | a number renders as decimal digits, with a leading zero only for zero |
| JsString.DecimalRoundTrip | src/app/api/sse/agentic_chat/route.ts:43 | reading back a rendered number gives the number |
| AgenticChatRoute.EventStream.SendEvent | src/app/api/sse/agentic_chat/route.ts:106-108 | one event is encoded and enqueued as its own chunk; the bytes grow by exactly its frame |
| AgenticChatRoute.EventStream.Close | src/app/api/sse/agentic_chat/route.ts:132 | the stream is closed and its contents kept |
| AgenticChatRoute.SendToolCallEvents | src/app/api/sse/agentic_chat/route.ts:65-84 | exactly START, ARGS (the serialized gradient object) and END with tool call id "change_background" |
| AgenticChatRoute.SendTextMessageEvents | src/app/api/sse/agentic_chat/route.ts:19-63 | the countdown loop sends exactly the text script |
| AgenticChatRoute.Post | src/app/api/sse/agentic_chat/route.ts:86-147 | a rejected body gives no stream; otherwise the closed stream holds the script, and its bytes are the frames of the script's events in order |
| AgenticChatRoute.ScriptWellFormed | src/app/api/sse/agentic_chat/route.ts:110-132 | the script is one well-formed run, first RUN_STARTED and last RUN_FINISHED with the input's ids |
| AgenticChatRoute.ScriptSpansOnce | src/app/api/sse/agentic_chat/route.ts:19-122 | the script opens and closes its one text message or tool call at most once |
| AgenticChatRoute.BranchChoice | src/app/api/sse/agentic_chat/route.ts:102-122 | the tool branch runs exactly when the last message's content is "change_background"; an empty history takes the text branch |
| AgenticChatRoute.TextScriptShape | src/app/api/sse/agentic_chat/route.ts:19-63 | fourteen events, START with role assistant first and END last, all with one id; the deltas are the intro, the countdown and the check mark |
| AgenticChatRoute.CountdownCountsDown | src/app/api/sse/agentic_chat/route.ts:38-47 | the k-th countdown delta is the number 10 - k in decimal followed by two spaces |
| AgenticChatRoute.CountdownEnds | src/app/api/sse/agentic_chat/route.ts:38-44 | the countdown runs from "10  " to "1  " |
| AgenticChatRoute.ToolCallScriptScan | src/app/api/sse/agentic_chat/route.ts:65-84 | the tool branch closes the tool call it opens |
| AgenticChatRoute.TextScriptScan | src/app/api/sse/agentic_chat/route.ts:19-63 | the text branch closes the message it opens |
| AgenticChatRoute.FlattenAppend | src/app/api/sse/agentic_chat/route.ts:106-108 | the bytes of two runs of chunks are the bytes of each, one after the other |
| AgenticChatRoute.FramesSplit | src/app/api/sse/agentic_chat/route.ts:106-108 | the body splits at the frame boundaries of any split of the run |

## Left out

- Timestamps (`timestamp: Date.now()`) are not modelled. No ensures depends on them.
- MESSAGES_SNAPSHOT, `parentMessageId` and the snake_case and camelCase spellings of field names are not modelled. Each event has one canonical field set.
- The rxjs `Observable` machinery, `mergeMap`, subscription and the no-op unsubscribe are not modelled. Emission is appending to a sequence. A completed or failed subscriber drops later emissions.
- The promise chains are not modelled: `agent.stream(...).then(...)`, the route's `async start` and `sleep` pacing. These are timing and concurrency only.
- MastraAgent.Run: the backend is either a rejected request or a finite list of parts. A failure of the data stream after parts have started is not modelled. `processDataStream`'s promise is not returned from the `then` callback, so such a failure never reaches `catch`.
- The `MastraClient`, `getAgent` and the backend's base URL are not modelled. They are foreign calls.
- `JSON.parse` and `JSON.stringify` are not modelled; they are parameters. The route's one serialized object is written out as its string.
- `Json` numbers are integers. No generator inspects them.
- AgenticChatRoute.Post: `AgentInputSchema.parse` and `req.json()` are one parameter, the validated body or `None`. Zod validation is a foreign library.
- The `EventEncoder` wire format and the `accept` header are not modelled. Encoding is an abstract per-event function.
- The response's HTTP headers and Next.js routing are not modelled.
- JsString.ToLower: lower-cases ASCII letters only. Unicode case mapping is not modelled.
- `src/examples/your-custom-http-agent.ts` and `src/mastra-agent.ts` are not part of this model. They are empty `HttpAgent` subclasses.
- The CopilotKit runtime route and `my-mastra-app` are not part of this model. They are framework and backend configuration.
- `console.log` and `console.error` calls are not modelled.
- Events.WellFormed: the definition lets an id be opened again after its END, and lets RUN_ERROR end a run while text messages or tool calls are still open; only RUN_FINISHED requires every span closed. No generator here sends RUN_ERROR. That each id is opened and closed at most once is proved per generator instead (ScriptSpansOnce, EnvelopeSpansOnce, AdapterSpansOnce). The adapter forwards the backend's tool-call ids unchanged. A backend that repeats an id makes it repeat START and END for that id (RepeatedToolCallIdIsForwarded), so AdapterSpansOnce requires distinct ids.
- StochasticParrot.Completion: uses the corrected table lookup. The lookup as written is CompletionAsWritten, and CompletionsAgree shows the two agree unless a word is an inherited member name. Run and PipelineIsOneRun are stated with the corrected Completion.
- Events.WellFormed requires RUN_FINISHED and RUN_ERROR to carry the ids of RUN_STARTED. That is stricter than a receiver needs, and every generator here meets it.

## Findings

| source | as written | input that shows it | evidently intended | confidence | as-written member | corrected member |
|---|---|---|---|---|---|---|
| src/examples/stochastic-parrot.ts:97 | `this.reflections[word] \|\| word` looks the word up on a plain object literal, so inherited members such as `constructor` are found too | the prompt "constructor" is answered about "function Object() { [native code] }" | only the table's own entries are reflected; any other word is kept | not executed | StochasticParrot.ConstructorIsReflectedAsWritten (with StochasticParrot.ReflectedTextAsWritten, StochasticParrot.CompletionAsWritten) | StochasticParrot.ReflectedText (StochasticParrot.ReflectsWordByWord, StochasticParrot.EchoesNeutralText, StochasticParrot.ReflectsPronouns, StochasticParrot.CompletionsAgree) |
