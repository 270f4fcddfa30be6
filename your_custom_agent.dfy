/** The template agent: `run` ignores its input and emits one `response`
    event carrying "Hello, world!"; the transform stage (shared with the
    stochastic parrot) turns it into one run envelope. */
module YourCustomAgent {
  import opened Wrappers
  import opened Messages
  import opened Events
  import opened ResponseTransform

  const Greeting: string := "Hello, world!"

  /** `run`: exactly one `response` event, then completion, whatever the
      input. */
  function Run(input: RunInput): (r: seq<AgentEvent>)
    ensures |r| == 1 && r[0].kind == ResponseKind
  {
    [AgentEvent(ResponseKind, Greeting)]
  }

  /** The agent's whole pipeline is exactly RUN_STARTED, the greeting as one
      text message under the chosen id, and RUN_FINISHED; the stream
      completes and is well formed. */
  lemma PipelineIsOneRun(input: RunInput, messageId: string)
    ensures Transform(input, Run(input), [messageId])
         == Stream([ RunStarted(input.threadId, input.runId),
                     TextMessageStart(messageId, None),
                     TextMessageContent(messageId, Greeting),
                     TextMessageEnd(messageId),
                     RunFinished(input.threadId, input.runId) ], Completed)
    ensures WellFormed(Transform(input, Run(input), [messageId]).events)
  {
    SingleResponseRun(input, Greeting, messageId);
  }
}
