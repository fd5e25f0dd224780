/** The chat agent (src/ai/agents/ChatAgent.ts): the prompt-backed flow,
    then a direct model call as fallback, then a fixed apology; it never
    fails. */
module ChatAgent {
  import opened Common

  const EmptyContentError := "Genkit model returned empty content."
  const NoOutputError := "Genkit flow did not produce an output."
  const TechnicalDifficulties :=
    "I'm currently experiencing technical difficulties and cannot process your request. Please try again later."
  const DirectPromptHead := "You are MediAssistant, a helpful and friendly AI medical assistant. The user says: \""
  const DirectPromptTail := "\". Respond conversationally and helpfully."

  datatype ChatOutput = ChatOutput(response: string)

  /** A history entry: its role and the number of parts in its content. */
  datatype HistoryEntry = HistoryEntry(role: string, contentLength: nat)

  /** What the chat prompt yields: its structured output, if any, and the history. */
  datatype PromptReply = PromptReply(output: Option<ChatOutput>, history: seq<HistoryEntry>)

  /** `chatFlow`: the prompt's output as is; without one, an error whose
      message says whether the last history entry is an empty model message. */
  function ChatFlow(prompt: Result<PromptReply>): (r: Result<ChatOutput>)
    ensures prompt.Err? ==> r == Err(prompt.error)
    ensures prompt.Ok? && prompt.value.output.Some? ==> r == Ok(prompt.value.output.value)
    ensures prompt.Ok? && prompt.value.output.None? ==>
      var h := prompt.value.history;
      r == Err(ErrorValue(
        if h != [] && h[|h| - 1].role == "model" && h[|h| - 1].contentLength == 0
        then EmptyContentError else NoOutputError))
  {
    match prompt
    case Err(e) => Err(e)
    case Ok(reply) =>
      match reply.output
      case Some(out) => Ok(out)
      case None =>
        var h := reply.history;
        if h != [] && h[|h| - 1].role == "model" && h[|h| - 1].contentLength == 0 then
          Err(ErrorValue(EmptyContentError))
        else
          Err(ErrorValue(NoOutputError))
  }

  /** The fallback prompt with the user's message quoted inside it. */
  function DirectPrompt(message: string): (p: string)
    ensures |p| == |DirectPromptHead| + |message| + |DirectPromptTail|
    ensures p[..|DirectPromptHead|] == DirectPromptHead
    ensures p[|DirectPromptHead|..|DirectPromptHead| + |message|] == message
    ensures p[|DirectPromptHead| + |message|..] == DirectPromptTail
  {
    var p := DirectPromptHead + message + DirectPromptTail;
    assert p[|DirectPromptHead|..|DirectPromptHead| + |message|] == message;
    assert p[|DirectPromptHead| + |message|..] == DirectPromptTail;
    p
  }

  /** The user's message, read back out of a fallback prompt. */
  function QuotedMessage(p: string): (m: string)
    requires |p| >= |DirectPromptHead| + |DirectPromptTail|
  {
    p[|DirectPromptHead|..|p| - |DirectPromptTail|]
  }

  /** The fallback prompt carries the user's message whole: it can be read back. */
  lemma DirectPromptEmbedsMessage(message: string)
    ensures QuotedMessage(DirectPrompt(message)) == message
  {
    var p := DirectPrompt(message);
    assert |p| - |DirectPromptTail| == |DirectPromptHead| + |message|;
  }

  /** The reply and the prompts sent to the direct model call, in order. */
  datatype Processed = Processed(output: ChatOutput, directCalls: seq<string>)

  /** `processChatMessage`. It has no error outcome: a flow success is
      returned unchanged without calling the fallback; otherwise the fallback
      is called exactly once, with the message embedded in its prompt, and its
      failure gives the fixed apology. */
  function ProcessChatMessage(message: string, prompt: Result<PromptReply>,
                              direct: string -> Result<string>): (r: Processed)
    ensures ChatFlow(prompt).Ok? ==> r.output == ChatFlow(prompt).value && r.directCalls == []
    ensures ChatFlow(prompt).Err? ==> r.directCalls == [DirectPrompt(message)]
    ensures ChatFlow(prompt).Err? && direct(DirectPrompt(message)).Ok? ==>
      r.output == ChatOutput(direct(DirectPrompt(message)).value)
    ensures ChatFlow(prompt).Err? && direct(DirectPrompt(message)).Err? ==>
      r.output == ChatOutput(TechnicalDifficulties)
  {
    match ChatFlow(prompt)
    case Ok(out) => Processed(out, [])
    case Err(_) =>
      var p := DirectPrompt(message);
      match direct(p)
      case Ok(text) => Processed(ChatOutput(text), [p])
      case Err(_) => Processed(ChatOutput(TechnicalDifficulties), [p])
  }
}
