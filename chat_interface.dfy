/** The chat window's message log (src/components/chat/chat-interface.tsx):
    sending trims and guards the input, appends the user's message, and on
    completion appends exactly one bot message, classified by tool name or
    marked as an error. */
module ChatInterface {
  import opened Common
  import opened Strings

  const WelcomeText := "Welcome to MediAssistant Chat! How can I help you today?"
  const ErrorPrefix := "Sorry, an error occurred: "
  const UnknownError := "An unknown error occurred."
  const ApiErrorPrefix := "API error: "
  const SymptomTool := "symptomAnalyzer"
  const McqTool := "generateMCQs"

  /** A tool's structured response, kept as its JSON text. */
  datatype Payload = Payload(json: string)

  /** What a message body shows. */
  datatype Content =
    | Text(text: string)
    | SymptomCard(symptoms: Payload)
    | McqCard(mcqs: Payload)
    | JsonDump(dump: Payload)

  datatype Sender = User | Bot

  /** A message without its generated id and timestamp. */
  datatype Message = Message(sender: Sender, content: Content, toolName: Option<string>,
                             isCommandResponse: bool, isErrorResponse: bool)

  /** The body of a successful `/api/chat` reply. */
  datatype ApiReply = ApiReply(response: string, toolName: Option<string>, toolResponse: Option<Payload>)

  /** The HTTP response: its `ok` flag, its status text, and the outcome of
      reading its JSON body. */
  datatype HttpResponse = HttpResponse(ok: bool, statusText: string, json: Result<ApiReply>)

  function UserMessage(text: string): (m: Message)
    ensures m.sender == User && m.content == Text(text)
    ensures m.toolName.None? && !m.isCommandResponse && !m.isErrorResponse
  {
    Message(User, Text(text), None, false, false)
  }

  /** The one message the mount effect puts in an empty log. */
  function WelcomeMessage(): (m: Message)
    ensures m.sender == Bot && m.content == Text(WelcomeText)
    ensures !m.isCommandResponse && !m.isErrorResponse
  {
    Message(Bot, Text(WelcomeText), None, false, false)
  }

  /** The bot message for a successful reply: a symptom card or an MCQ card
      for those two tools, a JSON dump for any other tool, plain text
      without a tool response; only the first three are command responses. */
  function BotReply(reply: ApiReply): (m: Message)
    ensures m.sender == Bot && m.toolName == reply.toolName && !m.isErrorResponse
    ensures m.content.SymptomCard? <==> reply.toolName == Some(SymptomTool) && reply.toolResponse.Some?
    ensures m.content.McqCard? <==> reply.toolName == Some(McqTool) && reply.toolResponse.Some?
    ensures m.content.JsonDump? <==>
      Truthy(reply.toolName) && reply.toolResponse.Some?
      && reply.toolName != Some(SymptomTool) && reply.toolName != Some(McqTool)
    ensures m.content.Text? <==> !(Truthy(reply.toolName) && reply.toolResponse.Some?)
    ensures m.content.Text? ==> m.content.text == reply.response
    ensures !m.content.Text? ==> reply.toolResponse == Some(ToolPayloadOf(m.content))
    ensures m.isCommandResponse <==> !m.content.Text?
  {
    var content :=
      if reply.toolName == Some(SymptomTool) && reply.toolResponse.Some? then SymptomCard(reply.toolResponse.value)
      else if reply.toolName == Some(McqTool) && reply.toolResponse.Some? then McqCard(reply.toolResponse.value)
      else if Truthy(reply.toolName) && reply.toolResponse.Some? then JsonDump(reply.toolResponse.value)
      else Text(reply.response);
    Message(Bot, content, reply.toolName, !content.Text?, false)
  }

  /** The payload a card or dump shows. */
  function ToolPayloadOf(c: Content): Payload
    requires !c.Text?
  {
    match c
    case SymptomCard(p) => p
    case McqCard(p) => p
    case JsonDump(p) => p
  }

  /** The error a failed request raises: the fetch's own, `API error: `
      plus the status text when the response is not ok, or the JSON read's. */
  function RequestError(fetched: Result<HttpResponse>): Option<Thrown> {
    match fetched
    case Err(e) => Some(e)
    case Ok(resp) =>
      if !resp.ok then Some(ErrorValue(ApiErrorPrefix + resp.statusText))
      else if resp.json.Err? then Some(resp.json.error)
      else None
  }

  /** The one bot message appended when the request completes: the
      classified reply on success, otherwise an error message carrying the
      Error's text or the unknown-error text. */
  function ReplyMessage(fetched: Result<HttpResponse>): (m: Message)
    ensures m.sender == Bot
    ensures m.isErrorResponse <==> RequestError(fetched).Some?
    ensures m.isErrorResponse ==>
      && m.content == Text(ErrorPrefix + MessageOf(RequestError(fetched).value, UnknownError))
      && !m.isCommandResponse && m.toolName.None?
    ensures fetched.Ok? && !fetched.value.ok ==>
      m.content == Text(ErrorPrefix + (ApiErrorPrefix + fetched.value.statusText))
    ensures !m.isErrorResponse ==> m == BotReply(fetched.value.json.value)
  {
    match RequestError(fetched)
    case Some(e) => Message(Bot, Text(ErrorPrefix + MessageOf(e, UnknownError)), None, false, true)
    case None => BotReply(fetched.value.json.value)
  }

  /** The text of a send, from the explicit argument or else the input box:
      blank exactly when that text is all white space, and otherwise free of
      white space at both ends. */
  function TextToSend(messageContent: Option<string>, inputValue: string): (r: string)
    ensures messageContent.Some? ==> (r == "" <==> AllSpace(messageContent.value))
    ensures messageContent.None? ==> (r == "" <==> AllSpace(inputValue))
    ensures r != "" ==> !IsJsSpace(r[0]) && !IsJsSpace(r[|r| - 1])
    ensures |r| <= if messageContent.Some? then |messageContent.value| else |inputValue|
  {
    Trim(if messageContent.Some? then messageContent.value else inputValue)
  }

  class ChatSession {
    var messages: seq<Message>
    var inputValue: string
    var isLoading: bool
    /** The `message` field of every request posted to `/api/chat`, in order. */
    var requests: seq<string>

    constructor ()
      ensures messages == [] && inputValue == "" && !isLoading && requests == []
    {
      messages := [];
      inputValue := "";
      isLoading := false;
      requests := [];
    }

    /** The mount effect: an empty log with nothing in flight gets exactly
        the welcome message. */
    method MountWelcome()
      modifies this
      ensures old(messages) == [] && !old(isLoading) ==> messages == [WelcomeMessage()]
      ensures !(old(messages) == [] && !old(isLoading)) ==> messages == old(messages)
      ensures inputValue == old(inputValue) && isLoading == old(isLoading) && requests == old(requests)
    {
      if |messages| == 0 && !isLoading {
        messages := [WelcomeMessage()];
      }
    }

    /** Typing into the input box. */
    method SetInput(value: string)
      modifies this
      ensures inputValue == value
      ensures messages == old(messages) && isLoading == old(isLoading) && requests == old(requests)
    {
      inputValue := value;
    }

    /** The synchronous part of `handleSendMessage`, up to the request. Text
        that is empty once trimmed changes nothing and sends nothing;
        otherwise the trimmed text is appended as one user message, posted,
        and the input box is cleared only when the text came from it. */
    method BeginSend(messageContent: Option<string>) returns (sent: Option<string>)
      modifies this
      ensures var text := TextToSend(messageContent, old(inputValue));
        && (text == "" ==>
              sent.None? && messages == old(messages) && inputValue == old(inputValue)
              && isLoading == old(isLoading) && requests == old(requests))
        && (text != "" ==>
              && sent == Some(text)
              && messages == old(messages) + [UserMessage(text)]
              && inputValue == (if messageContent.Some? then old(inputValue) else "")
              && isLoading
              && requests == old(requests) + [text])
    {
      var text := TextToSend(messageContent, inputValue);
      if text == "" {
        return None;
      }
      messages := messages + [UserMessage(text)];
      if messageContent.None? {
        inputValue := "";
      }
      isLoading := true;
      requests := requests + [text];
      sent := Some(text);
    }

    /** The rest of `handleSendMessage`: exactly one bot message is appended
        and, on every path, loading ends. */
    method CompleteSend(fetched: Result<HttpResponse>)
      modifies this
      ensures messages == old(messages) + [ReplyMessage(fetched)]
      ensures !isLoading
      ensures inputValue == old(inputValue) && requests == old(requests)
    {
      messages := messages + [ReplyMessage(fetched)];
      isLoading := false;
    }

    /** A speech recognition result: the trimmed transcript goes into the
        input box and is sent as an explicit argument. */
    method VoiceResult(transcript: string) returns (sent: Option<string>)
      modifies this
      ensures var text := Trim(transcript);
        && inputValue == text
        && (text == "" ==>
              sent.None? && messages == old(messages)
              && isLoading == old(isLoading) && requests == old(requests))
        && (text != "" ==>
              sent == Some(text) && messages == old(messages) + [UserMessage(text)]
              && isLoading && requests == old(requests) + [text])
    {
      var text := Trim(transcript);
      inputValue := text;
      sent := BeginSend(Some(text));
      TrimIdempotent(transcript);
    }
  }

  /** A whole exchange as a function of the log: the user message and the
      reply are added after everything already there. */
  function Exchange(log: seq<Message>, text: string, fetched: Result<HttpResponse>): (r: seq<Message>)
    requires text != ""
    ensures |r| == |log| + 2 && r[..|log|] == log
    ensures r[|log|].sender == User && r[|log| + 1].sender == Bot
    ensures r[|log|] == UserMessage(text) && r[|log| + 1] == ReplyMessage(fetched)
  {
    log + [UserMessage(text)] + [ReplyMessage(fetched)]
  }

  /** The log only ever grows at its end: after any sequence of exchanges
      the earlier messages are all still there, unchanged and in place. */
  lemma {:induction false} ExchangesAppendOnly(log: seq<Message>, texts: seq<string>,
                                               outcomes: seq<Result<HttpResponse>>)
    requires |texts| == |outcomes|
    requires forall i :: 0 <= i < |texts| ==> texts[i] != ""
    ensures |Exchanges(log, texts, outcomes)| == |log| + 2 * |texts|
    ensures Exchanges(log, texts, outcomes)[..|log|] == log
    decreases |texts|
  {
    if texts != [] {
      var next := Exchange(log, texts[0], outcomes[0]);
      ExchangesAppendOnly(next, texts[1..], outcomes[1..]);
      var r := Exchanges(next, texts[1..], outcomes[1..]);
      assert r[..|next|][..|log|] == r[..|log|];
    }
  }

  /** The log after a sequence of non-empty sends, each completed. */
  function Exchanges(log: seq<Message>, texts: seq<string>, outcomes: seq<Result<HttpResponse>>): seq<Message>
    requires |texts| == |outcomes|
    requires forall i :: 0 <= i < |texts| ==> texts[i] != ""
    decreases |texts|
  {
    if texts == [] then log
    else Exchanges(Exchange(log, texts[0], outcomes[0]), texts[1..], outcomes[1..])
  }
}
