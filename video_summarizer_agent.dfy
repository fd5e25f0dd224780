/** The video summariser (src/ai/agents/medico/VideoSummarizerAgent.ts): the
    transcript's parts are joined, a short transcript gets a fixed answer
    without asking the model, a long one is cut to 30000 characters for the
    prompt, and every failure becomes one fixed message. */
module VideoSummarizerAgent {
  import opened Common
  import opened Strings

  const MinTranscriptLength := 100
  const MaxPromptTranscript := 30000
  const ShortTranscriptSummary := "Could not generate a summary. The video transcript is too short or unavailable."
  const VideoError := "An unexpected error occurred while summarizing the video. Please try again."
  const TranscriptFetchError :=
    "Could not fetch transcript. The video may not have one available or may have disabled it."

  datatype Summary = Summary(summary: string)

  /** The transcript tool: the parts' texts joined with single spaces, or
      its own fixed error when fetching fails. */
  function FetchTranscript(parts: Result<seq<string>>): (r: Result<string>)
    ensures parts.Ok? ==> r == Ok(Join(parts.value, " "))
    ensures parts.Err? ==> r == Err(ErrorValue(TranscriptFetchError))
  {
    match parts
    case Ok(ps) => Ok(Join(ps, " "))
    case Err(_) => Err(ErrorValue(TranscriptFetchError))
  }

  /** `transcript.substring(0, 30000)` */
  function Excerpt(transcript: string): (x: string)
    ensures |x| == if |transcript| < MaxPromptTranscript then |transcript| else MaxPromptTranscript
    ensures x == transcript[..|x|]
  {
    JsSubstring(transcript, 0, MaxPromptTranscript)
  }

  /** `videoSummarizerFlow`, given the transcript parts and the model as a
      function of the transcript excerpt placed in its prompt. */
  function VideoSummarizerFlow(parts: Result<seq<string>>, generate: string -> Result<string>): (r: Result<Summary>)
    ensures parts.Err? ==> r == Err(ErrorValue(VideoError))
    ensures parts.Ok? && |Join(parts.value, " ")| < MinTranscriptLength ==>
      r == Ok(Summary(ShortTranscriptSummary))
    ensures parts.Ok? && |Join(parts.value, " ")| >= MinTranscriptLength ==>
      var answer := generate(Excerpt(Join(parts.value, " ")));
      && (answer.Ok? && answer.value != "" ==> r == Ok(Summary(answer.value)))
      && (!(answer.Ok? && answer.value != "") ==> r == Err(ErrorValue(VideoError)))
    ensures r.Err? ==> r.error == ErrorValue(VideoError)
  {
    match FetchTranscript(parts)
    case Err(_) => Err(ErrorValue(VideoError))
    case Ok(transcript) =>
      if transcript == "" || |transcript| < MinTranscriptLength then
        Ok(Summary(ShortTranscriptSummary))
      else
        match generate(Excerpt(transcript))
        case Ok(text) => if text == "" then Err(ErrorValue(VideoError)) else Ok(Summary(text))
        case Err(_) => Err(ErrorValue(VideoError))
  }

  /** The length of a joined transcript: the parts plus one space between each two. */
  lemma {:induction false} JoinedLength(ps: seq<string>)
    ensures |Join(ps, " ")| == TotalLength(ps) + (if ps == [] then 0 else |ps| - 1)
  {
    if |ps| > 1 {
      JoinedLength(ps[1..]);
      assert TotalLength(ps) == |ps[0]| + TotalLength(ps[1..]);
    }
  }

  function TotalLength(ps: seq<string>): nat {
    if ps == [] then 0 else |ps[0]| + TotalLength(ps[1..])
  }

  /** The early exit never reaches the model: parts whose lengths plus the
      spaces between them stay under 100 characters give the fixed summary,
      whatever the model would have answered. */
  lemma {:induction false} ShortTranscriptSkipsModel(ps: seq<string>, g1: string -> Result<string>,
                                                     g2: string -> Result<string>)
    requires TotalLength(ps) + |ps| <= MinTranscriptLength
    ensures VideoSummarizerFlow(Ok(ps), g1) == VideoSummarizerFlow(Ok(ps), g2) == Ok(Summary(ShortTranscriptSummary))
  {
    JoinedLength(ps);
  }
}
