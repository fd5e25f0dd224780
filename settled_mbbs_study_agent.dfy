/** The second copy of the MBBS study-notes agent
    (usr/src/app/src/ai/agents/medico/MbbsStudyAgent.ts): text and image are
    requested side by side and their settled outcomes combined afterwards. */
module SettledMbbsStudyAgent {
  import opened Common
  import opened Strings
  import opened MbbsStudyAgent

  const BareEmptyResponseError := "MedGemma function returned an empty response."
  const SchemaError := "MedGemma output did not match the expected schema."
  /** What reading `.url` of a `null` media raises. */
  const NullMediaError := "Cannot read properties of null (reading 'url')"

  /** The text branch: MedGemma's failure or `JSON.parse`'s error propagate
      as they are; an empty response and a schema mismatch are fixed errors. */
  function TextBranch<J>(input: StudyInput, s: Services<J>): (r: Result<StudyOutput>)
    ensures s.medGemma(input).Err? ==> r == Err(s.medGemma(input).error)
    ensures s.medGemma(input).Ok? && !Truthy(s.medGemma(input).value) ==>
      r == Err(ErrorValue(BareEmptyResponseError))
    ensures s.medGemma(input).Ok? && Truthy(s.medGemma(input).value) ==>
      var parsed := s.parseJson(JsonCandidate(s.medGemma(input).value.value));
      && (parsed.Err? ==> r == Err(parsed.error))
      && (parsed.Ok? && s.validate(parsed.value).None? ==> r == Err(ErrorValue(SchemaError)))
      && (parsed.Ok? && s.validate(parsed.value).Some? ==> r == Ok(s.validate(parsed.value).value))
  {
    match s.medGemma(input)
    case Err(e) => Err(e)
    case Ok(response) =>
      if !Truthy(response) then Err(ErrorValue(BareEmptyResponseError))
      else
        match s.parseJson(JsonCandidate(response.value))
        case Err(e) => Err(e)
        case Ok(j) =>
          match s.validate(j)
          case None => Err(ErrorValue(SchemaError))
          case Some(out) => Ok(out)
  }

  /** `mbbsStudyFlow` as written: after the text succeeds, the image
      outcome's `.url` is read outside any inner `catch`, so a fulfilled
      image call whose `media` is `null` fails the whole flow. */
  function SettledFlowAsWritten<J>(input: StudyInput, s: Services<J>): (r: Result<StudyOutput>)
    ensures TextBranch(input, s).Err? ==> r == Err(Rethrow(TextBranch(input, s).error))
    ensures TextBranch(input, s).Ok? && s.image(input.topic) == Ok(None) ==>
      r == Err(ErrorValue(NullMediaError))
  {
    match TextBranch(input, s)
    case Err(e) => Err(Rethrow(e))
    case Ok(out) =>
      match s.image(input.topic)
      case Ok(None) => Err(Rethrow(ErrorValue(NullMediaError)))
      case Ok(Some(media)) => if Truthy(media.url) then Ok(WithDiagram(out, media.url)) else Ok(out)
      case Err(_) => Ok(out)
  }

  /** The image outcome that carries a usable url, if any. */
  function DeliveredUrl(image: Result<Option<Media>>): (u: Option<string>)
    ensures u.Some? <==> image.Ok? && image.value.Some? && Truthy(image.value.value.url)
    ensures u.Some? ==> u == image.value.value.url && u.value != ""
  {
    if image.Ok? && image.value.Some? && Truthy(image.value.value.url) then image.value.value.url else None
  }

  /** `mbbsStudyFlow` as its comments intend: the text decides success or
      failure, a delivered url is added as the diagram, and every other
      image outcome (a failure, no media, no url) leaves the notes as parsed. */
  function SettledMbbsStudyFlow<J>(input: StudyInput, s: Services<J>): (r: Result<StudyOutput>)
    ensures r.Ok? <==> TextBranch(input, s).Ok?
    ensures r.Err? ==> r.error == Rethrow(TextBranch(input, s).error)
    ensures r.Ok? && DeliveredUrl(s.image(input.topic)).Some? ==>
      r.value == WithDiagram(TextBranch(input, s).value, DeliveredUrl(s.image(input.topic)))
    ensures r.Ok? && DeliveredUrl(s.image(input.topic)).None? ==>
      r.value == TextBranch(input, s).value
  {
    match TextBranch(input, s)
    case Err(e) => Err(Rethrow(e))
    case Ok(out) =>
      var url := DeliveredUrl(s.image(input.topic));
      if url.Some? then Ok(WithDiagram(out, url)) else Ok(out)
  }

  /** The discrepancy: when the text succeeds and the image call is
      fulfilled without media, the flow as written fails although the
      intended flow returns the notes unchanged. */
  lemma NullMediaFailsAsWritten<J>(input: StudyInput, s: Services<J>)
    requires TextBranch(input, s).Ok?
    requires s.image(input.topic) == Ok(None)
    ensures SettledFlowAsWritten(input, s).Err?
    ensures SettledMbbsStudyFlow(input, s) == Ok(TextBranch(input, s).value)
  {
  }

  /** On every other image outcome the two flows agree. */
  lemma AsWrittenAgreesOtherwise<J>(input: StudyInput, s: Services<J>)
    requires s.image(input.topic) != Ok(None)
    ensures SettledFlowAsWritten(input, s) == SettledMbbsStudyFlow(input, s)
  {
  }

  /** What this copy's `generateStudyNotes` returns. */
  datatype StudyNotesWithSteps = StudyNotesWithSteps(notes: string, summaryPoints: seq<string>,
                                                     diagram: Option<string>, nextSteps: seq<NextStep>)

  /** `generateStudyNotes`: the flow on the defaulted subject, mapped through. */
  function GenerateStudyNotes<J>(topic: string, subject: Option<string>, s: Services<J>): (r: Result<StudyNotesWithSteps>)
    ensures var flow := SettledMbbsStudyFlow(StudyInput(topic, SubjectOrDefault(subject)), s);
      && (flow.Err? ==> r == Err(flow.error))
      && (flow.Ok? ==>
            && r.Ok?
            && r.value.notes == flow.value.enhancedContent.summary
            && r.value.summaryPoints == flow.value.enhancedContent.bulletPoints
            && r.value.diagram == flow.value.enhancedContent.diagramUrl
            && r.value.nextSteps == flow.value.nextSteps)
  {
    match SettledMbbsStudyFlow(StudyInput(topic, SubjectOrDefault(subject)), s)
    case Err(e) => Err(e)
    case Ok(out) =>
      Ok(StudyNotesWithSteps(out.enhancedContent.summary, out.enhancedContent.bulletPoints,
                             out.enhancedContent.diagramUrl, out.nextSteps))
  }
}
