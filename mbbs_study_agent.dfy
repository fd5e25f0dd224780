/** The MBBS study-notes agent (src/ai/agents/medico/MbbsStudyAgent.ts):
    MedGemma writes the notes as JSON embedded in free text, the JSON is cut
    out between the outermost braces and validated, and a diagram is added
    when the image model delivers one. Text failure is fatal, image failure
    is tolerated. */
module MbbsStudyAgent {
  import opened Common
  import opened Strings

  const DefaultSubject := "General Medicine"
  const EmptyResponseError := "MedGemma function returned an empty response for study notes."
  const UnexpectedFormatError := "MedGemma returned data in an unexpected format for study notes."
  const NotesFallbackError := "An unexpected error occurred while generating notes."

  /** The flow's input, without the fields only the prompt text uses. */
  datatype StudyInput = StudyInput(topic: string, subject: string)

  datatype EnhancedContent = EnhancedContent(summary: string, bulletPoints: seq<string>, diagramUrl: Option<string>)

  datatype StudyOutput = StudyOutput(enhancedContent: EnhancedContent, nextSteps: seq<NextStep>)

  /** The external calls, as functions of their requests: MedGemma's
      `responseText` for an input, `JSON.parse` (to some value type `J`),
      the schema check, and image generation for a topic. */
  datatype Services<!J> = Services(medGemma: StudyInput -> Result<Option<string>>,
                                  parseJson: string -> Result<J>,
                                  validate: J -> Option<StudyOutput>,
                                  image: string -> Result<Option<Media>>)

  /** `s.substring(s.indexOf('{'), s.lastIndexOf('}') + 1)`. When both braces
      occur in order this is the text from the first `{` to the last `}`;
      the JavaScript clamping and swapping rules give the other cases. */
  function JsonCandidate(s: string): (r: string)
    ensures var i, j := IndexOf(s, '{'), LastIndexOf(s, '}');
      && ('{' in s && '}' in s && i <= j ==>
            r == s[i..j + 1] && r[0] == '{' && r[|r| - 1] == '}')
      && ('{' !in s ==> r == s[..j + 1])
      && ('{' in s && '}' !in s ==> r == s[..i] && r == BeforeFirst(s, '{'))
      && ('{' in s && '}' in s && j < i ==> r == s[j + 1..i])
  {
    var i, j := IndexOf(s, '{'), LastIndexOf(s, '}');
    assert Clamp(i, |s|) == if i == -1 then 0 else i;
    assert Clamp(j + 1, |s|) == j + 1;
    assert i >= 0 && j >= 0 && i <= j ==> s[i..j + 1][0] == s[i] && s[i..j + 1][j - i] == s[j];
    JsSubstring(s, i, j + 1)
  }

  /** Without braces there is no candidate at all. */
  lemma NoBracesNoCandidate(s: string)
    requires '{' !in s && '}' !in s
    ensures JsonCandidate(s) == ""
  {
  }

  /** Text with no brace before its first `{` and none after its last `}`
      yields exactly its brace-delimited core. */
  lemma {:induction false} CandidateOfWrapped(pre: string, body: string, post: string)
    requires '{' !in pre && '}' !in post
    ensures JsonCandidate(pre + "{" + body + "}" + post) == "{" + body + "}"
  {
    var s := pre + "{" + body + "}" + post;
    assert s[|pre|] == '{';
    assert s[..|pre|] == pre;
    var i := IndexOf(s, '{');
    assert i == |pre|;
    var k := |pre| + 1 + |body|;
    assert s[k] == '}';
    var j := LastIndexOf(s, '}');
    assert j >= k;
    assert forall m :: k < m < |s| ==> s[m] == post[m - k - 1];
    assert s[i..j + 1] == "{" + body + "}";
  }

  /** The validated notes, if the candidate parses and matches the schema. */
  function ParsedOutput<J>(text: string, s: Services<J>): (o: Option<StudyOutput>)
    ensures o.Some? <==>
      s.parseJson(JsonCandidate(text)).Ok? && s.validate(s.parseJson(JsonCandidate(text)).value).Some?
  {
    match s.parseJson(JsonCandidate(text))
    case Ok(j) => s.validate(j)
    case Err(_) => None
  }

  /** The notes with their diagram url replaced, everything else kept. */
  function WithDiagram(out: StudyOutput, url: Option<string>): (r: StudyOutput)
    ensures r.enhancedContent.diagramUrl == url
    ensures r.enhancedContent.summary == out.enhancedContent.summary
    ensures r.enhancedContent.bulletPoints == out.enhancedContent.bulletPoints
    ensures r.nextSteps == out.nextSteps
  {
    out.(enhancedContent := out.enhancedContent.(diagramUrl := url))
  }

  /** The image step: a delivered `media` sets the diagram url (to whatever
      url it carries); a failed call or missing media is caught and the
      notes are kept as parsed. */
  function DiagramStep(out: StudyOutput, image: Result<Option<Media>>): (r: StudyOutput)
    ensures image.Ok? && image.value.Some? ==> r == WithDiagram(out, image.value.value.url)
    ensures !(image.Ok? && image.value.Some?) ==> r == out
  {
    if image.Ok? && image.value.Some? then WithDiagram(out, image.value.value.url) else out
  }

  /** The outer `catch`: an Error's message is kept, anything else becomes
      the generic notes error. */
  function Rethrow(e: Thrown): (t: Thrown)
    ensures t.ErrorValue?
    ensures e.ErrorValue? ==> t == e
    ensures e.OtherValue? ==> t.message == NotesFallbackError
  {
    ErrorValue(MessageOf(e, NotesFallbackError))
  }

  /** `mbbsStudyFlow`. */
  function MbbsStudyFlow<J>(input: StudyInput, s: Services<J>): (r: Result<StudyOutput>)
    ensures s.medGemma(input).Err? ==> r == Err(Rethrow(s.medGemma(input).error))
    ensures s.medGemma(input).Ok? && !Truthy(s.medGemma(input).value) ==>
      r == Err(ErrorValue(EmptyResponseError))
    ensures s.medGemma(input).Ok? && Truthy(s.medGemma(input).value) ==>
      var parsed := ParsedOutput(s.medGemma(input).value.value, s);
      && (parsed.None? ==> r == Err(ErrorValue(UnexpectedFormatError)))
      && (parsed.Some? ==> r == Ok(DiagramStep(parsed.value, s.image(input.topic))))
  {
    match s.medGemma(input)
    case Err(e) => Err(Rethrow(e))
    case Ok(response) =>
      if !Truthy(response) then Err(ErrorValue(EmptyResponseError))
      else
        match ParsedOutput(response.value, s)
        case None => Err(ErrorValue(UnexpectedFormatError))
        case Some(out) => Ok(DiagramStep(out, s.image(input.topic)))
  }

  /** Text failure is fatal, image failure is not: whatever the image model
      does, the flow succeeds or fails exactly as it would with any other
      image outcome, and on success only the diagram url can differ. */
  lemma ImageNeverDecidesOutcome<J>(input: StudyInput, s: Services<J>,
                                    otherImage: string -> Result<Option<Media>>)
    ensures var a, b := MbbsStudyFlow(input, s), MbbsStudyFlow(input, s.(image := otherImage));
      && a.Ok? == b.Ok?
      && (a.Err? ==> a == b)
      && (a.Ok? ==> a.value.enhancedContent.summary == b.value.enhancedContent.summary
                    && a.value.enhancedContent.bulletPoints == b.value.enhancedContent.bulletPoints
                    && a.value.nextSteps == b.value.nextSteps)
  {
    var t := s.(image := otherImage);
    assert t.medGemma == s.medGemma && t.parseJson == s.parseJson && t.validate == s.validate;
  }

  /** `input.subject || 'General Medicine'` */
  function SubjectOrDefault(subject: Option<string>): (r: string)
    ensures Truthy(subject) ==> r == subject.value
    ensures !Truthy(subject) ==> r == DefaultSubject
  {
    if Truthy(subject) then subject.value else DefaultSubject
  }

  /** What `generateStudyNotes` returns to its callers. */
  datatype StudyNotes = StudyNotes(notes: string, summaryPoints: seq<string>, topicGenerated: string,
                                   diagramUrl: Option<string>)

  /** `generateStudyNotes`: the flow on the defaulted subject, its output
      mapped field by field; a flow failure propagates unchanged. */
  function GenerateStudyNotes<J>(topic: string, subject: Option<string>, s: Services<J>): (r: Result<StudyNotes>)
    ensures var flow := MbbsStudyFlow(StudyInput(topic, SubjectOrDefault(subject)), s);
      && (flow.Err? ==> r == Err(flow.error))
      && (flow.Ok? ==>
            && r.Ok?
            && r.value.notes == flow.value.enhancedContent.summary
            && r.value.summaryPoints == flow.value.enhancedContent.bulletPoints
            && r.value.topicGenerated == topic
            && r.value.diagramUrl == flow.value.enhancedContent.diagramUrl)
  {
    match MbbsStudyFlow(StudyInput(topic, SubjectOrDefault(subject)), s)
    case Err(e) => Err(e)
    case Ok(out) =>
      Ok(StudyNotes(out.enhancedContent.summary, out.enhancedContent.bulletPoints, topic,
                    out.enhancedContent.diagramUrl))
  }
}
