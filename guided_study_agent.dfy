/** The guided study session (src/ai/agents/medico/GuidedStudyAgent.ts):
    notes, MCQs and flashcards generated side by side; the session needs all
    three and always suggests the same two next steps. */
module GuidedStudyAgent {
  import opened Common

  datatype StudyNotesRequest = StudyNotesRequest(topic: string, answerLength: string)
  datatype FlashcardRequest = FlashcardRequest(topic: string, count: nat, difficulty: string, examType: string)

  datatype Session<N, M, F> = Session(topic: string, notes: N, mcqs: M, flashcards: F, nextSteps: seq<NextStep>)

  const GuidedErrorHead := "An unexpected error occurred during the guided study session for \""
  const GuidedErrorTail := "\". Please try again."

  function NotesRequestFor(topic: string): (q: StudyNotesRequest)
    ensures q.topic == topic && q.answerLength == "10-mark"
  {
    StudyNotesRequest(topic, "10-mark")
  }

  function McqRequestFor(topic: string): (q: McqRequest)
    ensures q.topic == topic && q.count == 3 && q.difficulty == "medium" && q.examType == "university"
  {
    McqRequest(topic, 3, "medium", "university")
  }

  function FlashcardRequestFor(topic: string): (q: FlashcardRequest)
    ensures q.topic == topic && q.count == 5 && q.difficulty == "medium" && q.examType == "university"
  {
    FlashcardRequest(topic, 5, "medium", "university")
  }

  /** The error every failure is rethrown as; it quotes the topic. */
  function GuidedError(topic: string): (m: string)
    ensures |m| == |GuidedErrorHead| + |topic| + |GuidedErrorTail|
    ensures m[..|GuidedErrorHead|] == GuidedErrorHead
    ensures m[|GuidedErrorHead|..|GuidedErrorHead| + |topic|] == topic
    ensures m[|GuidedErrorHead| + |topic|..] == GuidedErrorTail
  {
    var m := GuidedErrorHead + topic + GuidedErrorTail;
    assert m[|GuidedErrorHead|..|GuidedErrorHead| + |topic|] == topic;
    assert m[|GuidedErrorHead| + |topic|..] == GuidedErrorTail;
    m
  }

  /** The fixed follow-ups: a case simulation, then a flowchart, both on the topic. */
  function NextStepsFor(topic: string): (s: seq<NextStep>)
    ensures |s| == 2
    ensures s[0].toolId == "cases" && s[1].toolId == "flowcharts"
    ensures forall i :: 0 <= i < |s| ==> s[i].prefilledTopic == topic
    ensures s[0].title == "Try a Case Simulation" && s[0].cta == "Start Case Simulation"
    ensures s[1].title == "Visualize the Process" && s[1].cta == "Create Flowchart"
  {
    [ NextStep("Try a Case Simulation",
               "Apply your knowledge of " + topic + " in an interactive case.",
               "cases", topic, "Start Case Simulation"),
      NextStep("Visualize the Process",
               "Create a flowchart for the management or pathophysiology of " + topic + ".",
               "flowcharts", topic, "Create Flowchart") ]
  }

  /** `guidedStudyFlow`, given the three sub-agents: all-or-nothing. */
  function GuidedStudyFlow<N, M, F>(topic: string,
                                    notes: StudyNotesRequest -> Result<N>,
                                    mcqs: McqRequest -> Result<M>,
                                    flashcards: FlashcardRequest -> Result<F>): (r: Result<Session<N, M, F>>)
    ensures r.Ok? <==>
      notes(NotesRequestFor(topic)).Ok? && mcqs(McqRequestFor(topic)).Ok?
      && flashcards(FlashcardRequestFor(topic)).Ok?
    ensures r.Ok? ==>
      && r.value.topic == topic
      && r.value.notes == notes(NotesRequestFor(topic)).value
      && r.value.mcqs == mcqs(McqRequestFor(topic)).value
      && r.value.flashcards == flashcards(FlashcardRequestFor(topic)).value
      && r.value.nextSteps == NextStepsFor(topic)
    ensures r.Err? ==> r.error == ErrorValue(GuidedError(topic))
  {
    var n := Settled(notes(NotesRequestFor(topic)));
    var m := Settled(mcqs(McqRequestFor(topic)));
    var f := Settled(flashcards(FlashcardRequestFor(topic)));
    if n.None? || m.None? || f.None? then
      Err(ErrorValue(GuidedError(topic)))
    else
      Ok(Session(topic, n.value, m.value, f.value, NextStepsFor(topic)))
  }

  /** Different topics give different failure messages: the topic can be
      read back from the message. */
  lemma GuidedErrorNamesTopic(t1: string, t2: string)
    requires GuidedError(t1) == GuidedError(t2)
    ensures t1 == t2
  {
    var m := GuidedError(t1);
    assert |m| == |GuidedErrorHead| + |t1| + |GuidedErrorTail|;
    assert |GuidedError(t2)| == |GuidedErrorHead| + |t2| + |GuidedErrorTail|;
  }
}
