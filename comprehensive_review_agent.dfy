/** The comprehensive topic review (src/ai/agents/medico/ComprehensiveTopicReviewAgent.ts):
    three sub-agents run side by side and the review keeps whatever
    succeeded; it fails only when all three fail. */
module ComprehensiveReviewAgent {
  import opened Common

  const ReviewSubject := "General Medicine"
  const ReviewMcqCount := 5
  const FlowchartTopicPrefix := "Clinical pathway for "
  const ReviewError :=
    "An unexpected error occurred while generating the comprehensive review. Please try again."

  datatype NotesRequest = NotesRequest(topic: string, subject: string)
  datatype FlowchartRequest = FlowchartRequest(topic: string)

  /** The review: a field is absent exactly when its sub-agent failed. */
  datatype Review<N, M, F> = Review(topic: string, studyNotes: Option<N>, mcqs: Option<M>, flowchart: Option<F>)

  /** The three fixed sub-agent requests for a topic. */
  function NotesRequestFor(topic: string): (q: NotesRequest)
    ensures q.topic == topic && q.subject == ReviewSubject
  {
    NotesRequest(topic, ReviewSubject)
  }

  function McqRequestFor(topic: string): (q: McqRequest)
    ensures q.topic == topic && q.count == 5 && q.difficulty == "medium" && q.examType == "university"
  {
    McqRequest(topic, ReviewMcqCount, "medium", "university")
  }

  function FlowchartRequestFor(topic: string): (q: FlowchartRequest)
    ensures |q.topic| == |FlowchartTopicPrefix| + |topic|
    ensures q.topic[..|FlowchartTopicPrefix|] == FlowchartTopicPrefix
    ensures q.topic[|FlowchartTopicPrefix|..] == topic
  {
    FlowchartRequest(FlowchartTopicPrefix + topic)
  }

  /** `comprehensiveReviewFlow`, given the three sub-agents. */
  function ComprehensiveReviewFlow<N, M, F>(topic: string,
                                            notes: NotesRequest -> Result<N>,
                                            mcqs: McqRequest -> Result<M>,
                                            flowchart: FlowchartRequest -> Result<F>): (r: Result<Review<N, M, F>>)
    ensures r.Err? <==>
      notes(NotesRequestFor(topic)).Err? && mcqs(McqRequestFor(topic)).Err?
      && flowchart(FlowchartRequestFor(topic)).Err?
    ensures r.Err? ==> r.error == ErrorValue(ReviewError)
    ensures r.Ok? ==>
      && r.value.topic == topic
      && r.value.studyNotes == Settled(notes(NotesRequestFor(topic)))
      && r.value.mcqs == Settled(mcqs(McqRequestFor(topic)))
      && r.value.flowchart == Settled(flowchart(FlowchartRequestFor(topic)))
  {
    var studyNotes := Settled(notes(NotesRequestFor(topic)));
    var mcqSet := Settled(mcqs(McqRequestFor(topic)));
    var chart := Settled(flowchart(FlowchartRequestFor(topic)));
    if studyNotes.None? && mcqSet.None? && chart.None? then
      Err(ErrorValue(ReviewError))
    else
      Ok(Review(topic, studyNotes, mcqSet, chart))
  }

  /** Adding a success never turns the review into a failure, and never
      loses a part that was already there: replacing one failed sub-agent by
      a succeeding one keeps every other field and fills in that one. */
  lemma MoreSuccessesNeverHurt<N, M, F>(topic: string,
                                        notes: NotesRequest -> Result<N>,
                                        mcqs: McqRequest -> Result<M>,
                                        flowchart: FlowchartRequest -> Result<F>,
                                        better: NotesRequest -> Result<N>)
    requires better(NotesRequestFor(topic)).Ok?
    ensures ComprehensiveReviewFlow(topic, better, mcqs, flowchart).Ok?
    ensures ComprehensiveReviewFlow(topic, notes, mcqs, flowchart).Ok? ==>
      var a := ComprehensiveReviewFlow(topic, notes, mcqs, flowchart).value;
      var b := ComprehensiveReviewFlow(topic, better, mcqs, flowchart).value;
      a.mcqs == b.mcqs && a.flowchart == b.flowchart && b.studyNotes.Some?
  {
  }
}
