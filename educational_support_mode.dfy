/** The educational panel of the home page
    (src/components/homepage/educational-support-mode.tsx): a one-shot quick
    quiz and the guideline search results. */
module EducationalSupportMode {
  import opened Common

  const QuizAnswer := "ECG"
  const QuizOptions := ["Echocardiogram", "ECG", "Troponin I", "Chest X-ray"]

  /** A guideline search outcome; `results` is missing when the agent gave none. */
  datatype Retrieval = Retrieval(results: Option<seq<string>>)

  /** The quiz: the option chosen, and whether the quiz has been answered. */
  datatype Quiz = Quiz(selected: Option<string>, answered: bool)

  const Unanswered := Quiz(None, false)

  /** A click on an option button: `!isQuizAnswered && handleQuizSubmit(option)`. */
  function Click(q: Quiz, option: string): (r: Quiz)
    ensures q.answered ==> r == q
    ensures !q.answered ==> r == Quiz(Some(option), true)
  {
    if q.answered then q else Quiz(Some(option), true)
  }

  /** The quiz after a series of clicks. */
  function Clicks(q: Quiz, options: seq<string>): Quiz
    decreases |options|
  {
    if options == [] then q else Clicks(Click(q, options[0]), options[1..])
  }

  /** Only the first click counts: whatever follows, the answer stays the first option clicked. */
  lemma {:induction false} FirstClickDecides(options: seq<string>)
    ensures Clicks(Unanswered, options) == if options == [] then Unanswered else Quiz(Some(options[0]), true)
  {
    if options != [] {
      AnsweredStays(Quiz(Some(options[0]), true), options[1..]);
    }
  }

  lemma {:induction false} AnsweredStays(q: Quiz, options: seq<string>)
    requires q.answered
    ensures Clicks(q, options) == q
  {
    if options != [] {
      AnsweredStays(Click(q, options[0]), options[1..]);
    }
  }

  /** The feedback shown once answered: correct exactly for `ECG`. */
  function Correct(q: Quiz): bool
    requires q.answered
  {
    q.selected == Some(QuizAnswer)
  }

  /** After any clicks on the fresh quiz, at least one of them, the feedback
      is "correct" exactly when the first option clicked was `ECG`. */
  lemma {:induction false} CorrectIffFirstClick(options: seq<string>)
    requires options != []
    ensures Clicks(Unanswered, options).answered
    ensures Correct(Clicks(Unanswered, options)) <==> options[0] == QuizAnswer
  {
    FirstClickDecides(options);
  }

  /** The panel's state. */
  class EducationalPanel {
    var retrievalResult: Option<Retrieval>
    var isLoading: bool
    var error: Option<string>
    var quiz: Quiz

    constructor ()
      ensures retrievalResult.None? && !isLoading && error.None? && quiz == Unanswered
    {
      retrievalResult, isLoading, error, quiz := None, false, None, Unanswered;
    }

    /** `handleRetrievalComplete(result, err)` */
    method RetrievalComplete(result: Option<Retrieval>, err: Option<string>)
      modifies this
      ensures retrievalResult == result && !isLoading && quiz == old(quiz)
      ensures Truthy(err) ==> error == err
      ensures !Truthy(err) ==> error.None?
    {
      retrievalResult := result;
      error := if Truthy(err) then err else None;
      isLoading := false;
    }

    /** A click on an option button; the buttons are disabled once answered. */
    method ClickOption(option: string)
      modifies this
      ensures quiz == Click(old(quiz), option)
      ensures old(quiz.answered) ==> unchanged(this)
      ensures retrievalResult == old(retrievalResult) && isLoading == old(isLoading) && error == old(error)
    {
      if !quiz.answered {
        quiz := Quiz(Some(option), true);
      }
    }

    /** The search results render when there are results, nothing loads and no error shows. */
    predicate ShowsResults()
      reads this
    {
      retrievalResult.Some? && retrievalResult.value.results.Some? && !isLoading && !Truthy(error)
    }
  }

  /** A completed search with results and no error is shown. */
  method SearchShowsResults(panel: EducationalPanel, results: seq<string>)
    modifies panel
    ensures panel.ShowsResults()
  {
    panel.RetrievalComplete(Some(Retrieval(Some(results))), None);
  }
}
