/** The symptom analysis panel of the home page
    (src/components/homepage/symptom-analysis-mode.tsx): how a completed
    form submission updates the result, error and loading state, and the
    colour shown for a diagnosis' confidence. */
module SymptomAnalysisMode {
  import opened Common

  const UnknownError := "An unknown error occurred."
  const HighColor := "text-red-600 dark:text-red-400"
  const MediumColor := "text-yellow-600 dark:text-yellow-400"
  const LowColor := "text-orange-600 dark:text-orange-400"
  const MutedColor := "text-muted-foreground"

  datatype DiagnosisItem = DiagnosisItem(condition: string, confidence: Option<string>)
  datatype Analysis = Analysis(diagnoses: seq<DiagnosisItem>)

  /** The symptom form's raw input, passed on to the analyser unchanged. */
  datatype SymptomInput = SymptomInput(symptoms: string)

  /** `getConfidenceColor` */
  function ConfidenceColor(confidence: Option<string>): (c: string)
    ensures confidence == Some("High") <==> c == HighColor
    ensures confidence == Some("Medium") <==> c == MediumColor
    ensures confidence == Some("Low") <==> c == LowColor
    ensures c == MutedColor <==> confidence !in {Some("High"), Some("Medium"), Some("Low")}
  {
    match confidence
    case Some("High") => HighColor
    case Some("Medium") => MediumColor
    case Some("Low") => LowColor
    case _ => MutedColor
  }

  /** The panel's state. */
  class SymptomPanel {
    var analysisResult: Option<Analysis>
    var isLoading: bool
    var error: Option<string>

    constructor ()
      ensures analysisResult.None? && !isLoading && error.None?
    {
      analysisResult, isLoading, error := None, false, None;
    }

    /** The results render when there is a result, nothing loads and no error shows. */
    predicate ShowsResults()
      reads this
    {
      analysisResult.Some? && !isLoading && !Truthy(error)
    }

    /** The synchronous part of `handleAnalysisComplete(result, err, rawInput)`:
        an error is shown at once; raw input starts an analysis, which is
        returned as the call to make; otherwise the form's own result is stored. */
    method BeginAnalysisComplete(result: Option<Analysis>, err: Option<string>, rawInput: Option<SymptomInput>)
      returns (call: Option<SymptomInput>)
      modifies this
      ensures Truthy(err) ==> error == err && analysisResult.None? && !isLoading && call.None?
      ensures !Truthy(err) && rawInput.Some? ==>
        isLoading && error.None? && analysisResult.None? && call == rawInput
      ensures !Truthy(err) && rawInput.None? ==>
        analysisResult == result && error.None? && !isLoading && call.None?
    {
      if Truthy(err) {
        error := err;
        analysisResult := None;
        isLoading := false;
        return None;
      }
      if rawInput.Some? {
        isLoading := true;
        error := None;
        analysisResult := None;
        return rawInput;
      }
      analysisResult := result;
      error := None;
      isLoading := false;
      return None;
    }

    /** The end of the raw-input path, given the analyser's outcome: the
        result or the error's message is stored and loading ends. */
    method CompleteAnalysis(outcome: Result<Analysis>)
      modifies this
      ensures !isLoading
      ensures outcome.Ok? ==> analysisResult == Some(outcome.value) && error == old(error)
      ensures outcome.Err? ==>
        analysisResult == old(analysisResult) && error == Some(MessageOf(outcome.error, UnknownError))
    {
      match outcome {
        case Ok(a) => analysisResult := Some(a);
        case Err(e) => error := Some(MessageOf(e, UnknownError));
      }
      isLoading := false;
    }
  }

  /** A successful analysis of raw input is what the panel then shows, and a
      failed one shows no results. */
  method AnalyseRawInput(panel: SymptomPanel, input: SymptomInput, outcome: Result<Analysis>)
    modifies panel
    ensures outcome.Ok? ==> panel.ShowsResults() && panel.analysisResult == Some(outcome.value)
    ensures outcome.Err? ==> !panel.ShowsResults()
  {
    var call := panel.BeginAnalysisComplete(None, None, Some(input));
    panel.CompleteAnalysis(outcome);
  }
}
