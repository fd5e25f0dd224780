/** The dictation pad (src/components/pro/smart-dictation.tsx): speech
    recognition events feed the transcript, a toggle starts and stops
    recording, and the transcript is sent off to be structured into a note. */
module SmartDictation {
  import opened Common
  import opened Strings

  /** A call made on the recogniser. */
  datatype RecogniserCall = Start | Stop

  /** What the note structurer is asked for. */
  datatype StructureRequest = StructureRequest(rawText: string, template: string)

  /** The `for` loop of `onresult`: the transcripts of the results from
      `resultIndex` to the end, concatenated in order. */
  method AccumulateTranscript(results: seq<string>, resultIndex: nat) returns (interim: string)
    ensures resultIndex <= |results| ==> interim == Join(results[resultIndex..], "")
    ensures resultIndex > |results| ==> interim == ""
  {
    interim := "";
    var i := resultIndex;
    while i < |results|
      invariant resultIndex <= i <= |results| || (i == resultIndex && resultIndex > |results|)
      invariant resultIndex <= |results| ==> interim == Join(results[resultIndex..i], "")
      invariant resultIndex > |results| ==> interim == ""
    {
      if i == resultIndex {
        assert results[resultIndex..i + 1] == [results[i]];
      } else {
        assert results[resultIndex..i + 1] == results[resultIndex..i] + [results[i]];
        JoinSnoc(results[resultIndex..i], results[i], "");
      }
      interim := interim + results[i];
      i := i + 1;
    }
    if resultIndex <= |results| {
      assert results[resultIndex..i] == results[resultIndex..];
    }
  }

  /** The pad's state. `hasRecogniser` is whether the browser offered speech
      recognition when the pad mounted; `calls` records the recogniser calls. */
  class DictationPad {
    const hasRecogniser: bool
    var isRecording: bool
    var transcript: string
    var isProcessing: bool
    var selectedTemplate: string
    var structuredNote: Option<string>
    var calls: seq<RecogniserCall>

    constructor (hasRecogniser: bool)
      ensures this.hasRecogniser == hasRecogniser
      ensures !isRecording && transcript == "" && !isProcessing && selectedTemplate == "general"
      ensures structuredNote.None? && calls == []
    {
      this.hasRecogniser := hasRecogniser;
      isRecording, transcript, isProcessing := false, "", false;
      selectedTemplate, structuredNote, calls := "general", None, [];
    }

    /** `toggleRecording` */
    method ToggleRecording()
      modifies this
      ensures !hasRecogniser ==> unchanged(this)
      ensures hasRecogniser && old(isRecording) ==>
        && !isRecording && calls == old(calls) + [Stop]
        && transcript == old(transcript) && structuredNote == old(structuredNote)
      ensures hasRecogniser && !old(isRecording) ==>
        && isRecording && calls == old(calls) + [Start]
        && transcript == "" && structuredNote.None?
      ensures isProcessing == old(isProcessing) && selectedTemplate == old(selectedTemplate)
    {
      if !hasRecogniser {
        return;
      }
      if isRecording {
        calls := calls + [Stop];
        isRecording := false;
      } else {
        transcript := "";
        structuredNote := None;
        calls := calls + [Start];
        isRecording := true;
      }
    }

    /** `onresult`: the transcript becomes the results from `resultIndex` on. */
    method OnResult(results: seq<string>, resultIndex: nat)
      modifies this
      ensures resultIndex <= |results| ==> transcript == Join(results[resultIndex..], "")
      ensures resultIndex > |results| ==> transcript == ""
      ensures isRecording == old(isRecording) && isProcessing == old(isProcessing)
      ensures structuredNote == old(structuredNote) && calls == old(calls)
      ensures selectedTemplate == old(selectedTemplate)
    {
      var interim := AccumulateTranscript(results, resultIndex);
      transcript := interim;
    }

    /** `onerror` and `onend`: recording stops. */
    method OnErrorOrEnd()
      modifies this
      ensures !isRecording
      ensures transcript == old(transcript) && isProcessing == old(isProcessing)
      ensures structuredNote == old(structuredNote) && calls == old(calls)
      ensures selectedTemplate == old(selectedTemplate)
    {
      isRecording := false;
    }

    method SelectTemplate(template: string)
      modifies this
      ensures selectedTemplate == template
      ensures isRecording == old(isRecording) && transcript == old(transcript)
      ensures isProcessing == old(isProcessing) && structuredNote == old(structuredNote)
      ensures calls == old(calls)
    {
      selectedTemplate := template;
    }

    /** The transcript box's `onChange`: typed, pasted or edited text
        replaces the transcript, which is what a later structuring sends. */
    method SetTranscript(value: string)
      modifies this
      ensures transcript == value
      ensures isRecording == old(isRecording) && isProcessing == old(isProcessing)
      ensures selectedTemplate == old(selectedTemplate) && structuredNote == old(structuredNote)
      ensures calls == old(calls)
    {
      transcript := value;
    }

    /** The synchronous part of `handleStructureNote`: a blank transcript is
        refused; otherwise processing starts on the transcript and template. */
    method BeginStructure() returns (request: Option<StructureRequest>)
      modifies this
      ensures request.None? <==> Trim(old(transcript)) == ""
      ensures request.None? ==> unchanged(this)
      ensures request.Some? ==>
        && request.value == StructureRequest(transcript, selectedTemplate)
        && isProcessing
        && transcript == old(transcript) && isRecording == old(isRecording)
        && structuredNote == old(structuredNote) && calls == old(calls)
        && selectedTemplate == old(selectedTemplate)
    {
      if Trim(transcript) == "" {
        return None;
      }
      isProcessing := true;
      return Some(StructureRequest(transcript, selectedTemplate));
    }

    /** The rest of `handleStructureNote`: a structured note is shown, a
        failure only reported, and processing ends either way. */
    method CompleteStructure(result: Result<string>)
      modifies this
      ensures !isProcessing
      ensures result.Ok? ==> structuredNote == Some(result.value)
      ensures result.Err? ==> structuredNote == old(structuredNote)
      ensures isRecording == old(isRecording) && transcript == old(transcript)
      ensures calls == old(calls) && selectedTemplate == old(selectedTemplate)
    {
      if result.Ok? {
        structuredNote := Some(result.value);
      }
      isProcessing := false;
    }
  }

  /** Recording toggles: with a recogniser, two toggles return to the
      original recording state, having started and stopped it once each. */
  method ToggleTwice(pad: DictationPad)
    requires pad.hasRecogniser
    modifies pad
    ensures pad.isRecording == old(pad.isRecording)
    ensures |pad.calls| == |old(pad.calls)| + 2
    ensures pad.calls[|pad.calls| - 2..] == (if old(pad.isRecording) then [Stop, Start] else [Start, Stop])
  {
    pad.ToggleRecording();
    pad.ToggleRecording();
  }
}
