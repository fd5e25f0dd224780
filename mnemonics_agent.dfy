/** The mnemonics generator (src/ai/agents/medico/MnemonicsGeneratorAgent.ts):
    the text is required, the illustration of the generated mnemonic is
    optional, and every failure becomes one fixed message. */
module MnemonicsAgent {
  import opened Common

  const MnemonicError := "An unexpected error occurred while generating the mnemonic. Please try again."

  /** The text prompt's structured output. */
  datatype MnemonicText = MnemonicText(mnemonic: string, explanation: string, topicGenerated: string,
                                       nextSteps: seq<NextStep>)

  /** The text fields plus the illustration's url. */
  datatype Mnemonic = Mnemonic(mnemonic: string, explanation: string, topicGenerated: string,
                               nextSteps: seq<NextStep>, imageUrl: Option<string>)

  /** The image step, asked to illustrate the given mnemonic: `media.url`
      when media came back, and `undefined` when the call failed or there
      was no media to read (the `catch` swallows both). */
  function ImageUrl(image: Result<Option<Media>>): (u: Option<string>)
    ensures image.Ok? && image.value.Some? ==> u == image.value.value.url
    ensures !(image.Ok? && image.value.Some?) ==> u.None?
  {
    if image.Ok? && image.value.Some? then image.value.value.url else None
  }

  /** `mnemonicsGeneratorFlow`, given the text prompt's outcome and the image
      model as a function of the mnemonic it illustrates. */
  function MnemonicsFlow(text: Result<Option<MnemonicText>>, image: string -> Result<Option<Media>>): (r: Result<Mnemonic>)
    ensures r.Ok? <==> text.Ok? && text.value.Some? && text.value.value.mnemonic != ""
    ensures r.Err? ==> r.error == ErrorValue(MnemonicError)
    ensures r.Ok? ==>
      var t := text.value.value;
      && r.value.mnemonic == t.mnemonic && r.value.explanation == t.explanation
      && r.value.topicGenerated == t.topicGenerated && r.value.nextSteps == t.nextSteps
      && r.value.imageUrl == ImageUrl(image(t.mnemonic))
  {
    if text.Err? || text.value.None? || text.value.value.mnemonic == "" then
      Err(ErrorValue(MnemonicError))
    else
      var t := text.value.value;
      Ok(Mnemonic(t.mnemonic, t.explanation, t.topicGenerated, t.nextSteps, ImageUrl(image(t.mnemonic))))
  }

  /** The text fields of a result, as the text prompt gave them. */
  function TextPart(m: Mnemonic): MnemonicText {
    MnemonicText(m.mnemonic, m.explanation, m.topicGenerated, m.nextSteps)
  }

  /** The illustration is optional: on success the text part is exactly the
      prompt's output whatever the image model did, and swapping the image
      model changes at most `imageUrl`. */
  lemma TextIsKeptWhateverTheImage(text: Result<Option<MnemonicText>>,
                                   image: string -> Result<Option<Media>>,
                                   otherImage: string -> Result<Option<Media>>)
    ensures MnemonicsFlow(text, image).Ok? == MnemonicsFlow(text, otherImage).Ok?
    ensures MnemonicsFlow(text, image).Ok? ==>
      && TextPart(MnemonicsFlow(text, image).value) == text.value.value
      && TextPart(MnemonicsFlow(text, image).value) == TextPart(MnemonicsFlow(text, otherImage).value)
  {
  }
}
