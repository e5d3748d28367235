/**
 * The domain module's request and response records. Every field the source
 * declares nullable is an `Option`, and every default the source gives is the
 * constructor's default here.
 */
module DomainData {
  import opened Wrappers
  import opened KotlinCore

  datatype InlineData = InlineData(mimeType: Option<string> := None, data: Option<string> := None)

  /** A part may carry text, inline data, both or neither: nothing ties the two. */
  datatype Part = Part(text: Option<string> := None, inlineData: Option<InlineData> := None)

  datatype Content = Content(role: Option<string> := None, parts: Option<seq<Part>> := None)

  datatype Candidate = Candidate(content: Option<Content> := None, finishReason: Option<string> := None)

  /** The decoded `generateContent` response: its candidate list may be absent. */
  datatype TranslateRequestDomain = TranslateRequestDomain(candidates: Option<seq<Candidate>> := None)

  datatype TranslateResponseDomain = TranslateResponseDomain(translatedText: string)

  datatype Translation = Translation(translatedText: string)

  /** The IEEE 754 single-precision patterns of `0.4f` and `0.9f`. */
  const DefaultTemperature := Float32(0x3ECC_CCCD)
  const DefaultTopP := Float32(0x3F66_6666)

  /** Sampling settings; no field is range-checked. */
  datatype GenerationConfig = GenerationConfig(
    temperature: Float32 := DefaultTemperature,
    topP: Float32 := DefaultTopP,
    topK: Int32 := 40,
    maxOutputTokens: Int32 := 100)

  datatype TranslateRequest = TranslateRequest(
    contents: seq<Content>,
    generationConfig: Option<GenerationConfig> := None)

  /**
   * Every nullable field defaults to absent, so a response without a candidate
   * list and one with an empty list are different values.
   */
  lemma DefaultsAreAbsent()
    ensures TranslateRequestDomain().candidates == None
    ensures TranslateRequestDomain() != TranslateRequestDomain(Some([]))
    ensures Candidate().content == None && Candidate().finishReason == None
    ensures Content().role == None && Content().parts == None
    ensures Part().text == None && Part().inlineData == None
    ensures InlineData().mimeType == None && InlineData().data == None
    ensures forall cs :: TranslateRequest(cs).generationConfig == None
  {
  }

  /** A part carrying both kinds of payload, and one carrying neither, are both values. */
  lemma PartsAreUnconstrained(t: string, d: InlineData)
    ensures var both := Part(text := Some(t), inlineData := Some(d));
      both.text.Some? && both.inlineData.Some?
    ensures Part().text.None? && Part().inlineData.None?
  {
  }

  /**
   * The default sampling settings, and that overriding any fields keeps the
   * defaults of the others.
   */
  lemma GenerationConfigDefaults(t: Float32, p: Float32, k: Int32, m: Int32)
    ensures GenerationConfig().topK == 40 && GenerationConfig().maxOutputTokens == 100
    ensures GenerationConfig().temperature.bits == 0x3ECC_CCCD
    ensures GenerationConfig().topP.bits == 0x3F66_6666
    ensures GenerationConfig(temperature := t) == GenerationConfig(t, DefaultTopP, 40, 100)
    ensures GenerationConfig(topP := p) == GenerationConfig(DefaultTemperature, p, 40, 100)
    ensures GenerationConfig(topK := k) == GenerationConfig(DefaultTemperature, DefaultTopP, k, 100)
    ensures GenerationConfig(maxOutputTokens := m) == GenerationConfig(DefaultTemperature, DefaultTopP, 40, m)
    ensures GenerationConfig(temperature := t, topP := p) == GenerationConfig(t, p, 40, 100)
    ensures GenerationConfig(topK := k, maxOutputTokens := m)
      == GenerationConfig(DefaultTemperature, DefaultTopP, k, m)
    ensures GenerationConfig(topP := p, topK := k, maxOutputTokens := m) == GenerationConfig(DefaultTemperature, p, k, m)
    ensures GenerationConfig(temperature := t, topK := k, maxOutputTokens := m) == GenerationConfig(t, DefaultTopP, k, m)
    ensures GenerationConfig(temperature := t, topP := p, maxOutputTokens := m) == GenerationConfig(t, p, 40, m)
    ensures GenerationConfig(temperature := t, topP := p, topK := k) == GenerationConfig(t, p, k, 100)
  {
  }
}
