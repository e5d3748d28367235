/**
 * The app module's older request and response records. They differ from the
 * domain module's in which fields may be absent: a content's role, both fields
 * of inline data and the response's candidate list are required here.
 */
module AppApi {
  import opened Wrappers
  import opened KotlinCore

  datatype InlineData = InlineData(mimeType: string, data: string)

  datatype Part = Part(text: Option<string> := None, inlineData: Option<InlineData> := None)

  /** `parts` is absent when the model returned nothing for this content. */
  datatype Content = Content(role: string, parts: Option<seq<Part>> := None)

  /** `content` is absent when the response was blocked. */
  datatype Candidate = Candidate(content: Option<Content> := None, finishReason: Option<string> := None)

  datatype TranslateResponse = TranslateResponse(candidates: seq<Candidate>)

  /** The IEEE 754 single-precision patterns of `0.4f` and `0.9f`. */
  const DefaultTemperature := Float32(0x3ECC_CCCD)
  const DefaultTopP := Float32(0x3F66_6666)

  datatype GenerationConfig = GenerationConfig(
    temperature: Float32 := DefaultTemperature,
    topP: Float32 := DefaultTopP,
    topK: Int32 := 40,
    maxOutputTokens: Int32 := 100)

  datatype TranslateRequest = TranslateRequest(
    contents: seq<Content>,
    generationConfig: Option<GenerationConfig> := None)

  /** The error body the endpoint sends with a failing status. */
  datatype GeminiErrorResponse = GeminiErrorResponse(error: GeminiError)

  datatype GeminiError = GeminiError(message: string)

  lemma DefaultsAreAbsent(role: string)
    ensures Content(role).parts == None && Content(role).role == role
    ensures Candidate().content == None && Candidate().finishReason == None
    ensures Part().text == None && Part().inlineData == None
    ensures forall cs :: TranslateRequest(cs).generationConfig == None
  {
  }

  /** The same defaults as the domain module's, each kept when the others are overridden. */
  lemma GenerationConfigDefaults(t: Float32, p: Float32, k: Int32, m: Int32)
    ensures GenerationConfig().topK == 40 && GenerationConfig().maxOutputTokens == 100
    ensures GenerationConfig().temperature.bits == 0x3ECC_CCCD
    ensures GenerationConfig().topP.bits == 0x3F66_6666
    ensures GenerationConfig(temperature := t) == GenerationConfig(t, DefaultTopP, 40, 100)
    ensures GenerationConfig(topP := p) == GenerationConfig(DefaultTemperature, p, 40, 100)
    ensures GenerationConfig(topK := k) == GenerationConfig(DefaultTemperature, DefaultTopP, k, 100)
    ensures GenerationConfig(maxOutputTokens := m) == GenerationConfig(DefaultTemperature, DefaultTopP, 40, m)
    ensures GenerationConfig(temperature := t, topP := p) == GenerationConfig(t, p, 40, 100)
    ensures GenerationConfig(topK := k, maxOutputTokens := m)
      == GenerationConfig(DefaultTemperature, DefaultTopP, k, m)
    ensures GenerationConfig(topP := p, topK := k, maxOutputTokens := m) == GenerationConfig(DefaultTemperature, p, k, m)
    ensures GenerationConfig(temperature := t, topK := k, maxOutputTokens := m) == GenerationConfig(t, DefaultTopP, k, m)
    ensures GenerationConfig(temperature := t, topP := p, maxOutputTokens := m) == GenerationConfig(t, p, 40, m)
    ensures GenerationConfig(temperature := t, topP := p, topK := k) == GenerationConfig(t, p, k, 100)
  {
  }
}
