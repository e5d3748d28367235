/**
 * Two input rules of the main screen that shape the sampling settings sent
 * with a translation: the output-token budget and the top-K text field.
 */
module ScreenInputs {
  import opened Wrappers
  import opened KotlinCore
  import opened DomainData

  /**
   * `(textToTranslate.length * 2).coerceAtLeast(100)`: the product is an
   * `Int`, so it wraps for lengths of 2^30 and more.
   */
  function TokenBudget(textLength: nat): (n: Int32)
    requires textLength < 0x8000_0000
    ensures n >= 100
    ensures textLength < 0x4000_0000 ==> n as int == if 2 * textLength < 100 then 100 else 2 * textLength
    ensures textLength >= 0x4000_0000 ==> n == 100
  {
    var doubled := Wrap32(2 * textLength);
    if doubled < 100 then 100 else doubled
  }

  /** The settings a translation is sent with: the screen's, with the budget replaced. */
  function TranslateConfig(settings: GenerationConfig, text: string): (c: GenerationConfig)
    requires |text| < 0x8000_0000
    ensures c.maxOutputTokens == TokenBudget(|text|)
    ensures c.(maxOutputTokens := settings.maxOutputTokens) == settings
  {
    settings.(maxOutputTokens := TokenBudget(|text|))
  }

  /**
   * Short texts get 100 tokens; at the two ends of the wrapping range the
   * product is -2^31 and -2, and both give 100.
   */
  lemma TokenBudgetExamples()
    ensures TokenBudget(0) == 100 && TokenBudget(50) == 100 && TokenBudget(51) == 102
    ensures Wrap32(2 * 0x4000_0000) == -0x8000_0000 && TokenBudget(0x4000_0000) == 100
    ensures Wrap32(2 * 0x7FFF_FFFF) == -2 && TokenBudget(0x7FFF_FFFF) == 100
  {
  }

  /** The top-K field: `it.toIntOrNull() ?: 0`. */
  function EditTopK(settings: GenerationConfig, input: string): (c: GenerationConfig)
    ensures c.(topK := settings.topK) == settings
    ensures ToIntOrNull(input).Some? ==> c.topK == ToIntOrNull(input).value
    ensures ToIntOrNull(input).None? ==> c.topK == 0
  {
    settings.(topK := ToIntOrNull(input).GetOr(0))
  }

  /** The field shows `topK.toString()`; reading that text back leaves the settings as they were. */
  lemma EditTopKOfShownValue(settings: GenerationConfig)
    ensures EditTopK(settings, IntToString(settings.topK as int)) == settings
  {
    ToIntOrNullOfIntToString(settings.topK as int);
  }
}
