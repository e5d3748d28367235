/**
 * The app module's older `TranslatorViewModel`, which calls the endpoint
 * directly and so also sees the HTTP status: three actions, each of which
 * checks the API key, sets `Loading`, sends one request and turns the
 * response, its status or an exception into a result state.
 *
 * The call's answer is a parameter of each action. The prompts come from the
 * same builders as in the data module.
 */
module AppViewModel {
  import opened Wrappers
  import opened KotlinCore
  import opened PromptBuilder
  import opened AppApi
  import opened UiStates

  /**
   * What `generateContent` does: answers with a status code and, perhaps, a
   * decoded body, or throws.
   */
  datatype HttpOutcome = Responded(code: Int32, body: Option<TranslateResponse>) | Threw(message: Option<string>)

  /** One request sent to the endpoint, with the key it was sent with. */
  datatype Call = Call(apiKey: string, request: TranslateRequest)

  /** Retrofit's `Response.isSuccessful`: a status in 200..299. */
  predicate IsSuccessful(code: Int32) {
    200 <= code < 300
  }

  /** Written in two pieces so that the verifier can read its first character. */
  const RateLimited := "You have exceeded your request limit. " + "Please try again later."
  const DescribeImagePrompt := "Describe this image in a few words."

  function TextRequest(prompt: string, config: Option<GenerationConfig>): TranslateRequest {
    TranslateRequest([Content(UserRole, Some([Part(text := Some(prompt))]))], config)
  }

  function ImageRequest(bitmap: Bitmap): TranslateRequest {
    var attachment := InlineData(JpegMimeType, bitmap.jpegBase64);
    TranslateRequest([Content(UserRole, Some([Part(text := Some(DescribeImagePrompt)), Part(inlineData := Some(attachment))]))])
  }

  // ---------------------------------------------------------------------
  // Classification

  /** The three texts around the status code in the generic failure message. */
  const FailedWithCode := " failed (Error "
  const TryAgain := "). Please try again."

  /** The message for a failing status: a fixed one for 429, the status itself otherwise. */
  function HttpErrorMessage(task: Task, code: Int32): (m: string)
    ensures m == RateLimited <==> code == 429
    ensures code != 429 ==> StartsWith(m, Label(task) + FailedWithCode) && EndsWith(m, TryAgain)
  {
    if code == 429 then RateLimited
    else
      var prefix := Label(task) + FailedWithCode;
      var m := prefix + IntToString(code as int) + TryAgain;
      assert m[0] == Label(task)[0] && RateLimited[0] == 'Y';
      assert m[..|prefix|] == prefix;
      m
  }

  /** The first candidate's `content?.parts`, when there is a first candidate. */
  predicate HasLeadParts(body: Option<TranslateResponse>) {
    && body.Some? && |body.value.candidates| > 0
    && body.value.candidates[0].content.Some?
    && body.value.candidates[0].content.value.parts.Some?
  }

  /** `parts.firstOrNull()?.text ?: ""`: an empty part list reads as empty text. */
  function LeadText(body: Option<TranslateResponse>): string
    requires HasLeadParts(body)
  {
    var parts := body.value.candidates[0].content.value.parts.value;
    if |parts| == 0 then "" else parts[0].text.GetOr("")
  }

  /**
   * The result state of a successful response. It succeeds exactly when the
   * first candidate carries a part list, empty or not; it reports missing
   * candidates exactly when the body is absent or has none; otherwise it
   * reports a block, printing an absent finish reason as "null".
   */
  function ClassifyBody(task: Task, body: Option<TranslateResponse>, image: Option<Bitmap>): (s: UiState)
    ensures s.IsTerminal()
    ensures s.Success? <==> HasLeadParts(body)
    ensures s.Success? ==> s == Success(LeadText(body), image)
    ensures s == Error(NoCandidatesMessage(task)) <==> (body.None? || |body.value.candidates| == 0)
    ensures (s.Error? && StartsWith(s.errorMessage, BlockedPrefix)) <==>
      (body.Some? && |body.value.candidates| > 0 && !HasLeadParts(body))
    ensures (body.Some? && |body.value.candidates| > 0 && !HasLeadParts(body)) ==>
      s == Error(BlockedPrefix + NullableToString(body.value.candidates[0].finishReason))
  {
    var noCandidates := NoCandidatesMessage(task);
    assert noCandidates[0] == Label(task)[0];
    NotBlocked(noCandidates);
    if body.None? || |body.value.candidates| == 0 then
      Error(noCandidates)
    else
      var first := body.value.candidates[0];
      if first.content.Some? && first.content.value.parts.Some? then
        var parts := first.content.value.parts.value;
        Success(if |parts| == 0 then "" else parts[0].text.GetOr(""), image)
      else
        var message := BlockedPrefix + NullableToString(first.finishReason);
        assert message[..|BlockedPrefix|] == BlockedPrefix;
        Error(message)
  }

  /**
   * The state an action that went ahead settles on: a failing status decides
   * the result before the body is looked at.
   */
  function Settle(task: Task, outcome: HttpOutcome, image: Option<Bitmap>): (s: UiState)
    ensures s.IsTerminal()
    ensures outcome.Responded? && !IsSuccessful(outcome.code) ==> s == Error(HttpErrorMessage(task, outcome.code))
    ensures outcome.Responded? && IsSuccessful(outcome.code) ==> s == ClassifyBody(task, outcome.body, image)
    ensures outcome.Threw? ==> s == Error(ExceptionMessage(outcome.message))
  {
    match outcome
    case Responded(code, body) =>
      if IsSuccessful(code) then ClassifyBody(task, body, image) else Error(HttpErrorMessage(task, code))
    case Threw(message) => Error(ExceptionMessage(message))
  }

  /** With a failing status, the body, whatever it holds, makes no difference. */
  lemma HttpErrorDominates(task: Task, code: Int32, b1: Option<TranslateResponse>, b2: Option<TranslateResponse>,
                           image: Option<Bitmap>)
    requires !IsSuccessful(code)
    ensures Settle(task, Responded(code, b1), image) == Settle(task, Responded(code, b2), image)
    ensures Settle(task, Responded(code, b1), image).Error?
  {
  }

  /**
   * A response shows the rate-limit message if and only if its status is 429,
   * whatever its body.
   */
  lemma RateLimitedIff429(task: Task, code: Int32, body: Option<TranslateResponse>, image: Option<Bitmap>)
    ensures Settle(task, Responded(code, body), image) == Error(RateLimited) <==> code == 429
  {
    var s := Settle(task, Responded(code, body), image);
    assert RateLimited[0] == 'Y';
    if IsSuccessful(code) && s.Error? {
      if StartsWith(s.errorMessage, BlockedPrefix) {
        assert s.errorMessage[0] == BlockedPrefix[0];
      } else {
        assert s.errorMessage == NoCandidatesMessage(task);
        assert s.errorMessage[0] == Label(task)[0];
      }
    } else if !IsSuccessful(code) && code != 429 {
      assert s.errorMessage[0] == Label(task)[0];
    }
  }

  /** Any other failing status is spelled out in the message, and reads back as itself. */
  lemma HttpErrorNamesCode(task: Task, code: Int32)
    requires code != 429
    ensures var m := HttpErrorMessage(task, code);
      var at := |Label(task)| + |FailedWithCode|;
      var digits := IntToString(code as int);
      at + |digits| <= |m| && ToIntOrNull(m[at..at + |digits|]) == Some(code)
      && EndsWith(m, TryAgain)
  {
    var m := HttpErrorMessage(task, code);
    var prefix := Label(task) + FailedWithCode;
    var digits := IntToString(code as int);
    assert m == prefix + digits + TryAgain;
    assert m[|prefix|..|prefix| + |digits|] == digits;
    ToIntOrNullOfIntToString(code as int);
  }

  /**
   * Unlike the presentation variant, an empty part list is a success with
   * empty text, and a block without a finish reason prints "null".
   */
  lemma ClassifyBodyQuirks(task: Task, image: Option<Bitmap>)
    ensures var empty := Candidate(content := Some(Content(UserRole, Some([]))));
      ClassifyBody(task, Some(TranslateResponse([empty])), image) == Success("", image)
    ensures ClassifyBody(task, Some(TranslateResponse([Candidate()])), image) == Error(BlockedPrefix + "null")
  {
  }

  // ---------------------------------------------------------------------
  // The view model

  class TranslatorViewModel {
    const apiKey: string

    /** `_uiState.value`. */
    var uiState: UiState
    /** Every value `_uiState` has held and every request sent to the endpoint, in order. */
    ghost var log: seq<Event<Call>>

    ghost predicate Valid()
      reads this
    {
      LawfulLog(log) && uiState == States(log)[|States(log)| - 1]
    }

    constructor(apiKey: string)
      ensures Valid()
      ensures uiState == Initial && log == [Shown(Initial)]
      ensures this.apiKey == apiKey
    {
      this.apiKey := apiKey;
      ghost var start: seq<Event<Call>> := [Shown(Initial)];
      LawfulStart(start);
      uiState := Initial;
      log := start;
    }

    /** The missing-key refusal: one error, no `Loading`, no request. */
    method Refuse()
      requires Valid()
      modifies this
      ensures Valid()
      ensures uiState == Error(ApiKeyMissing)
      ensures log == old(log) + [Shown(uiState)]
    {
      LogAfterRefusal(log);
      uiState := Error(ApiKeyMissing);
      log := log + [Shown(uiState)];
    }

    /** `Loading`, then the request while `Loading` is shown, then the result. */
    method Run(request: TranslateRequest, result: UiState)
      requires Valid() && result.IsTerminal()
      modifies this
      ensures Valid()
      ensures uiState == result
      ensures log == old(log) + [Shown(Loading), Sent(Call(apiKey, request)), Shown(result)]
    {
      LogAfterRun(log, Call(apiKey, request), result);
      ghost var before := log;
      uiState := Loading;
      log := log + [Shown(uiState)];
      log := log + [Sent(Call(apiKey, request))];
      uiState := result;
      log := log + [Shown(uiState)];
      assert log == before + [Shown(Loading), Sent(Call(apiKey, request)), Shown(result)];
    }

    /** `describeImage`: a fixed prompt, and the picture is shown with the answer. */
    method DescribeImage(bitmap: Bitmap, outcome: HttpOutcome)
      requires Valid()
      modifies this
      ensures Valid()
      ensures IsBlank(apiKey) ==> uiState == Error(ApiKeyMissing) && log == old(log) + [Shown(uiState)]
      ensures !IsBlank(apiKey) ==>
        && uiState == Settle(ImageTask, outcome, Some(bitmap))
        && log == old(log) + [Shown(Loading), Sent(Call(apiKey, ImageRequest(bitmap))), Shown(uiState)]
    {
      if IsBlank(apiKey) {
        Refuse();
        return;
      }
      Run(ImageRequest(bitmap), Settle(ImageTask, outcome, Some(bitmap)));
    }

    /** `generatePoem`. */
    method GeneratePoem(topic: string, outcome: HttpOutcome)
      requires Valid()
      modifies this
      ensures Valid()
      ensures IsBlank(apiKey) ==> uiState == Error(ApiKeyMissing) && log == old(log) + [Shown(uiState)]
      ensures !IsBlank(apiKey) ==>
        && uiState == Settle(PoemTask, outcome, None)
        && log == old(log) + [Shown(Loading), Sent(Call(apiKey, TextRequest(BuildPoemPrompt(topic), None))),
                              Shown(uiState)]
    {
      if IsBlank(apiKey) {
        Refuse();
        return;
      }
      Run(TextRequest(BuildPoemPrompt(topic), None), Settle(PoemTask, outcome, None));
    }

    /** `translate`: the only action that sends sampling settings. */
    method Translate(text: string, language: string, config: GenerationConfig, outcome: HttpOutcome)
      requires Valid()
      modifies this
      ensures Valid()
      ensures IsBlank(apiKey) ==> uiState == Error(ApiKeyMissing) && log == old(log) + [Shown(uiState)]
      ensures !IsBlank(apiKey) ==>
        && uiState == Settle(TranslationTask, outcome, None)
        && log == old(log) + [Shown(Loading),
                              Sent(Call(apiKey, TextRequest(BuildTranslatePrompt(text, language), Some(config)))),
                              Shown(uiState)]
    {
      if IsBlank(apiKey) {
        Refuse();
        return;
      }
      var prompt := BuildTranslatePrompt(text, language);
      Run(TextRequest(prompt, Some(config)), Settle(TranslationTask, outcome, None));
    }
  }
}
