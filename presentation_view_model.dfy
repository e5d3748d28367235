/**
 * The presentation module's `TranslatorViewModel`: four actions, each of which
 * checks the API key, sets `Loading`, sends one request through the use case
 * and turns what comes back into a result state.
 *
 * The use case's answer (a decoded response, or an exception) is a parameter
 * of each action. `buildDescribeImagePrompt` and `buildSummarizePdfPrompt` are
 * not in the prompt builder modelled here, so a view model is given them when
 * it is made.
 */
module PresentationViewModel {
  import opened Wrappers
  import opened KotlinCore
  import opened PromptBuilder
  import opened DomainData
  import opened UiStates

  /** What `translateUseCase.invoke` does: returns a decoded response, or throws. */
  datatype Outcome = Returned(response: TranslateRequestDomain) | Threw(message: Option<string>)

  /** A picked PDF, carried as the Base64 text of its bytes. */
  datatype PdfDocument = PdfDocument(base64: string)

  /**
   * Reading the picked PDF: its bytes, no stream at all (`openInputStream`
   * gave `null`), or an exception while opening or reading it.
   */
  datatype PdfRead = Read(document: PdfDocument) | NoStream | ReadFailed(message: Option<string>)

  /** One request handed to the use case, with the key it was sent with. */
  datatype Call = Call(apiKey: string, request: TranslateRequest)

  // ---------------------------------------------------------------------
  // Requests

  const PdfMimeType := "application/pdf"

  /** One user content whose only part is the prompt. */
  function TextRequest(prompt: string, config: Option<GenerationConfig>): TranslateRequest {
    TranslateRequest([Content(Some(UserRole), Some([Part(text := Some(prompt))]))], config)
  }

  /** One user content: the prompt, then the attachment as inline data. */
  function MediaRequest(prompt: string, mimeType: string, data: string): TranslateRequest {
    var attachment := InlineData(Some(mimeType), Some(data));
    TranslateRequest([Content(Some(UserRole), Some([Part(text := Some(prompt)), Part(inlineData := Some(attachment))]))])
  }

  /** The parts of a candidate's content, `content?.parts`. */
  function PartsOf(c: Candidate): Option<seq<Part>> {
    if c.content.Some? then c.content.value.parts else None
  }

  /** The response has a first candidate and that candidate has a first part. */
  predicate HasLeadPart(r: TranslateRequestDomain) {
    !IsNullOrEmpty(r.candidates) && !IsNullOrEmpty(PartsOf(r.candidates.value[0]))
  }

  /** The text of the first part of the first candidate, `""` when it has none. */
  function LeadText(r: TranslateRequestDomain): string
    requires HasLeadPart(r)
  {
    PartsOf(r.candidates.value[0]).value[0].text.GetOr("")
  }

  // ---------------------------------------------------------------------
  // Classification

  /** The three error messages a response can produce are told apart by their text. */
  lemma MessagesDiffer(task: Task, reason: string)
    ensures NoCandidatesMessage(task) != NoPartsMessage(task)
    ensures !StartsWith(NoCandidatesMessage(task), BlockedPrefix)
    ensures !StartsWith(NoPartsMessage(task), BlockedPrefix)
    ensures StartsWith(BlockedPrefix + reason, BlockedPrefix)
  {
    var l := Label(task);
    assert |NoCandidatesMessage(task)| == |l| + 32;
    assert |NoPartsMessage(task)| == |l| + 35;
    assert BlockedPrefix[0] == 'R';
    assert NoCandidatesMessage(task)[0] == l[0];
    assert NoPartsMessage(task)[0] == l[0];
    NotBlocked(NoCandidatesMessage(task));
    NotBlocked(NoPartsMessage(task));
    assert (BlockedPrefix + reason)[..|BlockedPrefix|] == BlockedPrefix;
  }

  /**
   * The result state of a returned response. It succeeds exactly when the
   * first candidate has a first part, and then shows that part's text; it
   * reports missing candidates exactly when the list is absent or empty; and
   * it reports a block, naming the finish reason, exactly when the first
   * candidate has no parts but gives one.
   */
  function Classify(task: Task, response: TranslateRequestDomain, image: Option<Bitmap>): (s: UiState)
    ensures s.IsTerminal()
    ensures s.Success? <==> HasLeadPart(response)
    ensures s.Success? ==> s == Success(LeadText(response), image)
    ensures s == Error(NoCandidatesMessage(task)) <==> IsNullOrEmpty(response.candidates)
    ensures (s.Error? && StartsWith(s.errorMessage, BlockedPrefix)) <==>
      (!IsNullOrEmpty(response.candidates) && !HasLeadPart(response)
       && response.candidates.value[0].finishReason.Some?)
    ensures (!IsNullOrEmpty(response.candidates) && !HasLeadPart(response)
             && response.candidates.value[0].finishReason.Some?) ==>
      s == Error(BlockedPrefix + response.candidates.value[0].finishReason.value)
    ensures s == Error(NoPartsMessage(task)) <==>
      (!IsNullOrEmpty(response.candidates) && !HasLeadPart(response)
       && response.candidates.value[0].finishReason.None?)
  {
    MessagesDiffer(task, "");
    if IsNullOrEmpty(response.candidates) then
      Error(NoCandidatesMessage(task))
    else
      var first := response.candidates.value[0];
      var parts := PartsOf(first);
      if !IsNullOrEmpty(parts) then
        Success(parts.value[0].text.GetOr(""), image)
      else if first.finishReason.Some? then
        MessagesDiffer(task, first.finishReason.value);
        Error(BlockedPrefix + first.finishReason.value)
      else
        Error(NoPartsMessage(task))
  }

  /** The state an action that went ahead settles on. */
  function Settle(task: Task, outcome: Outcome, image: Option<Bitmap>): (s: UiState)
    ensures s.IsTerminal()
    ensures outcome.Returned? ==> s == Classify(task, outcome.response, image)
    ensures outcome.Threw? ==> s == Error(ExceptionMessage(outcome.message))
  {
    match outcome
    case Returned(response) => Classify(task, response, image)
    case Threw(message) => Error(ExceptionMessage(message))
  }

  /** Only the first candidate, and only its first part, are looked at. */
  function LeadOnly(r: TranslateRequestDomain): TranslateRequestDomain {
    if IsNullOrEmpty(r.candidates) then r
    else
      var first := r.candidates.value[0];
      var parts := PartsOf(first);
      var kept := if IsNullOrEmpty(parts) then first
        else first.(content := Some(first.content.value.(parts := Some([parts.value[0]]))));
      TranslateRequestDomain(Some([kept]))
  }

  lemma ClassifyReadsOnlyTheLead(task: Task, r: TranslateRequestDomain, image: Option<Bitmap>)
    ensures Classify(task, r, image) == Classify(task, LeadOnly(r), image)
  {
    if !IsNullOrEmpty(r.candidates) {
      var first := r.candidates.value[0];
      if IsNullOrEmpty(PartsOf(first)) {
        assert LeadOnly(r).candidates.value[0] == first;
      } else {
        assert PartsOf(LeadOnly(r).candidates.value[0]).value[0] == PartsOf(first).value[0];
      }
    }
  }

  /** A readable translation as the screen sees it. */
  lemma ClassifyTranslationExample(image: Option<Bitmap>)
    ensures var ok := Candidate(content := Some(Content(parts := Some([Part(text := Some("Bonjour"))]))));
      Classify(TranslationTask, TranslateRequestDomain(Some([ok])), image) == Success("Bonjour", image)
  {
  }

  /** A blocked poem: no content, finish reason "SAFETY". */
  lemma ClassifyBlockedExample()
    ensures var blocked := Candidate(finishReason := Some("SAFETY"));
      Classify(PoemTask, TranslateRequestDomain(Some([blocked])), None) == Error(BlockedPrefix + "SAFETY")
  {
  }

  /** An empty candidate list and an absent one are reported alike. */
  lemma ClassifyNoCandidatesExample(task: Task, image: Option<Bitmap>)
    ensures Classify(task, TranslateRequestDomain(Some([])), image)
      == Classify(task, TranslateRequestDomain(), image)
      == Error(NoCandidatesMessage(task))
  {
  }

  // ---------------------------------------------------------------------
  // The view model

  class TranslatorViewModel {
    const apiKey: string
    /** `buildDescribeImagePrompt(style)`. */
    const describeImagePrompt: string -> string
    /** `buildSummarizePdfPrompt()`. */
    const summarizePdfPrompt: string

    /** `_uiState.value`. */
    var uiState: UiState
    /** Every value `_uiState` has held and every request handed to the use case, in order. */
    ghost var log: seq<Event<Call>>

    ghost predicate Valid()
      reads this
    {
      LawfulLog(log) && uiState == States(log)[|States(log)| - 1]
    }

    constructor(apiKey: string, describeImagePrompt: string -> string, summarizePdfPrompt: string)
      ensures Valid()
      ensures uiState == Initial && log == [Shown(Initial)]
      ensures this.apiKey == apiKey && this.describeImagePrompt == describeImagePrompt
      ensures this.summarizePdfPrompt == summarizePdfPrompt
    {
      this.apiKey := apiKey;
      this.describeImagePrompt := describeImagePrompt;
      this.summarizePdfPrompt := summarizePdfPrompt;
      ghost var start: seq<Event<Call>> := [Shown(Initial)];
      LawfulStart(start);
      uiState := Initial;
      log := start;
    }

    /** The missing-key refusal: one error, no `Loading`, no request. */
    method Refuse()
      requires Valid()
      modifies this
      ensures Valid()
      ensures uiState == Error(ApiKeyMissing)
      ensures log == old(log) + [Shown(uiState)]
    {
      LogAfterRefusal(log);
      uiState := Error(ApiKeyMissing);
      log := log + [Shown(uiState)];
    }

    /** `Loading`, then the request while `Loading` is shown, then the result. */
    method Run(request: TranslateRequest, result: UiState)
      requires Valid() && result.IsTerminal()
      modifies this
      ensures Valid()
      ensures uiState == result
      ensures log == old(log) + [Shown(Loading), Sent(Call(apiKey, request)), Shown(result)]
    {
      LogAfterRun(log, Call(apiKey, request), result);
      ghost var before := log;
      uiState := Loading;
      log := log + [Shown(uiState)];
      log := log + [Sent(Call(apiKey, request))];
      uiState := result;
      log := log + [Shown(uiState)];
      assert log == before + [Shown(Loading), Sent(Call(apiKey, request)), Shown(result)];
    }

    /** `translate`: the only action that sends sampling settings. */
    method Translate(text: string, language: string, config: GenerationConfig, outcome: Outcome)
      requires Valid()
      modifies this
      ensures Valid()
      ensures IsBlank(apiKey) ==> uiState == Error(ApiKeyMissing) && log == old(log) + [Shown(uiState)]
      ensures !IsBlank(apiKey) ==>
        && uiState == Settle(TranslationTask, outcome, None)
        && log == old(log) + [Shown(Loading),
                              Sent(Call(apiKey, TextRequest(BuildTranslatePrompt(text, language), Some(config)))),
                              Shown(uiState)]
    {
      if IsBlank(apiKey) {
        Refuse();
        return;
      }
      var prompt := BuildTranslatePrompt(text, language);
      Run(TextRequest(prompt, Some(config)), Settle(TranslationTask, outcome, None));
    }

    /** `generatePoem`. */
    method GeneratePoem(topic: string, outcome: Outcome)
      requires Valid()
      modifies this
      ensures Valid()
      ensures IsBlank(apiKey) ==> uiState == Error(ApiKeyMissing) && log == old(log) + [Shown(uiState)]
      ensures !IsBlank(apiKey) ==>
        && uiState == Settle(PoemTask, outcome, None)
        && log == old(log) + [Shown(Loading), Sent(Call(apiKey, TextRequest(BuildPoemPrompt(topic), None))),
                              Shown(uiState)]
    {
      if IsBlank(apiKey) {
        Refuse();
        return;
      }
      Run(TextRequest(BuildPoemPrompt(topic), None), Settle(PoemTask, outcome, None));
    }

    /** `describeImage`: the only action whose success shows the picture. */
    method DescribeImage(bitmap: Bitmap, style: string, outcome: Outcome)
      requires Valid()
      modifies this
      ensures Valid()
      ensures IsBlank(apiKey) ==> uiState == Error(ApiKeyMissing) && log == old(log) + [Shown(uiState)]
      ensures !IsBlank(apiKey) ==>
        && uiState == Settle(ImageTask, outcome, Some(bitmap))
        && log == old(log) + [Shown(Loading),
                              Sent(Call(apiKey, MediaRequest(describeImagePrompt(style), JpegMimeType, bitmap.jpegBase64))),
                              Shown(uiState)]
    {
      if IsBlank(apiKey) {
        Refuse();
        return;
      }
      var request := MediaRequest(describeImagePrompt(style), JpegMimeType, bitmap.jpegBase64);
      Run(request, Settle(ImageTask, outcome, Some(bitmap)));
    }

    /**
     * `summarizePdf`: `Loading` comes before the file is read, so a file that
     * cannot be read ends in an error without any request.
     */
    method SummarizePdf(pdf: PdfRead, outcome: Outcome)
      requires Valid()
      modifies this
      ensures Valid()
      ensures IsBlank(apiKey) ==> uiState == Error(ApiKeyMissing) && log == old(log) + [Shown(uiState)]
      ensures !IsBlank(apiKey) && pdf.Read? ==>
        && uiState == Settle(SummaryTask, outcome, None)
        && log == old(log) + [Shown(Loading),
                              Sent(Call(apiKey, MediaRequest(summarizePdfPrompt, PdfMimeType, pdf.document.base64))),
                              Shown(uiState)]
      ensures !IsBlank(apiKey) && pdf.NoStream? ==>
        uiState == Error(PdfUnreadable) && log == old(log) + [Shown(Loading), Shown(uiState)]
      ensures !IsBlank(apiKey) && pdf.ReadFailed? ==>
        uiState == Error(ExceptionMessage(pdf.message)) && log == old(log) + [Shown(Loading), Shown(uiState)]
    {
      if IsBlank(apiKey) {
        Refuse();
        return;
      }
      match pdf
      case Read(document) =>
        var request := MediaRequest(summarizePdfPrompt, PdfMimeType, document.base64);
        Run(request, Settle(SummaryTask, outcome, None));
      case NoStream =>
        LogAfterLocalFailure(log, Error(PdfUnreadable));
        ghost var before := log;
        uiState := Loading;
        log := log + [Shown(uiState)];
        uiState := Error(PdfUnreadable);
        log := log + [Shown(uiState)];
        assert log == before + [Shown(Loading), Shown(uiState)];
      case ReadFailed(message) =>
        LogAfterLocalFailure(log, Error(ExceptionMessage(message)));
        ghost var before := log;
        uiState := Loading;
        log := log + [Shown(uiState)];
        uiState := Error(ExceptionMessage(message));
        log := log + [Shown(uiState)];
        assert log == before + [Shown(Loading), Shown(uiState)];
    }
  }
}
