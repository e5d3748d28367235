# TranslatorApp — a Dafny model of its request/response core

TranslatorApp is an Android front end over one call to Gemini's
`generateContent` endpoint. It has three precise parts, and this project models all three:

* **The prompt builders** (`PromptBuilder`). These are pure string templates for translating,
  writing a poem, summarising and role play. The translate template is a raw
  string literal passed through Kotlin's `trimIndent()`. That function is
  modelled in full: `lines()` with its three kinds of line break, the common
  indent of the non-blank lines, the dropping of a blank first and last line,
  and `joinToString("\n")`. When the text and the language hold no line
  break, the model proves the whole translate prompt, line by line. For every
  input at all, it proves that the prompt contains the fallback phrase, that
  it names the language (when the language is one line), and that no "\r" is
  left in it.
* **The request and response records.** There are two variants: the domain
  module's and the app module's older one. They differ in which fields may be
  absent. Nullable fields are `Option`, and Kotlin's defaults are constructor
  defaults.
* **The two `TranslatorViewModel`s.** Each is a class with a mutable
  `uiState` field drawn from `Initial | Loading | Success(text, image?) |
  Error(message)`. Each has one method per action, and each method takes the
  transport's answer as a parameter. A pure classifier (`Classify` /
  `ClassifyBody`, wrapped by `Settle`) decides the result state. One ghost
  field, `log`, records each step in order: a `uiState` value shown, or a
  request sent. Every method keeps the invariant `LawfulLog`:
  * the states start at `Initial` and never return to it;
  * every `Loading` is followed at once by a result;
  * the only result that does not follow a `Loading` is the missing-key error;
  * every request is sent while `Loading` is the current state, and is
    answered at once by a result;
  * every `Success` is the answer to a request.

  The app variant also sees the HTTP status. A failing status decides the
  result before the body is read, and the rate-limit message appears exactly
  when the status is 429.

Kotlin's standard-library behaviour that the core relies on is written out in
`KotlinCore`:
* the 32-bit `Int` and its wrap-around;
* `Char.isWhitespace` and `String.isBlank`;
* `Int.toString` and `String.toIntOrNull`;
* `isNullOrEmpty`;
* how a `null` prints inside a string template.

Two input rules from the main screen are also modelled: the output-token
budget of a translation and the top-K text field.

The translate prompt thus has two kinds of result. With no line break in the
inputs, it is exactly the de-indented template and ends with the quoted text.
With any inputs at all, it still contains the phrase "Translation not
possible."; but a multi-line text is not carried verbatim, because
`trimIndent` rewrites its line breaks (see "## Left out").

Files: `wrappers.dfy`, `kotlin_core.dfy`, `indentation.dfy`,
`prompt_builder.dfy`, `domain_data.dfy`, `app_api.dfy`, `ui_states.dfy`,
`presentation_view_model.dfy`, `app_view_model.dfy`, `screen_inputs.dfy`.

Two facts about the source shape the model:
* `PromptBuilder.kt` defines no image-description builder and no PDF-summary
  builder, although the presentation view model calls both.
* The app view model calls `PromptBuilder.buildPoemPrompt` and
  `buildTranslatePrompt`. The app module's own `PromptBuilder` is not part of
  this model; the data module's builders stand in for it (see "## Left out").

## Model

| member | source | states |
|---|---|---|
| KotlinCore.Wrap32 | presentation/src/main/java/com/example/presentation/ui/MainActivity.kt:239 | `Int` arithmetic: the result equals the mathematical value when that fits in 32 bits, and is congruent to it modulo 2^32 always |
| KotlinCore.IntToString | data/src/main/java/com/example/data/PromptBuilder.kt:35 | the text of `$sentences` is non-empty; it starts with '-' exactly for negative values and is decimal digits otherwise |
| KotlinCore.ToIntOrNull | presentation/src/main/java/com/example/presentation/ui/MainActivity.kt:367 | `String.toIntOrNull`: a result is only ever read from non-empty text, and a lone character below '0' (such as a sign) gives `null`; the full round trip with `toString` is `ToIntOrNullOfIntToString` |
| KotlinCore.IsWhitespace | presentation/src/main/java/com/example/presentation/viewmodel/TranslatorViewModel.kt:188 | `Char.isWhitespace`: the space, the controls U+0009..U+000D and U+001C..U+001F, and the Unicode space, line and paragraph separators (the predicate is this definition) |
| KotlinCore.IsBlank | presentation/src/main/java/com/example/presentation/viewmodel/TranslatorViewModel.kt:188 | `String.isBlank`: the text is empty or every character is whitespace (the predicate is this definition) |
| KotlinCore.ToIntOrNullOfIntToString | presentation/src/main/java/com/example/presentation/ui/MainActivity.kt:365-367 | `toIntOrNull` reads back what `toString` wrote: the value itself when it fits an `Int`, `null` when it overflows |
| KotlinCore.ToIntOrNullRejects | presentation/src/main/java/com/example/presentation/ui/MainActivity.kt:367 | empty text, a lone '-' or '+', trailing letters, a leading space and a foreign sign all give `null` |
| Indentation.LinesOfJoinLines | data/src/main/java/com/example/data/PromptBuilder.kt:9-20 | `lines()` undoes `joinToString("\n")` on lines without breaks |
| Indentation.LinesAppend | data/src/main/java/com/example/data/PromptBuilder.kt:9-20 | a "\n" that does not complete a "\r\n" splits the lines of a text in two |
| Indentation.Lines | data/src/main/java/com/example/data/PromptBuilder.kt:20 | `lines()` always gives at least one line; how it splits is stated by `LinesAppendBreak` and the lemmas after it |
| Indentation.LinesAppendBreak | data/src/main/java/com/example/data/PromptBuilder.kt:20 | each of the three breaks, "\n", "\r\n" and a "\r" not followed by "\n", counts as one break: set after a text that does not end in "\r", it splits the lines of the whole into the lines before it and the lines after it |
| Indentation.LinesOfCrLf | data/src/main/java/com/example/data/PromptBuilder.kt:20 | "a\r\nb" is the two lines "a" and "b" |
| Indentation.LinesOfTwoCr | data/src/main/java/com/example/data/PromptBuilder.kt:20 | "a\r\rb" is the three lines "a", "" and "b" |
| Indentation.LinesOfSingleLine | data/src/main/java/com/example/data/PromptBuilder.kt:20 | a text without "\n" and "\r" is a single line |
| Indentation.LinesHaveNoBreaks | data/src/main/java/com/example/data/PromptBuilder.kt:20 | no line that `lines()` returns holds a "\n" or a "\r" |
| Indentation.JoinLinesEnds | data/src/main/java/com/example/data/PromptBuilder.kt:20 | `joinToString("\n")` of a non-empty list gives a text that starts with its first line and ends with its last; `LinesOfJoinLines` is its inverse |
| Indentation.MinCommonIndent | data/src/main/java/com/example/data/PromptBuilder.kt:20 | the common indent is absent exactly when every line is blank; otherwise it is at most the indent of every non-blank line and equals the indent of one of them |
| Indentation.ReindentBlock | data/src/main/java/com/example/data/PromptBuilder.kt:20 | `reindent` of an empty first line, body lines indented by one prefix and a blank last line drops both end lines and gives back the body |
| Indentation.ReindentAt | data/src/main/java/com/example/data/PromptBuilder.kt:20 | `reindent` keeps every line strictly between the first and the last, with the indent cut off, as a line of its result |
| Indentation.TrimIndent | data/src/main/java/com/example/data/PromptBuilder.kt:20 | `trimIndent` of a single line is that line without its leading whitespace, or "" when the line is blank |
| Indentation.TrimIndentOfIndentedBlock | data/src/main/java/com/example/data/PromptBuilder.kt:9-20 | `trimIndent` of a literal that opens with a line break, has every body line indented by the same prefix and closes with a blank line gives the body lines without indent, joined by "\n" |
| Indentation.TrimIndentKeepsInnerLine | data/src/main/java/com/example/data/PromptBuilder.kt:9-20 | a non-blank line that is neither first nor last survives `trimIndent`, having lost at most its own indent |
| Indentation.TrimIndentKeepsJoinedLine | data/src/main/java/com/example/data/PromptBuilder.kt:9-20 | the same, for a break-free line of a text however the other lines break |
| PromptBuilder.BuildTranslatePrompt | data/src/main/java/com/example/data/PromptBuilder.kt:8-20 | the translate prompt is `trimIndent` of the interpolated raw literal (the function is this definition; its content is stated by the four `TranslatePrompt` lemmas) |
| PromptBuilder.BuildPoemPrompt | data/src/main/java/com/example/data/PromptBuilder.kt:26-28 | the poem prompt is the fixed instruction followed by the topic (the function is this definition; see `PoemPromptRecoversTopic`) |
| PromptBuilder.BuildSummarizePrompt | data/src/main/java/com/example/data/PromptBuilder.kt:34-36 | the summary prompt interpolates the count with `Int.toString` (the function is this definition; see `SummarizePromptRecoversCount`) |
| PromptBuilder.BuildActAsPrompt | data/src/main/java/com/example/data/PromptBuilder.kt:42-44 | the role-play prompt names the character twice and ends with the question (the function is this definition; see `ActAsPromptShape`) |
| PromptBuilder.TranslatePromptDeindented | data/src/main/java/com/example/data/PromptBuilder.kt:8-20 | when neither text nor language contains a line break, the prompt is exactly the ten template lines without indent, joined by "\n" |
| PromptBuilder.TranslatePromptFirstLine | data/src/main/java/com/example/data/PromptBuilder.kt:10 | under the same condition, the first line is "Translate the following text to " + language + "." and the prompt starts with that line and a break |
| PromptBuilder.TranslatePromptNamesLanguage | data/src/main/java/com/example/data/PromptBuilder.kt:10 | for every text, line breaks included, and every one-line language, the prompt contains "Translate the following text to " + language + "." |
| PromptBuilder.TranslatePromptHasFallback | data/src/main/java/com/example/data/PromptBuilder.kt:17 | for every text and language, line breaks included, the prompt contains "Translation not possible." |
| PromptBuilder.TranslatePromptEndsWithText | data/src/main/java/com/example/data/PromptBuilder.kt:19 | under the no-break condition, the prompt ends with `Text to translate: "` + text + `"` |
| PromptBuilder.TranslatePromptHasNoCr | data/src/main/java/com/example/data/PromptBuilder.kt:8-20 | for every text and language, the prompt holds no "\r": `trimIndent` rejoins all lines with "\n" |
| PromptBuilder.TranslatePromptAltersCrLf | data/src/main/java/com/example/data/PromptBuilder.kt:19-20 | the text "a\r\nb" does not occur in its own prompt, whatever the language |
| Indentation.TrimIndentHasNoCr | data/src/main/java/com/example/data/PromptBuilder.kt:20 | `trimIndent` leaves no "\r" in its result, whatever its input |
| PromptBuilder.PoemPromptRecoversTopic | data/src/main/java/com/example/data/PromptBuilder.kt:26-28 | the poem prompt starts with a fixed instruction, and the topic is exactly what follows it |
| PromptBuilder.PoemPromptInjective | data/src/main/java/com/example/data/PromptBuilder.kt:27 | equal poem prompts come from equal topics |
| PromptBuilder.SummarizePromptRecoversCount | data/src/main/java/com/example/data/PromptBuilder.kt:34-36 | after the fixed opening comes the decimal count, which `toIntOrNull` reads back as the same `Int`; the prompt ends with " sentences: " + text |
| PromptBuilder.SummarizeCountEnds | data/src/main/java/com/example/data/PromptBuilder.kt:35 | the printed count is digits after its first character and is followed by a space |
| PromptBuilder.SummarizePromptInjective | data/src/main/java/com/example/data/PromptBuilder.kt:35 | equal summary prompts come from equal counts and equal texts |
| PromptBuilder.ActAsPromptShape | data/src/main/java/com/example/data/PromptBuilder.kt:42-44 | the role-play prompt names the character right after its opening, names it again before the question, and ends with the question |
| DomainData.DefaultsAreAbsent | domain/src/main/java/com/example/domain/data/TranslateRequestDomain.kt:5-40 | every nullable field defaults to absent; a response with no candidate list differs from one with an empty list; a request's config defaults to absent |
| DomainData.PartsAreUnconstrained | domain/src/main/java/com/example/domain/data/TranslateRequestDomain.kt:19-22 | a part may carry text and inline data together, or neither |
| DomainData.GenerationConfigDefaults | domain/src/main/java/com/example/domain/data/TranslateRequestDomain.kt:42-47 | the defaults are topK 40, maxOutputTokens 100, and the float patterns of 0.4 and 0.9; overriding any one field, or any three, from the two floats and the two integers keeps the defaults of the rest, and so do the two overrides of both floats and of both integers |
| AppApi.DefaultsAreAbsent | app/src/main/java/com/example/myapplication/GeminiApiService.kt:18-54 | a content's parts default to absent while its role is required; a candidate's content and finish reason and a request's config default to absent |
| AppApi.GenerationConfigDefaults | app/src/main/java/com/example/myapplication/GeminiApiService.kt:23-28 | the same defaults as the domain variant, and the same override cases: any one field, any three, both floats or both integers, with the defaults of the rest kept |
| UiStates.LawfulAfterRefusal | presentation/src/main/java/com/example/presentation/viewmodel/TranslatorViewModel.kt:41-44 | appending the missing-key error to a lawful history keeps it lawful |
| UiStates.LawfulAfterRun | presentation/src/main/java/com/example/presentation/viewmodel/TranslatorViewModel.kt:193-224 | appending `Loading` and then a result to a lawful history keeps it lawful |
| UiStates.LawfulConsequences | presentation/src/main/java/com/example/presentation/viewmodel/TranslatorViewModel.kt:26-37 | in a lawful history the current state is not `Loading`, and every `Success` comes straight after a `Loading` |
| UiStates.Label | presentation/src/main/java/com/example/presentation/viewmodel/TranslatorViewModel.kt:214-218 | each task's message label is non-empty and opens with T, P, I or S, never with the R of a block report; this only serves the proofs of `MessagesDiffer` and `RateLimitedIff429` |
| UiStates.Lawful | presentation/src/main/java/com/example/presentation/viewmodel/TranslatorViewModel.kt:34-37 | a lawful state history starts at `Initial` and never returns there, every `Loading` is followed at once by a result, and any other state not after a `Loading` is the missing-key error (the predicate is this definition) |
| UiStates.LawfulLog | presentation/src/main/java/com/example/presentation/viewmodel/TranslatorViewModel.kt:193-199 | a lawful log shows a lawful history, sends every request right after showing `Loading` and answers it at once with a result, and shows every `Success` right after a request (the predicate is this definition) |
| UiStates.LawfulStart | presentation/src/main/java/com/example/presentation/viewmodel/TranslatorViewModel.kt:35 | a log holding only `Initial` is lawful |
| UiStates.LogAfterRefusal | presentation/src/main/java/com/example/presentation/viewmodel/TranslatorViewModel.kt:188-191 | showing the missing-key error keeps a lawful log lawful and adds that one state to its history |
| UiStates.LogAfterRun | presentation/src/main/java/com/example/presentation/viewmodel/TranslatorViewModel.kt:193-224 | showing `Loading`, sending one request and showing any result keeps a lawful log lawful, and adds `Loading` and the result to its history |
| UiStates.LogAfterLocalFailure | presentation/src/main/java/com/example/presentation/viewmodel/TranslatorViewModel.kt:46-92 | showing `Loading` and then an error, with no request, keeps a lawful log lawful |
| UiStates.LogConsequences | presentation/src/main/java/com/example/presentation/viewmodel/TranslatorViewModel.kt:193-199 | in a lawful log the last step shows the current state, which is not `Loading`, and the step before every request shows `Loading` |
| PresentationViewModel.MessagesDiffer | presentation/src/main/java/com/example/presentation/viewmodel/TranslatorViewModel.kt:209-219 | the no-candidates, no-parts and blocked messages are always distinct texts |
| PresentationViewModel.TextRequest | presentation/src/main/java/com/example/presentation/viewmodel/TranslatorViewModel.kt:196-197 | a text request is one user content whose only part is the prompt, with the given config (the function is this definition) |
| PresentationViewModel.MediaRequest | presentation/src/main/java/com/example/presentation/viewmodel/TranslatorViewModel.kt:52-61 | a media request is one user content holding the prompt and then the attachment as inline data with its MIME type; it sends no config (the function is this definition) |
| PresentationViewModel.Classify | presentation/src/main/java/com/example/presentation/viewmodel/TranslatorViewModel.kt:201-219 | the result succeeds exactly when the first candidate has a first part, and then shows that part's text (or "") with the given image; it reports missing candidates exactly when the list is absent or empty; it reports a block exactly when the first candidate has no parts but a finish reason, and then the message is "Response blocked. Finish reason: " followed by that reason; otherwise it reports missing parts |
| PresentationViewModel.Settle | presentation/src/main/java/com/example/presentation/viewmodel/TranslatorViewModel.kt:199-223 | a returned response gives its classification; an exception gives its message, or "An unknown error occurred" |
| PresentationViewModel.ClassifyReadsOnlyTheLead | presentation/src/main/java/com/example/presentation/viewmodel/TranslatorViewModel.kt:201-208 | dropping every candidate but the first, and every part but its first, changes nothing |
| PresentationViewModel.ClassifyTranslationExample | presentation/src/main/java/com/example/presentation/viewmodel/TranslatorViewModel.kt:206-208 | a single candidate with the text "Bonjour" gives `Success("Bonjour")` |
| PresentationViewModel.ClassifyBlockedExample | presentation/src/main/java/com/example/presentation/viewmodel/TranslatorViewModel.kt:169-172 | a contentless candidate with finish reason "SAFETY" gives "Response blocked. Finish reason: SAFETY" |
| PresentationViewModel.ClassifyNoCandidatesExample | presentation/src/main/java/com/example/presentation/viewmodel/TranslatorViewModel.kt:201-219 | an absent candidate list and an empty one give the same no-candidates error |
| PresentationViewModel.TranslatorViewModel.constructor | presentation/src/main/java/com/example/presentation/viewmodel/TranslatorViewModel.kt:34-37 | a new view model is `Initial`, and its log holds only that state, with no request |
| PresentationViewModel.TranslatorViewModel.Refuse | presentation/src/main/java/com/example/presentation/viewmodel/TranslatorViewModel.kt:188-191 | the missing-key error is set, and the log gains only that state: no `Loading` and no request |
| PresentationViewModel.TranslatorViewModel.Run | presentation/src/main/java/com/example/presentation/viewmodel/TranslatorViewModel.kt:193-224 | the log gains exactly: `Loading` shown, the one request sent, the result shown, so the request goes out while `Loading` is the current state |
| PresentationViewModel.TranslatorViewModel.Translate | presentation/src/main/java/com/example/presentation/viewmodel/TranslatorViewModel.kt:187-225 | a blank key gives only the error and no request; otherwise it goes `Loading`, sends one user content holding the translate prompt as its only part with the given config, and settles on the classified answer with no image |
| PresentationViewModel.TranslatorViewModel.GeneratePoem | presentation/src/main/java/com/example/presentation/viewmodel/TranslatorViewModel.kt:147-185 | the same, with the poem prompt and no config |
| PresentationViewModel.TranslatorViewModel.DescribeImage | presentation/src/main/java/com/example/presentation/viewmodel/TranslatorViewModel.kt:94-145 | the same, with the style's prompt followed by the picture as `image/jpeg` inline data; a success carries the picture |
| PresentationViewModel.TranslatorViewModel.SummarizePdf | presentation/src/main/java/com/example/presentation/viewmodel/TranslatorViewModel.kt:40-92 | a blank key gives only the error; otherwise `Loading` comes first. A PDF that was read is sent as `application/pdf` inline data after the summary prompt. A missing stream gives "Failed to read PDF file." and a failed read gives its exception message, and neither sends a request |
| AppViewModel.ClassifyBody | app/src/main/java/com/example/myapplication/TranslatorViewModel.kt:146-157 | the result succeeds exactly when the first candidate carries a part list, empty or not, and then shows the first part's text (or ""); it reports missing candidates exactly when the body is absent or has none; otherwise it reports a block, and the message is "Response blocked. Finish reason: " followed by the reason, or by "null" when there is none |
| AppViewModel.Settle | app/src/main/java/com/example/myapplication/TranslatorViewModel.kt:143-171 | a status outside 200..299 gives the status message whatever the body holds; a successful status gives the body's classification; an exception gives its message or the default |
| AppViewModel.HttpErrorDominates | app/src/main/java/com/example/myapplication/TranslatorViewModel.kt:145-167 | with a failing status, any two bodies give the same error |
| AppViewModel.RateLimitedIff429 | app/src/main/java/com/example/myapplication/TranslatorViewModel.kt:162-165 | a response shows the rate-limit message if and only if its status is 429, whatever its body |
| AppViewModel.HttpErrorNamesCode | app/src/main/java/com/example/myapplication/TranslatorViewModel.kt:164 | for any other failing status the message holds the status in decimal, which reads back as the same number, and ends with "). Please try again." |
| AppViewModel.ClassifyBodyQuirks | app/src/main/java/com/example/myapplication/TranslatorViewModel.kt:149-154 | an empty part list gives `Success("")`, and a contentless candidate without a finish reason gives "Response blocked. Finish reason: null" |
| AppViewModel.IsSuccessful | app/src/main/java/com/example/myapplication/TranslatorViewModel.kt:145 | Retrofit's `isSuccessful`: the status is in 200..299 (the predicate is this definition) |
| AppViewModel.HttpErrorMessage | app/src/main/java/com/example/myapplication/TranslatorViewModel.kt:162-165 | a failing status gives the rate-limit message exactly when it is 429; any other status gives "<task> failed (Error " at the start and "). Please try again." at the end |
| AppViewModel.TextRequest | app/src/main/java/com/example/myapplication/TranslatorViewModel.kt:140-141 | a text request is one user content whose only part is the prompt, with the given config (the function is this definition) |
| AppViewModel.ImageRequest | app/src/main/java/com/example/myapplication/TranslatorViewModel.kt:46-49 | the image request is one user content holding "Describe this image in a few words." and then the picture as `image/jpeg` inline data (the function is this definition) |
| AppViewModel.TranslatorViewModel.constructor | app/src/main/java/com/example/myapplication/TranslatorViewModel.kt:24-29 | a new view model is `Initial`, and its log holds only that state, with no request |
| AppViewModel.TranslatorViewModel.Refuse | app/src/main/java/com/example/myapplication/TranslatorViewModel.kt:132-135 | the missing-key error is set, and the log gains only that state: no `Loading` and no request |
| AppViewModel.TranslatorViewModel.Run | app/src/main/java/com/example/myapplication/TranslatorViewModel.kt:137-172 | the log gains exactly: `Loading` shown, the one request sent, the result shown, so the request goes out while `Loading` is the current state |
| AppViewModel.TranslatorViewModel.DescribeImage | app/src/main/java/com/example/myapplication/TranslatorViewModel.kt:33-83 | a blank key gives only the error; otherwise it sends "Describe this image in a few words." followed by the picture as `image/jpeg` inline data, and a success carries the picture |
| AppViewModel.TranslatorViewModel.GeneratePoem | app/src/main/java/com/example/myapplication/TranslatorViewModel.kt:87-129 | the same, with the poem prompt as the only part and no picture |
| AppViewModel.TranslatorViewModel.Translate | app/src/main/java/com/example/myapplication/TranslatorViewModel.kt:131-173 | the same, with the translate prompt and the given config |
| ScreenInputs.TokenBudget | presentation/src/main/java/com/example/presentation/ui/MainActivity.kt:239 | the budget is at least 100; it equals twice the length once that is 50 or more and the product fits an `Int`; for every length of 2^30 or more the product wraps negative and the budget is exactly 100 |
| ScreenInputs.TranslateConfig | presentation/src/main/java/com/example/presentation/ui/MainActivity.kt:239 | a translation's settings are the screen's with only the token budget replaced |
| ScreenInputs.TokenBudgetExamples | presentation/src/main/java/com/example/presentation/ui/MainActivity.kt:239 | lengths 0 and 50 give 100 and 51 gives 102; at 2^30 and at 2^31-1 the product wraps to -2^31 and to -2, and both give 100 |
| ScreenInputs.EditTopK | presentation/src/main/java/com/example/presentation/ui/MainActivity.kt:367 | editing the field changes only topK: text that parses sets it to the parsed `Int`, and text that does not parse sets it to 0 |
| ScreenInputs.EditTopKOfShownValue | presentation/src/main/java/com/example/presentation/ui/MainActivity.kt:365-367 | reading back the shown `topK.toString()` leaves the settings unchanged |

## Left out

- Coroutines are not modelled. Each action is one atomic step that receives its transport answer, so a slow result that lands after a later action is not modelled. `Loading` is never the final state of a step.
- `Log.e` calls are not modelled; they only produce log output.
- The app's `response.errorBody()?.string()` read (app TranslatorViewModel.kt:69, 115, 159) is not modelled as a separate step. Its text only goes to the log, and if the read throws, the action ends in the exception branch, which the `Threw` outcome covers.
- `Bitmap.compress` and `Base64.encodeToString` are foreign. A picture is a token carrying its Base64 JPEG text; a PDF carries its Base64 text.
- A failing `Bitmap.compress` is modelled only by its usual outcome. When it returns false (presentation TranslatorViewModel.kt:104, app TranslatorViewModel.kt:43), the code goes on and sends an empty Base64 image, which is a picture whose `jpegBase64` is "". When it throws instead (a recycled bitmap, say), the exception is raised outside the `try`. It escapes the `viewModelScope.launch` block (presentation :100, app :39) uncaught, and on Android that ends the app by default. That outcome is not modelled.
- `contentResolver.openInputStream` and `readBytes` become the `PdfRead` parameter: read, no stream, or an exception.
- `buildDescribeImagePrompt` and `buildSummarizePdfPrompt` are not part of this model, since `PromptBuilder.kt` does not define them. Each presentation view model is given them when it is made.
- The Retrofit interface, the Moshi `@Json` wire names, and the Hilt and Retrofit client wiring are not modelled.
- The use case and the repository only pass the request along; they appear only as the answer each action receives.
- `GeminiErrorResponse` is declared as a record; no error body is ever decoded.
- The build configuration is left out. The API key is a string that the view model is given.
- `temperature` and `topP` are kept as IEEE 754 bit patterns, with no arithmetic on them.
- The rest of the main screen is left out: the Compose UI, speech output, permissions and bitmap decoding.
- KotlinCore.ToIntOrNull: accepts ASCII digits only, whereas Kotlin also accepts other Unicode decimal digits.
- ScreenInputs.TranslateConfig: the budget is taken from `|text|`. A Dafny character is a Unicode scalar value, so a character outside the Basic Multilingual Plane counts 1 here, but 2 in Kotlin's UTF-16 `length`. For such text the modelled budget can be lower than the app's. `ScreenInputs.TokenBudget` itself is exact for the length it is given.
- PromptBuilder.TranslatePromptEndsWithText: proved only for a text with no line break. A multi-line text is not carried verbatim, because `trimIndent` rewrites it:
  - every "\r\n" and lone "\r" becomes "\n" (`TranslatePromptHasNoCr`, and the instance `TranslatePromptAltersCrLf`);
  - a non-blank continuation line indented by fewer than 12 spaces lowers the common indent. This includes a line with no indent at all, as in "a\nb", which takes the common indent to 0. The template's own lines then keep some of their 12 spaces, and every continuation line loses as many leading spaces as the new common indent.
- AppViewModel.TranslatorViewModel.Translate: the contract names the data module's `BuildTranslatePrompt` for the prompt sent. The app module's own `PromptBuilder` is not part of this model, so this assumes that its `buildTranslatePrompt` renders the same text.
- AppViewModel.TranslatorViewModel.GeneratePoem: likewise, the contract names the data module's `BuildPoemPrompt` in place of the app module's `buildPoemPrompt`.
