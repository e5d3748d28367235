/**
 * `TranslatorUiState`, which both view models declare identically, the
 * messages they show, and the shape every history of their `_uiState`
 * assignments and requests has.
 */
module UiStates {
  import opened Wrappers
  import opened KotlinCore

  /**
   * A picture handed to the view model. Its pixels are never inspected; what
   * the request needs of it is its JPEG encoding in Base64, which Android
   * computes and which is carried here as given.
   */
  datatype Bitmap = Bitmap(jpegBase64: string)

  datatype UiState =
    | Initial
    | Loading
    | Success(translatedText: string, image: Option<Bitmap> := None)
    | Error(errorMessage: string)
  {
    /** An action's result: what the state settles on after `Loading`. */
    predicate IsTerminal() {
      Success? || Error?
    }
  }

  /** The four requests the screen can make, as named in the error messages. */
  datatype Task = TranslationTask | PoemTask | ImageTask | SummaryTask

  function Label(task: Task): (s: string)
    ensures |s| > 0 && s[0] in {'T', 'P', 'I', 'S'}
  {
    match task
    case TranslationTask => "Translation"
    case PoemTask => "Poem generation"
    case ImageTask => "Image description"
    case SummaryTask => "Summarization"
  }

  const ApiKeyMissing := "API key not found. Please add it to your local.properties file."
  const UnknownError := "An unknown error occurred"
  const BlockedPrefix := "Response blocked. Finish reason: "
  const PdfUnreadable := "Failed to read PDF file."

  /** The role of every content either view model sends, and the MIME type of a picture. */
  const UserRole := "user"
  const JpegMimeType := "image/jpeg"

  /** A message that does not open like a block report never starts with its prefix. */
  lemma NotBlocked(m: string)
    requires |m| > 0 && m[0] != BlockedPrefix[0]
    ensures !StartsWith(m, BlockedPrefix)
  {
    if |BlockedPrefix| <= |m| {
      assert m[..|BlockedPrefix|][0] == m[0];
    }
  }

  function NoCandidatesMessage(task: Task): string {
    Label(task) + " failed: No candidates received."
  }

  function NoPartsMessage(task: Task): string {
    Label(task) + " failed: No content parts received."
  }

  /** `e.localizedMessage ?: "An unknown error occurred"`. */
  function ExceptionMessage(message: Option<string>): string {
    message.GetOr(UnknownError)
  }

  /**
   * A history of `_uiState` values, oldest first, is lawful when it starts at
   * `Initial` and never returns there, every `Loading` is followed at once by
   * a result, and any other state not preceded by `Loading` is the missing-key error.
   */
  ghost predicate Lawful(trace: seq<UiState>) {
    && |trace| >= 1
    && trace[0] == Initial
    && (forall i :: 0 < i < |trace| ==> trace[i] != Initial)
    && (forall i :: 0 <= i < |trace| && trace[i] == Loading ==> i + 1 < |trace| && trace[i + 1].IsTerminal())
    && (forall i :: 0 < i < |trace| && trace[i - 1] != Loading && trace[i] != Loading ==>
          trace[i] == Error(ApiKeyMissing))
  }

  /** An action refused for a missing key appends only its error. */
  lemma LawfulAfterRefusal(trace: seq<UiState>)
    requires Lawful(trace)
    ensures Lawful(trace + [Error(ApiKeyMissing)])
  {
    var t := trace + [Error(ApiKeyMissing)];
    assert forall i :: 0 <= i < |trace| ==> t[i] == trace[i];
    assert trace[|trace| - 1] != Loading;
  }

  /** An action that goes ahead appends `Loading` and then its result. */
  lemma LawfulAfterRun(trace: seq<UiState>, result: UiState)
    requires Lawful(trace) && result.IsTerminal()
    ensures Lawful(trace + [Loading, result])
  {
    var t := trace + [Loading, result];
    assert forall i :: 0 <= i < |trace| ==> t[i] == trace[i];
    assert trace[|trace| - 1] != Loading;
  }

  /**
   * In a lawful history the current state is never `Loading`, and every
   * `Success` comes straight after a `Loading`.
   */
  lemma LawfulConsequences(trace: seq<UiState>)
    requires Lawful(trace)
    ensures trace[|trace| - 1] != Loading
    ensures forall i :: 0 < i < |trace| && trace[i].Success? ==> trace[i - 1] == Loading
    ensures forall i :: 0 <= i < |trace| && trace[i].Success? ==> i > 0
  {
  }

  // ---------------------------------------------------------------------
  // The event log of a view model

  /** One step of an action: a state is shown, or a request is handed to the transport. */
  datatype Event<C> = Shown(state: UiState) | Sent(call: C)

  /** The states a log shows, oldest first. */
  ghost function States<C>(log: seq<Event<C>>): (trace: seq<UiState>)
    ensures |trace| <= |log|
    decreases |log|
  {
    if |log| == 0 then []
    else
      var last := log[|log| - 1];
      States(log[..|log| - 1]) + (if last.Shown? then [last.state] else [])
  }

  /**
   * A log is lawful when the states it shows form a lawful history, every
   * request is sent while `Loading` is the current state and is answered at
   * once by a result, and every `Success` is the answer to a request.
   */
  ghost predicate LawfulLog<C>(log: seq<Event<C>>) {
    && Lawful(States(log))
    && (forall i :: 0 <= i < |log| && log[i].Sent? ==>
          && 0 < i < |log| - 1
          && log[i - 1] == Shown(Loading)
          && log[i + 1].Shown? && log[i + 1].state.IsTerminal())
    && (forall i :: 0 <= i < |log| && log[i].Shown? && log[i].state.Success? ==>
          0 < i && log[i - 1].Sent?)
  }

  lemma StatesOfShown<C>(log: seq<Event<C>>, s: UiState)
    ensures States(log + [Shown(s)]) == States(log) + [s]
  {
    assert (log + [Shown(s)])[..|log|] == log;
  }

  lemma StatesOfSent<C>(log: seq<Event<C>>, call: C)
    ensures States(log + [Sent(call)]) == States(log)
  {
    assert (log + [Sent(call)])[..|log|] == log;
  }

  /** A fresh view model's log: only `Initial` has been shown. */
  lemma LawfulStart<C>(log: seq<Event<C>>)
    requires log == [Shown(Initial)]
    ensures LawfulLog(log)
    ensures States(log) == [Initial]
  {
    StatesOfShown<C>([], Initial);
    assert [] + [Event<C>.Shown(Initial)] == log;
  }

  /** A refusal for a missing key shows its error and sends nothing. */
  lemma LogAfterRefusal<C>(log: seq<Event<C>>)
    requires LawfulLog(log)
    ensures LawfulLog(log + [Shown(Error(ApiKeyMissing))])
    ensures States(log + [Shown(Error(ApiKeyMissing))]) == States(log) + [Error(ApiKeyMissing)]
  {
    StatesOfShown(log, Error(ApiKeyMissing));
    LawfulAfterRefusal(States(log));
  }

  /** An action that goes ahead shows `Loading`, sends its one request, then shows the answer. */
  lemma LogAfterRun<C>(log: seq<Event<C>>, call: C, result: UiState)
    requires LawfulLog(log) && result.IsTerminal()
    ensures LawfulLog(log + [Shown(Loading), Sent(call), Shown(result)])
    ensures States(log + [Shown(Loading), Sent(call), Shown(result)]) == States(log) + [Loading, result]
  {
    StatesAfterRun(log, call, result);
    LawfulAfterRun(States(log), result);
    var t := log + [Shown(Loading), Sent(call), Shown(result)];
    var n := |log|;
    assert forall i :: 0 <= i < n ==> t[i] == log[i];
    assert t[n] == Shown(Loading) && t[n + 1] == Sent(call) && t[n + 2] == Shown(result);
  }

  lemma StatesAfterRun<C>(log: seq<Event<C>>, call: C, result: UiState)
    ensures States(log + [Shown(Loading), Sent(call), Shown(result)]) == States(log) + [Loading, result]
  {
    var l1 := log + [Shown(Loading)];
    var l2 := l1 + [Sent(call)];
    StatesOfShown(log, Loading);
    StatesOfSent(l1, call);
    StatesOfShown(l2, result);
    assert l2 + [Shown(result)] == log + [Shown(Loading), Sent(call), Shown(result)];
  }

  /**
   * An action that fails before it can send anything shows `Loading` and then
   * its error; it never shows a `Success`.
   */
  lemma LogAfterLocalFailure<C>(log: seq<Event<C>>, result: UiState)
    requires LawfulLog(log) && result.Error?
    ensures LawfulLog(log + [Shown(Loading), Shown(result)])
    ensures States(log + [Shown(Loading), Shown(result)]) == States(log) + [Loading, result]
  {
    StatesAfterLocalFailure(log, result);
    LawfulAfterRun(States(log), result);
    var t := log + [Shown(Loading), Shown(result)];
    var n := |log|;
    assert forall i :: 0 <= i < n ==> t[i] == log[i];
    assert t[n] == Shown(Loading) && t[n + 1] == Shown(result);
  }

  lemma StatesAfterLocalFailure<C>(log: seq<Event<C>>, result: UiState)
    ensures States(log + [Shown(Loading), Shown(result)]) == States(log) + [Loading, result]
  {
    var l1 := log + [Shown(Loading)];
    StatesOfShown(log, Loading);
    StatesOfShown(l1, result);
    assert l1 + [Shown(result)] == log + [Shown(Loading), Shown(result)];
  }

  /**
   * In a lawful log the last step shows a state, which is not `Loading`, and
   * the step before any request shows `Loading`.
   */
  lemma LogConsequences<C>(log: seq<Event<C>>)
    requires LawfulLog(log)
    ensures |log| >= 1 && log[|log| - 1].Shown?
    ensures log[|log| - 1].state == States(log)[|States(log)| - 1] != Loading
    ensures forall i :: 0 < i < |log| && log[i].Sent? ==> log[i - 1] == Shown(Loading)
  {
    var n := |log| - 1;
    assert log == log[..n] + [log[n]];
    StatesOfShown(log[..n], log[n].state);
    LawfulConsequences(States(log));
  }
}
