/**
 * `PromptBuilder`: total, deterministic builders of the instruction text sent
 * to the model. None of them has an error case or any state.
 *
 * Long literals are written as concatenations of shorter ones, so that the
 * verifier can see which characters they hold; the text is exactly the
 * source's.
 */
module PromptBuilder {
  import opened Wrappers
  import opened KotlinCore
  import opened Indentation

  /** The phrase the model is told to answer with when it cannot translate. */
  const FallbackPhrase := "Translation not possible."

  const TranslateHead := "Translate the following text to "
  const TranslateRule1 := "1. Return the complete " + "translated sentence."
  const TranslateRule2 := "2. Do not stop early."
  const TranslateRule3 := "3. The translation should " + "be formal and polite."
  const TranslateRule4 := "4. Do not use slang or " + "informal expressions."
  const Rule5Opening := "5. If the text cannot be " + "translated accurately, "
    + "respond with only the " + "phrase \""
  const TranslateRule5 := Rule5Opening + FallbackPhrase + "\""
  const TextLabel := "Text to translate: \""

  /** The indent of the translate literal's body in the source file (12 spaces). */
  const TranslateIndent := "            "
  /** What precedes the closing quotes of the translate literal (8 spaces). */
  const TranslateClosing := "        "

  /** The body of the translate literal, line by line, without its indent. */
  function TranslateLines(text: string, language: string): seq<string> {
    [ TranslateHead + language + ".",
      "",
      "Rules:",
      TranslateRule1,
      TranslateRule2,
      TranslateRule3,
      TranslateRule4,
      TranslateRule5,
      "",
      TextLabel + text + "\""
    ]
  }

  /**
   * The raw string literal of `buildTranslatePrompt` once `$language` and
   * `$text` are substituted: an empty first line (the literal opens with a line
   * break), the body lines each indented by 12 spaces (the two empty lines
   * stay empty), and a closing line of 8 spaces.
   */
  function TranslateTemplate(text: string, language: string): string {
    JoinLines(BlockLines(TranslateLines(text, language), TranslateIndent, TranslateClosing))
  }

  /** `buildTranslatePrompt`: `trimIndent` runs on the already interpolated literal. */
  function BuildTranslatePrompt(text: string, language: string): string {
    TrimIndent(TranslateTemplate(text, language))
  }

  const PoemHead := "Write a four-line poem about " + "the following topic: "

  /** `buildPoemPrompt`. */
  function BuildPoemPrompt(topic: string): string {
    PoemHead + topic
  }

  const SummarizeHead := "Summarize the following text in "
  const SummarizeMiddle := " sentences: "

  /** `buildSummarizePrompt`: the sentence count is an `Int` printed in decimal. */
  function BuildSummarizePrompt(text: string, sentences: Int32): string {
    SummarizeHead + IntToString(sentences as int) + SummarizeMiddle + text
  }

  const ActAsHead := "I want you to act as "
  const ActAsMiddle := ". I want you to respond " + "and answer like "

  /** `buildActAsPrompt`. */
  function BuildActAsPrompt(character: string, question: string): string {
    ActAsHead + character + ActAsMiddle + character + ". " + question
  }

  // ---------------------------------------------------------------------
  // buildTranslatePrompt

  /** A line that needs no care from `lines()` and whose indent is all in the prefix. */
  predicate PlainLine(x: string) {
    NoLineBreak(x) && (x == "" || !IsWhitespace(x[0]))
  }

  lemma Rule1IsPlain() ensures PlainLine(TranslateRule1) {}
  lemma Rule2IsPlain() ensures PlainLine(TranslateRule2) {}
  lemma Rule3IsPlain() ensures PlainLine(TranslateRule3) {}
  lemma Rule4IsPlain() ensures PlainLine(TranslateRule4) {}
  lemma PlainAppend(a: string, b: string)
    requires PlainLine(a) && a != "" && NoLineBreak(b)
    ensures PlainLine(a + b) && a + b != ""
  {
    assert (a + b)[0] == a[0];
  }

  lemma Rule5IsPlain() ensures PlainLine(TranslateRule5) {
    var opening := "5. If the text cannot be ";
    assert PlainLine(opening) && opening != "";
    PlainAppend(opening, "translated accurately, ");
    PlainAppend(opening + "translated accurately, ", "respond with only the ");
    PlainAppend(opening + "translated accurately, " + "respond with only the ", "phrase \"");
    PlainAppend(Rule5Opening, FallbackPhrase);
    PlainAppend(Rule5Opening + FallbackPhrase, "\"");
  }

  lemma FixedLinesArePlain()
    ensures PlainLine("") && PlainLine("Rules:")
    ensures PlainLine(TranslateRule1) && PlainLine(TranslateRule2) && PlainLine(TranslateRule3)
    ensures PlainLine(TranslateRule4) && PlainLine(TranslateRule5)
  {
    Rule1IsPlain();
    Rule2IsPlain();
    Rule3IsPlain();
    Rule4IsPlain();
    Rule5IsPlain();
  }

  lemma TranslateLinesArePlain(text: string, language: string)
    requires NoLineBreak(text) && NoLineBreak(language)
    ensures forall x :: x in TranslateLines(text, language) ==> PlainLine(x)
  {
    FixedLinesArePlain();
    assert PlainLine(TranslateHead) && PlainLine(TextLabel);
    PlainAppend(TranslateHead, language);
    PlainAppend(TranslateHead + language, ".");
    PlainAppend(TextLabel, text);
    PlainAppend(TextLabel + text, "\"");
  }

  /**
   * When neither input contains a line break, `trimIndent` leaves exactly the
   * body lines of the literal without their indent, whatever else the inputs
   * hold (leading spaces in `text` or `language` survive, because both are
   * interpolated after visible text in their line).
   */
  lemma TranslatePromptDeindented(text: string, language: string)
    requires NoLineBreak(text) && NoLineBreak(language)
    ensures BuildTranslatePrompt(text, language) == JoinLines(TranslateLines(text, language))
  {
    TranslateLinesArePlain(text, language);
    TrimIndentOfIndentedBlock(TranslateLines(text, language), TranslateIndent, TranslateClosing);
  }

  /** The first line of the prompt names the target language, followed by '.'. */
  lemma TranslatePromptFirstLine(text: string, language: string)
    requires NoLineBreak(text) && NoLineBreak(language)
    ensures Lines(BuildTranslatePrompt(text, language))[0] == TranslateHead + language + "."
    ensures StartsWith(BuildTranslatePrompt(text, language), TranslateHead + language + ".\n")
  {
    var t := TranslateLines(text, language);
    TranslatePromptDeindented(text, language);
    TranslateLinesArePlain(text, language);
    LinesOfJoinLines(t);
    JoinLinesCons(t[0], t[1..]);
    assert t == [t[0]] + t[1..];
  }

  /** The head line of the literal, as it stands there with its indent. */
  lemma IndentedHeadFacts(language: string)
    requires NoLineBreak(language)
    ensures var line := TranslateIndent + (TranslateHead + language + ".");
      NoLineBreak(line) && !IsBlank(line) && IndentWidth(line) == |TranslateIndent|
  {
    var x := TranslateHead + language + ".";
    var line := TranslateIndent + x;
    assert PlainLine(TranslateHead);
    PlainAppend(TranslateHead, language);
    PlainAppend(TranslateHead + language, ".");
    IndentWidthAfterPrefix(TranslateIndent, x);
    assert line[|TranslateIndent|] == x[0];
  }

  /**
   * Whatever the text, line breaks included, the prompt names the target
   * language followed by '.', as long as the language is one line.
   */
  lemma TranslatePromptNamesLanguage(text: string, language: string)
    requires NoLineBreak(language)
    ensures Contains(BuildTranslatePrompt(text, language), TranslateHead + language + ".")
  {
    var ls := BlockLines(TranslateLines(text, language), TranslateIndent, TranslateClosing);
    var x := TranslateHead + language + ".";
    var line := TranslateIndent + x;
    assert ls[0] == "" && ls[1] == line;
    IndentedHeadFacts(language);
    TrimIndentKeepsJoinedLine(ls, 1);
    var prompt := BuildTranslatePrompt(text, language);
    var n: nat :| n <= IndentWidth(line) && Contains(prompt, Drop(line, n));
    assert line == TranslateIndent + x + "";
    DropKeepsMiddle(TranslateIndent, x, "", n);
    ContainsTransitive(prompt, Drop(line, n), x);
  }

  /** The prompt ends with the user's text, verbatim and quoted. */
  lemma TranslatePromptEndsWithText(text: string, language: string)
    requires NoLineBreak(text) && NoLineBreak(language)
    ensures EndsWith(BuildTranslatePrompt(text, language), TextLabel + text + "\"")
  {
    var t := TranslateLines(text, language);
    TranslatePromptDeindented(text, language);
    JoinLinesLast(t);
  }

  /**
   * The prompt holds no "\r" at all: `trimIndent` turns every "\r\n" and
   * lone "\r" of the user's text into "\n".
   */
  lemma TranslatePromptHasNoCr(text: string, language: string)
    ensures '\r' !in BuildTranslatePrompt(text, language)
  {
    TrimIndentHasNoCr(TranslateTemplate(text, language));
  }

  /** So a text written with "\r\n" does not reach the prompt as written. */
  lemma TranslatePromptAltersCrLf(language: string)
    ensures !Contains(BuildTranslatePrompt("a\r\nb", language), "a\r\nb")
  {
    TranslatePromptHasNoCr("a\r\nb", language);
    assert '\r' in "a\r\nb";
    MissingCharNotContained(BuildTranslatePrompt("a\r\nb", language), "a\r\nb", '\r');
  }

  /** The lines around the fallback phrase, as they stand in the raw literal. */
  lemma IndentedRule5Facts()
    ensures var line := TranslateIndent + TranslateRule5;
      NoLineBreak(line) && !IsBlank(line) && IndentWidth(line) == |TranslateIndent|
    ensures !EndsWithCarriageReturn(TranslateIndent + TranslateRule4)
  {
    var line := TranslateIndent + TranslateRule5;
    Rule5IsPlain();
    IndentWidthAfterPrefix(TranslateIndent, TranslateRule5);
    assert line[|TranslateIndent|] == TranslateRule5[0];
    Rule4IsPlain();
  }

  /**
   * Whatever the inputs, line breaks included, the translate prompt contains
   * the fallback phrase: its line stands strictly inside the literal, and
   * `trimIndent` removes at most the 12 spaces in front of it.
   */
  lemma TranslatePromptHasFallback(text: string, language: string)
    ensures Contains(BuildTranslatePrompt(text, language), FallbackPhrase)
  {
    var ls := BlockLines(TranslateLines(text, language), TranslateIndent, TranslateClosing);
    var line := TranslateIndent + TranslateRule5;
    assert ls[8] == line;
    assert ls[7] == TranslateIndent + TranslateRule4;
    IndentedRule5Facts();
    TrimIndentKeepsJoinedLine(ls, 8);
    var prompt := BuildTranslatePrompt(text, language);
    var n: nat :| n <= IndentWidth(line) && Contains(prompt, Drop(line, n));
    DropOfIndentedRule5(n);
    ContainsTransitive(prompt, Drop(line, n), FallbackPhrase);
  }

  lemma DropOfIndentedRule5(n: nat)
    requires n <= |TranslateIndent|
    ensures Contains(Drop(TranslateIndent + TranslateRule5, n), FallbackPhrase)
  {
    assert TranslateIndent + TranslateRule5 == (TranslateIndent + Rule5Opening) + FallbackPhrase + "\"";
    DropKeepsMiddle(TranslateIndent + Rule5Opening, FallbackPhrase, "\"", n);
  }

  // ---------------------------------------------------------------------
  // buildPoemPrompt, buildSummarizePrompt, buildActAsPrompt

  /** The poem prompt is a fixed instruction followed by the topic, which can be read back. */
  lemma PoemPromptRecoversTopic(topic: string)
    ensures StartsWith(BuildPoemPrompt(topic), PoemHead)
    ensures BuildPoemPrompt(topic)[|PoemHead|..] == topic
  {
  }

  /** Different topics give different poem prompts. */
  lemma PoemPromptInjective(a: string, b: string)
    requires BuildPoemPrompt(a) == BuildPoemPrompt(b)
    ensures a == b
  {
    PoemPromptRecoversTopic(a);
    PoemPromptRecoversTopic(b);
  }

  /**
   * The sentence count in the summary prompt is the decimal text that
   * `toIntOrNull` reads back as the same `Int`, and the text comes last.
   */
  lemma SummarizePromptRecoversCount(text: string, sentences: Int32)
    ensures var p := BuildSummarizePrompt(text, sentences);
      var k := |SummarizeHead| + |IntToString(sentences as int)|;
      k <= |p| && ToIntOrNull(p[|SummarizeHead|..k]) == Some(sentences)
      && StartsWith(p, SummarizeHead) && EndsWith(p, SummarizeMiddle + text)
  {
    var digits := IntToString(sentences as int);
    var p := BuildSummarizePrompt(text, sentences);
    var k := |SummarizeHead| + |digits|;
    assert p == SummarizeHead + digits + (SummarizeMiddle + text);
    assert p[|SummarizeHead|..k] == digits;
    ToIntOrNullOfIntToString(sentences as int);
  }

  /** The character after the printed count is the space that opens " sentences: ". */
  lemma SummarizeCountEnds(text: string, sentences: Int32)
    ensures var p := BuildSummarizePrompt(text, sentences);
      var k := |SummarizeHead| + |IntToString(sentences as int)|;
      k < |p| && p[k] == ' '
      && forall i :: |SummarizeHead| < i < k ==> IsDigit(p[i])
  {
    var digits := IntToString(sentences as int);
    var p := BuildSummarizePrompt(text, sentences);
    assert p == SummarizeHead + digits + (SummarizeMiddle + text);
    forall i | |SummarizeHead| < i < |SummarizeHead| + |digits|
      ensures IsDigit(p[i])
    {
      var j := i - |SummarizeHead|;
      assert p[i] == digits[j];
      if sentences < 0 {
        assert digits[j] == digits[1..][j - 1];
      }
    }
  }

  /** Different counts or texts give different summary prompts. */
  lemma SummarizePromptInjective(t1: string, n1: Int32, t2: string, n2: Int32)
    requires BuildSummarizePrompt(t1, n1) == BuildSummarizePrompt(t2, n2)
    ensures n1 == n2 && t1 == t2
  {
    var p := BuildSummarizePrompt(t1, n1);
    var d1, d2 := IntToString(n1 as int), IntToString(n2 as int);
    SummarizeCountEnds(t1, n1);
    SummarizeCountEnds(t2, n2);
    var h := |SummarizeHead|;
    assert |d1| == |d2|;
    SummarizePromptRecoversCount(t1, n1);
    SummarizePromptRecoversCount(t2, n2);
    assert p[h + |d1| + |SummarizeMiddle|..] == t1;
    assert p[h + |d2| + |SummarizeMiddle|..] == t2;
  }

  /**
   * The role-play prompt names the character right after its opening, names
   * it again just before the question, and ends with the question.
   */
  lemma ActAsPromptShape(character: string, question: string)
    ensures var p := BuildActAsPrompt(character, question);
      StartsWith(p, ActAsHead + character + ActAsMiddle)
      && EndsWith(p, ActAsMiddle + character + ". " + question)
      && p[|ActAsHead|..|ActAsHead| + |character|] == character
  {
    var p := BuildActAsPrompt(character, question);
    assert p == (ActAsHead + character + ActAsMiddle) + (character + ". " + question);
    assert p == ActAsHead + character + (ActAsMiddle + character + ". " + question);
  }
}
