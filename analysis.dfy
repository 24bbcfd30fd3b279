/**
 * The image-analysis service (src/analysis/openai.service.ts): the prompt sent
 * to the vision model, the parser that reads a score and a text out of the
 * model's answer, the fixed fallback results, and the decision between them.
 */
module Analysis {
  import opened Wrappers
  import opened Text

  /** The kinds of analysis. `OtherType` is a single value standing for an
      enum value other than the four the service knows; its `switch` and its
      lookup table both send such a value to the general case. */
  datatype AnalysisType = Merch | Food | Character | General | OtherType

  /** `score` is absent when the answer carries no usable score. */
  datatype AnalysisResult = AnalysisResult(text: string, score: Option<int>)

  predicate ValidScore(score: Option<int>) {
    score.Some? ==> 0 <= score.value <= 10
  }

  const ScoreMarker: string := "ОЦЕНКА:"
  const TextMarker: string := "АНАЛИЗ:"

  // ---------------------------------------------------------------------------
  // parseAnalysisResult

  /** The digits captured by `/ОЦЕНКА:\s*(\d+)/i` when the marker occurs at `i`
      (empty when no digit follows the marker and the whitespace after it). */
  function ScoreDigitsAt(s: string, i: nat): (d: string)
    requires MatchesAt(s, i, ScoreMarker)
  {
    LeadingDigits(SkipSpaces(s[i + |ScoreMarker|..]))
  }

  /** `/ОЦЕНКА:\s*(\d+)/i` matches at `i`. Since `\s` and `\d` are disjoint,
      backtracking inside `\s*` never helps, so a match exists exactly when a
      digit follows the marker and its greedy whitespace. */
  predicate ScoreMatchAt(s: string, i: nat) {
    MarkerThenDigitAt(s, i, ScoreMarker)
  }

  /** `marker` occurs at `i` and a digit follows it, past any whitespace. */
  predicate MarkerThenDigitAt(s: string, i: nat, marker: string) {
    MatchesAt(s, i, marker) && DigitAfterSpaces(s[i + |marker|..])
  }

  /** The rest of the content, past its leading whitespace, starts with a digit. */
  predicate DigitAfterSpaces(rest: string) {
    rest != [] && (IsDigit(rest[0]) || (IsSpace(rest[0]) && DigitAfterSpaces(rest[1..])))
  }

  /** `\s*` then `\d` matches a prefix exactly when the greedy `\s*` stops at a digit. */
  lemma {:induction false} DigitAfterSpacesIff(rest: string)
    ensures DigitAfterSpaces(rest) <==> SkipSpaces(rest) != [] && IsDigit(SkipSpaces(rest)[0])
  {
    if rest != [] && IsSpace(rest[0]) {
      DigitAfterSpacesIff(rest[1..]);
    }
  }

  /** The integer that match reads (`parseInt` of the captured digits). */
  function ScoreValueAt(s: string, i: nat): nat
    requires ScoreMatchAt(s, i)
  {
    DecimalValue(ScoreDigitsAt(s, i))
  }

  /** `i` is where `String.prototype.match` reports the score match: the leftmost one. */
  ghost predicate IsFirstScoreMatch(s: string, i: nat) {
    ScoreMatchAt(s, i) && forall j: nat :: j < i ==> !ScoreMatchAt(s, j)
  }

  /** The leftmost index at or after `from` where `marker` occurs followed
      by a digit: the regular-expression engine tries each start in turn. */
  function FindMarkerThenDigit(s: string, marker: string, from: nat): (r: Option<nat>)
    requires from <= |s|
    decreases |s| - from
    ensures r.Some? ==> from <= r.value && MarkerThenDigitAt(s, r.value, marker)
    ensures r.Some? ==> forall j :: from <= j < r.value ==> !MarkerThenDigitAt(s, j, marker)
    ensures r.None? ==> forall j :: from <= j ==> !MarkerThenDigitAt(s, j, marker)
  {
    if MarkerThenDigitAt(s, from, marker) then Some(from)
    else if from == |s| then None
    else FindMarkerThenDigit(s, marker, from + 1)
  }

  /** The leftmost score match. */
  function FindScoreMatch(s: string): (r: Option<nat>)
    ensures r.Some? ==> IsFirstScoreMatch(s, r.value)
    ensures r.None? ==> forall j: nat :: !ScoreMatchAt(s, j)
  {
    FindMarkerThenDigit(s, ScoreMarker, 0)
  }

  /** The text captured by `/АНАЛИЗ:\s*(.*)/is` when the marker first occurs at
      `i`, trimmed. With the `s` flag `.` also matches line terminators, so the
      group runs to the end of the content. */
  function AnalysisTextAt(s: string, i: nat): string
    requires MatchesAt(s, i, TextMarker)
  {
    Trim(SkipSpaces(s[i + |TextMarker|..]))
  }

  /** parseAnalysisResult: the score of the first score match, kept only in
      0..10, and the trimmed text after the first analysis marker, or the whole
      content when there is none. */
  function ParseAnalysisResult(content: string): (r: AnalysisResult)
    ensures ValidScore(r.score)
  {
    var scoreMatch := FindScoreMatch(content);
    var score := if scoreMatch.Some? then Some(ScoreValueAt(content, scoreMatch.value) as int) else None;
    var textMatch := IndexOfIgnoreCase(content, TextMarker, 0);
    var text := if textMatch.Some? then AnalysisTextAt(content, textMatch.value) else content;
    AnalysisResult(text, if score.Some? && score.value >= 0 && score.value <= 10 then score else None)
  }

  /** The score comes from the leftmost score match, even when an earlier
      marker without digits precedes it; a value above 10 is dropped. */
  lemma ScoreIsFirstMatch(s: string, i: nat)
    requires IsFirstScoreMatch(s, i)
    ensures ParseAnalysisResult(s).score ==
              if ScoreValueAt(s, i) <= 10 then Some(ScoreValueAt(s, i) as int) else None
  {
  }

  /** Without any score match there is no score. */
  lemma NoScoreWithoutMatch(s: string)
    requires forall i: nat :: !ScoreMatchAt(s, i)
    ensures ParseAnalysisResult(s).score == None
  {
  }

  /** A score is reported exactly when the leftmost score match reads 0..10. */
  lemma ScorePresentIff(s: string)
    ensures ParseAnalysisResult(s).score.Some? <==>
              exists i: nat :: IsFirstScoreMatch(s, i) && ScoreValueAt(s, i) <= 10
  {
    var m := FindScoreMatch(s);
    if m.Some? {
      assert IsFirstScoreMatch(s, m.value);
    }
  }

  /** With an analysis marker, the text is everything after its first
      occurrence, newlines included, with the surrounding whitespace trimmed. */
  lemma TextAfterFirstMarker(s: string, i: nat)
    requires MatchesAt(s, i, TextMarker)
    requires forall j: nat :: j < i ==> !MatchesAt(s, j, TextMarker)
    ensures ParseAnalysisResult(s).text == Trim(s[i + |TextMarker|..])
  {
    FirstTextMarkerFound(s, i);
    TrimAfterSkipSpaces(s[i + |TextMarker|..]);
  }

  /** The search for the analysis marker stops at its first occurrence. */
  lemma FirstTextMarkerFound(s: string, i: nat)
    requires MatchesAt(s, i, TextMarker)
    requires forall j: nat :: j < i ==> !MatchesAt(s, j, TextMarker)
    ensures IndexOfIgnoreCase(s, TextMarker, 0) == Some(i)
  {
  }

  /** Without an analysis marker the text is the whole content, untrimmed. */
  lemma WholeContentWithoutMarker(s: string)
    requires forall i: nat :: !MatchesAt(s, i, TextMarker)
    ensures ParseAnalysisResult(s).text == s
  {
  }

  // ---------------------------------------------------------------------------
  // buildPrompt

  const NoteIntro: string := "Дополнительная информация от пользователя: \""
  /** "Формат ответа: ОЦЕНКА: [число] АНАЛИЗ: [подробный текст]", the closing
      line of every template, written around the two markers it names. */
  const FormatInstruction: string := "Формат ответа: " + ScoreMarker + " [число] " + TextMarker + " [подробный текст]"

  const MerchTask: string := "Проанализируй этот товар/продукт. Оцени его качество, дизайн, потенциал продаж по шкале от 0 до 10. Дай подробные рекомендации по улучшению. "
  const FoodTask: string := "Проанализируй это блюдо. Оцени презентацию, аппетитность, качество подачи по шкале от 0 до 10. Дай рекомендации по улучшению. "
  const CharacterTask: string := "Проанализируй этого персонажа/человека. Оцени стиль, харизму, общее впечатление по шкале от 0 до 10. Дай рекомендации. "
  const GeneralTask: string := "Проанализируй это изображение. Дай подробное описание и оценку по шкале от 0 до 10. "

  /** The prefix a user note adds; an absent or empty note (falsy in
      JavaScript) adds nothing. */
  function NotePrefix(note: Option<string>): (r: string)
    ensures r == [] <==> !IsSet(note)
    ensures IsSet(note) ==>
      && |r| == |NoteIntro| + |note.value| + 3
      && r[..|NoteIntro|] == NoteIntro
      && r[|NoteIntro|..|NoteIntro| + |note.value|] == note.value
      && r[|NoteIntro| + |note.value|..] == "\"\n\n"
  {
    if IsSet(note) then NoteIntro + note.value + "\"\n\n" else ""
  }

  /** What each kind of analysis asks for; unknown kinds get the general request. */
  function Task(t: AnalysisType): string {
    match t
    case Merch => MerchTask
    case Food => FoodTask
    case Character => CharacterTask
    case _ => GeneralTask
  }

  /** The template of a kind: its request, then the format instruction. */
  function Template(t: AnalysisType): string {
    Task(t) + FormatInstruction
  }

  /** buildPrompt: the note prefix followed by the template of the kind; every
      prompt ends with the format instruction. */
  function BuildPrompt(t: AnalysisType, note: Option<string>): (r: string)
    ensures |NotePrefix(note)| <= |r| && r[..|NotePrefix(note)|] == NotePrefix(note)
    ensures |FormatInstruction| <= |r| && r[|r| - |FormatInstruction|..] == FormatInstruction
  {
    EndsWith(NotePrefix(note), Task(t), FormatInstruction);
    NotePrefix(note) + Template(t)
  }

  /** A prompt carries the quoted note exactly when the note is non-empty and
      is otherwise the bare template. */
  lemma PromptPrefix(t: AnalysisType, note: Option<string>)
    ensures note.Some? && note.value != "" ==>
              BuildPrompt(t, note) == NoteIntro + note.value + "\"\n\n" + Template(t)
    ensures note.None? || note.value == "" ==> BuildPrompt(t, note) == Template(t)
  {
  }

  /** `tail` ends any string built as `a + (b + tail)`. */
  lemma EndsWith(a: string, b: string, tail: string)
    ensures var p := a + (b + tail);
      |tail| <= |p| && p[|p| - |tail|..] == tail
  {
    assert a + (b + tail) == (a + b) + tail;
  }

  /** The format instruction names both markers the parser looks for, the
      score marker first. */
  lemma FormatNamesMarkers()
    ensures MatchesAt(FormatInstruction, 15, ScoreMarker)
    ensures MatchesAt(FormatInstruction, 31, TextMarker)
  {
    assert |"Формат ответа: "| == 15 && |" [число] "| == 9;
    assert FormatInstruction[15..22] == ScoreMarker;
    assert FormatInstruction[31..38] == TextMarker;
  }

  /** The general template serves every kind outside the three specific ones. */
  lemma UnknownTypeGetsGeneralPrompt(note: Option<string>)
    ensures BuildPrompt(OtherType, note) == BuildPrompt(General, note)
  {
  }

  // ---------------------------------------------------------------------------
  // getMockAnalysis

  const MerchMock: string := "Mock анализ товара: Качественный продукт с хорошим потенциалом. Рекомендуется улучшить упаковку и добавить больше деталей в описание."
  const FoodMock: string := "Mock анализ блюда: Аппетитная подача, хорошие цвета. Можно улучшить композицию и добавить гарнир для большей привлекательности."
  const CharacterMock: string := "Mock анализ персонажа: Интересный стиль, харизматичный образ. Рекомендуется поработать над позированием и освещением."
  const GeneralMock: string := "Mock общий анализ: Качественное изображение с хорошей композицией. Есть потенциал для улучшения в плане освещения и деталей."

  /** getMockAnalysis: the fixed result of each kind; an unknown kind gets the
      general entry. */
  function MockAnalysis(t: AnalysisType): (r: AnalysisResult)
    ensures r.score.Some? && ValidScore(r.score)
  {
    match t
    case Merch => AnalysisResult(MerchMock, Some(7))
    case Food => AnalysisResult(FoodMock, Some(8))
    case Character => AnalysisResult(CharacterMock, Some(6))
    case _ => AnalysisResult(GeneralMock, Some(7))
  }

  /** The scores of the table, and the general entry as the fallback. */
  lemma MockScores()
    ensures MockAnalysis(Merch).score == Some(7)
    ensures MockAnalysis(Food).score == Some(8)
    ensures MockAnalysis(Character).score == Some(6)
    ensures MockAnalysis(General).score == Some(7)
    ensures MockAnalysis(OtherType) == MockAnalysis(General)
  {
  }

  // ---------------------------------------------------------------------------
  // analyzeImage

  /** The request analyzeImage sends to the chat-completions endpoint. */
  datatype ChatRequest = ChatRequest(
    url: string, authorization: string, model: string,
    prompt: string, imageUrl: string, maxTokens: nat)

  /** What the HTTP exchange produced: a rejected `fetch` or `json()`, or a
      response with its `ok` flag and `choices[0]?.message?.content`. */
  datatype HttpOutcome = Threw | Responded(ok: bool, content: Option<string>)

  function OpenAIRequest(apiKey: string, imageUrl: string, t: AnalysisType, note: Option<string>): ChatRequest {
    ChatRequest("https://api.openai.com/v1/chat/completions", "Bearer " + apiKey,
                "gpt-4-vision-preview", BuildPrompt(t, note), imageUrl, 1000)
  }

  /** The answer analyzeImage parses: only an ok response with non-empty content. */
  predicate UsableAnswer(out: HttpOutcome) {
    out.Responded? && out.ok && out.content.Some? && out.content.value != ""
  }

  /** analyzeImage, with the OpenAI call as the parameter `openAI`: the mock
      result without a key or on any failure, the parsed answer otherwise;
      either way the score is absent or in 0..10. */
  function AnalyzeImage(apiKey: Option<string>, imageUrl: string, t: AnalysisType,
                        note: Option<string>, openAI: ChatRequest -> HttpOutcome): (r: AnalysisResult)
    ensures ValidScore(r.score)
    ensures !IsSet(apiKey) ==> r == MockAnalysis(t)
    ensures IsSet(apiKey) ==>
      var out := openAI(OpenAIRequest(apiKey.value, imageUrl, t, note));
      r == if UsableAnswer(out) then ParseAnalysisResult(out.content.value) else MockAnalysis(t)
  {
    if !IsSet(apiKey) then MockAnalysis(t)
    else
      var out := openAI(OpenAIRequest(apiKey.value, imageUrl, t, note));
      if out.Threw? then MockAnalysis(t)
      else if !out.ok then MockAnalysis(t)
      else if out.content.None? || out.content.value == "" then MockAnalysis(t)
      else ParseAnalysisResult(out.content.value)
  }

  // ---------------------------------------------------------------------------
  // The answer format round trip

  /** An answer written in the format the prompts ask for. */
  function FormattedAnswer(score: nat, text: string): string {
    ScoreMarker + " " + NatToString(score) + " " + TextMarker + " " + text
  }

  /** An answer in the requested format is read back as its trimmed text and
      its score, the score dropped when it is above 10. */
  lemma ParseFormattedAnswer(score: nat, text: string)
    ensures ParseAnalysisResult(FormattedAnswer(score, text))
            == AnalysisResult(Trim(text), if score <= 10 then Some(score) else None)
  {
    var s := FormattedAnswer(score, text);
    FormattedScore(score, text);
    ScoreIsFirstMatch(s, 0);
    FormattedText(score, text);
  }

  /** With a score in 0..10 and a text with no surrounding whitespace, an
      answer in the requested format is read back exactly. */
  lemma FormattedAnswerRoundTrip(score: nat, text: string)
    requires score <= 10
    requires text == [] || (!IsSpace(text[0]) && !IsSpace(text[|text| - 1]))
    ensures ParseAnalysisResult(FormattedAnswer(score, text)) == AnalysisResult(text, Some(score))
  {
    ParseFormattedAnswer(score, text);
    TrimOfTrimmed(text);
  }

  /** The score match of a formatted answer sits at its start and reads the score. */
  lemma FormattedScore(score: nat, text: string)
    ensures var s := FormattedAnswer(score, text);
      IsFirstScoreMatch(s, 0) && ScoreValueAt(s, 0) == score
  {
    var s := FormattedAnswer(score, text);
    var d := NatToString(score);
    var rest := " " + TextMarker + " " + text;
    assert s[..|ScoreMarker|] == ScoreMarker;
    assert MatchesAt(s, 0, ScoreMarker);
    var after := s[|ScoreMarker|..];
    assert after == [' '] + (d + rest);
    assert after[1..] == d + rest;
    assert (d + rest)[0] == d[0];
    assert DigitAfterSpaces(d + rest);
    assert DigitAfterSpaces(after);
    assert SkipSpaces(after) == d + rest by {
      assert !IsSpace(d[0]);
    }
    LeadingDigitsOfDigitRun(d, rest);
    assert ScoreDigitsAt(s, 0) == d;
    DecimalValueOfNatToString(score);
  }

  /** The analysis marker of a formatted answer first occurs right after the
      score, so the text read back is the text written, trimmed. */
  lemma FormattedText(score: nat, text: string)
    ensures ParseAnalysisResult(FormattedAnswer(score, text)).text == Trim(text)
  {
    var s := FormattedAnswer(score, text);
    var k := FirstTextMarkerOfFormatted(score, text);
    TextAfterFirstMarker(s, k);
    TrimOfSpaceThen(text);
  }

  /** A space before a text makes no difference to its trim. */
  lemma TrimOfSpaceThen(text: string)
    ensures Trim(" " + text) == Trim(text)
  {
    var u := " " + text;
    assert u[1..] == text;
    assert SkipSpaces(u) == SkipSpaces(text);
  }

  /** Where the analysis marker of a formatted answer first occurs, and what follows it. */
  lemma FirstTextMarkerOfFormatted(score: nat, text: string) returns (k: nat)
    ensures var s := FormattedAnswer(score, text);
      && MatchesAt(s, k, TextMarker)
      && (forall j: nat :: j < k ==> !MatchesAt(s, j, TextMarker))
      && s[k + |TextMarker|..] == " " + text
  {
    var s := FormattedAnswer(score, text);
    var d := NatToString(score);
    var pre := ScoreMarker + " " + d + " ";
    k := |pre|;
    assert s == pre + (TextMarker + " " + text);
    assert s[..k] == pre;
    assert s[k..k + |TextMarker|] == TextMarker;
    assert s[k + |TextMarker|..] == " " + text;
    forall j: nat | j < k ensures !MatchesAt(s, j, TextMarker) {
      NoTextMarkerBefore(s, d, j);
    }
  }

  /** `(\d+)` captures exactly a digit run that a non-digit (or the end) follows. */
  lemma LeadingDigitsOfDigitRun(d: string, rest: string)
    requires AllDigits(d)
    requires rest == [] || !IsDigit(rest[0])
    ensures LeadingDigits(d + rest) == d
    decreases |d|
  {
    if d != [] {
      assert (d + rest)[1..] == d[1..] + rest;
      LeadingDigitsOfDigitRun(d[1..], rest);
    }
  }

  /** Before the analysis marker a formatted answer holds only the score
      marker, digits and spaces, and none of its positions starts the analysis
      marker: the only letter А there is followed by a colon. */
  lemma NoTextMarkerBefore(s: string, d: string, j: nat)
    requires AllDigits(d)
    requires |ScoreMarker| + 1 + |d| + 1 <= |s|
    requires s[..|ScoreMarker| + 1 + |d| + 1] == ScoreMarker + " " + d + " "
    requires j < |ScoreMarker| + 1 + |d| + 1
    ensures !MatchesAt(s, j, TextMarker)
  {
    var pre := ScoreMarker + " " + d + " ";
    assert s[j] == pre[j];
    if j == 5 {
      assert s[j + 1] == pre[j + 1] == ':';
      assert !EqIgnoreCase(s[j + 1], TextMarker[1]);
    } else if j < |ScoreMarker| {
      assert pre[j] == ScoreMarker[j];
      assert !EqIgnoreCase(s[j], TextMarker[0]);
    } else if j == |ScoreMarker| || j == |ScoreMarker| + 1 + |d| {
      assert s[j] == ' ';
      assert !EqIgnoreCase(s[j], TextMarker[0]);
    } else {
      assert s[j] == d[j - |ScoreMarker| - 1];
      assert !EqIgnoreCase(s[j], TextMarker[0]);
    }
  }
}
