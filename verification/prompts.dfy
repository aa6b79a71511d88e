/** Prompt assembly for the LLM: `getSummaryPrompt` and the prompt choice
    inside `translateWithLLM`. Both routers carry their own copy; the copies
    differ only in the summary tables, so the summary builder takes the
    router it belongs to as a parameter. */
module Prompts {
  import opened Options
  import opened Text

  /** Which copy of the prompt builder: the Express router
      (server/_core/audioRoutes.ts) or the tRPC router
      (server/routers/audio.ts). */
  datatype Router = Express | Rpc

  /** JavaScript's `table[key] || fallback` on a table of strings: a missing
      key or an empty entry falls back. */
  function LookupOr(table: map<string, string>, key: string, fallback: string): string {
    if key in table && table[key] != "" then table[key] else fallback
  }

  const EnglishInstruction := "Summarize in English."

  /** The `languageInstructions` table. The two copies differ in the final
      punctuation of the Russian and Indonesian entries. */
  function Instructions(router: Router): map<string, string> {
    match router
    case Express => ExpressInstructions
    case Rpc => RpcInstructions
  }

  const ExpressInstructions: map<string, string> := map[
    "ja" := "日本語で要約してください。",
    "es" := "Summarize in Spanish.",
    "zh" := "用中文总结。",
    "fr" := "Résumez en français.",
    "it" := "Riassumi in italiano.",
    "ko" := "한국어로 요약해주세요。",
    "ar" := "لخص باللغة العربية。",
    "hi" := "हिंदी में संक्षेप करें।",
    "ru" := "Резюмируйте на русском языке।",
    "id" := "Ringkas dalam Bahasa Indonesia।"
  ]

  const RpcInstructions: map<string, string> := map[
    "ja" := "日本語で要約してください。",
    "es" := "Summarize in Spanish.",
    "zh" := "用中文总结。",
    "fr" := "Résumez en français.",
    "it" := "Riassumi in italiano.",
    "ko" := "한국어로 요약해주세요。",
    "ar" := "لخص باللغة العربية。",
    "hi" := "हिंदी में संक्षेप करें।",
    "ru" := "Резюмируйте на русском языке。",
    "id" := "Ringkas dalam Bahasa Indonesia。"
  ]

  /** `languageInstructions[summaryLanguage] || "Summarize in English."`. */
  function LanguageInstruction(router: Router, language: string): (r: string)
    ensures language in Instructions(router) ==> r == Instructions(router)[language]
    ensures r == EnglishInstruction <==> language !in Instructions(router)
  {
    InstructionsNotEnglish(router);
    LookupOr(Instructions(router), language, EnglishInstruction)
  }

  /** No entry of either instruction table is empty or the English fallback. */
  lemma InstructionsNotEnglish(router: Router)
    ensures forall k | k in Instructions(router) ::
      Instructions(router)[k] != "" && Instructions(router)[k] != EnglishInstruction
  {
    forall k | k in Instructions(router)
      ensures Instructions(router)[k] != "" && Instructions(router)[k] != EnglishInstruction
    {
      var v := Instructions(router)[k];
      assert v[0] != 'S' || v[13..] != " English.";
    }
  }

  /** The three summary templates. A prompt is the template's opening, the
      language instruction, its closing, then `TranscriptLabel` and the
      transcript. */
  datatype Template = Short | Medium | Detailed

  const TranscriptLabel := "Transcript: "

  function Opening(template: Template): string {
    match template
    case Short =>
      "You are a professional executive assistant specializing in creating concise presentation summaries for C-level executives.\n\nAnalyze the following transcript and provide a SHORT summary in exactly 4-5 lines. Focus on the most critical points, key decisions, and actionable outcomes. Write in a professional, executive-level tone suitable for busy decision-makers who need immediate insights. "
    case Medium =>
      "You are a professional business analyst creating presentation summaries for corporate teams and stakeholders.\n\nAnalyze the following transcript and provide a MEDIUM-length summary that balances comprehensive coverage with readability. Structure your response to cover the main topics, key arguments, important decisions, and strategic implications. "
    case Detailed =>
      "You are a professional executive assistant specializing in creating comprehensive presentation summaries.\n\nAnalyze the following transcript and provide a DETAILED summary covering all major points. "
  }

  function Closing(template: Template): string {
    match template
    case Short =>
      "\n\nRequirements:\n- Exactly 4-5 lines of text\n- No bullet points, lists, or markdown formatting\n- Focus on main conclusions, decisions, and next steps\n- Professional business language with executive tone\n- Capture the essence and business impact in minimal words\n- Prioritize actionable insights and strategic implications\n\n"
    case Medium =>
      "\n\nRequirements:\n- 3-4 well-structured paragraphs (150-250 words total)\n- Cover main topics, key points, and strategic context\n- Include important details, decisions, and action items\n- Professional business writing style suitable for team sharing\n- Clear logical flow from overview to specifics to conclusions\n- Suitable for middle management and project teams\n\nStructure your response as:\n1. Opening paragraph: Main topic, purpose, and key participants\n2. Core content: Key points, arguments, and discussions\n3. Outcomes: Conclusions, decisions, and recommended next steps\n\n"
    case Detailed =>
      "\n\n"
  }

  /** The `prompts` table; the tRPC copy has no `detailed` entry. */
  function Templates(router: Router): map<string, Template> {
    match router
    case Express => map["short" := Short, "medium" := Medium, "detailed" := Detailed]
    case Rpc => map["short" := Short, "medium" := Medium]
  }

  /** `prompts[summaryType] || prompts.medium`. Every built prompt is
      non-empty, so only a missing key falls back. */
  function SelectTemplate(router: Router, summaryType: string): (r: Template)
    ensures summaryType in Templates(router) ==> r == Templates(router)[summaryType]
    ensures summaryType == "short" ==> r == Short
    ensures r == Medium <==> summaryType == "medium" || summaryType !in Templates(router)
    ensures summaryType == "detailed" ==> (r == Detailed <==> router == Express)
  {
    if summaryType in Templates(router) then Templates(router)[summaryType] else Medium
  }

  function Fill(opening: string, instruction: string, closing: string, transcript: string): string {
    opening + instruction + closing + TranscriptLabel + transcript
  }

  lemma FillShape(opening: string, instruction: string, closing: string, transcript: string)
    ensures var p := Fill(opening, instruction, closing, transcript);
      && StartsWith(p, opening)
      && Contains(p, instruction)
      && EndsWith(p, TranscriptLabel + transcript)
  {
    var p := Fill(opening, instruction, closing, transcript);
    assert p == opening + instruction + (closing + TranscriptLabel + transcript);
    Parts(opening, instruction, closing + TranscriptLabel + transcript);
    assert p == (opening + instruction + closing) + [] + (TranscriptLabel + transcript);
    Parts(opening + instruction + closing, [], TranscriptLabel + transcript);
  }

  /** `getSummaryPrompt(summaryType, transcript, summaryLanguage)`: the
      prompt opens with the chosen template, embeds the language
      instruction, and ends with `"Transcript: " + transcript`. */
  function SummaryPrompt(router: Router, summaryType: string, transcript: string, language: string): (p: string)
    ensures StartsWith(p, Opening(SelectTemplate(router, summaryType)))
    ensures Contains(p, LanguageInstruction(router, language))
    ensures EndsWith(p, TranscriptLabel + transcript)
  {
    var template := SelectTemplate(router, summaryType);
    var instruction := LanguageInstruction(router, language);
    FillShape(Opening(template), instruction, Closing(template), transcript);
    Fill(Opening(template), instruction, Closing(template), transcript)
  }

  const DefaultLanguageName := "Japanese"

  /** The `languageNames` table, identical in both routers. */
  const LanguageNames: map<string, string> := map[
    "ja" := "Japanese",
    "es" := "Spanish",
    "zh" := "Chinese",
    "fr" := "French",
    "it" := "Italian",
    "ko" := "Korean",
    "ar" := "Arabic",
    "hi" := "Hindi",
    "ru" := "Russian",
    "id" := "Indonesian"
  ]

  /** `languageNames[targetLanguage] || "Japanese"`. */
  function LanguageName(target: string): (r: string)
    ensures target in LanguageNames ==> r == LanguageNames[target]
    ensures r == DefaultLanguageName <==> target == "ja" || target !in LanguageNames
  {
    OnlyJapaneseIsJapanese();
    LookupOr(LanguageNames, target, DefaultLanguageName)
  }

  /** Every entry of `languageNames` is non-empty, and only `ja` names
      Japanese. */
  lemma OnlyJapaneseIsJapanese()
    ensures forall k | k in LanguageNames ::
      LanguageNames[k] != "" && (LanguageNames[k] == DefaultLanguageName <==> k == "ja")
  {
    forall k | k in LanguageNames
      ensures LanguageNames[k] != "" && (LanguageNames[k] == DefaultLanguageName <==> k == "ja")
    {
      var v := LanguageNames[k];
      assert k != "ja" ==> v[0] != 'J';
    }
  }

  const ContinuityOpening := "You are translating a live speech transcription to "
  const ContinuityMiddle := ". Translate the following new text segment to continue smoothly from the previous translation. Provide only the translation.\n\nNew text to translate: "
  const ContextLabel := "\n\nPrevious translation context: "
  const DirectOpening := "Translate the following English text to "
  const DirectMiddle := ". Provide only the translation.\n\nText to translate: "

  /** Whether `previousTranslation` is truthy: present and non-empty. */
  predicate HasContext(previous: Option<string>) {
    previous.Some? && previous.value != ""
  }

  /** The prompt `translateWithLLM` sends. A truthy previous translation
      selects the continuity prompt, which ends with that translation as
      context; otherwise the direct prompt, which ends with the text. Either
      way the target language name and the text are embedded, and the
      opening tells the two prompts apart. */
  function TranslationPrompt(text: string, target: string, previous: Option<string>): (p: string)
    ensures HasContext(previous) <==> StartsWith(p, ContinuityOpening)
    ensures Contains(p, LanguageName(target))
    ensures Contains(p, text)
    ensures HasContext(previous) ==> EndsWith(p, ContextLabel + previous.value)
    ensures !HasContext(previous) ==> EndsWith(p, DirectMiddle + text)
  {
    var name := LanguageName(target);
    if HasContext(previous) then
      ContinuityShape(ContinuityOpening, name, ContinuityMiddle, text, ContextLabel, previous.value);
      ContinuityOpening + name + ContinuityMiddle + text + ContextLabel + previous.value
    else
      var p := DirectOpening + name + DirectMiddle + text;
      DirectShape(DirectOpening, name, DirectMiddle, text);
      OpeningsDiffer();
      NotBothPrefixes(p, DirectOpening, ContinuityOpening, 39);
      p
  }

  lemma ContinuityShape(opening: string, name: string, middle: string, text: string, contextLabel: string, previous: string)
    ensures var p := opening + name + middle + text + contextLabel + previous;
      && StartsWith(p, opening) && Contains(p, name) && Contains(p, text) && EndsWith(p, contextLabel + previous)
  {
    var p := opening + name + middle + text + contextLabel + previous;
    assert p == opening + name + (middle + text + contextLabel + previous);
    Parts(opening, name, middle + text + contextLabel + previous);
    assert p == (opening + name + middle) + text + (contextLabel + previous);
    Parts(opening + name + middle, text, contextLabel + previous);
  }

  lemma DirectShape(opening: string, name: string, middle: string, text: string)
    ensures var p := opening + name + middle + text;
      && StartsWith(p, opening) && Contains(p, name) && Contains(p, text) && EndsWith(p, middle + text)
  {
    var p := opening + name + middle + text;
    assert p == opening + name + (middle + text);
    Parts(opening, name, middle + text);
    assert p == (opening + name + middle) + text + [];
    Parts(opening + name + middle, text, []);
  }

  /** The two openings differ at their 40th character. */
  lemma OpeningsDiffer()
    ensures |DirectOpening| == 40 && |ContinuityOpening| == 51
    ensures DirectOpening[39] != ContinuityOpening[39]
  {
    assert DirectOpening[39] == ' ' && ContinuityOpening[39] == 'c';
  }

  lemma NotBothPrefixes(p: string, first: string, second: string, k: nat)
    requires StartsWith(p, first)
    requires k < |first| && k < |second| && first[k] != second[k]
    ensures !StartsWith(p, second)
  {
    assert p[..|first|][k] == p[k];
    if |second| <= |p| {
      assert p[..|second|][k] == p[k];
    }
  }

  /** Every entry of the instruction table reaches the prompt built for
      its language code, whatever the summary type. */
  lemma PromptsCarryInstruction(router: Router, summaryType: string, transcript: string)
    ensures forall k | k in Instructions(router) ::
      Contains(SummaryPrompt(router, summaryType, transcript, k), Instructions(router)[k])
  {
  }

  /** Every entry of `languageNames` reaches the translation prompt built
      for its code, with or without a previous translation. */
  lemma PromptsCarryLanguageName(text: string, previous: Option<string>)
    ensures forall k | k in LanguageNames :: Contains(TranslationPrompt(text, k, previous), LanguageNames[k])
  {
  }

  /** An empty summary type or language is no key of either table, so it
      builds the same prompt as `"medium"` and `"en"`. */
  lemma EmptyChoicesFallBack(router: Router, summaryType: string, transcript: string, language: string)
    ensures SummaryPrompt(router, "", transcript, language) == SummaryPrompt(router, "medium", transcript, language)
    ensures SummaryPrompt(router, summaryType, transcript, "") == SummaryPrompt(router, summaryType, transcript, "en")
  {
    assert SelectTemplate(router, "") == SelectTemplate(router, "medium");
    assert LanguageInstruction(router, "") == LanguageInstruction(router, "en");
  }

  /** The two copies of `getSummaryPrompt` agree except on `"detailed"`
      and on the Russian and Indonesian instructions. */
  lemma SummaryPromptRoutersAgree(summaryType: string, transcript: string, language: string)
    requires summaryType != "detailed" && language != "ru" && language != "id"
    ensures SummaryPrompt(Express, summaryType, transcript, language)
         == SummaryPrompt(Rpc, summaryType, transcript, language)
  {
    assert LanguageInstruction(Express, language) == LanguageInstruction(Rpc, language);
    assert SelectTemplate(Express, summaryType) == SelectTemplate(Rpc, summaryType);
  }
}
