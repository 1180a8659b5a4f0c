/** The prompt template engine shared, in two copies, by the Gemini and the
    OpenAI services (`buildPromptFromConfig`, `buildRefinementPrompt` and
    the advisor prompt of `chatWithCardContext`).

    The two copies are the same program text except for three non-ASCII
    characters in their fixed prose: the Gemini file holds the UTF-8 bytes
    of the siren emoji, the bullet and the en dash read back as
    Windows-1252, while the OpenAI file holds the characters themselves.
    The engine is therefore written once, over a `Prose` value, and the
    two services are the two instances of it.
 */
module Prompts {
  import opened Wrappers
  import opened Strings
  import opened Json

  /** The three non-ASCII characters of a service's fixed prose. */
  datatype Glyphs = Glyphs(siren: string, bullet: string, dash: string)

  /** src/gemini/gemini.service.ts as written: UTF-8 read back as
      Windows-1252. */
  const GeminiGlyphs := Glyphs("ðŸš¨", "â€¢", "â€“")

  /** src/openai/openai.service.ts: U+1F6A8, U+2022 and U+2013. */
  const OpenAiGlyphs := Glyphs("\U{1F6A8}", "•", "–")

  /** The fixed texts a service appends to, or wraps around, its prompts. */
  datatype Prose = Prose(
    generationBoundary: string,  // appended to a generation system prompt
    refinementBoundary: string,  // appended to a refinement template
    refinementFormat: string,    // the bullet list closing a refinement request
    advisorRules: string)        // what follows the boundary in the card chat prompt

  function ProseOf(g: Glyphs): Prose {
    Prose(GenerationBoundary(g), RefinementBoundary(g), RefinementFormat(g), AdvisorRules(g))
  }

  const GeminiProse := ProseOf(GeminiGlyphs)
  const OpenAiProse := ProseOf(OpenAiGlyphs)

  /** Text in which no placeholder can end: it holds no closing brace. */
  predicate Inert(s: string) {
    '}' !in s
  }

  /** Prose whose generation boundary survives option substitution. */
  predicate InertProse(p: Prose) {
    Inert(p.generationBoundary)
  }

  // The boundary's rules, each cut into pieces short enough for the
  // verifier to inspect character by character.
  const BoundaryHeading := " BUSINESS FOCUS BOUNDARY:\n"
  const OnlyBusinessRule := "- ONLY provide business, entrepreneurship, " + "startup, or commercial-related responses\n"
  const RedirectRuleStart := "- If asked about non-business topics " + "(personal advice, entertainment, general "
  const RedirectRuleEnd := "knowledge, etc.), politely redirect to " + "business context\n"
  const ExampleRuleStart := "- Example: \"I focus on business solutions. " + "Let me help you with business-related "
  const ExampleRuleEnd := "aspects of your question instead.\"\n"
  const StayWithinRuleStart := "- Stay within: business strategy, " + "marketing, finance, operations, "
  const StayWithinRuleEnd := "management, entrepreneurship, startups, " + "commerce\n"

  const GenerationRules := OnlyBusinessRule + RedirectRuleStart + RedirectRuleEnd
    + ExampleRuleStart + ExampleRuleEnd + StayWithinRuleStart + StayWithinRuleEnd

  /** The business boundary appended to a generation system prompt, and
      quoted again inside the card chat prompt. */
  function GenerationBoundary(g: Glyphs): string {
    "\n\n" + g.siren + BoundaryHeading + GenerationRules
  }

  /** The business boundary appended to a refinement template. */
  function RefinementBoundary(g: Glyphs): string {
    "\n\n" + g.siren + BoundaryHeading
    + "- ONLY provide business, entrepreneurship, startup, or commercial-related insights\n"
    + "- Focus on: business strategy, marketing, finance, operations, management, entrepreneurship, startups, commerce\n"
    + "- If the content is not business-related, redirect to business applications or implications\n"
  }

  /** The requested answer shape closing a refinement request (two of its
      lines carry a trailing space in both services). */
  function RefinementFormat(g: Glyphs): string {
    "Format: \n"
    + g.bullet + " Key insight 1 (1 sentence)\n"
    + g.bullet + " Key insight 2 (1 sentence) \n"
    + g.bullet + " Key insight 3 (1 sentence)\n"
    + g.bullet + " Key insight 4 (1 sentence)"
  }

  /** The writing rules after the boundary in the card chat prompt. */
  function AdvisorRules(g: Glyphs): string {
    "\nWrite responses that:\n"
    + "- Start with a direct 1" + g.dash + "2 sentence answer tailored to the user's message and this idea.\n"
    + "- Keep the whole reply under ~120 words unless the user explicitly asks for more.\n"
    + "- Choose formatting based on intent (do not always use bullets):\n"
    + "  " + g.bullet + " Paragraph for explanations/opinions.\n"
    + "  " + g.bullet + " Bullet list only when enumerating options/tips.\n"
    + "  " + g.bullet + " Numbered steps only for clear \"how to\" requests or plans.\n"
    + "  " + g.bullet + " Simple table (Markdown) only if the user asks to compare.\n"
    + "- Be specific, actionable, and reference the idea details when helpful.\n"
    + "- Avoid fluff, headings, or repeating the question.\n"
    + "- If key info is missing, end with one brief clarifying question on a new line prefixed with \"Quick check:\""
  }

  lemma InertConcat(a: string, b: string)
    requires Inert(a) && Inert(b)
    ensures Inert(a + b)
  {
  }

  lemma OnlyBusinessRuleInert() ensures Inert(OnlyBusinessRule) {}
  lemma RedirectRuleStartInert() ensures Inert(RedirectRuleStart) {}
  lemma RedirectRuleEndInert() ensures Inert(RedirectRuleEnd) {}
  lemma ExampleRuleStartInert() ensures Inert(ExampleRuleStart) {}
  lemma ExampleRuleEndInert() ensures Inert(ExampleRuleEnd) {}
  lemma StayWithinRuleStartInert() ensures Inert(StayWithinRuleStart) {}
  lemma StayWithinRuleEndInert() ensures Inert(StayWithinRuleEnd) {}

  /** No placeholder can end inside either service's generation boundary. */
  lemma GenerationBoundaryInert(g: Glyphs)
    requires Inert(g.siren)
    ensures Inert(GenerationBoundary(g))
  {
    OnlyBusinessRuleInert();
    RedirectRuleStartInert();
    RedirectRuleEndInert();
    ExampleRuleStartInert();
    ExampleRuleEndInert();
    StayWithinRuleStartInert();
    StayWithinRuleEndInert();
    InertConcat(OnlyBusinessRule, RedirectRuleStart);
    InertConcat(OnlyBusinessRule + RedirectRuleStart, RedirectRuleEnd);
    InertConcat(OnlyBusinessRule + RedirectRuleStart + RedirectRuleEnd, ExampleRuleStart);
    InertConcat(OnlyBusinessRule + RedirectRuleStart + RedirectRuleEnd + ExampleRuleStart, ExampleRuleEnd);
    InertConcat(OnlyBusinessRule + RedirectRuleStart + RedirectRuleEnd + ExampleRuleStart + ExampleRuleEnd, StayWithinRuleStart);
    InertConcat(OnlyBusinessRule + RedirectRuleStart + RedirectRuleEnd + ExampleRuleStart + ExampleRuleEnd + StayWithinRuleStart, StayWithinRuleEnd);
    assert Inert(BoundaryHeading);
    InertConcat("\n\n", g.siren);
    InertConcat("\n\n" + g.siren, BoundaryHeading);
    InertConcat("\n\n" + g.siren + BoundaryHeading, GenerationRules);
  }

  /** Neither service's siren holds a closing brace. */
  lemma ServiceGlyphsInert()
    ensures Inert(GeminiGlyphs.siren) && Inert(OpenAiGlyphs.siren)
  {
  }

  /** So no placeholder can end in either service's generation boundary. */
  lemma ServiceProseInert(g: Glyphs)
    requires g == GeminiGlyphs || g == OpenAiGlyphs
    ensures InertProse(ProseOf(g))
  {
    ServiceGlyphsInert();
    GenerationBoundaryInert(g);
  }

  datatype Prompt = Prompt(systemPrompt: string, userPrompt: string)

  const MissingTemplates := "Missing required prompt templates in database configuration"

  function MissingRefinementTemplate(aspect: string): string {
    "Missing refinement template for aspect '" + aspect + "' in database configuration"
  }

  // ---------------------------------------------------------------------
  // Placeholders

  function Placeholder(key: string): (p: string)
    ensures |p| == |key| + 4 && p[0] == '{' && p[|p| - 1] == '}'
  {
    "{{" + key + "}}"
  }

  /** `String(options[key] || '')`. */
  function OptionText(options: Fields, key: string): string {
    ToJsString(Or(Lookup(options, key), JStr("")))
  }

  /** `Object.keys(options).forEach(key => s = s.replace(/{{key}}/g,
      String(options[key] || '')))`, one key after the other. */
  function ApplyOptions(s: string, options: Fields, keys: seq<string>): string
    decreases |keys|
  {
    if |keys| == 0 then s
    else ApplyOptions(ReplaceAll(s, Placeholder(keys[0]), OptionText(options, keys[0])), options, keys[1..])
  }

  /** `options.count || appSettings?.defaultCount || 5`: a falsy count, 0
      included, falls through to the default. */
  function PromptCount(options: Fields, appSettings: Option<Json>): (c: Json)
    ensures Truthy(c)
    ensures Present(Lookup(options, "count")) ==> c == Lookup(options, "count").value
    ensures !Present(Lookup(options, "count")) && Present(MemberOf(appSettings, "defaultCount")) ==>
      c == MemberOf(appSettings, "defaultCount").value
    ensures !Present(Lookup(options, "count")) && !Present(MemberOf(appSettings, "defaultCount")) ==> c == Num(5)
  {
    Or(Lookup(options, "count"), Or(MemberOf(appSettings, "defaultCount"), Num(5)))
  }

  /** `options.industry || 'general'`. */
  function PromptIndustry(options: Fields): (i: Json)
    ensures Truthy(i)
    ensures !Present(Lookup(options, "industry")) ==> i == JStr("general")
  {
    Or(Lookup(options, "industry"), JStr("general"))
  }

  /** The system template with `{{count}}` and `{{industry}}` filled in. */
  function FillSystem(template: string, options: Fields, appSettings: Option<Json>): string {
    var s := ReplaceAll(template, "{{count}}", ToJsString(PromptCount(options, appSettings)));
    ReplaceAll(s, "{{industry}}", ToJsString(PromptIndustry(options)))
  }

  /** The user template with `{{input}}`, `{{count}}` and `{{industry}}`
      filled in, in that order. */
  function FillUser(template: string, userInput: string, options: Fields, appSettings: Option<Json>): string {
    var s := ReplaceAll(template, "{{input}}", userInput);
    var s' := ReplaceAll(s, "{{count}}", ToJsString(PromptCount(options, appSettings)));
    ReplaceAll(s', "{{industry}}", ToJsString(PromptIndustry(options)))
  }

  /** `buildPromptFromConfig`. Both templates must be truthy; each is then
      used as a string, so a template of any other type fails at its first
      `replace`. The boundary is appended before the option keys are
      substituted, and the user prompt gets no boundary. */
  function BuildPromptFromConfig(prose: Prose, promptConfig: Option<Json>, userInput: string,
                                 appSettings: Option<Json>, options: Fields): (r: Result<Prompt>)
    ensures !Present(MemberOf(promptConfig, "systemTemplate")) || !Present(MemberOf(promptConfig, "userTemplate")) ==>
      r == Err(Failure(MissingTemplates))
    ensures r.Ok? <==>
      && Present(MemberOf(promptConfig, "systemTemplate")) && MemberOf(promptConfig, "systemTemplate").value.JStr?
      && Present(MemberOf(promptConfig, "userTemplate")) && MemberOf(promptConfig, "userTemplate").value.JStr?
  {
    var st := MemberOf(promptConfig, "systemTemplate");
    var ut := MemberOf(promptConfig, "userTemplate");
    if !Present(st) || !Present(ut) then Err(Failure(MissingTemplates))
    else if !st.value.JStr? then Err(Failure("systemPrompt.replace is not a function"))
    else if !ut.value.JStr? then Err(Failure("userPrompt.replace is not a function"))
    else
      var system := ApplyOptions(FillSystem(st.value.s, options, appSettings) + prose.generationBoundary, options, Keys(options));
      var user := ApplyOptions(FillUser(ut.value.s, userInput, options, appSettings), options, Keys(options));
      Ok(Prompt(system, user))
  }

  // ---------------------------------------------------------------------
  // Properties of the substitution

  /** No option substitution reaches into text that has no closing brace,
      and none straddles the seam in front of it. */
  lemma {:induction false} ApplyOptionsInertSuffix(s: string, b: string, options: Fields, keys: seq<string>)
    requires '}' !in b
    ensures ApplyOptions(s + b, options, keys) == ApplyOptions(s, options, keys) + b
    decreases |keys|
  {
    if |keys| > 0 {
      var p := Placeholder(keys[0]);
      ReplaceAllInertSuffix(s, b, p, OptionText(options, keys[0]));
      ApplyOptionsInertSuffix(ReplaceAll(s, p, OptionText(options, keys[0])), b, options, keys[1..]);
    }
  }

  /** Text without an opening brace holds no placeholder. */
  lemma NoPlaceholderWithoutBrace(s: string, p: string)
    requires '{' !in s && |p| > 0 && p[0] == '{'
    ensures forall i :: !OccursAt(s, p, i)
  {
  }

  lemma ReplaceAllWithoutBrace(s: string, p: string, r: string)
    requires '{' !in s && |p| > 0 && p[0] == '{'
    ensures ReplaceAll(s, p, r) == s
  {
    NoPlaceholderWithoutBrace(s, p);
    ReplaceAllAbsent(s, p, r);
  }

  lemma {:induction false} ApplyOptionsWithoutBrace(s: string, options: Fields, keys: seq<string>)
    requires '{' !in s
    ensures ApplyOptions(s, options, keys) == s
    decreases |keys|
  {
    if |keys| > 0 {
      ReplaceAllWithoutBrace(s, Placeholder(keys[0]), OptionText(options, keys[0]));
      ApplyOptionsWithoutBrace(s, options, keys[1..]);
    }
  }

  /** The boundary is the last thing in every generated system prompt, left
      as written: the system prompt is the filled template followed by the
      boundary. */
  lemma SystemPromptEndsWithBoundary(prose: Prose, promptConfig: Option<Json>, userInput: string,
                                     appSettings: Option<Json>, options: Fields)
    requires InertProse(prose)
    requires BuildPromptFromConfig(prose, promptConfig, userInput, appSettings, options).Ok?
    ensures var template := MemberOf(promptConfig, "systemTemplate").value.s;
      BuildPromptFromConfig(prose, promptConfig, userInput, appSettings, options).value.systemPrompt
        == ApplyOptions(FillSystem(template, options, appSettings), options, Keys(options)) + prose.generationBoundary
  {
    var template := MemberOf(promptConfig, "systemTemplate").value.s;
    ApplyOptionsInertSuffix(FillSystem(template, options, appSettings), prose.generationBoundary, options, Keys(options));
  }

  /** A template with no placeholder syntax at all is used verbatim: the
      system prompt is the template plus the boundary and the user prompt is
      the template itself. */
  lemma TemplatesWithoutBraces(prose: Prose, promptConfig: Option<Json>, userInput: string,
                               appSettings: Option<Json>, options: Fields)
    requires InertProse(prose)
    requires BuildPromptFromConfig(prose, promptConfig, userInput, appSettings, options).Ok?
    requires '{' !in MemberOf(promptConfig, "systemTemplate").value.s
    requires '{' !in MemberOf(promptConfig, "userTemplate").value.s
    ensures var r := BuildPromptFromConfig(prose, promptConfig, userInput, appSettings, options).value;
      && r.systemPrompt == MemberOf(promptConfig, "systemTemplate").value.s + prose.generationBoundary
      && r.userPrompt == MemberOf(promptConfig, "userTemplate").value.s
  {
    var st := MemberOf(promptConfig, "systemTemplate").value.s;
    var ut := MemberOf(promptConfig, "userTemplate").value.s;
    SystemPromptEndsWithBoundary(prose, promptConfig, userInput, appSettings, options);
    ReplaceAllWithoutBrace(st, "{{count}}", ToJsString(PromptCount(options, appSettings)));
    ReplaceAllWithoutBrace(st, "{{industry}}", ToJsString(PromptIndustry(options)));
    ApplyOptionsWithoutBrace(st, options, Keys(options));
    ReplaceAllWithoutBrace(ut, "{{input}}", userInput);
    ReplaceAllWithoutBrace(ut, "{{count}}", ToJsString(PromptCount(options, appSettings)));
    ReplaceAllWithoutBrace(ut, "{{industry}}", ToJsString(PromptIndustry(options)));
    ApplyOptionsWithoutBrace(ut, options, Keys(options));
  }

  /** `s` with the suffix `suffix` cut off. */
  function WithoutSuffix(s: string, suffix: string): string {
    if |suffix| <= |s| then s[..|s| - |suffix|] else s
  }

  lemma WithoutSuffixConcat(a: string, b: string)
    ensures EndsWith(a + b, b) && WithoutSuffix(a + b, b) == a
  {
    assert (a + b)[|a|..] == b;
    assert (a + b)[..|a|] == a;
  }

  /** Two copies of `buildPromptFromConfig` that differ only in their
      prose, as the Gemini and the OpenAI services do, agree: the same
      failures, the same user prompt, and system prompts that differ only in
      their own boundary text. */
  lemma ProvidersBuildSamePrompts(p1: Prose, p2: Prose, promptConfig: Option<Json>, userInput: string,
                                  appSettings: Option<Json>, options: Fields)
    requires InertProse(p1) && InertProse(p2)
    ensures var r1 := BuildPromptFromConfig(p1, promptConfig, userInput, appSettings, options);
      var r2 := BuildPromptFromConfig(p2, promptConfig, userInput, appSettings, options);
      && (r1.Err? <==> r2.Err?)
      && (r1.Err? ==> r1 == r2)
      && (r1.Ok? ==>
        && r1.value.userPrompt == r2.value.userPrompt
        && EndsWith(r1.value.systemPrompt, p1.generationBoundary)
        && EndsWith(r2.value.systemPrompt, p2.generationBoundary)
        && WithoutSuffix(r1.value.systemPrompt, p1.generationBoundary)
           == WithoutSuffix(r2.value.systemPrompt, p2.generationBoundary))
  {
    var r1 := BuildPromptFromConfig(p1, promptConfig, userInput, appSettings, options);
    if r1.Ok? {
      SystemPromptEndsWithBoundary(p1, promptConfig, userInput, appSettings, options);
      SystemPromptEndsWithBoundary(p2, promptConfig, userInput, appSettings, options);
      var core := ApplyOptions(FillSystem(MemberOf(promptConfig, "systemTemplate").value.s, options, appSettings), options, Keys(options));
      WithoutSuffixConcat(core, p1.generationBoundary);
      WithoutSuffixConcat(core, p2.generationBoundary);
    }
  }

  // ---------------------------------------------------------------------
  // Refinement prompts

  /** `originalContent.title || 'Untitled'`. */
  function CardTitle(card: Json): string {
    ToJsString(Or(Member(card, "title"), JStr("Untitled")))
  }

  /** `originalContent.description || originalContent.content || ''`. */
  function CardBody(card: Json): string {
    ToJsString(Or(Member(card, "description"), Or(Member(card, "content"), JStr(""))))
  }

  /** The part of a refinement request that names the aspect and the idea. */
  function RefinementRequest(card: Json, aspect: string): string {
    "Provide 3-4 SHORT, actionable business insights about " + aspect + " for:\n\n\""
    + CardTitle(card) + "\"\n" + CardBody(card) + "\n\n"
  }

  /** `buildRefinementPrompt`. The aspect's template must be truthy; it is
      then concatenated with the boundary, which turns a non-string template
      into its `String` form rather than failing. */
  function BuildRefinementPrompt(prose: Prose, card: Json, aspect: string, promptConfig: Option<Json>): (r: Result<Prompt>)
    ensures var t := MemberOf(MemberOf(promptConfig, "refinementTemplates"), aspect);
      && (r.Err? <==> !Present(t))
      && (r.Err? ==> r.error == Failure(MissingRefinementTemplate(aspect)))
      && (r.Ok? ==>
        && WithoutSuffix(r.value.systemPrompt, prose.refinementBoundary) == ToJsString(t.value)
        && EndsWith(r.value.systemPrompt, prose.refinementBoundary)
        && WithoutSuffix(r.value.userPrompt, prose.refinementFormat) == RefinementRequest(card, aspect)
        && EndsWith(r.value.userPrompt, prose.refinementFormat))
  {
    var t := MemberOf(MemberOf(promptConfig, "refinementTemplates"), aspect);
    if !Present(t) then Err(Failure(MissingRefinementTemplate(aspect)))
    else
      var system := ToJsString(t.value) + prose.refinementBoundary;
      var user := RefinementRequest(card, aspect) + prose.refinementFormat;
      WithoutSuffixConcat(ToJsString(t.value), prose.refinementBoundary);
      WithoutSuffixConcat(RefinementRequest(card, aspect), prose.refinementFormat);
      Ok(Prompt(system, user))
  }

  /** Two copies of `buildRefinementPrompt` that differ only in their
      prose fail alike and otherwise differ only in their boundary and
      format texts. */
  lemma ProvidersBuildSameRefinements(p1: Prose, p2: Prose, card: Json, aspect: string, promptConfig: Option<Json>)
    ensures var r1 := BuildRefinementPrompt(p1, card, aspect, promptConfig);
      var r2 := BuildRefinementPrompt(p2, card, aspect, promptConfig);
      && (r1.Err? <==> r2.Err?)
      && (r1.Err? ==> r1 == r2)
      && (r1.Ok? ==>
        && WithoutSuffix(r1.value.systemPrompt, p1.refinementBoundary)
           == WithoutSuffix(r2.value.systemPrompt, p2.refinementBoundary)
        && WithoutSuffix(r1.value.userPrompt, p1.refinementFormat)
           == WithoutSuffix(r2.value.userPrompt, p2.refinementFormat))
  {
  }

  // ---------------------------------------------------------------------
  // Fixed requests

  const AdvisorIntro := "You are a concise, helpful business advisor.\n\nContext about the specific idea:\n"

  /** The advisor system prompt of `chatWithCardContext`: the card context
      between a fixed introduction and the generation boundary, followed by
      the writing rules. */
  function AdvisorPrompt(p: Prose, cardContext: string): (r: string)
    ensures StartsWith(r, AdvisorIntro + cardContext)
  {
    var head := AdvisorIntro + cardContext;
    var r := head + p.generationBoundary + p.advisorRules;
    assert r[..|head|] == head;
    r
  }

  const SummaryInstruction := "You are a helpful assistant that creates concise summaries of conversations. "
    + "Summarize the key points and outcomes in 2-3 sentences.\n\nPlease summarize this conversation:\n\n"

  /** The request of `generateSummary`: a fixed instruction, then the
      conversation's lines separated by blank lines. */
  function SummaryPrompt(lines: seq<string>): (r: string)
    ensures StartsWith(r, SummaryInstruction)
    ensures |lines| == 1 ==> r == SummaryInstruction + lines[0]
  {
    var r := SummaryInstruction + Join(lines, "\n\n");
    assert r[..|SummaryInstruction|] == SummaryInstruction;
    r
  }

  const DefaultInferencePrompt := "Extract key parameters from this message. Only extract parameters that are explicitly mentioned. "
    + "Return JSON with industry, count, complexity, tone, target_audience, urgency, budget_range fields. If not mentioned, omit the field."

  /** The request of `extractParameters`: the assistant's inference prompt,
      or the default one, with its first `{{message}}` replaced by the
      message. A configured prompt that is not a string fails at `replace`. */
  function InferencePrompt(assistant: Option<Json>, message: string): (r: Result<string>)
    ensures var c := MemberOf(MemberOf(assistant, "promptConfig"), "parameterInferencePrompt");
      && (r.Err? <==> Present(c) && !c.value.JStr?)
      && (r.Ok? ==> var template := Or(c, JStr(DefaultInferencePrompt)).s;
            && (IndexOf(template, "{{message}}").None? ==> r.value == template)
            && FirstReplaced(template, "{{message}}", message, r.value))
  {
    var c := MemberOf(MemberOf(assistant, "promptConfig"), "parameterInferencePrompt");
    var prompt := Or(c, JStr(DefaultInferencePrompt));
    if !prompt.JStr? then Err(Failure("inferencePrompt.replace is not a function"))
    else
      Ok(ReplaceFirst(prompt.s, "{{message}}", message))
  }
}
