/** The assistants the service seeds on first start (seed/seed.service.ts)
    and the refinement aspects the API advertises
    (common/enums/generate.enums.ts).

    The prompt texts are abbreviated to their opening words; what matters
    to the rest of the model is which keys exist, which values are truthy
    strings and which placeholders the templates carry, and those are kept
    exactly.
 */
module Seed {
  import opened Wrappers
  import opened Strings
  import opened Json
  import opened Store
  import opened Prompts
  import opened Responses
  import opened Params

  /** `RefinementAspect`, in declaration order. */
  const RefinementAspects: seq<string> := [
    "business-model", "target-audience", "marketing-strategy", "financial-planning",
    "risk-assessment", "technical-requirements", "legal-compliance", "competitive-analysis",
    "revenue-streams", "operational-planning", "growth-strategy", "partnerships", "market-entry"]

  /** idea-generator's `appSettings.refinementOptions`. */
  const RefinementOptions: seq<string> := [
    "business-model", "target-audience", "marketing-strategy", "financial-planning",
    "risk-assessment", "technical-requirements", "legal-compliance", "competitive-analysis",
    "revenue-streams", "operational-planning", "growth-strategy", "partnerships", "market-entry"]

  /** idea-generator's `promptConfig.refinementTemplates`, key by key. */
  const RefinementTemplates: Fields := [
    ("business-model", JStr("You are a bootstrap business expert")),
    ("target-audience", JStr("You are a practical market researcher")),
    ("marketing-strategy", JStr("You are a low-budget marketing expert")),
    ("financial-planning", JStr("You are a bootstrap financial advisor")),
    ("risk-assessment", JStr("You are a practical risk advisor")),
    ("technical-requirements", JStr("You are a no-code/low-code expert")),
    ("legal-compliance", JStr("You are a simple legal advisor")),
    ("competitive-analysis", JStr("You are a practical competitor researcher")),
    ("revenue-streams", JStr("You are a practical pricing expert")),
    ("operational-planning", JStr("You are a solo entrepreneur operations expert")),
    ("growth-strategy", JStr("You are a bootstrap growth expert")),
    ("partnerships", JStr("You are a local networking expert")),
    ("market-entry", JStr("You are a launch expert"))]

  const Count := "{{count}}"
  const Input := "{{input}}"

  /** The opening, the count line and the JSON example of the seeded
      system template; the requirement list between them is left out. */
  const IdeaSystemTemplate := IdeaSystemOpening + Count + IdeaSystemExample
  const IdeaSystemOpening := "You are a bootstrap business expert helping regular people start affordable, realistic businesses.\nGenerate exactly "
  const IdeaSystemExample :=
    " practical business ideas that can be started with $500-2000 budget.\n" +
    "Return response as valid JSON array with this exact structure:\n" +
    "[\n  {\n    \"title\": \"string\",\n    \"description\": \"string\",\n    \"score\": number\n  }\n]"
  const IdeaUserTemplate := "Based on this interest: \"" + Input + "\", generate " + Count + " realistic business ideas"

  const IdeaPromptConfig := JObj([
    ("systemTemplate", JStr(IdeaSystemTemplate)),
    ("userTemplate", JStr(IdeaUserTemplate)),
    ("refinementTemplates", JObj(RefinementTemplates))])

  const IdeaOutputFormat := JObj([
    ("type", JStr("array")),
    ("structure", JObj([("title", JStr("string")), ("description", JStr("string")), ("score", JStr("number"))]))])

  function OptionItems(options: seq<string>): (r: seq<Json>)
    ensures |r| == |options| && forall i :: 0 <= i < |options| ==> r[i] == JStr(options[i])
  {
    seq(|options|, i requires 0 <= i < |options| => JStr(options[i]))
  }

  const IdeaSettings := JObj([
    ("defaultCount", Num(6)),
    ("defaultFormat", JStr("cards")),
    ("defaultIndustry", JStr("general")),
    ("refinementOptions", JArr(OptionItems(RefinementOptions)))])

  const AdvisorPromptConfig := JObj([
    ("systemTemplate", JStr("You are a strategic business advisor.")),
    ("userTemplate", JStr("Analyze and provide strategic business advice for: " + Input))])

  const AdvisorOutputFormat := JObj([
    ("type", JStr("object")),
    ("structure", JObj([("analysis", JStr("string")), ("recommendations", JStr("array")), ("risks", JStr("array"))]))])

  const AdvisorSettings := JObj([
    ("focusAreas", JArr([JStr("market-analysis"), JStr("competitive-strategy"), JStr("growth-planning")]))])

  /** 'Idea Generator Pro'. Seeded rows take the column default
      `isActive = true`. */
  function IdeaGenerator(id: string): Assistant {
    Assistant(id, "Idea Generator Pro", "You are an expert business consultant", true, "idea-generator",
              IdeaPromptConfig, IdeaOutputFormat, IdeaSettings)
  }

  /** 'Strategy Advisor'. */
  function StrategyAdvisor(id: string): Assistant {
    Assistant(id, "Strategy Advisor", "You are a strategic business advisor", true, "strategy-advisor",
              AdvisorPromptConfig, AdvisorOutputFormat, AdvisorSettings)
  }

  /** `seedAssistants`: nothing when any assistant exists, otherwise the
      two assistants under the ids the database assigns. */
  function SeedAssistants(w: World, ideaId: string, advisorId: string): (w': World)
    requires ideaId != advisorId
    ensures |w.assistants| > 0 ==> w' == w
    ensures |w.assistants| == 0 ==>
      && w'.assistants.Keys == {ideaId, advisorId}
      && w'.assistants[ideaId] == IdeaGenerator(ideaId)
      && w'.assistants[advisorId] == StrategyAdvisor(advisorId)
      && w'.threads == w.threads && w'.messages == w.messages
  {
    if |w.assistants| > 0 then w
    else w.(assistants := map[ideaId := IdeaGenerator(ideaId), advisorId := StrategyAdvisor(advisorId)])
  }

  /** Seeding twice seeds once. */
  lemma SeedOnce(w: World, ideaId: string, advisorId: string, ideaId': string, advisorId': string)
    requires ideaId != advisorId && ideaId' != advisorId'
    ensures var seeded := SeedAssistants(w, ideaId, advisorId);
      SeedAssistants(seeded, ideaId', advisorId') == seeded
  {
    if |w.assistants| == 0 {
      assert ideaId in SeedAssistants(w, ideaId, advisorId).assistants;
    }
  }

  /** Both seeded assistants can be generated against. */
  lemma SeededAssistantsAreActive(w: World, ideaId: string, advisorId: string)
    requires ideaId != advisorId && |w.assistants| == 0
    ensures FindAssistant(SeedAssistants(w, ideaId, advisorId), ideaId) == Some(IdeaGenerator(ideaId))
    ensures FindAssistant(SeedAssistants(w, ideaId, advisorId), advisorId) == Some(StrategyAdvisor(advisorId))
  {
  }

  // ---------------------------------------------------------------------
  // Refinement aspects

  /** The advertised options are the enum's values, in the same order. */
  lemma OptionsAreTheEnum()
    ensures RefinementOptions == RefinementAspects
  {
  }

  /** The template keys are the advertised options, in the same order. */
  lemma TemplateKeysAreTheOptions()
    ensures |RefinementTemplates| == |RefinementOptions|
    ensures forall i :: 0 <= i < |RefinementOptions| ==> RefinementTemplates[i].0 == RefinementOptions[i]
  {
  }

  /** Every template is a non-empty string. */
  lemma TemplatesAreTruthy()
    ensures forall i :: 0 <= i < |RefinementTemplates| ==> RefinementTemplates[i].1.JStr? && Truthy(RefinementTemplates[i].1)
  {
  }

  /** A key's value is one of the entries' values. */
  lemma {:induction false} LookupIsAnEntry(f: Fields, k: string) returns (j: nat)
    requires HasKey(f, k)
    ensures j < |f| && Lookup(f, k) == Some(f[j].1)
    decreases |f|
  {
    if f[|f| - 1].0 == k {
      j := |f| - 1;
    } else {
      j := LookupIsAnEntry(f[..|f| - 1], k);
    }
  }

  /** Last-match lookup in short literal objects. */
  lemma Lookup2(a: (string, Json), b: (string, Json), j: string)
    ensures Lookup([a, b], j) == if j == b.0 then Some(b.1) else if j == a.0 then Some(a.1) else None
  {
    assert [a, b] == [a] + [b];
    LookupAppend([a], b.0, b.1, j);
    assert [a] == [] + [a];
    LookupAppend([], a.0, a.1, j);
  }

  lemma Lookup3(a: (string, Json), b: (string, Json), c: (string, Json), j: string)
    ensures Lookup([a, b, c], j) == if j == c.0 then Some(c.1) else Lookup([a, b], j)
  {
    assert [a, b, c] == [a, b] + [c];
    LookupAppend([a, b], c.0, c.1, j);
  }

  lemma Lookup4(a: (string, Json), b: (string, Json), c: (string, Json), d: (string, Json), j: string)
    ensures Lookup([a, b, c, d], j) == if j == d.0 then Some(d.1) else Lookup([a, b, c], j)
  {
    assert [a, b, c, d] == [a, b, c] + [d];
    LookupAppend([a, b, c], d.0, d.1, j);
  }

  /** The refinement templates an aspect name reaches. */
  lemma IdeaTemplates()
    ensures MemberOf(Some(IdeaPromptConfig), "refinementTemplates") == Some(JObj(RefinementTemplates))
  {
  }

  /** Each advertised aspect passes the missing-template check of
      `buildRefinementPrompt` for idea-generator. */
  lemma EveryOptionHasTemplate(prose: Prose, card: Json, i: nat)
    requires i < |RefinementOptions|
    ensures BuildRefinementPrompt(prose, card, RefinementOptions[i], Some(IdeaPromptConfig)).Ok?
  {
    TemplateKeysAreTheOptions();
    TemplatesAreTruthy();
    IdeaTemplates();
    HasKeyAt(RefinementTemplates, i);
    var j := LookupIsAnEntry(RefinementTemplates, RefinementOptions[i]);
    assert Truthy(RefinementTemplates[j].1);
  }

  /** strategy-advisor has no refinement templates, so every refinement
      against it fails the missing-template check. */
  lemma AdvisorCannotRefine(prose: Prose, card: Json, aspect: string)
    ensures BuildRefinementPrompt(prose, card, aspect, Some(AdvisorPromptConfig)) == Err(Failure(MissingRefinementTemplate(aspect)))
  {
    var rt, st, ut := "refinementTemplates", "systemTemplate", "userTemplate";
    assert |rt| != |st| && |rt| != |ut|;
    Lookup2(AdvisorPromptConfig.fields[0], AdvisorPromptConfig.fields[1], rt);
  }

  // ---------------------------------------------------------------------
  // Generation settings

  /** Both seeded configurations have the two templates, so prompt
      building never hits the missing-template error on them. */
  lemma SeededTemplatesPresent()
    ensures MemberOf(Some(IdeaPromptConfig), "systemTemplate") == Some(JStr(IdeaSystemTemplate))
    ensures MemberOf(Some(IdeaPromptConfig), "userTemplate") == Some(JStr(IdeaUserTemplate))
    ensures Truthy(JStr(IdeaSystemTemplate)) && Truthy(JStr(IdeaUserTemplate))
    ensures Present(MemberOf(Some(AdvisorPromptConfig), "systemTemplate"))
    ensures Present(MemberOf(Some(AdvisorPromptConfig), "userTemplate"))
  {
    var rt, st, ut := "refinementTemplates", "systemTemplate", "userTemplate";
    assert |rt| != |st| && |rt| != |ut| && |st| != |ut|;
    var f := IdeaPromptConfig.fields;
    Lookup3(f[0], f[1], f[2], st);
    Lookup3(f[0], f[1], f[2], ut);
    Lookup2(f[0], f[1], st);
    Lookup2(f[0], f[1], ut);
    var g := AdvisorPromptConfig.fields;
    Lookup2(g[0], g[1], st);
    Lookup2(g[0], g[1], ut);
  }

  /** idea-generator's prompts are built, for any input and options. */
  lemma IdeaPromptsBuild(prose: Prose, userInput: string, options: Fields)
    ensures BuildPromptFromConfig(prose, Some(IdeaPromptConfig), userInput, Some(IdeaSettings), options).Ok?
  {
    SeededTemplatesPresent();
  }

  /** The idea-generator templates carry the placeholders the renderer
      fills: the count in both, the user's input in the user template. */
  lemma IdeaPlaceholders()
    ensures OccursAt(IdeaSystemTemplate, Count, 116)
    ensures OccursAt(IdeaUserTemplate, Input, 25) && OccursAt(IdeaUserTemplate, Count, 46)
  {
    assert |IdeaSystemOpening| == 116;
    assert IdeaSystemTemplate[116..125] == Count;
    var c, d, e := "Based on this interest: \"", "\", generate ", " realistic business ideas";
    assert |c| == 25 && |d| == 12;
    var u := c + Input + d + Count + e;
    assert u[25..34] == Input;
    assert u[46..55] == Count;
  }

  /** idea-generator's fixed defaults: 6 cards, 'general', 'cards', and
      the generic 'simple' complexity it does not set. */
  lemma IdeaDefaults()
    ensures Lookup(Defaults(IdeaSettings), "count") == Some(Num(6))
    ensures Lookup(Defaults(IdeaSettings), "industry") == Some(JStr("general"))
    ensures Lookup(Defaults(IdeaSettings), "complexity") == Some(JStr("simple"))
    ensures Lookup(Defaults(IdeaSettings), "format") == Some(JStr("cards"))
  {
    DefaultValues(IdeaSettings, "count");
    var dc, df, di, dx, ro := "defaultCount", "defaultFormat", "defaultIndustry", "defaultComplexity", "refinementOptions";
    assert |dc| != |ro| && |dc| != |di| && |dc| != |df|;
    assert |df| != |ro| && |df| != |di|;
    assert |di| != |ro|;
    assert dx[0] != ro[0] && |dx| != |di| && |dx| != |df| && |dx| != |dc|;
    var f := IdeaSettings.fields;
    forall k | k in {dc, df, di, dx}
      ensures Lookup(f, k) == if k == di then Some(f[2].1) else if k == df then Some(f[1].1) else if k == dc then Some(f[0].1) else None
    {
      Lookup4(f[0], f[1], f[2], f[3], k);
      Lookup3(f[0], f[1], f[2], k);
      Lookup2(f[0], f[1], k);
    }
  }

  /** idea-generator asks for an array: a reply that is not JSON becomes
      one card with the raw reply and score 7.5. */
  lemma IdeaFallbackIsOneCard(response: string)
    ensures var r := Fallback(response, Some(IdeaOutputFormat));
      r.JArr? && |r.items| == 1 && Member(r.items[0], "content") == Some(JStr(response)) &&
      Member(r.items[0], "score") == Some(JNum(Decimal(75, 1)))
  {
    var t, s := "type", "structure";
    assert |t| != |s|;
  }

  /** strategy-advisor asks for an object: a reply that is not JSON
      becomes `{content: raw}`. */
  lemma AdvisorFallbackIsObject(response: string)
    ensures Fallback(response, Some(AdvisorOutputFormat)) == JObj([("content", JStr(response))])
  {
    var t, s, o, a := "type", "structure", "object", "array";
    assert |t| != |s| && |o| != |a|;
  }
}
