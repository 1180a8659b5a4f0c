/** Generation parameters (`resolveGenerationParams`, `getUserContext`,
    `basicParameterInference` in generate/generate.service.ts).

    The parameters are a shallow merge of five sources, later ones winning
    key by key: the assistant's defaults, its `defaultOptions`, the user's
    context, the parameters the model infers from the message, and the
    caller's overrides.
 */
module Params {
  import opened Wrappers
  import opened Strings
  import opened Json
  import opened Providers
  import opened Store

  /** The four fixed defaults, each taken from the assistant's settings
      when truthy there. */
  function Defaults(appSettings: Json): (r: Fields)
    ensures |r| == 4
  {
    [ ("count", Or(Member(appSettings, "defaultCount"), Num(6))),
      ("industry", Or(Member(appSettings, "defaultIndustry"), JStr("general"))),
      ("complexity", Or(Member(appSettings, "defaultComplexity"), JStr("simple"))),
      ("format", Or(Member(appSettings, "defaultFormat"), JStr("cards"))) ]
  }

  /** `defaultParams`: the defaults with `defaultOptions` spread over them. */
  function DefaultParams(appSettings: Json): Fields {
    Assign(Defaults(appSettings), SpreadOf(Member(appSettings, "defaultOptions")))
  }

  /** `getUserContext`: no preferences are stored, with or without a user. */
  function UserContext(userId: Option<string>): (r: Json)
    ensures r.JObj? && Entries(r) == []
  {
    if userId.None? then JObj([]) else JObj([])
  }

  /** The merge `{ ...defaultParams, ...userContext, ...inferredParams,
      ...overrides }`. */
  function Merge(appSettings: Json, userContext: Json, inferred: Json, overrides: Option<Json>): (r: Fields)
    ensures forall k :: HasKey(r, k) <==>
      HasKey(DefaultParams(appSettings), k) || HasKey(Entries(userContext), k)
      || HasKey(Entries(inferred), k) || HasKey(SpreadOf(overrides), k)
  {
    var parts := [DefaultParams(appSettings), Entries(userContext), Entries(inferred), SpreadOf(overrides)];
    forall k
      ensures HasKey(SpreadAll(parts), k) <==>
        HasKey(parts[0], k) || HasKey(parts[1], k) || HasKey(parts[2], k) || HasKey(parts[3], k)
    {
      SpreadAllLookup(parts, k);
      LastDefiningSome(parts, k);
      if HasKey(SpreadAll(parts), k) {
        var i :| 0 <= i < |parts| && HasKey(parts[i], k);
        assert i == 0 || i == 1 || i == 2 || i == 3;
      }
    }
    SpreadAll(parts)
  }

  /** Some part defines the key exactly when the spread of them all does. */
  lemma {:induction false} LastDefiningSome(parts: seq<Fields>, k: string)
    ensures LastDefining(parts, k).Some? <==> exists i :: 0 <= i < |parts| && HasKey(parts[i], k)
    decreases |parts|
  {
    if |parts| > 0 {
      var init := parts[..|parts| - 1];
      LastDefiningSome(init, k);
      assert forall i :: 0 <= i < |init| ==> init[i] == parts[i];
    }
  }

  /** `resolveGenerationParams`. The inference call is not guarded, so any
      failure of it fails the whole generation. */
  function ResolveGenerationParams(c: GeminiClient, parse: string -> Option<Json>, a: Assistant, message: string,
                                   overrides: Option<Json>, userId: Option<string>): (r: Result<Fields>)
    ensures var inferred := ExtractParameters(c, parse, message, Some(AssistantRow(a)));
      && (r.Err? <==> inferred.Err?)
      && (r.Err? ==> r.error == inferred.error)
      && (r.Ok? ==> r.value == Merge(a.appSettings, UserContext(userId), inferred.value, overrides))
  {
    var inferred :- ExtractParameters(c, parse, message, Some(AssistantRow(a)));
    Ok(Merge(a.appSettings, UserContext(userId), inferred, overrides))
  }

  /** The assistant as the inference step sees it: only its prompt
      configuration is read. */
  function AssistantRow(a: Assistant): (r: Json)
    ensures Member(r, "promptConfig") == Some(a.promptConfig)
  {
    JObj([("promptConfig", a.promptConfig)])
  }

  // ---------------------------------------------------------------------
  // Precedence

  /** The value a key takes when `parts` are spread left to right: that of
      the last part that has the key. */
  function LastDefining(parts: seq<Fields>, k: string): Option<Json>
    decreases |parts|
  {
    if |parts| == 0 then None
    else if HasKey(parts[|parts| - 1], k) then Lookup(parts[|parts| - 1], k)
    else LastDefining(parts[..|parts| - 1], k)
  }

  lemma {:induction false} SpreadAllLookup(parts: seq<Fields>, k: string)
    ensures Lookup(SpreadAll(parts), k) == LastDefining(parts, k)
    decreases |parts|
  {
    if |parts| > 0 {
      SpreadAllLookup(parts[..|parts| - 1], k);
      LookupAssign(SpreadAll(parts[..|parts| - 1]), parts[|parts| - 1], k);
    }
  }

  /** Every key of the resolved parameters comes from the highest-priority
      source that has it: overrides, then inferred parameters, then
      `defaultOptions`, then the fixed defaults. The user context never
      contributes. */
  lemma ResolvedPrecedence(appSettings: Json, userId: Option<string>, inferred: Json, overrides: Option<Json>, k: string)
    ensures var options := SpreadOf(Member(appSettings, "defaultOptions"));
      Lookup(Merge(appSettings, UserContext(userId), inferred, overrides), k) ==
        if HasKey(SpreadOf(overrides), k) then Lookup(SpreadOf(overrides), k)
        else if HasKey(Entries(inferred), k) then Lookup(Entries(inferred), k)
        else if HasKey(options, k) then Lookup(options, k)
        else Lookup(Defaults(appSettings), k)
  {
    var parts := [DefaultParams(appSettings), Entries(UserContext(userId)), Entries(inferred), SpreadOf(overrides)];
    SpreadAllLookup(parts, k);
    var p3, p2, p1 := parts[..3], parts[..3][..2], parts[..3][..2][..1];
    assert LastDefining(parts, k) == if HasKey(SpreadOf(overrides), k) then Lookup(SpreadOf(overrides), k) else LastDefining(p3, k);
    assert LastDefining(p3, k) == if HasKey(Entries(inferred), k) then Lookup(Entries(inferred), k) else LastDefining(p2, k);
    assert LastDefining(p2, k) == LastDefining(p1, k);
    assert LastDefining(p1[..0], k) == None;
    assert LastDefining(p1, k) == Lookup(DefaultParams(appSettings), k);
    LookupAssign(Defaults(appSettings), SpreadOf(Member(appSettings, "defaultOptions")), k);
  }

  /** The fixed defaults: count 6, industry 'general', complexity 'simple'
      and format 'cards', each used only when the assistant's own setting
      is falsy; no other key has a default. */
  lemma DefaultValues(appSettings: Json, k: string)
    ensures Lookup(Defaults(appSettings), "count") ==
      Some(if Present(Member(appSettings, "defaultCount")) then Member(appSettings, "defaultCount").value else Num(6))
    ensures Lookup(Defaults(appSettings), "industry") ==
      Some(if Present(Member(appSettings, "defaultIndustry")) then Member(appSettings, "defaultIndustry").value else JStr("general"))
    ensures Lookup(Defaults(appSettings), "complexity") ==
      Some(if Present(Member(appSettings, "defaultComplexity")) then Member(appSettings, "defaultComplexity").value else JStr("simple"))
    ensures Lookup(Defaults(appSettings), "format") ==
      Some(if Present(Member(appSettings, "defaultFormat")) then Member(appSettings, "defaultFormat").value else JStr("cards"))
    ensures k !in ["count", "industry", "complexity", "format"] ==> Lookup(Defaults(appSettings), k).None?
  {
    var d := Defaults(appSettings);
    assert d[..3][..2][..1][..0] == [];
    forall j | j in ["count", "industry", "complexity", "format"] || j == k
      ensures Lookup(d, j) == if j == "format" then Some(d[3].1) else if j == "complexity" then Some(d[2].1)
        else if j == "industry" then Some(d[1].1) else if j == "count" then Some(d[0].1) else None
    {
      assert Lookup(d, j) == if j == "format" then Some(d[3].1) else Lookup(d[..3], j);
      assert Lookup(d[..3], j) == if j == "complexity" then Some(d[2].1) else Lookup(d[..3][..2], j);
      assert Lookup(d[..3][..2], j) == if j == "industry" then Some(d[1].1) else Lookup(d[..3][..2][..1], j);
    }
  }

  // ---------------------------------------------------------------------
  // Keyword inference

  /** The keyword table, checked in this order. */
  const Industries: seq<(string, seq<string>)> := [
    ("tech", ["tech", "software", "app", "digital", "ai", "startup"]),
    ("food", ["food", "restaurant", "cooking", "recipe", "kitchen"]),
    ("health", ["health", "fitness", "medical", "wellness", "doctor"]),
    ("education", ["education", "learning", "school", "course", "training"])
  ]

  predicate Mentions(text: string, keywords: seq<string>) {
    exists j :: 0 <= j < |keywords| && Includes(text, keywords[j])
  }

  /** The first industry in `table` with a keyword in `text`. */
  function FirstIndustry(table: seq<(string, seq<string>)>, text: string): (r: Option<nat>)
    ensures r.Some? ==> r.value < |table| && Mentions(text, table[r.value].1)
    ensures r.Some? ==> forall i :: 0 <= i < r.value ==> !Mentions(text, table[i].1)
    ensures r.None? ==> forall i :: 0 <= i < |table| ==> !Mentions(text, table[i].1)
  {
    if |table| == 0 then None
    else if Mentions(text, table[0].1) then Some(0)
    else
      match FirstIndustry(table[1..], text)
      case None => None
      case Some(i) => Some(i + 1)
  }

  /** `basicParameterInference`: `{industry}` for the first industry with a
      keyword in the lower-cased message, `{}` when none has. */
  function BasicParameterInference(message: string): (r: Json)
    ensures r.JObj?
    ensures var hit := FirstIndustry(Industries, ToLower(message));
      && (hit.None? ==> r.fields == [])
      && (hit.Some? ==> r.fields == [("industry", JStr(Industries[hit.value].0))])
  {
    match FirstIndustry(Industries, ToLower(message))
    case None => JObj([])
    case Some(i) => JObj([("industry", JStr(Industries[i].0))])
  }

  /** A tech keyword settles the industry as tech, whatever other keywords
      the message holds. */
  lemma TechKeywordsWin(message: string, keyword: string)
    requires keyword in Industries[0].1
    requires Includes(ToLower(message), keyword)
    ensures BasicParameterInference(message) == JObj([("industry", JStr("tech"))])
  {
    var j :| 0 <= j < |Industries[0].1| && Industries[0].1[j] == keyword;
    assert Mentions(ToLower(message), Industries[0].1);
  }

  /** A message with no keyword at all infers nothing. */
  lemma NoKeywordNoIndustry(message: string)
    requires forall i, j :: 0 <= i < |Industries| && 0 <= j < |Industries[i].1| ==> !Includes(ToLower(message), Industries[i].1[j])
    ensures BasicParameterInference(message) == JObj([])
  {
  }
}
