/** The shape of `Thread.metadata` and the pure helpers of
    generate/generate.service.ts that read or extend it: titles, the
    trending score, index addressing of ideas, share ids and the card
    context of a card chat.

    `metadata` is free-form JSON. A fresh thread's metadata holds the
    generated content, an empty `refinementHistory` and empty `saved`,
    `shared` and `refined` lists under `userActions`; later operations
    append to those lists by copying the enclosing objects with one key
    replaced.
 */
module Metadata {
  import opened Wrappers
  import opened Strings
  import opened Json

  // ---------------------------------------------------------------------
  // Copy with one key replaced

  /** `{ ...base, [key]: v }`. */
  function WithEntry(base: Json, key: string, v: Json): (r: Json)
    ensures r.JObj?
    ensures forall k :: Lookup(r.fields, k) == if k == key then Some(v) else Lookup(Entries(base), k)
  {
    var e := Entries(base);
    var a := Assign([], e);
    assert forall k :: Lookup(Set(a, key, v), k) == if k == key then Some(v) else Lookup(e, k) by {
      forall k
        ensures Lookup(Set(a, key, v), k) == if k == key then Some(v) else Lookup(e, k)
      {
        LookupSet(a, key, v, k);
        LookupAssign([], e, k);
      }
    }
    JObj(Set(a, key, v))
  }

  /** `[...(v || [])]`: the items of a list that may be missing. Spreading
      a string yields its characters; spreading any other truthy value that
      is not an array throws. */
  function ListItems(v: Option<Json>): (r: Result<seq<Json>>)
    ensures r.Err? <==> Present(v) && !v.value.JArr? && !v.value.JStr?
    ensures r.Ok? ==> |r.value| == ListLength(v)
    ensures Present(v) && v.value.JArr? ==> r == Ok(v.value.items)
    ensures !Present(v) ==> r == Ok([])
  {
    var list := Or(v, JArr([]));
    match list
    case JArr(items) => Ok(items)
    case JStr(s) => Ok(CharItems(s))
    case _ => Err(Failure("object is not iterable"))
  }

  /** `v?.length || 0` for the lists the metadata keeps. */
  function ListLength(v: Option<Json>): nat {
    if v.None? then 0
    else match v.value
      case JArr(items) => |items|
      case JStr(s) => |s|
      case _ => 0
  }

  // ---------------------------------------------------------------------
  // A fresh thread

  const EmptyActions := JObj([("saved", JArr([])), ("shared", JArr([])), ("refined", JArr([]))])

  /** The metadata `generateContent` stores with a new thread. */
  function InitialMetadata(appType: string, userInput: string, resolvedParams: Fields, content: Json,
                           createdAt: string): (m: Json)
    ensures m.JObj?
    ensures Member(m, "generatedContent") == Some(content)
    ensures Member(m, "refinementHistory") == Some(JArr([]))
    ensures Member(m, "userActions") == Some(EmptyActions)
  {
    var m := JObj([
      ("appType", JStr(appType)),
      ("userInput", JStr(userInput)),
      ("resolvedParams", JObj(resolvedParams)),
      ("generatedContent", content),
      ("refinementHistory", JArr([])),
      ("userActions", EmptyActions),
      ("createdAt", JStr(createdAt))]);
    var f := m.fields;
    var f6 := f[..6];
    var f5 := f6[..5];
    var f4 := f5[..4];
    assert Lookup(f, "userActions") == Lookup(f6, "userActions") == Some(EmptyActions);
    assert Lookup(f, "refinementHistory") == Lookup(f6, "refinementHistory") == Lookup(f5, "refinementHistory") == Some(JArr([]));
    assert Lookup(f, "generatedContent") == Lookup(f6, "generatedContent") == Lookup(f5, "generatedContent")
      == Lookup(f4, "generatedContent") == Some(content);
    m
  }

  lemma EmptyActionLists()
    ensures Member(EmptyActions, "saved") == Some(JArr([]))
    ensures Member(EmptyActions, "shared") == Some(JArr([]))
    ensures Member(EmptyActions, "refined") == Some(JArr([]))
  {
    var f := EmptyActions.fields;
    var f2 := f[..2];
    var f1 := f2[..1];
    assert Lookup(f, "shared") == Lookup(f2, "shared") == Some(JArr([]));
    assert Lookup(f, "saved") == Lookup(f2, "saved") == Lookup(f1, "saved") == Some(JArr([]));
  }

  // ---------------------------------------------------------------------
  // Trending score

  /** `calculateTrendingScore`: three points per save, five per share, two
      per refinement; nothing for missing metadata. */
  function TrendingScore(metadata: Json): nat {
    if !Truthy(metadata) then 0
    else ActivityScore(Member(metadata, "userActions"), Member(metadata, "refinementHistory"))
  }

  /** The score of a thread's action lists and refinement history. */
  function ActivityScore(actions: Option<Json>, refinements: Option<Json>): nat {
    3 * ListLength(MemberOf(actions, "saved"))
      + 5 * ListLength(MemberOf(actions, "shared"))
      + 2 * ListLength(refinements)
  }

  /** A thread scores zero exactly when it has no metadata or nothing in
      its save, share and refinement lists; each save alone is worth three. */
  lemma ScoreZeroIff(metadata: Json)
    ensures TrendingScore(metadata) == 0 <==> (!Truthy(metadata)
      || (&& ListLength(MemberOf(Member(metadata, "userActions"), "saved")) == 0
          && ListLength(MemberOf(Member(metadata, "userActions"), "shared")) == 0
          && ListLength(Member(metadata, "refinementHistory")) == 0))
    ensures Truthy(metadata) ==>
      TrendingScore(metadata) >= 3 * ListLength(MemberOf(Member(metadata, "userActions"), "saved"))
  {
  }

  /** A new thread starts with score zero. */
  lemma FreshThreadScoresZero(appType: string, userInput: string, resolvedParams: Fields, content: Json, createdAt: string)
    ensures TrendingScore(InitialMetadata(appType, userInput, resolvedParams, content, createdAt)) == 0
  {
    EmptyActionLists();
  }

  /** `WithEntry` read back one key at a time. */
  lemma WithEntryMember(base: Json, key: string, v: Json, k: string)
    ensures Member(WithEntry(base, key, v), k) == if k == key then Some(v) else Lookup(Entries(base), k)
    ensures base.JObj? ==> Member(WithEntry(base, key, v), k) == if k == key then Some(v) else Member(base, k)
  {
  }

  /** Appending one refinement raises the score by two. */
  lemma ScoreAfterRefinement(meta: Json, history: seq<Json>, entry: Json)
    requires meta.JObj? && ListItems(Member(meta, "refinementHistory")) == Ok(history)
    ensures TrendingScore(WithEntry(meta, "refinementHistory", JArr(history + [entry]))) == TrendingScore(meta) + 2
  {
    var ua, rh := "userActions", "refinementHistory";
    assert |ua| != |rh|;
    var grown := JArr(history + [entry]);
    var meta' := WithEntry(meta, rh, grown);
    assert Member(meta', ua) == Member(meta, ua) by {
      WithEntryMember(meta, rh, grown, ua);
    }
    assert Member(meta', rh) == Some(grown) by {
      WithEntryMember(meta, rh, grown, rh);
    }
    ObjectScore(meta);
    ObjectScore(meta');
    assert ListLength(Member(meta, rh)) == |history|;
  }

  /** An object's score is the score of its action lists and history. */
  lemma ObjectScore(meta: Json)
    requires meta.JObj?
    ensures TrendingScore(meta) == ActivityScore(Member(meta, "userActions"), Member(meta, "refinementHistory"))
  {
  }

  /** Appending one save raises the score by three, one share by five. */
  lemma ScoreAfterAction(meta: Json, list: string, items: seq<Json>, entry: Json)
    requires meta.JObj? && (list == "saved" || list == "shared")
    requires ListItems(MemberOf(Member(meta, "userActions"), list)) == Ok(items)
    ensures var actions := Member(meta, "userActions");
      var actions' := WithEntry(actions.GetOr(JNull), list, JArr(items + [entry]));
      TrendingScore(WithEntry(meta, "userActions", actions')) == TrendingScore(meta) + (if list == "saved" then 3 else 5)
  {
    var ua, rh := "userActions", "refinementHistory";
    assert |ua| != |rh|;
    var actions := Member(meta, ua);
    var actions' := WithEntry(actions.GetOr(JNull), list, JArr(items + [entry]));
    var meta' := WithEntry(meta, ua, actions');
    assert Member(meta', ua) == Some(actions') by {
      WithEntryMember(meta, ua, actions', ua);
    }
    assert Member(meta', rh) == Member(meta, rh) by {
      WithEntryMember(meta, ua, actions', rh);
    }
    AppendedAction(actions, list, items, entry, Member(meta, rh));
    ObjectScore(meta);
    ObjectScore(meta');
  }

  /** The action lists after one entry is appended to `list`: that list
      is one longer and the other keeps its length. */
  lemma AppendedAction(actions: Option<Json>, list: string, items: seq<Json>, entry: Json, refinements: Option<Json>)
    requires list == "saved" || list == "shared"
    requires ListItems(MemberOf(actions, list)) == Ok(items)
    ensures var actions' := WithEntry(actions.GetOr(JNull), list, JArr(items + [entry]));
      ActivityScore(Some(actions'), refinements) == ActivityScore(actions, refinements) + (if list == "saved" then 3 else 5)
  {
    var base, grown := actions.GetOr(JNull), JArr(items + [entry]);
    var actions' := WithEntry(base, list, grown);
    var other := if list == "saved" then "shared" else "saved";
    assert |other| != |list| && !IsDigit(other[0]);
    assert MemberOf(Some(actions'), list) == Some(grown) by {
      WithEntryMember(base, list, grown, list);
    }
    assert MemberOf(Some(actions'), other) == MemberOf(actions, other) by {
      WithEntryMember(base, list, grown, other);
      LookupEntries(base, other);
    }
    assert ListLength(MemberOf(actions, list)) == |items|;
    ScoreOfCounts(actions, Some(actions'), refinements);
  }

  /** The score moves by three per save and five per share. */
  lemma ScoreOfCounts(actions: Option<Json>, actions': Option<Json>, refinements: Option<Json>)
    ensures ActivityScore(actions', refinements) - ActivityScore(actions, refinements)
      == 3 * (ListLength(MemberOf(actions', "saved")) - ListLength(MemberOf(actions, "saved")))
       + 5 * (ListLength(MemberOf(actions', "shared")) - ListLength(MemberOf(actions, "shared")))
  {
  }

  // ---------------------------------------------------------------------
  // Titles

  function TitlePrefix(appType: string): string {
    match appType
    case "idea-generator" => "Ideas for "
    case "blog-writer" => "Blog about "
    case _ => "Generated content for "
  }

  const MaxTitleLength := 100

  /** `generateTitle`: a prefix chosen by the app type, then the input,
      cut to 100 characters with `...` appended when longer. */
  function GenerateTitle(input: string, appType: string): (r: string)
    ensures StartsWith(r, TitlePrefix(appType))
    ensures |r| <= MaxTitleLength + 3
    ensures |TitlePrefix(appType)| + |input| <= MaxTitleLength ==> r[|TitlePrefix(appType)|..] == input
    ensures |TitlePrefix(appType)| + |input| > MaxTitleLength ==>
      && |r| == MaxTitleLength + 3
      && EndsWith(r, "...")
      && r[|TitlePrefix(appType)|..MaxTitleLength] == input[..MaxTitleLength - |TitlePrefix(appType)|]
  {
    var title := TitlePrefix(appType) + input;
    assert title[..|TitlePrefix(appType)|] == TitlePrefix(appType);
    if |title| > MaxTitleLength then
      var r := title[..MaxTitleLength] + "...";
      assert r[..|TitlePrefix(appType)|] == TitlePrefix(appType);
      assert r[|r| - 3..] == "...";
      r
    else title
  }

  // ---------------------------------------------------------------------
  // Ideas addressed by position

  /** `index.toString() === ideaId`. */
  predicate Addresses(ideaId: string, index: nat) {
    NatToString(index) == ideaId
  }

  /** `items.find((item, index) => index.toString() === ideaId)`, with
      indices counted from `from`. */
  function IdeaAt(items: seq<Json>, ideaId: string, from: nat): (r: Option<Json>)
    ensures r.Some? <==> exists n :: from <= n < from + |items| && Addresses(ideaId, n)
    ensures r.Some? ==> exists n :: from <= n < from + |items| && Addresses(ideaId, n) && r.value == items[n - from]
    decreases |items|
  {
    if |items| == 0 then None
    else if Addresses(ideaId, from) then Some(items[0])
    else
      var r := IdeaAt(items[1..], ideaId, from + 1);
      assert forall i :: 1 <= i < |items| ==> items[1..][i - 1] == items[i];
      r
  }

  /** The idea `saveIdea` and `shareIdea` act on: the element at the
      position `ideaId` spells, or the whole content when it is not an
      array, whatever `ideaId` says. */
  function FindIdea(content: Json, ideaId: string): (r: Option<Json>)
    ensures !content.JArr? ==> r == Some(content)
  {
    if content.JArr? then IdeaAt(content.items, ideaId, 0) else Some(content)
  }

  /** Position `n`, written in decimal, addresses element `n`. */
  lemma IdeaByIndex(items: seq<Json>, n: nat)
    requires n < |items|
    ensures FindIdea(JArr(items), NatToString(n)) == Some(items[n])
  {
    var r := FindIdea(JArr(items), NatToString(n));
    assert Addresses(NatToString(n), n);
    var i :| 0 <= i < |items| && Addresses(NatToString(n), i) && r.value == items[i];
    NatToStringInjective(i, n);
  }

  /** The only ids that address an array element are the canonical
      numerals below its length: "00", "01", "+1" or " 1" address nothing. */
  lemma IdeaIdsAreNumerals(items: seq<Json>, ideaId: string)
    ensures FindIdea(JArr(items), ideaId).Some? <==> exists n :: 0 <= n < |items| && Addresses(ideaId, n)
    ensures |ideaId| > 1 && ideaId[0] == '0' ==> FindIdea(JArr(items), ideaId).None?
  {
  }

  // ---------------------------------------------------------------------
  // Share ids

  /** `${threadId}-${ideaId}-${Date.now()}`: whatever the thread and idea
      ids contain, the share id ends in the moment it was made, which can
      be read back from it. */
  function ShareId(threadId: string, ideaId: string, nowMillis: nat): (r: string)
    ensures StartsWith(r, threadId + "-" + ideaId + "-")
    ensures AfterLastDash(r) == NatToString(nowMillis)
    ensures ParseNat(AfterLastDash(r)) == nowMillis
  {
    var digits := NatToString(nowMillis);
    assert forall i :: 0 <= i < |digits| ==> digits[i] != '-';
    AfterLastDashOf(threadId + "-" + ideaId, digits);
    ParseNatToString(nowMillis);
    var r := threadId + "-" + ideaId + "-" + digits;
    assert r[..|threadId + "-" + ideaId + "-"|] == threadId + "-" + ideaId + "-";
    r
  }

  function ShareLink(shareId: string): (r: string)
    ensures StartsWith(r, "/shared/") && r[8..] == shareId
  {
    var r := "/shared/" + shareId;
    assert r[..8] == "/shared/";
    r
  }

  /** The text after the last `-`, or all of it when there is none. */
  function AfterLastDash(s: string): (r: string)
    ensures '-' !in r
    decreases |s|
  {
    if |s| == 0 then ""
    else if s[|s| - 1] == '-' then ""
    else AfterLastDash(s[..|s| - 1]) + [s[|s| - 1]]
  }

  lemma {:induction false} AfterLastDashOf(a: string, d: string)
    requires '-' !in d
    ensures AfterLastDash(a + "-" + d) == d
    decreases |d|
  {
    var s := a + "-" + d;
    if |d| > 0 {
      assert s[..|s| - 1] == a + "-" + d[..|d| - 1];
      AfterLastDashOf(a, d[..|d| - 1]);
      assert d == d[..|d| - 1] + [d[|d| - 1]];
    }
  }

  // ---------------------------------------------------------------------
  // Card context

  /** `list?.filter(x => x[key] === target)` on a stored list: a missing or
      `null` list gives nothing to report, a `null` element or a value that
      is not an array throws. */
  function Matching(list: Option<Json>, key: string, target: Option<Json>): (r: Result<seq<Json>>)
    ensures r.Err? <==> list.Some? && !list.value.JNull? && (!list.value.JArr? || JNull in list.value.items)
    ensures r.Ok? ==> forall x :: x in r.value <==>
      list.Some? && list.value.JArr? && x in list.value.items && StrictEquals(Member(x, key), target)
  {
    if list.None? || list.value.JNull? then Ok([])
    else if list.value.JArr? then FilterItems(list.value.items, key, target)
    else Err(Failure("filter is not a function"))
  }

  function FilterItems(items: seq<Json>, key: string, target: Option<Json>): (r: Result<seq<Json>>)
    ensures r.Err? <==> JNull in items
    ensures r.Ok? ==> forall x :: x in r.value <==> x in items && StrictEquals(Member(x, key), target)
    ensures r.Ok? ==> |r.value| <= |items|
  {
    if |items| == 0 then Ok([])
    else if items[0].JNull? then Err(Failure("Cannot read properties of null (reading '" + key + "')"))
    else
      var rest :- FilterItems(items[1..], key, target);
      assert forall x :: x in items <==> x == items[0] || x in items[1..];
      Ok(if StrictEquals(Member(items[0], key), target) then [items[0]] + rest else rest)
  }

  /** How many items match, counted from the back. */
  function MatchCount(items: seq<Json>, key: string, target: Option<Json>): nat
    decreases |items|
  {
    if |items| == 0 then 0
    else
      var last := items[|items| - 1];
      MatchCount(items[..|items| - 1], key, target) + (if StrictEquals(Member(last, key), target) then 1 else 0)
  }

  /** How many entries of a stored list match; a missing list has none. */
  function ListCount(list: Option<Json>, key: string, target: Option<Json>): nat {
    if list.Some? && list.value.JArr? then MatchCount(list.value.items, key, target) else 0
  }

  /** The filter of a concatenation is the concatenation of the filters;
      with the one-element case this fixes the filter completely: the
      matching items, each once, in their order. */
  lemma {:induction false} FilterItemsConcat(a: seq<Json>, b: seq<Json>, key: string, target: Option<Json>)
    requires JNull !in a && JNull !in b
    ensures FilterItems(a + b, key, target).Ok?
    ensures FilterItems(a + b, key, target).value == FilterItems(a, key, target).value + FilterItems(b, key, target).value
    decreases |a|
  {
    if |a| == 0 {
      assert a + b == b;
    } else {
      assert (a + b)[0] == a[0] && (a + b)[1..] == a[1..] + b;
      FilterItemsConcat(a[1..], b, key, target);
    }
  }

  lemma FilterItemsOne(x: Json, key: string, target: Option<Json>)
    requires !x.JNull?
    ensures FilterItems([x], key, target) == Ok(if StrictEquals(Member(x, key), target) then [x] else [])
  {
    assert [x][0] == x && [x][1..] == [];
    assert FilterItems([x][1..], key, target) == Ok([]);
    assert [x] + [] == [x];
  }

  /** The filter keeps exactly as many items as match. */
  lemma {:induction false} FilterItemsCount(items: seq<Json>, key: string, target: Option<Json>)
    requires JNull !in items
    ensures |FilterItems(items, key, target).value| == MatchCount(items, key, target)
    decreases |items|
  {
    if |items| > 0 {
      var init, last := items[..|items| - 1], items[|items| - 1];
      assert items == init + [last];
      FilterItemsConcat(init, [last], key, target);
      FilterItemsOne(last, key, target);
      FilterItemsCount(init, key, target);
    }
  }

  /** `Matching` finds as many entries as the list holds matches. */
  lemma MatchingCount(list: Option<Json>, key: string, target: Option<Json>)
    requires Matching(list, key, target).Ok?
    ensures |Matching(list, key, target).value| == ListCount(list, key, target)
  {
    if list.Some? && list.value.JArr? {
      FilterItemsCount(list.value.items, key, target);
    }
  }

  /** The fixed first lines: title, description and score, each with its
      fallback text. */
  function CardHeader(card: Json): string {
    "Card Details:\n"
      + "Title: " + ToJsString(Or(Member(card, "title"), JStr("Untitled"))) + "\n"
      + "Description: " + ToJsString(Or(Member(card, "description"), Or(Member(card, "content"), JStr("No description")))) + "\n"
      + "Score: " + ToJsString(Or(Member(card, "score"), JStr("Not scored"))) + "\n"
  }

  function RefinementLine(position: nat, refinement: Json): string {
    NatToString(position) + ". " + Show(Member(refinement, "aspect")) + ": "
      + ToJsString(Or(MemberOf(Member(refinement, "refinedContent"), "content"), JStr("No content"))) + "\n"
  }

  /** One numbered line per refinement, counted from `position`. */
  function RefinementLines(refinements: seq<Json>, position: nat): string {
    Numbered(RefinementLine, refinements, position)
  }

  /** The refinement at index `i` is printed on the line numbered `i + 1`,
      between the lines of the refinements before and after it. */
  lemma RefinementLineAt(refinements: seq<Json>, i: nat)
    requires i < |refinements|
    ensures RefinementLines(refinements, 1)
         == RefinementLines(refinements[..i], 1) + RefinementLine(i + 1, refinements[i]) + RefinementLines(refinements[i + 1..], i + 2)
  {
    NumberedAt(RefinementLine, refinements, 1, i);
  }

  const RefinementHeading := "\nRefinement History:\n"

  function RefinementSection(refinements: seq<Json>): string {
    if |refinements| == 0 then "" else RefinementHeading + RefinementLines(refinements, 1)
  }

  lemma SectionOpensWithHeading(refinements: seq<Json>, rest: string)
    requires refinements != []
    ensures (RefinementSection(refinements) + rest)[..|RefinementHeading|] == RefinementHeading
  {
    var lines := RefinementLines(refinements, 1);
    ConcatAssoc(RefinementHeading, lines, rest);
    assert (RefinementHeading + (lines + rest))[..|RefinementHeading|] == RefinementHeading;
  }

  function ActionLine(verb: string, count: nat): string {
    if count == 0 then "" else "\nUser has " + verb + " this idea " + NatToString(count) + " time(s).\n"
  }

  /** No refinement, save or share of the card is on record. */
  predicate Untouched(card: Json, metadata: Json) {
    var id := Member(card, "id");
    var actions := Member(metadata, "userActions");
    && Matching(Member(metadata, "refinementHistory"), "cardId", id) == Ok([])
    && (Present(actions) ==>
          && Matching(Member(actions.value, "saved"), "ideaId", id) == Ok([])
          && Matching(Member(actions.value, "shared"), "ideaId", id) == Ok([]))
  }

  /** `buildCardContext`: the card's header, then its refinements, then how
      often the user saved and shared it, the latter two matched by
      comparing each entry's `ideaId` with the card's `id`. */
  function BuildCardContext(card: Json, metadata: Json): (r: Result<string>)
    requires card.JObj?
    ensures var id := Member(card, "id");
      var actions := Member(metadata, "userActions");
      r.Err? <==>
        || Matching(Member(metadata, "refinementHistory"), "cardId", id).Err?
        || (Present(actions) && Matching(Member(actions.value, "saved"), "ideaId", id).Err?)
        || (Present(actions) && Matching(Member(actions.value, "shared"), "ideaId", id).Err?)
    ensures r.Ok? ==> StartsWith(r.value, CardHeader(card))
    ensures r.Ok? && Matching(Member(metadata, "refinementHistory"), "cardId", Member(card, "id")).value != [] ==>
      StartsWith(r.value[|CardHeader(card)|..], RefinementHeading)
    ensures Untouched(card, metadata) ==> r == Ok(CardHeader(card))
    ensures r.Ok? ==>
      var id := Member(card, "id");
      var actions := Member(metadata, "userActions");
      r.value == CardHeader(card)
        + (RefinementSection(Matching(Member(metadata, "refinementHistory"), "cardId", id).value)
           + ActionLine("saved", if Present(actions) then ListCount(Member(actions.value, "saved"), "ideaId", id) else 0)
           + ActionLine("shared", if Present(actions) then ListCount(Member(actions.value, "shared"), "ideaId", id) else 0))
  {
    var id := Member(card, "id");
    var refinements :- Matching(Member(metadata, "refinementHistory"), "cardId", id);
    var actions := Member(metadata, "userActions");
    var saved :- if Present(actions) then Matching(Member(actions.value, "saved"), "ideaId", id) else Ok([]);
    var shared :- if Present(actions) then Matching(Member(actions.value, "shared"), "ideaId", id) else Ok([]);
    assert Present(actions) ==>
      && |saved| == ListCount(Member(actions.value, "saved"), "ideaId", id)
      && |shared| == ListCount(Member(actions.value, "shared"), "ideaId", id) by {
      if Present(actions) {
        MatchingCount(Member(actions.value, "saved"), "ideaId", id);
        MatchingCount(Member(actions.value, "shared"), "ideaId", id);
      }
    }
    var header := CardHeader(card);
    var tail := RefinementSection(refinements) + ActionLine("saved", |saved|) + ActionLine("shared", |shared|);
    assert (header + tail)[..|header|] == header;
    assert (header + tail)[|header|..] == tail;
    assert refinements != [] ==> tail[..|RefinementHeading|] == RefinementHeading by {
      if refinements != [] {
        SectionOpensWithHeading(refinements, ActionLine("saved", |saved|) + ActionLine("shared", |shared|));
        ConcatAssoc(RefinementSection(refinements), ActionLine("saved", |saved|), ActionLine("shared", |shared|));
      }
    }
    assert refinements == [] && saved == [] && shared == [] ==> header + tail == header;
    Ok(header + tail)
  }

  /** A card of a freshly generated thread is described by its header
      alone. */
  lemma FreshCardContext(card: Json, appType: string, userInput: string, resolvedParams: Fields, content: Json, createdAt: string)
    requires card.JObj?
    ensures BuildCardContext(card, InitialMetadata(appType, userInput, resolvedParams, content, createdAt)) == Ok(CardHeader(card))
  {
    EmptyActionLists();
  }
}
