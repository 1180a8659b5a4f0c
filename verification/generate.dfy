/** The generation service (generate/generate.service.ts): creating a
    thread from a generation, and the refine, save, share and card-chat
    operations that grow its metadata and message log.

    Every operation takes the store and returns the outcome with the store
    after it. A failed operation leaves the store as it was: each one
    checks, reads and computes first and writes last. The model calls go
    through the Gemini channel, with the service's fixed texts passed in as
    `prose`.
 */
module Generate {
  import opened Wrappers
  import opened Strings
  import opened Json
  import opened Prompts
  import opened Responses
  import opened Providers
  import opened Cards
  import opened Store
  import opened Params
  import opened Metadata
  import opened Messages

  const ThreadNotFound := NotFound("Thread not found")
  const IdeaNotFound := NotFound("Idea not found")

  function CardNotFound(cardId: string): Error {
    NotFound("Card with ID " + cardId + " not found")
  }

  /** Reading `promptConfig` of a thread whose assistant row is gone. */
  const NullAssistant := Failure("Cannot read properties of null (reading 'promptConfig')")

  // ---------------------------------------------------------------------
  // generateContent

  /** `generateByAppType` on the Gemini channel with the assistant's
      configuration. */
  function Generation(client: GeminiClient, prose: Prose, parse: string -> Option<Json>, a: Assistant, message: string,
                      params: Fields): Result<Json> {
    GenerateByAppType(prose, GeminiChannel(client), parse, message, Some(a.promptConfig), Some(a.outputFormat),
                      Some(a.appSettings), params)
  }

  /** What the model produces for a generation: parameters resolved
      first, then the content; a failure of either is the failure. */
  function ModelContent(client: GeminiClient, prose: Prose, parse: string -> Option<Json>, a: Assistant, message: string,
                        overrides: Option<Json>, userId: string): (r: Result<Json>)
    ensures var params := ResolveGenerationParams(client, parse, a, message, overrides, Some(userId));
      && (params.Err? ==> r == Err(params.error))
      && (params.Ok? ==> r == Generation(client, prose, parse, a, message, params.value))
  {
    var params :- ResolveGenerationParams(client, parse, a, message, overrides, Some(userId));
    Generation(client, prose, parse, a, message, params)
  }

  datatype Generated = Generated(threadId: string, appType: string, results: seq<Json>, refinementOptions: Json)

  /** The store after `generateContent` created thread `threadId` for
      `userId` with assistant `a`: one new thread, titled from the
      message, holding some generated content and empty histories, and
      nothing else changed; `r` reports that content as a list. */
  ghost predicate CreatedThread(w: World, w': World, threadId: string, userId: string, a: Assistant, message: string, r: Generated) {
    && w'.assistants == w.assistants
    && w'.messages == w.messages
    && w'.threads.Keys == w.threads.Keys + {threadId}
    && (forall k :: k in w.threads && k != threadId ==> w'.threads[k] == w.threads[k])
    && var t := w'.threads[threadId];
    && t.id == threadId && t.userId == userId && t.assistantId == a.id
    && t.title == GenerateTitle(message, a.appType)
    && Member(t.metadata, "generatedContent").Some?
    && Member(t.metadata, "refinementHistory") == Some(JArr([]))
    && Member(t.metadata, "userActions") == Some(EmptyActions)
    && TrendingScore(t.metadata) == 0
    && r == Generated(threadId, a.appType, AsList(Member(t.metadata, "generatedContent").value),
                      Or(Member(a.appSettings, "refinementOptions"), JArr([])))
  }

  /** Storing the new thread. */
  function CreateThread(w: World, threadId: string, userId: string, a: Assistant, message: string, params: Fields,
                        content: Json, now: string): (r: (World, Generated))
    ensures CreatedThread(w, r.0, threadId, userId, a, message, r.1)
    ensures Member(r.0.threads[threadId].metadata, "generatedContent") == Some(content)
  {
    var metadata := InitialMetadata(a.appType, message, params, content, now);
    FreshThreadScoresZero(a.appType, message, params, content, now);
    var t := Thread(threadId, userId, a.id, GenerateTitle(message, a.appType), None, metadata);
    (w.(threads := w.threads[threadId := t]),
     Generated(threadId, a.appType, AsList(content), Or(Member(a.appSettings, "refinementOptions"), JArr([]))))
  }

  /** With fresh uuids every stamped card of an array is found again by
      the id it received. */
  lemma StampedCardsFindable(cards: seq<Json>, uuid: nat -> string, base: nat)
    requires FreshIds(uuid)
    requires forall i :: 0 <= i < |cards| ==> HasId(cards[i], uuid(base + i))
    ensures forall i :: 0 <= i < |cards| ==> FindCardById(JArr(cards), uuid(base + i)) == Ok(Some(cards[i]))
  {
    forall i | 0 <= i < |cards|
      ensures FindCardById(JArr(cards), uuid(base + i)) == Ok(Some(cards[i]))
    {
      FindAfterStamping(cards, uuid, base, i);
    }
  }

  /** The second half of `generateContent`: stamp the generated content
      and store it in a new thread. Stamping throws only on a `null` card
      in an array, and then nothing is stored. */
  method StoreGeneration(w: World, o: Oracles, cur: Cursor, threadId: string, userId: string, a: Assistant,
                         message: string, params: Fields, raw: Json, now: string)
    returns (u: Update<Generated>, next: Cursor)
    requires ParseShrinksStrings(o.parse)
    requires threadId !in w.threads
    ensures u.result.Err? <==> raw.JArr? && JNull in raw.items
    ensures u.result.Err? ==> u.world == w
    ensures u.result.Ok? ==> CreatedThread(w, u.world, threadId, userId, a, message, u.result.value)
    ensures u.result.Ok? ==> threadId in u.world.threads && Member(u.world.threads[threadId].metadata, "generatedContent").Some?
    ensures u.result.Ok? && FreshIds(o.uuid) ==>
      var content := Member(u.world.threads[threadId].metadata, "generatedContent").value;
      content.JArr? ==>
        forall i :: 0 <= i < |content.items| ==> FindCardById(content, o.uuid(cur.ids + i)) == Ok(Some(content.items[i]))
  {
    var content;
    content, next := AssignCardIds(raw, o, cur);
    if content.Err? {
      return Update(Err(content.error), w), next;
    }
    var created := CreateThread(w, threadId, userId, a, message, params, content.value, now);
    u := Update(Ok(created.1), created.0);
    if FreshIds(o.uuid) && content.value.JArr? {
      StampedCardsFindable(content.value.items, o.uuid, cur.ids);
    }
  }

  /** `generateContent`: the active assistant, the resolved parameters,
      the model's content, then the new thread. Its id `threadId` is
      generated by the database. Nothing is stored when any step fails. */
  method GenerateContent(w: World, client: GeminiClient, prose: Prose, o: Oracles, cur: Cursor, userId: string,
                         appId: string, message: string, overrides: Option<Json>, threadId: string, now: string)
    returns (u: Update<Generated>, next: Cursor)
    requires ParseShrinksStrings(o.parse)
    requires threadId !in w.threads
    ensures FindAssistant(w, appId).None? ==> u == Update(Err(NotFound("No assistant found for: " + appId)), w)
    ensures u.result.Err? ==> u.world == w
    ensures FindAssistant(w, appId).Some? ==>
      var raw := ModelContent(client, prose, o.parse, FindAssistant(w, appId).value, message, overrides, userId);
      u.result.Err? <==> raw.Err? || (raw.value.JArr? && JNull in raw.value.items)
    ensures u.result.Ok? ==>
      appId in w.assistants && CreatedThread(w, u.world, threadId, userId, w.assistants[appId], message, u.result.value)
    ensures u.result.Ok? ==> threadId in u.world.threads && Member(u.world.threads[threadId].metadata, "generatedContent").Some?
    ensures u.result.Ok? && FreshIds(o.uuid) ==>
      var content := Member(u.world.threads[threadId].metadata, "generatedContent").value;
      content.JArr? ==>
        forall i :: 0 <= i < |content.items| ==> FindCardById(content, o.uuid(cur.ids + i)) == Ok(Some(content.items[i]))
  {
    next := cur;
    var found := FindAssistant(w, appId);
    if found.None? {
      return Update(Err(NotFound("No assistant found for: " + appId)), w), next;
    }
    var a := found.value;
    var params := ResolveGenerationParams(client, o.parse, a, message, overrides, Some(userId));
    var raw := ModelContent(client, prose, o.parse, a, message, overrides, userId);
    if raw.Err? {
      return Update(Err(raw.error), w), next;
    }
    u, next := StoreGeneration(w, o, cur, threadId, userId, a, message, params.value, raw.value, now);
  }

  // ---------------------------------------------------------------------
  // Histories in the metadata

  /** What a successful write did to the thread: only its metadata
      changed, and in the metadata only `key`, which now holds `v`. */
  ghost predicate ReplacedEntry(w: World, w': World, threadId: string, key: string, v: Json) {
    && threadId in w.threads
    && threadId in w'.threads
    && var meta := w.threads[threadId].metadata;
    && var meta' := w'.threads[threadId].metadata;
    && w' == UpdateMetadata(w, threadId, meta')
    && meta.JObj? && meta'.JObj?
    && Member(meta', key) == Some(v)
    && (forall k :: k != key ==> Member(meta', k) == Member(meta, k))
  }

  /** Writing `{ ...metadata, [key]: v }` back replaces that one entry. */
  lemma WriteEntry(w: World, threadId: string, key: string, v: Json)
    requires threadId in w.threads && w.threads[threadId].metadata.JObj?
    ensures ReplacedEntry(w, UpdateMetadata(w, threadId, WithEntry(w.threads[threadId].metadata, key, v)), threadId, key, v)
  {
    var meta := w.threads[threadId].metadata;
    var meta' := WithEntry(meta, key, v);
    forall k | k != key
      ensures Member(meta', k) == Member(meta, k)
    {
      WithEntryMember(meta, key, v, k);
    }
    WithEntryMember(meta, key, v, key);
  }

  /** `{ ...metadata, refinementHistory: [...(history || []), entry] }`
      written back to the thread. */
  function RecordRefinement(w: World, threadId: string, entry: Json): (r: Result<World>)
    requires threadId in w.threads && w.threads[threadId].metadata.JObj?
    ensures var meta := w.threads[threadId].metadata;
      var history := ListItems(Member(meta, "refinementHistory"));
      && (r.Err? <==> history.Err?)
      && (r.Ok? ==> ReplacedEntry(w, r.value, threadId, "refinementHistory", JArr(history.value + [entry])))
      && (r.Ok? ==> TrendingScore(r.value.threads[threadId].metadata) == TrendingScore(meta) + 2)
  {
    var meta := w.threads[threadId].metadata;
    var history :- ListItems(Member(meta, "refinementHistory"));
    var meta' := WithEntry(meta, "refinementHistory", JArr(history + [entry]));
    ScoreAfterRefinement(meta, history, entry);
    WriteEntry(w, threadId, "refinementHistory", JArr(history + [entry]));
    Ok(UpdateMetadata(w, threadId, meta'))
  }

  /** `{ ...metadata, userActions: { ...userActions, [list]:
      [...(userActions?.[list] || []), entry] } }` written back to the
      thread, for the `saved` and `shared` lists. */
  function RecordAction(w: World, threadId: string, list: string, entry: Json): (r: Result<World>)
    requires threadId in w.threads && w.threads[threadId].metadata.JObj?
    requires list == "saved" || list == "shared"
    ensures var meta := w.threads[threadId].metadata;
      var actions := Member(meta, "userActions");
      var items := ListItems(MemberOf(actions, list));
      && (r.Err? <==> items.Err?)
      && (r.Ok? ==> threadId in r.value.threads)
      && (r.Ok? ==>
            var actions' := Member(r.value.threads[threadId].metadata, "userActions");
            && actions'.Some? && actions'.value.JObj?
            && ReplacedEntry(w, r.value, threadId, "userActions", actions'.value)
            && MemberOf(actions', list) == Some(JArr(items.value + [entry]))
            && (forall k :: |k| > 0 && !IsDigit(k[0]) && k != list ==> MemberOf(actions', k) == MemberOf(actions, k))
            && TrendingScore(r.value.threads[threadId].metadata) == TrendingScore(meta) + (if list == "saved" then 3 else 5))
  {
    var meta := w.threads[threadId].metadata;
    var actions := Member(meta, "userActions");
    var items :- ListItems(MemberOf(actions, list));
    var actions' := WithEntry(actions.GetOr(JNull), list, JArr(items + [entry]));
    var meta' := WithEntry(meta, "userActions", actions');
    assert forall k :: |k| > 0 && !IsDigit(k[0]) ==> Lookup(Entries(actions.GetOr(JNull)), k) == MemberOf(actions, k) by {
      forall k | |k| > 0 && !IsDigit(k[0])
        ensures Lookup(Entries(actions.GetOr(JNull)), k) == MemberOf(actions, k)
      {
        LookupEntries(actions.GetOr(JNull), k);
      }
    }
    assert !IsDigit("saved"[0]) && !IsDigit("shared"[0]);
    ScoreAfterAction(meta, list, items, entry);
    WriteEntry(w, threadId, "userActions", actions');
    Ok(UpdateMetadata(w, threadId, meta'))
  }

  /** The content a thread stores, when truthy. */
  function StoredContent(t: Thread): (r: Option<Json>)
    ensures r.Some? ==> t.metadata.JObj? && Truthy(r.value)
  {
    var c := Member(t.metadata, "generatedContent");
    if Present(c) then c else None
  }

  // ---------------------------------------------------------------------
  // refineContent

  datatype Refinement = Refinement(threadId: string, aspect: string, refinedContent: Json, originalContent: Json)

  /** One `refinementHistory` entry. */
  function RefinementEntry(cardId: string, aspect: string, refined: Json, timestamp: string): Json {
    JObj([("cardId", JStr(cardId)), ("aspect", JStr(aspect)), ("refinedContent", refined), ("timestamp", JStr(timestamp))])
  }

  /** `refineContent`: thread, then content, then card; then the model;
      then one entry appended to `refinementHistory`. */
  function RefineCard(w: World, client: GeminiClient, prose: Prose, parse: string -> Option<Json>, userId: string,
                      threadId: string, cardId: string, aspect: string, now: string): (u: Update<Refinement>)
    ensures u.result.Err? ==> u.world == w
    ensures OwnedThread(w, threadId, userId).None? ==> u.result == Err(ThreadNotFound)
    ensures OwnedThread(w, threadId, userId).Some? && StoredContent(w.threads[threadId]).None? ==>
      u.result == Err(BadRequest("No content to refine"))
    ensures OwnedThread(w, threadId, userId).Some? && StoredContent(w.threads[threadId]).Some? ==>
      var found := FindCardById(StoredContent(w.threads[threadId]).value, cardId);
      && (found.Err? ==> u.result == Err(found.error))
      && (found == Ok(None) ==> u.result == Err(CardNotFound(cardId)))
      && (u.result.Ok? ==> found.Ok? && found.value.Some? && u.result.value.originalContent == found.value.value)
    ensures u.result.Ok? ==>
      && u.result.value.threadId == threadId && u.result.value.aspect == aspect
      && StoredContent(w.threads[threadId]).Some?
      && RecordRefinement(w, threadId, RefinementEntry(cardId, aspect, u.result.value.refinedContent, now)) == Ok(u.world)
  {
    match OwnedThread(w, threadId, userId)
    case None => Update(Err(ThreadNotFound), w)
    case Some(t) =>
      match StoredContent(t)
      case None => Update(Err(BadRequest("No content to refine")), w)
      case Some(content) =>
        match FindCardById(content, cardId)
        case Err(e) => Update(Err(e), w)
        case Ok(None) => Update(Err(CardNotFound(cardId)), w)
        case Ok(Some(card)) =>
          match AssistantOf(w, t)
          case None => Update(Err(NullAssistant), w)
          case Some(a) =>
            match Providers.RefineContent(prose, GeminiChannel(client), parse, card, aspect, Some(a.promptConfig))
            case Err(e) => Update(Err(e), w)
            case Ok(refined) =>
              match RecordRefinement(w, threadId, RefinementEntry(cardId, aspect, refined, now))
              case Err(e) => Update(Err(e), w)
              case Ok(w') => Update(Ok(Refinement(threadId, aspect, refined, card)), w')
  }

  // ---------------------------------------------------------------------
  // saveIdea and shareIdea

  datatype SavedIdea = SavedIdea(message: string, id: string, title: Option<Json>, content: Json)

  /** One `saved` entry. A `customTitle` that was not given is dropped when
      the metadata is stored as JSON. */
  function SaveEntry(ideaId: string, customTitle: Option<string>, savedAt: string, idea: Json): Json {
    JObj([("ideaId", JStr(ideaId))]
      + (if customTitle.Some? then [("customTitle", JStr(customTitle.value))] else [])
      + [("savedAt", JStr(savedAt)), ("content", idea)])
  }

  /** On array content a save is recorded under the card's position, a
      decimal numeral, while the card-chat context counts the saves whose
      `ideaId` strictly equals the card's `id`. A card whose id is a uuid
      (which holds a dash) therefore never counts a save made through its
      position. */
  lemma PositionSaveMissesCardId(t: Thread, ideaId: string, customTitle: Option<string>, now: string, cardId: string)
    requires StoredContent(t).Some? && StoredContent(t).value.JArr? && TargetIdea(t, ideaId).Some?
    requires '-' in cardId
    ensures var entry := SaveEntry(ideaId, customTitle, now, TargetIdea(t, ideaId).value);
      && Member(entry, "ideaId") == Some(JStr(ideaId))
      && ListCount(Some(JArr([entry])), "ideaId", Some(JStr(cardId))) == 0
  {
    var items := StoredContent(t).value.items;
    IdeaIdsAreNumerals(items, ideaId);
    var n :| 0 <= n < |items| && Addresses(ideaId, n);
    assert forall i :: 0 <= i < |ideaId| ==> IsDigit(ideaId[i]);
    SaveEntryId(ideaId, customTitle, now, TargetIdea(t, ideaId).value, cardId);
  }

  /** A save entry reads back the `ideaId` it was recorded under, and
      counts towards no other id. */
  lemma SaveEntryId(ideaId: string, customTitle: Option<string>, now: string, idea: Json, cardId: string)
    requires ideaId != cardId
    ensures var entry := SaveEntry(ideaId, customTitle, now, idea);
      && Member(entry, "ideaId") == Some(JStr(ideaId))
      && ListCount(Some(JArr([entry])), "ideaId", Some(JStr(cardId))) == 0
  {
    var entry := SaveEntry(ideaId, customTitle, now, idea);
    var f := entry.fields;
    var id, ct, sa, c := "ideaId", "customTitle", "savedAt", "content";
    assert id[0] != ct[0] && id[0] != sa[0] && id[0] != c[0];
    assert forall j :: 1 <= j < |f| ==> f[j].0 != id;
    assert f[0] == (id, JStr(ideaId));
    LookupFirstOnly(f, id);
    assert !StrictEquals(Member(entry, id), Some(JStr(cardId)));
    assert [entry][..0] == [] && [entry][0] == entry;
    assert MatchCount([entry], id, Some(JStr(cardId))) == MatchCount([], id, Some(JStr(cardId)));
  }

  /** A key held only by the first field reads that field. */
  lemma {:induction false} LookupFirstOnly(f: Fields, k: string)
    requires |f| > 0 && f[0].0 == k
    requires forall j :: 1 <= j < |f| ==> f[j].0 != k
    ensures Lookup(f, k) == Some(f[0].1)
    decreases |f|
  {
    if |f| > 1 {
      LookupFirstOnly(f[..|f| - 1], k);
    }
  }

  /** The idea an operation on `ideaId` acts on, when truthy. */
  function TargetIdea(t: Thread, ideaId: string): Option<Json>
    requires StoredContent(t).Some?
  {
    var idea := FindIdea(StoredContent(t).value, ideaId);
    if Present(idea) then idea else None
  }

  /** `saveIdea`: thread, then content, then idea; then one entry appended
      to `userActions.saved`. The reported title is the custom title when
      non-empty, else the idea's own. */
  function SaveIdea(w: World, userId: string, threadId: string, ideaId: string, customTitle: Option<string>,
                    now: string): (u: Update<SavedIdea>)
    ensures u.result.Err? ==> u.world == w
    ensures OwnedThread(w, threadId, userId).None? ==> u.result == Err(ThreadNotFound)
    ensures OwnedThread(w, threadId, userId).Some? && StoredContent(w.threads[threadId]).None? ==>
      u.result == Err(BadRequest("No content to save"))
    ensures OwnedThread(w, threadId, userId).Some? && StoredContent(w.threads[threadId]).Some? ==>
      (TargetIdea(w.threads[threadId], ideaId).None? ==> u.result == Err(IdeaNotFound))
    ensures u.result.Ok? ==>
      && StoredContent(w.threads[threadId]).Some?
      && var idea := TargetIdea(w.threads[threadId], ideaId);
      && idea.Some?
      && u.result.value == SavedIdea("Idea saved successfully", ideaId,
           if customTitle.Some? && customTitle.value != "" then Some(JStr(customTitle.value))
           else Member(idea.value, "title"),
           idea.value)
      && RecordAction(w, threadId, "saved", SaveEntry(ideaId, customTitle, now, idea.value)) == Ok(u.world)
  {
    match OwnedThread(w, threadId, userId)
    case None => Update(Err(ThreadNotFound), w)
    case Some(t) =>
      match StoredContent(t)
      case None => Update(Err(BadRequest("No content to save")), w)
      case Some(_) =>
        match TargetIdea(t, ideaId)
        case None => Update(Err(IdeaNotFound), w)
        case Some(idea) =>
          match RecordAction(w, threadId, "saved", SaveEntry(ideaId, customTitle, now, idea))
          case Err(e) => Update(Err(e), w)
          case Ok(w') =>
            var title := if customTitle.Some? && customTitle.value != "" then Some(JStr(customTitle.value))
                         else Member(idea, "title");
            Update(Ok(SavedIdea("Idea saved successfully", ideaId, title, idea)), w')
  }

  datatype SharedIdea = SharedIdea(message: string, shareLink: string, shareId: string, sharedIdea: Json)

  /** One `shared` entry; `settings` is dropped when not given. */
  function ShareEntry(ideaId: string, shareId: string, sharedAt: string, settings: Option<Json>, idea: Json): Json {
    JObj([("ideaId", JStr(ideaId)), ("shareId", JStr(shareId)), ("shareLink", JStr(ShareLink(shareId))),
          ("sharedAt", JStr(sharedAt))]
      + (if settings.Some? then [("settings", settings.value)] else [])
      + [("content", idea)])
  }

  /** `shareIdea`: thread, then content, then idea; then one entry appended
      to `userActions.shared`. `nowMillis` is `Date.now()`. */
  function ShareIdea(w: World, userId: string, threadId: string, ideaId: string, shareSettings: Option<Json>,
                     nowMillis: nat, now: string): (u: Update<SharedIdea>)
    ensures u.result.Err? ==> u.world == w
    ensures OwnedThread(w, threadId, userId).None? ==> u.result == Err(ThreadNotFound)
    ensures OwnedThread(w, threadId, userId).Some? && StoredContent(w.threads[threadId]).None? ==>
      u.result == Err(BadRequest("No content to share"))
    ensures OwnedThread(w, threadId, userId).Some? && StoredContent(w.threads[threadId]).Some? ==>
      (TargetIdea(w.threads[threadId], ideaId).None? ==> u.result == Err(IdeaNotFound))
    ensures u.result.Ok? ==>
      && StoredContent(w.threads[threadId]).Some?
      && var idea := TargetIdea(w.threads[threadId], ideaId);
      && idea.Some?
      && var shareId := ShareId(threadId, ideaId, nowMillis);
      && u.result.value == SharedIdea("Idea shared successfully", ShareLink(shareId), shareId, idea.value)
      && RecordAction(w, threadId, "shared", ShareEntry(ideaId, shareId, now, shareSettings, idea.value)) == Ok(u.world)
  {
    match OwnedThread(w, threadId, userId)
    case None => Update(Err(ThreadNotFound), w)
    case Some(t) =>
      match StoredContent(t)
      case None => Update(Err(BadRequest("No content to share")), w)
      case Some(_) =>
        match TargetIdea(t, ideaId)
        case None => Update(Err(IdeaNotFound), w)
        case Some(idea) =>
          var shareId := ShareId(threadId, ideaId, nowMillis);
          match RecordAction(w, threadId, "shared", ShareEntry(ideaId, shareId, now, shareSettings, idea))
          case Err(e) => Update(Err(e), w)
          case Ok(w') => Update(Ok(SharedIdea("Idea shared successfully", ShareLink(shareId), shareId, idea)), w')
  }

  // ---------------------------------------------------------------------
  // chatWithAi

  datatype ChatReply = ChatReply(threadId: string, cardId: string, userMessage: string, aiResponse: string)

  /** The card's earlier conversation, oldest first. */
  function CardConversation(w: World, threadId: string, cardId: string): seq<Message> {
    MessagesWhere(w.messages, threadId, Some(cardId))
  }

  /** `chatWithAi`: thread, then content, then card; the card's context
      and its earlier conversation go to the model, and only once it has
      answered are the user's message and the answer stored, in that
      order. `userMessageId` and `aiMessageId` are the new rows' ids. */
  function ChatWithAi(w: World, client: GeminiClient, prose: Prose, userId: string, threadId: string, cardId: string,
                      message: string, userMessageId: string, aiMessageId: string): (u: Update<ChatReply>)
    ensures u.result.Err? ==> u.world == w
    ensures OwnedThread(w, threadId, userId).None? ==> u.result == Err(ThreadNotFound)
    ensures OwnedThread(w, threadId, userId).Some? && StoredContent(w.threads[threadId]).None? ==>
      u.result == Err(BadRequest("No content found in thread"))
    ensures OwnedThread(w, threadId, userId).Some? && StoredContent(w.threads[threadId]).Some? ==>
      var found := FindCardById(StoredContent(w.threads[threadId]).value, cardId);
      && (found.Err? ==> u.result == Err(found.error))
      && (found == Ok(None) ==> u.result == Err(CardNotFound(cardId)))
      && (u.result.Ok? ==>
            && found.Ok? && found.value.Some? && found.value.value.JObj?
            && var context := BuildCardContext(found.value.value, w.threads[threadId].metadata);
            var history := ChatHistory(CardConversation(w, threadId, cardId));
            && context.Ok?
            && ChatWithCardContext(prose, GeminiChannel(client), context.value, message, history) == Ok(u.result.value.aiResponse))
    ensures u.result.Ok? ==>
      && u.result.value == ChatReply(threadId, cardId, message, u.result.value.aiResponse)
      && u.world == w.(messages := w.messages + [
           Message(userMessageId, threadId, Some(cardId), UserSender, message),
           Message(aiMessageId, threadId, Some(cardId), AssistantSender, u.result.value.aiResponse)])
  {
    match OwnedThread(w, threadId, userId)
    case None => Update(Err(ThreadNotFound), w)
    case Some(t) =>
      match StoredContent(t)
      case None => Update(Err(BadRequest("No content found in thread")), w)
      case Some(content) =>
        match FindCardById(content, cardId)
        case Err(e) => Update(Err(e), w)
        case Ok(None) => Update(Err(CardNotFound(cardId)), w)
        case Ok(Some(card)) =>
          assert card.JObj?;
          var history := ChatHistory(CardConversation(w, threadId, cardId));
          match BuildCardContext(card, t.metadata)
          case Err(e) => Update(Err(e), w)
          case Ok(context) =>
            match ChatWithCardContext(prose, GeminiChannel(client), context, message, history)
            case Err(e) => Update(Err(e), w)
            case Ok(reply) =>
              var asked := Message(userMessageId, threadId, Some(cardId), UserSender, message);
              var answered := Message(aiMessageId, threadId, Some(cardId), AssistantSender, reply);
              Update(Ok(ChatReply(threadId, cardId, message, reply)), w.(messages := w.messages + [asked, answered]))
  }

  /** Storing a question and its answer about a card extends that card's
      history by exactly those two turns, the user's first. */
  lemma ExchangeExtendsHistory(ms: seq<Message>, threadId: string, cardId: string, asked: Message, answered: Message)
    requires asked.threadId == threadId && asked.cardId == Some(cardId) && asked.sender == UserSender
    requires answered.threadId == threadId && answered.cardId == Some(cardId) && answered.sender == AssistantSender
    ensures ChatHistory(MessagesWhere(ms + [asked, answered], threadId, Some(cardId))) ==
      ChatHistory(MessagesWhere(ms, threadId, Some(cardId)))
        + [ChatMessage(User, asked.content), ChatMessage(Role.Assistant, answered.content)]
  {
    var before := MessagesWhere(ms, threadId, Some(cardId));
    var mid := MessagesWhere(ms + [asked], threadId, Some(cardId));
    assert mid == before + [asked] by {
      MessagesWhereAppend(ms, asked, threadId, Some(cardId));
    }
    assert MessagesWhere(ms + [asked, answered], threadId, Some(cardId)) == mid + [answered] by {
      assert ms + [asked, answered] == (ms + [asked]) + [answered];
      MessagesWhereAppend(ms + [asked], answered, threadId, Some(cardId));
    }
    ChatHistoryAppend(before, asked);
    ChatHistoryAppend(mid, answered);
  }

  /** The next chat about the same card sees this exchange at the end of
      its history: the question as the user's turn, then the answer as the
      assistant's. */
  lemma ChatExtendsCardHistory(w: World, client: GeminiClient, prose: Prose, userId: string, threadId: string, cardId: string,
                               message: string, userMessageId: string, aiMessageId: string)
    requires ChatWithAi(w, client, prose, userId, threadId, cardId, message, userMessageId, aiMessageId).result.Ok?
    ensures var u := ChatWithAi(w, client, prose, userId, threadId, cardId, message, userMessageId, aiMessageId);
      ChatHistory(CardConversation(u.world, threadId, cardId)) ==
        ChatHistory(CardConversation(w, threadId, cardId))
          + [ChatMessage(User, message), ChatMessage(Role.Assistant, u.result.value.aiResponse)]
  {
    var u := ChatWithAi(w, client, prose, userId, threadId, cardId, message, userMessageId, aiMessageId);
    ExchangeExtendsHistory(w.messages, threadId, cardId,
      Message(userMessageId, threadId, Some(cardId), UserSender, message),
      Message(aiMessageId, threadId, Some(cardId), AssistantSender, u.result.value.aiResponse));
  }
}
