# idea-generator-backend: the generation bookkeeping core in Dafny

This project is a model of the part of the idea-generator backend (a NestJS
service) that decides things. It does not model the parts that only move
data.

- **Generation.** An assistant turns a user's interest into "cards" of
  business ideas. `generateContent` resolves the generation parameters,
  asks a language model, stamps every card with a uuid and a score, and
  stores a new thread.
- **Card operations.** The thread's free-form `metadata` column then grows
  append-only histories as the user refines, saves and shares cards, and
  chats about a card. The trending score of a thread is computed from
  these histories.
- **Prompts and replies.** Two near-identical model services, Gemini and
  OpenAI, render prompts from the assistant's templates. They read a
  reply as JSON after stripping Markdown fences, and wrap text that is
  not JSON instead of failing. The trending endpoint cleans its reply
  differently and has no fallback.
- **Plain chat.** Thread chat sends the assistant's system prompt and the
  whole conversation. It refreshes the thread summary every fifth
  exchange.
- **Anonymous identity.** Anonymous users are keyed by the device headers
  a client sends.
- **Seeding.** A seeding step installs two assistant configurations.
- **Envelopes.** Every response is wrapped in a success envelope, and
  every exception is mapped to an error envelope.

Design of the model:

- JSON values are a datatype whose objects are association lists in
  insertion order. Reading a key takes its last occurrence, and `undefined`
  is `None`.
- The store is an immutable `World` of threads, assistants and a message
  log. The user table is a sequence of rows.
- Each service operation is a function, or a method where it consumes
  oracles. It returns its result together with the store after it, so
  its `ensures` state the error paths, the appended entries and the frame.
- `JSON.parse`, uuid v4 (section 4.4 of RFC 4122), `Math.random()`, the
  clock and the language models are parameters.
  - `JSON.parse` returns `None` where it throws.
  - uuids and random draws are the n-th values of infinite oracles, and a
    cursor counts how many have been consumed.
  - A model is a `Channel`: the reply, if any, to a list of chat messages.
- The prompt engine is written once, over the fixed prose of a service.
  The Gemini and OpenAI copies are its two instances. They differ only in
  how three non-ASCII characters of that prose are encoded.

Modules:

| module | file | models |
|---|---|---|
| `Wrappers` | wrappers.dfy | `Option`, `Result` and the service's error kinds |
| `Strings` | strings.dfy | `trim`, `split`/`join`, global and first-match `replace`, case mapping, decimal numerals |
| `Json` | json.dfy | JSON values, truthiness, member lookup, object spread |
| `Store` | store.dfy | the assistant, thread and message entities, `findAssistant` |
| `Cards` | cards.dfy | `assignCardIds`, `generateRandomScore`, `findCardById` |
| `Metadata` | metadata.dfy | thread metadata, `calculateTrendingScore`, `generateTitle`, idea addressing, share ids, `buildCardContext` |
| `Prompts` | prompts.dfy | `buildPromptFromConfig`, `buildRefinementPrompt`, the card-chat and summary prompts |
| `Templates` | templates.dfy | what `buildPromptFromConfig` makes of each placeholder of a template |
| `Responses` | responses.dfy | `parseStructuredResponse` |
| `Providers` | providers.dfy | the Gemini and OpenAI service operations, `convertToGeminiFormat` |
| `Params` | params.dfy | `resolveGenerationParams`, `getUserContext`, `basicParameterInference` |
| `Generate` | generate.dfy | `generateContent`, `refineContent`, `saveIdea`, `shareIdea`, `chatWithAi` |
| `Trending` | trending.dfy | `getTrendingIdeas` |
| `Messages` | messages.dfy | `sendMessage`, `sendMessageByUser`, `updateThreadSummary`, message `findOne`/`remove` |
| `Device` | device.dfy | `extractDeviceInfo`, `detectPlatform` |
| `Users` | users.dfy | the anonymous-user store |
| `Seed` | seed.dfy | `seedAssistants` and the two seeded configurations |
| `Interceptor` | interceptor.dfy | the success envelope |
| `ExceptionFilter` | filter.dfy | the error envelope |

Behaviour of the code worth noting:

- A failure of model-based parameter inference fails the whole generation.
  It does not fall back to keyword inference, which nothing calls.
- A placeholder for a key that is not among the options stays in the
  prompt literally. It is not blanked.
- `sendMessage` stores the user's message before the model is asked. A
  failed answer therefore leaves that message behind.
- `saveIdea` records an idea of a card list under its position numeral
  ("0", "1", ...), while the card-chat context counts the saves whose
  `ideaId` equals the card's uuid. Saves made through a position never
  show in that context.

## Model

| member | source | states |
|---|---|---|
| Store.OwnedThread | src/generate/generate.service.ts:101-108 | a thread is found exactly when it exists under that id and belongs to the caller |
| Store.AssistantOf | src/entities/thread.entity.ts:53-55 | a thread's assistant relation is present exactly when the assistant row still exists |
| Store.UpdateMetadata | src/generate/generate.service.ts:145 | rewriting one thread's metadata changes that column of that thread and nothing else in the store |
| Store.MessagesWhere | src/generate/generate.service.ts:520-523 | a query returns exactly the stored messages of the thread, and of the card when one is given |
| Store.MessagesWhereAppend | src/generate/generate.service.ts:520-523 | a newly stored matching message is the last one a query returns |
| Cards.RandomScore | src/generate/generate.service.ts:456-458 | a generated score is a truthy tenth between 7.0 and 9.5, the nearest tenth to 2.5 r + 7.0 |
| Cards.StampCard | src/generate/generate.service.ts:484-488 | a stamped card is an object with the given id and score that keeps every other key of the card |
| Cards.Stamp | src/generate/generate.service.ts:484-488 | a null card throws; any other card gets the next uuid and keeps a truthy score, and a random draw is consumed only for a falsy one |
| Cards.StampAll | src/generate/generate.service.ts:483-488 | stamping an array keeps its length and gives element i the i-th next uuid; a null element fails the whole map |
| Cards.TextCard | src/generate/generate.service.ts:472-479 | unparseable text becomes exactly one `{id, content, score}` card carrying the text, with a fresh uuid and a random score |
| Cards.AssignCardIds | src/generate/generate.service.ts:463-497 | a string that parses to an object comes back as that object stamped; one that parses to a string whose own parse fails becomes a text card of that inner string; unparseable text becomes a text card; arrays and objects are stamped; other values come back unchanged; the result is never a string |
| Cards.FindIn | src/generate/generate.service.ts:633-634 | the search throws exactly when a null element comes before the first element with the id; otherwise it returns that first element (with no null before it), or nothing, and nothing means no element has the id and none is null |
| Cards.FindInDistinct | src/generate/generate.service.ts:633-634 | among cards with pairwise distinct ids, each card is found by its own id |
| Cards.FindAfterStamping | src/generate/generate.service.ts:632-643 | with fresh uuids, finding a card by the id stamping gave it returns that card: lookup is a left inverse of stamping |
| Cards.FindStampedObject | src/generate/generate.service.ts:635-641 | a lone object is found by its own id |
| Cards.FindCardById | src/generate/generate.service.ts:632-643 | a found card has the id and is an element of the list, or the lone object itself; on a list it throws exactly when a null element comes before the first element with the id, and nothing is found only when no element has the id and none is null; a non-list gives nothing exactly when it is not an object with the id |
| Metadata.WithEntry | src/generate/generate.service.ts:132-143 | spreading an object and setting one key changes what that key reads and no other key |
| Metadata.ListItems | src/generate/generate.service.ts:134-135 | spreading a missing list gives no items, an array its items and a string its characters; any other truthy value fails |
| Metadata.InitialMetadata | src/generate/generate.service.ts:73-85 | a new thread's metadata holds the content, an empty refinement history and empty saved, shared and refined lists |
| Metadata.EmptyActionLists | src/generate/generate.service.ts:80-84 | the initial user actions read back as three empty lists |
| Metadata.FreshThreadScoresZero | src/generate/generate.service.ts:442-451 | a freshly generated thread has trending score zero |
| Metadata.ScoreZeroIff | src/generate/generate.service.ts:442-451 | a thread scores zero exactly when its metadata is missing or its save, share and refinement lists are all empty; with metadata each save contributes at least three |
| Metadata.WithEntryMember | src/generate/generate.service.ts:132-143 | a replaced entry reads back as the new value and every other key as before |
| Metadata.ScoreAfterRefinement | src/generate/generate.service.ts:442-451 | appending one refinement raises the trending score by exactly two |
| Metadata.ScoreAfterAction | src/generate/generate.service.ts:442-451 | appending one save raises the trending score by three, and one share by five |
| Metadata.AppendedAction | src/generate/generate.service.ts:445-450 | one more entry in the saved list adds three to the action score and one more in the shared list adds five, the other list keeping its count |
| Metadata.GenerateTitle | src/generate/generate.service.ts:422-440 | a title starts with the prefix for the app type and is at most 103 characters; a long title is its first 100 characters and then `...`, otherwise it is the prefix and the whole input |
| Metadata.IdeaAt | src/generate/generate.service.ts:171-173 | an idea is found exactly when some position in range is written as the id, and it is the element at that position |
| Metadata.FindIdea | src/generate/generate.service.ts:170-178 | content that is not an array is the idea whatever the id |
| Metadata.IdeaByIndex | src/generate/generate.service.ts:172-174 | the decimal numeral of a position addresses the element at that position |
| Metadata.IdeaIdsAreNumerals | src/generate/generate.service.ts:172-174 | only canonical numerals of positions address array elements; an id with a leading zero, like "00", never does |
| Metadata.ShareLink | src/generate/generate.service.ts:236 | the share link is `/shared/` followed by the share id |
| Metadata.AfterLastDashOf | src/generate/generate.service.ts:235 | the text after the last dash of `a-d`, where `d` holds no dash, is `d` |
| Metadata.ShareId | src/generate/generate.service.ts:235 | a share id opens with the thread id and the idea id, each followed by a dash; whatever those ids hold, the text after its last dash is the timestamp and parses back to it |
| Metadata.Matching | src/generate/generate.service.ts:575-577 | filtering keeps exactly the entries whose key strictly equals the target; a missing list matches nothing; a non-list or a null entry throws |
| Metadata.FilterItems | src/generate/generate.service.ts:590-595 | filtering a list keeps exactly its entries whose key strictly equals the target, no more of them than the list holds, and throws on a null entry |
| Metadata.FilterItemsConcat | src/generate/generate.service.ts:590-595 | the filter of two lists joined is the two filters joined, so matching entries keep their order |
| Metadata.FilterItemsCount | src/generate/generate.service.ts:590-595 | the filter keeps as many entries as match, each once |
| Metadata.MatchingCount | src/generate/generate.service.ts:575-577 | a filtered history holds as many entries as match the card id |
| Metadata.RefinementLineAt | src/generate/generate.service.ts:580-584 | the i-th refinement is printed as line i + 1, between the lines of the refinements before and after it |
| Metadata.BuildCardContext | src/generate/generate.service.ts:568-606 | the context starts with the card's header; then come the refinement heading and one numbered line per refinement of the card, in order; then a saved and a shared line, each present exactly when its count is positive and carrying the number of entries whose `ideaId` matches the card id; it is the header alone when nothing was recorded for the card; it fails exactly when a filter throws |
| Metadata.FreshCardContext | src/generate/generate.service.ts:568-606 | a card of a freshly generated thread is described by its header alone |
| Prompts.InertConcat | src/gemini/gemini.service.ts:326 | text without a closing brace stays so under concatenation |
| Prompts.GenerationBoundaryInert | src/gemini/gemini.service.ts:326 | no placeholder can end inside the generation boundary, given a siren glyph without a brace |
| Prompts.ServiceGlyphsInert | src/openai/openai.service.ts:133 | neither service's siren glyph holds a closing brace |
| Prompts.ServiceProseInert | src/gemini/gemini.service.ts:326 | both services' prose keeps its boundary out of option substitution |
| Prompts.Placeholder | src/gemini/gemini.service.ts:336 | a placeholder is the key wrapped in double braces |
| Prompts.PromptCount | src/gemini/gemini.service.ts:315 | the count is the option when truthy, else the assistant's default count when truthy, else 5, so a count of 0 falls through |
| Prompts.PromptIndustry | src/gemini/gemini.service.ts:316 | the industry is always truthy and is 'general' when the option is falsy |
| Prompts.BuildPromptFromConfig | src/gemini/gemini.service.ts:303-353 | prompts are built exactly when both templates are truthy strings; the system prompt is the filled template plus the boundary, and the user prompt is the filled template with no boundary |
| Templates.ReplaceRendered | src/gemini/gemini.service.ts:334-337 | on a brace-free template, a global replace of `{{key}}` with brace-free text is the same as filling that placeholder piece |
| Templates.UserPromptRendered | src/gemini/gemini.service.ts:340-350 | the user prompt is the template with `{{input}}`, `{{count}}`, `{{industry}}` and each option key filled, piece by piece |
| Templates.SystemPromptRendered | src/gemini/gemini.service.ts:329-338 | the system prompt is the template with `{{count}}`, `{{industry}}` and each option key filled, followed by the boundary |
| Templates.SystemPlaceholderKept | src/gemini/gemini.service.ts:329-338 | a system placeholder whose key is not count, industry or an option key, `{{input}}` among them, stays in the prompt as written |
| Templates.SystemOptionFilled | src/gemini/gemini.service.ts:334-337 | a system placeholder for an option key becomes `String(options[key] \|\| '')` |
| Templates.UserBuiltinFilled | src/gemini/gemini.service.ts:341-343 | `{{input}}`, `{{count}}` and `{{industry}}` in the user template become the input, the count and the industry |
| Templates.UserPromptHasNoInputPlaceholder | src/gemini/gemini.service.ts:341 | once the filled-in texts hold no brace, no `{{input}}` is left in the user prompt |
| Prompts.ApplyOptionsInertSuffix | src/gemini/gemini.service.ts:335-338 | option substitution never reaches into a brace-free suffix |
| Prompts.ApplyOptionsWithoutBrace | src/gemini/gemini.service.ts:335-350 | option substitution leaves text without an opening brace unchanged |
| Prompts.SystemPromptEndsWithBoundary | src/gemini/gemini.service.ts:329-338 | every system prompt ends with the boundary, which no option substitution touches |
| Prompts.TemplatesWithoutBraces | src/gemini/gemini.service.ts:329-350 | templates without placeholder syntax are used verbatim; the system prompt is the template plus the boundary |
| Prompts.ProvidersBuildSamePrompts | src/openai/openai.service.ts:110-160 | both services accept and refuse the same configurations and build the same user prompt; their system prompts differ only in the boundary text |
| Prompts.BuildRefinementPrompt | src/gemini/gemini.service.ts:397-429 | a refinement prompt is built exactly when the aspect's template is truthy; the system prompt is the template plus the boundary; the user prompt names the aspect, the title or 'Untitled', and the description or content |
| Prompts.ProvidersBuildSameRefinements | src/openai/openai.service.ts:314-346 | both services fail on the same aspects, with the same message, and differ only in their boundary and format texts |
| Prompts.AdvisorPrompt | src/gemini/gemini.service.ts:234-255 | the card-chat system prompt opens with the advisor introduction followed by the card context |
| Prompts.SummaryPrompt | src/gemini/gemini.service.ts:84-92 | the summary request opens with the fixed instruction and, for one line, ends with exactly that line |
| Prompts.InferencePrompt | src/gemini/gemini.service.ts:36-41 | the configured inference prompt, or the default when falsy, with its first `{{message}}` replaced by the message and every later one left as written; a template without the placeholder is used verbatim; a configured value that is not a string fails |
| Responses.DropClosingFence | src/gemini/gemini.service.ts:364 | a closing fence at the very end is removed with the whitespace before it; other text is unchanged |
| Responses.StripFences | src/gemini/gemini.service.ts:358-369 | text that does not open with a fence is kept, and stripping never lengthens the text |
| Responses.Cleaned | src/gemini/gemini.service.ts:358-372 | the text handed to the parser has no whitespace at either end |
| Responses.Fallback | src/gemini/gemini.service.ts:389-393 | an unparseable reply becomes `[{content, score: 7.5}]` when an array was asked for, else `{content}` |
| Responses.ParseStructuredResponse | src/gemini/gemini.service.ts:355-395 | whatever value the cleaned reply parses to is returned unchanged, primitives included; otherwise the fallback is returned and nothing throws |
| Responses.UnfencedReply | src/gemini/gemini.service.ts:358-372 | a reply that does not open with a fence is parsed as it is, trimmed |
| Responses.DropClosingFenceAfterBody | src/gemini/gemini.service.ts:364 | a closing fence after a trimmed body goes, with the whitespace before it |
| Responses.StripFencedBody | src/gemini/gemini.service.ts:361-369 | stripping a fenced block with whitespace separators gives back exactly the body |
| Responses.JsonFencedReply | src/gemini/gemini.service.ts:361-364 | a `json`-tagged fenced reply is parsed from exactly the block's body |
| Responses.BareFencedReply | src/gemini/gemini.service.ts:365-368 | a bare fenced reply with a separator is parsed from exactly the block's body |
| Responses.FencedJsonParses | src/openai/openai.service.ts:162-202 | a JSON answer survives any fencing the model puts around it: the parse of the body is returned |
| Providers.TranscriptOpensWithRole | src/gemini/gemini.service.ts:290-297 | a transcript opens with its first message's role label |
| Providers.TranscriptAppend | src/gemini/gemini.service.ts:290-298 | appending messages appends their lines to the transcript |
| Providers.TranscriptTrimsOnlyTheLastBlankLine | src/gemini/gemini.service.ts:286-301 | the trimmed transcript keeps every message in order, so only the final blank line is cut |
| Providers.ConvertToGeminiFormat | src/gemini/gemini.service.ts:286-301 | no messages give an empty prompt; the prompt is no longer than the transcript and has no whitespace at either end |
| Providers.GenerateChatCompletion | src/openai/openai.service.ts:34-63 | without a client the call fails as not initialised; a reply without text fails; otherwise the trimmed reply is returned |
| Providers.GenerateByAppType | src/openai/openai.service.ts:69-108 | the built prompt is sent and the reply parsed; every failure after the client check, a missing template included, becomes "Failed to generate content" |
| Providers.RefineContent | src/openai/openai.service.ts:204-248 | the refinement prompt is sent and parsed with the object hint; every failure becomes "Failed to refine content" |
| Providers.ProseRefinementIsWrapped | src/openai/openai.service.ts:243 | a refinement answered in prose becomes `{content: reply}`, never an error and never an array |
| Providers.ObjectHintIsNotArray | src/openai/openai.service.ts:243 | the refinement hint asks for an object, not an array |
| Providers.CardChatMessages | src/openai/openai.service.ts:285-304 | the card chat sends the advisor prompt with the context, then the history in order, then the new message last |
| Providers.ChatWithCardContext | src/openai/openai.service.ts:250-312 | the card chat's answer is the trimmed reply to those messages, and any failure is one generic error |
| Providers.GenerateSummary | src/gemini/gemini.service.ts:76-105 | the summary is the trimmed reply to the summary request; a missing client or an empty reply fails |
| Providers.ExtractParameters | src/gemini/gemini.service.ts:28-74 | the parameters are the parse of the reply to the inference prompt; no client, no text and non-JSON text all fail |
| Params.Defaults | src/generate/generate.service.ts:340-345 | there are exactly four fixed defaults |
| Params.UserContext | src/generate/generate.service.ts:414-420 | the user context is an empty object with or without a user |
| Params.ResolveGenerationParams | src/generate/generate.service.ts:329-374 | the parameters are the merge of defaults, default options, user context, inferred parameters and overrides; a failed inference fails the resolution |
| Params.AssistantRow | src/generate/generate.service.ts:349-352 | the inference step sees the assistant's prompt configuration |
| Params.SpreadAllLookup | src/generate/generate.service.ts:358-363 | after spreading several objects a key reads the value of the last one that defines it |
| Params.Merge | src/generate/generate.service.ts:358-363 | the resolved parameters have a key exactly when the defaults, the user context, the inferred parameters or the overrides have it |
| Params.ResolvedPrecedence | src/generate/generate.service.ts:340-363 | each resolved key comes from the highest-priority source that defines it: overrides, then inferred, then user context, then default options, then the fixed defaults |
| Params.DefaultValues | src/generate/generate.service.ts:340-345 | the defaults are count 6, industry 'general', complexity 'simple' and format 'cards', each replaced by the assistant's truthy setting; no other key has a default |
| Params.FirstIndustry | src/generate/generate.service.ts:401-406 | the first industry in table order that has a keyword in the text, or none when no industry has one |
| Params.BasicParameterInference | src/generate/generate.service.ts:389-409 | the inferred object names the first industry with a keyword in the lower-cased message, and is empty when there is none |
| Params.TechKeywordsWin | src/generate/generate.service.ts:394-406 | a tech keyword settles the industry as tech, whatever other keywords the message holds |
| Params.NoKeywordNoIndustry | src/generate/generate.service.ts:401-408 | a message with no keyword infers nothing |
| Store.FindAssistant | src/generate/generate.service.ts:320-324 | an assistant is found exactly when a row with that id exists and is active |
| Generate.ModelContent | src/generate/generate.service.ts:47-63 | parameters are resolved before generation, and a failure of either step is the failure |
| Generate.CreateThread | src/generate/generate.service.ts:69-88 | storing adds exactly one thread with the title, the content and empty histories, and changes nothing else |
| Generate.StampedCardsFindable | src/generate/generate.service.ts:632-643 | with fresh uuids every stamped card of an array is found again by its id |
| Generate.StoreGeneration | src/generate/generate.service.ts:65-88 | storing fails exactly when the content is an array with a null element, and then nothing is stored; otherwise one thread is created whose cards are all found by their new ids |
| Generate.GenerateContent | src/generate/generate.service.ts:37-98 | a missing or inactive assistant is NotFound; nothing is stored on any failure; on success exactly one new thread holds the content, empty histories and score zero, and its cards are findable by id |
| Generate.WriteEntry | src/generate/generate.service.ts:132-145 | writing one metadata entry back changes only that entry of that thread |
| Generate.RecordRefinement | src/generate/generate.service.ts:132-145 | one entry is appended to the refinement history, all other metadata is kept, and the score rises by two |
| Generate.RecordAction | src/generate/generate.service.ts:181-197 | one entry is appended to the saved or shared list, the other lists and metadata are kept, and the score rises by three or five |
| Generate.StoredContent | src/generate/generate.service.ts:110-113 | stored content is reported only when it is truthy |
| Generate.RefineCard | src/generate/generate.service.ts:100-153 | the thread must be the caller's (NotFound), then the content must exist (BadRequest), then the card (NotFound); on success exactly one refinement entry is appended; nothing is stored on failure |
| Generate.SaveIdea | src/generate/generate.service.ts:155-207 | the same three guards in order; on success one saved entry is appended, titled by the custom title or the idea's own |
| Generate.SaveEntryId | src/generate/generate.service.ts:184-189 | a save entry reads back the `ideaId` it was recorded under and counts towards no other card id |
| Generate.PositionSaveMissesCardId | src/generate/generate.service.ts:170-188 | on a card list a save is recorded under a position numeral, so it never counts towards a card whose id holds a dash, as a uuid does |
| Generate.ShareIdea | src/generate/generate.service.ts:209-265 | the same three guards in order; on success one shared entry is appended and the link is `/shared/` plus `threadId-ideaId-now` |
| Generate.ChatWithAi | src/generate/generate.service.ts:499-566 | the same three guards in order; on success the model saw the card's context and earlier card chat, and exactly the question and then the answer are stored |
| Generate.ExchangeExtendsHistory | src/generate/generate.service.ts:519-558 | storing a question and its answer about a card extends that card's history by exactly those two turns, the user's first |
| Generate.ChatExtendsCardHistory | src/generate/generate.service.ts:519-558 | the next chat about the same card sees this exchange at the end of its history |
| Trending.FencedBody | src/trending/trending.service.ts:46-51 | with no fence there is no block; a block found is read from after the first fence and its optional `json` tag, up to the next fence |
| Trending.BodyStart | src/trending/trending.service.ts:47 | a body starts after the fence, and four characters later exactly when `json` follows the fence |
| Trending.FirstFence | src/trending/trending.service.ts:47 | a fence after text with no backtick is the first fence |
| Trending.FencedBodyOfBlock | src/trending/trending.service.ts:46-51 | the body of a block written after backtick-free text is read back exactly, and the text around it is dropped |
| Trending.StripQuotes | src/trending/trending.service.ts:54 | only the leading and the trailing run of backticks and quotes is removed, and the result neither starts nor ends with one |
| Trending.BareReplyUnchanged | src/trending/trending.service.ts:43-54 | bare JSON text with no backtick and no space or quote at its ends reaches the parser unchanged |
| Trending.CleanResponse | src/trending/trending.service.ts:43-54 | the cleaned reply is no longer than the reply and has no quote or backtick at either end |
| Json.AsList | src/trending/trending.service.ts:58 | an array is its items; any other value is a list of one (also how `generateContent` reports `results`) |
| Trending.KeepValid | src/trending/trending.service.ts:72-77 | exactly the items with a string title and a string description are kept |
| Trending.KeepValidAppend | src/trending/trending.service.ts:72-77 | the filter distributes over concatenation, so it keeps the original order |
| Trending.KeepValidAll | src/trending/trending.service.ts:72-77 | items that are all valid pass through unchanged |
| Trending.IdeasOf | src/trending/trending.service.ts:41-81 | text that does not parse is an error; a parsed value yields its valid items, and an error when there are none; ideas returned are never empty and all valid |
| Trending.Reported | src/trending/trending.service.ts:84-88 | ideas pass through unchanged; every error is rethrown with the trending prefix, then its own message or `Unknown error` |
| Trending.GetTrendingIdeas | src/trending/trending.service.ts:13-88 | success is a non-empty list of valid ideas; every error carries the trending prefix and then the reason |
| Trending.SingleObjectIsOneIdea | src/trending/trending.service.ts:58 | a reply that parses to a single valid object yields that one idea |
| Trending.ParseFailureMessage | src/trending/trending.service.ts:59-64 | text that does not parse has no fallback and is reported as the prefix followed by the parse failure |
| Messages.ChatHistory | src/messages/messages.service.ts:115-122 | stored messages become chat turns in the same order, a user's message as the user role and every other as the assistant role |
| Messages.ChatHistoryAppend | src/messages/messages.service.ts:115-122 | converting one more message adds exactly its turn at the end |
| Messages.Without | src/messages/messages.service.ts:116 | exactly the messages with a different id are kept |
| Messages.WithoutFresh | src/messages/messages.service.ts:116 | dropping a freshly appended message by its unique id gives back the log before it |
| Messages.WithoutFreshLog | src/messages/messages.service.ts:116 | dropping an id that no message has changes nothing |
| Messages.WithoutKeeps | src/messages/messages.service.ts:116 | a message with another id survives the filter, at the end |
| Messages.ChatTranscript | src/messages/messages.service.ts:107-128 | the model input is the system prompt first, the user's text last, and every other thread message in between |
| Messages.Caller | src/messages/messages.service.ts:92-94 | ownership is checked exactly when a non-empty user id is given |
| Messages.FindThread | src/threads/threads.service.ts:79-105 | a thread is found when it exists and, when a caller is given, belongs to them; otherwise NotFound |
| Messages.SummaryEveryFifthExchange | src/messages/messages.service.ts:142-147 | on a thread that only sees exchanges, the summary is refreshed after every fifth exchange from the fifth on |
| Messages.SummaryDueSpacing | src/messages/messages.service.ts:142-147 | a refresh is due only from ten messages on, never two within five messages, and again five messages after each one |
| Messages.SummaryLines | src/messages/messages.service.ts:235-237 | one line per message |
| Messages.RefreshSummary | src/messages/messages.service.ts:232-245 | the summary becomes the model's summary of the thread's messages; any failure is swallowed and leaves the store as it was |
| Messages.StoreAnswer | src/messages/messages.service.ts:134-147 | the answer is appended; only this thread's summary may change, and only when the message count is at least ten and divisible by five |
| Messages.Answer | src/messages/messages.service.ts:104-147 | a successful answer came from the transcript with the assistant's system prompt and is stored after the question; a failure stores nothing more |
| Messages.Send | src/messages/messages.service.ts:89-153 | an inaccessible thread stores nothing; otherwise the user's message is stored before the model is asked |
| Messages.SendOutcome | src/messages/messages.service.ts:96-139 | a failed answer leaves the user's message stored alone; a success stores the question then the answer, and changes no thread but this one's summary |
| Messages.SendMessage | src/messages/messages.service.ts:82-153 | a success means the thread exists and, when a user id is given, is theirs |
| Messages.SendMessageByUser | src/messages/messages.service.ts:155-230 | ownership is always checked, and for a non-empty user id it behaves as `sendMessage` |
| Messages.FreshSendTranscript | src/messages/messages.service.ts:104-128 | with a fresh id the model sees the system prompt, then the thread's earlier conversation oldest first, then the message |
| Messages.SendSeesWholeConversation | src/messages/messages.service.ts:104-132 | a successful send asked the model with the whole earlier conversation in order and the new message last |
| Messages.MessageById | src/messages/messages.service.ts:248-251 | the message with that id, or none exactly when no message has it |
| Messages.CheckOwner | src/messages/messages.service.ts:257-262 | a message passes exactly when its thread is the caller's; another user's thread is Forbidden |
| Messages.FindOne | src/messages/messages.service.ts:247-265 | a missing message is NotFound; without a user id any message is returned; with one, another user's message is Forbidden |
| Messages.FindOneByUser | src/messages/messages.service.ts:267-285 | a returned message is the caller's; for a non-empty id it agrees with `findOne` |
| Messages.Remove | src/messages/messages.service.ts:287-290 | removal fails exactly when the lookup fails; otherwise only that message row goes |
| Messages.RemoveByUser | src/messages/messages.service.ts:292-295 | removal fails exactly when the caller's lookup fails; otherwise only that message row goes |
| Messages.RemovedIsGone | src/messages/messages.service.ts:287-290 | a removed message cannot be found again, by anyone |
| Device.DetectPlatform | src/common/services/device.service.ts:38-46 | the platform is mobile exactly when the platform header is the exact text 'mobile' |
| Device.ExtractDeviceInfo | src/common/services/device.service.ts:11-36 | a device is read exactly when the id header is present and non-empty; the id comes back as sent with the detected platform; the error text names the platform |
| Device.HeadersFor | src/common/services/device.service.ts:16 | a client announcing a device sends its id in the id header |
| Device.ExtractHeadersFor | src/common/services/device.service.ts:11-46 | every device with a non-empty id is read back from the headers its client sends |
| Device.PlatformIsCaseSensitive | src/common/services/device.service.ts:41-45 | 'Mobile', 'MOBILE' or any other text is the web platform |
| Device.MissingIdRefused | src/common/services/device.service.ts:16-30 | a missing or empty id is refused on both branches, with the mobile or the web message |
| Users.FindAnonymous | src/users/anonymous-user.service.ts:16-22 | the first row that is anonymous for the device id and platform, or none when no row is |
| Users.FindAnonymousUserByDevice | src/users/anonymous-user.service.ts:71-79 | a user is found exactly when an anonymous row for the device exists |
| Users.GetOrCreateAnonymousUser | src/users/anonymous-user.service.ts:14-35 | an existing row's id is returned with the table unchanged; otherwise one anonymous row with the fresh id is appended |
| Users.GetOrCreateFindsDevice | src/users/anonymous-user.service.ts:14-35 | the returned id names an anonymous row for the device in the resulting table |
| Users.FindAnonymousAppend | src/users/anonymous-user.service.ts:16-22 | appending a row changes the lookup only when no earlier row matched |
| Users.GetOrCreateIdempotent | src/users/anonymous-user.service.ts:14-35 | asking twice for the same device gives the same id, and the second call changes nothing |
| Users.GetOrCreateKeepsIdsUnique | src/users/anonymous-user.service.ts:26-31 | inserting under a fresh id keeps the ids distinct |
| Users.PlatformsAreSeparate | src/users/anonymous-user.service.ts:16-22 | the same device id on the web and in the app gets two different users |
| Users.Authenticated | src/users/anonymous-user.service.ts:57-63 | sign-up keeps the id, device and creation time, sets email and password, keeps the name when none is given, and marks the row authenticated now |
| Users.FindById | src/users/anonymous-user.service.ts:66-68 | the first row with the id, or none when the id is unused |
| Users.UpdateById | src/users/anonymous-user.service.ts:57-63 | every row with the id is signed up, and every other row is unchanged |
| Users.ConvertAnonymousToAuthenticated | src/users/anonymous-user.service.ts:37-69 | without an anonymous row the result is null and nothing changes; otherwise the update fails with the duplicate-key error exactly when another user holds the email, and else that row is updated and read back |
| Users.ConvertKeepsEmailsUnique | src/entities/user.entity.ts:21 | a successful conversion keeps the emails of the user table unique |
| Users.ConvertInPlace | src/users/anonymous-user.service.ts:56-68 | conversion changes one row in place, same id at the same position, and returns it |
| Users.ConvertedDeviceStartsAfresh | src/users/anonymous-user.service.ts:71-79 | after conversion the device has no anonymous user, and get-or-create would make a new one |
| Users.NoDeviceNoConversion | src/users/anonymous-user.service.ts:43-54 | without an anonymous row nothing is converted and nothing changes |
| Users.Remaining | src/users/anonymous-user.service.ts:85-92 | the survivors are exactly the rows that are not stale |
| Users.CleanupOldAnonymousUsers | src/users/anonymous-user.service.ts:81-95 | exactly the anonymous, never signed-up rows created before the cutoff are deleted, and their number is returned |
| Users.RemainingCount | src/users/anonymous-user.service.ts:94 | survivors and deleted rows add up to the table |
| Users.RemainingIsSubsequence | src/users/anonymous-user.service.ts:85-92 | the purge keeps the survivors in their order |
| Users.CleanupIdempotent | src/users/anonymous-user.service.ts:81-95 | a second purge at the same moment deletes nothing |
| Users.RemainingFixed | src/users/anonymous-user.service.ts:85-92 | a table with no stale row is left as it is |
| Users.CleanupSpares | src/users/anonymous-user.service.ts:89-91 | signed-up users and recent anonymous rows survive |
| Seed.OptionItems | src/seed/seed.service.ts:102-116 | the options are listed as strings in their order |
| Seed.SeedAssistants | src/seed/seed.service.ts:16-152 | with any assistant present nothing changes; otherwise exactly the two configured assistants are added |
| Seed.SeedOnce | src/seed/seed.service.ts:17-21 | seeding twice seeds once |
| Seed.SeededAssistantsAreActive | src/entities/assistant.entity.ts:32-33 | both seeded assistants are active, so generation finds them |
| Seed.OptionsAreTheEnum | src/common/enums/generate.enums.ts:53-67 | the advertised refinement options are the enum's values in the same order |
| Seed.TemplateKeysAreTheOptions | src/seed/seed.service.ts:61-88 | the template keys are the advertised options, in order |
| Seed.TemplatesAreTruthy | src/seed/seed.service.ts:61-88 | every refinement template is a non-empty string |
| Seed.IdeaTemplates | src/seed/seed.service.ts:61-88 | an aspect name reaches idea-generator's refinement templates |
| Seed.EveryOptionHasTemplate | src/seed/seed.service.ts:102-116 | every advertised aspect passes the missing-template check |
| Seed.AdvisorCannotRefine | src/seed/seed.service.ts:126-131 | every refinement against strategy-advisor fails the missing-template check |
| Seed.SeededTemplatesPresent | src/seed/seed.service.ts:31-131 | both seeded configurations have truthy system and user templates |
| Seed.IdeaPromptsBuild | src/seed/seed.service.ts:31-60 | idea-generator's prompts are built for any input and options |
| Seed.IdeaPlaceholders | src/seed/seed.service.ts:32-60 | idea-generator's templates carry the count and input placeholders |
| Seed.IdeaDefaults | src/seed/seed.service.ts:98-101 | idea-generator resolves to 6 cards, 'general', 'simple' and 'cards' |
| Seed.IdeaFallbackIsOneCard | src/seed/seed.service.ts:90-97 | idea-generator asks for an array, so a reply that is not JSON becomes one card scored 7.5 |
| Seed.AdvisorFallbackIsObject | src/seed/seed.service.ts:132-139 | strategy-advisor asks for an object, so a reply that is not JSON becomes `{content}` |
| Interceptor.Message | src/common/interceptors/response.interceptor.ts:35-43 | a non-empty decorator message wins; otherwise the method's message is used |
| Interceptor.UpperIsWord | src/common/interceptors/response.interceptor.ts:64 | upper-casing gives a capital word exactly when the text spells it in any letter case |
| Interceptor.OutcomeIgnoresCase | src/common/interceptors/response.interceptor.ts:63-76 | POST reports a creation, PUT and PATCH an update, and DELETE a deletion, in any letter case and only then; every other method reports completion |
| Interceptor.GetSuccessMessage | src/common/interceptors/response.interceptor.ts:63-76 | each message is given exactly for its methods in any letter case: creation for POST, update for PUT and PATCH, deletion for DELETE, completion for every other method |
| Interceptor.IsApiResponse | src/common/interceptors/response.interceptor.ts:52-61 | an envelope is an object with at least the four envelope fields; a missing result and a non-object never are |
| Interceptor.WrappedFields | src/common/interceptors/response.interceptor.ts:41-47 | a wrapped result has five fields, or four when there is no data |
| Interceptor.Intercept | src/common/interceptors/response.interceptor.ts:20-50 | an envelope passes through untouched; anything else is wrapped |
| Interceptor.WrappedReadsBack | src/common/interceptors/response.interceptor.ts:41-47 | a wrapped result reads back success, the message, the data exactly as returned, the timestamp and the path |
| Interceptor.WrappedIsApiResponse | src/common/interceptors/response.interceptor.ts:52-61 | a wrapped result is itself an envelope |
| Interceptor.InterceptIdempotent | src/common/interceptors/response.interceptor.ts:29-32 | a result that went through the interceptor comes out of it again unchanged |
| Interceptor.NonObjectsAreWrapped | src/common/interceptors/response.interceptor.ts:53-54 | null, primitives, arrays and a missing result are always wrapped, with the data unchanged |
| ExceptionFilter.Derive | src/common/filters/global-exception.filter.ts:32-62 | an HTTP exception keeps its status; a string response is the message; an array message gives 'Validation failed' with the array as details; otherwise the message, the error or 'An error occurred'; any other error is a bare 500 'Internal server error' |
| ExceptionFilter.Body | src/common/filters/global-exception.filter.ts:64-74 | the error body has a details field exactly when the details are truthy |
| ExceptionFilter.Catch | src/common/filters/global-exception.filter.ts:23-83 | the response is sent with the derived status and the error body |
| ExceptionFilter.BodyReadsBack | src/common/filters/global-exception.filter.ts:64-74 | an error body reads back failure, the message, the status, the timestamp, the path, and the details exactly when truthy |
| ExceptionFilter.ErrorBodyIsApiResponse | src/common/filters/global-exception.filter.ts:64-70 | an error body has the four envelope keys |
| ExceptionFilter.InternalErrorsLookAlike | src/common/filters/global-exception.filter.ts:52-62 | the text of an unexpected error never reaches the client: any two such errors give the same 500 response |
| ExceptionFilter.ValidationErrorsListDetails | src/common/filters/global-exception.filter.ts:43-48 | a validation error lists the failed constraints as details under a fixed message |
| ExceptionFilter.Thrown | src/common/filters/global-exception.filter.ts:32 | exactly the not-found, bad-request and forbidden errors are HTTP exceptions |
| ExceptionFilter.HttpBodyMembers | src/common/filters/global-exception.filter.ts:42-48 | a built-in exception body carries its message and reason and no details |
| ExceptionFilter.ModelErrorsReachClient | src/common/filters/global-exception.filter.ts:32-62 | not-found, bad-request and forbidden keep their status and message; every other failure is an opaque 500 |

## Left out

- Persistence is an immutable store. TypeORM repositories, relations and SQL are not modelled. That includes the jsonb query of `getTrendingIdeas` in the generate service, `getThread` and `getChatHistoryByCard`.
- Concurrency is not modelled: lost updates from the read-modify-write of thread metadata, and the get-or-create race on anonymous users.
- The thin message operations `create`, `createByUser`, `findByThread` and `findByThreadForUser` appear only as the message log and its query.
- The `MessageSender` enum file is not part of this model. Its stored values are taken as 'user' and 'assistant'.
- The language models, `JSON.parse`, uuid v4, `Math.random()` and the clock are parameters. Their internals, and the SDK request options (model names, response schemas), are not modelled.
- Prompt prose is abbreviated:
  - The seed templates keep their opening words and their placeholders. The idea-generator system template also keeps its JSON example; its list of business requirements is left out.
  - The boundary, format and advisor rules keep the characters that matter for substitution.
  - The trending prompt is a parameter.
- JavaScript regular-expression replacement is modelled as literal substitution. `$` patterns in replacement text are not modelled. Neither are option keys with metacharacters, or keys made of digits only, which the pattern `{{k}}` reads as a repetition count.
- Seed: the seeded idea-generator system template holds single braces in its JSON example. The Templates lemmas assume brace-free literal text, so they do not describe how that template renders; the Seed lemmas about it (IdeaPlaceholders, IdeaPromptsBuild) do not rely on them.
- Case mapping works on ASCII letters only. `trim` uses the ECMAScript whitespace and line-terminator set, so it is not affected. Titles are cut by code point rather than by UTF-16 unit.
- Object keys are kept in insertion order. JavaScript lists integer-like keys ("0", "12") first, in ascending order. So `Keys`, object spread (`Assign`), the option loop of `buildPromptFromConfig` (`ApplyOptions`) and spreads of arrays and strings can order keys differently from the engine. Lookups do not depend on the order. Only the order of substitution and of written keys does.
- Numbers are decimals. Floating-point rounding of the random score is written out as round-half-up on tenths.
- Json.NumberToString: JavaScript's `String(n)` switches to exponent notation for magnitudes of 1e21 and above and below 1e-6. The model always prints plain digits.
- Metadata.ListLength: `v?.length || 0` counts only arrays and strings. The length property of an arbitrary object is not modelled.
- Trending: the branch for a reply that is not a string is not modelled, because the chat completion always returns text.
- Users.Cutoff: days are 24-hour days. Daylight-saving shifts of `setDate` are not modelled.
- Users.CleanupOldAnonymousUsers: the count is the number of deleted rows, which `result.affected` is assumed to report.
- Interceptor.Intercept: a `data` of `undefined` is dropped, as JSON serialisation drops it.
- ExceptionFilter.Thrown: the bodies of Nest's built-in HTTP exceptions are taken as `{message, error, statusCode}`.
- Device: a repeated header, which Express delivers as an array, is not modelled.
- Users.ConvertAnonymousToAuthenticated: the duplicate-key failure carries the driver's message only. The constraint name and the SQL state of the database error are not modelled.
- Templates: placeholders are modelled for templates whose text outside placeholders holds no `{`, with keys and filled-in values free of braces. Substitutions that create or consume braces are covered only by the general `BuildPromptFromConfig` contract.
- Logger and console output are not modelled.
- Controllers, modules, DTO validation, authentication and password hashing are not modelled.
