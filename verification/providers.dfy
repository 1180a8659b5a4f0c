/** The two model services, `GeminiService` and `OpenAiService`, around the
    shared prompt engine and reply parser.

    The language model itself is a parameter. A `Channel` is one service's
    way of answering a list of chat messages: the OpenAI service sends the
    list as it is, the Gemini service first flattens it into one transcript
    (`convertToGeminiFormat`). A reply of `None` is a call that threw or
    came back without text; `Some("")` is an empty text.
 */
module Providers {
  import opened Wrappers
  import opened Strings
  import opened Json
  import opened Prompts
  import opened Responses

  datatype Role = System | User | Assistant

  datatype ChatMessage = ChatMessage(role: Role, content: string)

  /** A service's access to its model: whether an API key was configured,
      and the model's reply to a list of messages. */
  datatype Channel = Channel(service: string, configured: bool, send: seq<ChatMessage> -> Option<string>)

  /** The Gemini client: raw text in, reply text out. */
  datatype GeminiClient = GeminiClient(configured: bool, generate: string -> Option<string>)

  function NotInitialized(service: string): string {
    service + " service not initialized. Please check your API key."
  }

  const FailedResponse := "Failed to generate AI response"
  const FailedContent := "Failed to generate content"
  const FailedRefinement := "Failed to refine content"
  const FailedChat := "Failed to generate AI chat response"
  const FailedSummary := "Failed to generate summary with Gemini"
  const FailedExtraction := "Failed to extract parameters with Gemini"

  // ---------------------------------------------------------------------
  // Transcripts

  function RolePrefix(r: Role): string {
    match r
    case System => "System: "
    case User => "User: "
    case Assistant => "Assistant: "
  }

  /** One message as the Gemini transcript writes it. */
  lemma RolePrefixOpensWithLetter(r: Role)
    ensures |RolePrefix(r)| > 0 && !IsSpace(RolePrefix(r)[0])
  {
  }

  function TranscriptLine(m: ChatMessage): string {
    RolePrefix(m.role) + m.content + "\n\n"
  }

  /** The messages' lines, in order, before the final trim. */
  function Transcript(ms: seq<ChatMessage>): string {
    if |ms| == 0 then "" else Transcript(ms[..|ms| - 1]) + TranscriptLine(ms[|ms| - 1])
  }

  /** A transcript opens with its first message's role label. */
  lemma {:induction false} TranscriptOpensWithRole(ms: seq<ChatMessage>)
    requires |ms| > 0
    ensures StartsWith(Transcript(ms), RolePrefix(ms[0].role))
    decreases |ms|
  {
    var p := RolePrefix(ms[0].role);
    if |ms| == 1 {
      assert Transcript(ms) == TranscriptLine(ms[0]);
      assert TranscriptLine(ms[0])[..|p|] == p;
    } else {
      var init := ms[..|ms| - 1];
      TranscriptOpensWithRole(init);
      assert init[0] == ms[0];
      assert (Transcript(init) + TranscriptLine(ms[|ms| - 1]))[..|p|] == Transcript(init)[..|p|];
    }
  }

  /** `convertToGeminiFormat`. */
  function ConvertToGeminiFormat(ms: seq<ChatMessage>): (r: string)
    ensures ms == [] ==> r == ""
    ensures |r| <= |Transcript(ms)|
    ensures |r| > 0 ==> !IsSpace(r[0]) && !IsSpace(r[|r| - 1])
  {
    Trim(Transcript(ms))
  }

  /** One more message adds its line at the end. */
  lemma TranscriptSnoc(ms: seq<ChatMessage>, m: ChatMessage)
    ensures Transcript(ms + [m]) == Transcript(ms) + TranscriptLine(m)
  {
    var ms' := ms + [m];
    assert ms'[..|ms'| - 1] == ms;
  }

  /** The transcript is a homomorphism: appending messages appends lines. */
  lemma {:induction false} TranscriptAppend(a: seq<ChatMessage>, b: seq<ChatMessage>)
    ensures Transcript(a + b) == Transcript(a) + Transcript(b)
    decreases |b|
  {
    if |b| == 0 {
      assert a + b == a;
    } else {
      var b', m := b[..|b| - 1], b[|b| - 1];
      assert b == b' + [m];
      assert a + b == (a + b') + [m];
      TranscriptSnoc(a + b', m);
      TranscriptSnoc(b', m);
      TranscriptAppend(a, b');
      ConcatAssoc(Transcript(a), Transcript(b'), TranscriptLine(m));
    }
  }

  /** The flattened transcript keeps every message in order: when the last
      message does not end in whitespace, only the final blank line is
      trimmed off. */
  lemma TranscriptTrimsOnlyTheLastBlankLine(ms: seq<ChatMessage>)
    requires |ms| > 0
    requires var c := ms[|ms| - 1].content; |c| > 0 && !IsSpace(c[|c| - 1])
    ensures ConvertToGeminiFormat(ms) + "\n\n" == Transcript(ms)
  {
    var init, last := ms[..|ms| - 1], ms[|ms| - 1];
    var t, line, nl := Transcript(init), RolePrefix(last.role) + last.content, "\n\n";
    assert ms == init + [last];
    TranscriptSnoc(init, last);
    ConcatAssoc(t, line, nl);
    var body := t + line;
    assert Transcript(ms) == body + nl;
    assert body[|body| - 1] == last.content[|last.content| - 1];
    TranscriptOpensWithRole(ms);
    var first := RolePrefix(ms[0].role);
    RolePrefixOpensWithLetter(ms[0].role);
    assert body[0] == Transcript(ms)[0] == first[0];
    assert !IsSpace(body[0]) && !IsSpace(body[|body| - 1]);
    assert "" + body + nl == body + nl;
    TrimPadding("", body, nl);
  }

  /** The channel of the Gemini service: its chat messages are flattened
      into one transcript before they reach the model. */
  function GeminiChannel(c: GeminiClient): Channel {
    Channel("Gemini", c.configured, ms => c.generate(ConvertToGeminiFormat(ms)))
  }

  /** The channel of the OpenAI service, which sends the messages as a list. */
  function OpenAiChannel(configured: bool, complete: seq<ChatMessage> -> Option<string>): Channel {
    Channel("OpenAI", configured, complete)
  }

  // ---------------------------------------------------------------------
  // Completions

  /** A reply counts only when it has text (`!response` on the text). */
  predicate Answered(reply: Option<string>) {
    reply.Some? && |reply.value| > 0
  }

  /** `generateChatCompletion`: the trimmed reply text. A missing client
      fails before the request; any other failure, an empty reply included,
      becomes one generic error. */
  function GenerateChatCompletion(ch: Channel, ms: seq<ChatMessage>): (r: Result<string>)
    ensures !ch.configured ==> r == Err(Failure(NotInitialized(ch.service)))
    ensures ch.configured ==>
      && (r.Ok? <==> Answered(ch.send(ms)))
      && (r.Ok? ==> r.value == Trim(ch.send(ms).value))
      && (r.Err? ==> r.error == Failure(FailedResponse))
  {
    if !ch.configured then Err(Failure(NotInitialized(ch.service)))
    else
      var reply := ch.send(ms);
      if !Answered(reply) then Err(Failure(FailedResponse)) else Ok(Trim(reply.value))
  }

  /** The system-then-user pair a prompt is sent as. */
  function PromptMessages(p: Prompt): seq<ChatMessage> {
    [ChatMessage(System, p.systemPrompt), ChatMessage(User, p.userPrompt)]
  }

  /** `generateByAppType`: render the prompt, ask the model, parse the
      reply. Every failure after the client check, a missing template
      included, is reported as the same generic error. */
  function GenerateByAppType(prose: Prose, ch: Channel, parse: string -> Option<Json>, userInput: string,
                             promptConfig: Option<Json>, outputFormat: Option<Json>, appSettings: Option<Json>,
                             options: Fields): (r: Result<Json>)
    ensures !ch.configured ==> r == Err(Failure(NotInitialized(ch.service)))
    ensures ch.configured ==> r.Err? ==> r.error == Failure(FailedContent)
    ensures ch.configured ==>
      var prompt := BuildPromptFromConfig(prose, promptConfig, userInput, appSettings, options);
      && (r.Ok? <==> prompt.Ok? && Answered(ch.send(PromptMessages(prompt.value))))
      && (r.Ok? ==> r.value == ParseStructuredResponse(parse, Trim(ch.send(PromptMessages(prompt.value)).value), outputFormat))
  {
    if !ch.configured then Err(Failure(NotInitialized(ch.service)))
    else
      var prompt :- BuildPromptFromConfig(prose, promptConfig, userInput, appSettings, options).Rethrow(FailedContent);
      var reply :- GenerateChatCompletion(ch, PromptMessages(prompt)).Rethrow(FailedContent);
      Ok(ParseStructuredResponse(parse, reply, outputFormat))
  }

  /** The format hint `refineContent` parses with. */
  const ObjectHint := Some(JObj([("type", JStr("object"))]))

  /** `refineContent`: as generation, with the refinement prompt and an
      object-shaped fallback. */
  function RefineContent(prose: Prose, ch: Channel, parse: string -> Option<Json>, card: Json, aspect: string,
                         promptConfig: Option<Json>): (r: Result<Json>)
    ensures !ch.configured ==> r == Err(Failure(NotInitialized(ch.service)))
    ensures ch.configured ==> r.Err? ==> r.error == Failure(FailedRefinement)
    ensures ch.configured ==>
      var prompt := BuildRefinementPrompt(prose, card, aspect, promptConfig);
      && (r.Ok? <==> prompt.Ok? && Answered(ch.send(PromptMessages(prompt.value))))
      && (r.Ok? ==> r.value == ParseStructuredResponse(parse, Trim(ch.send(PromptMessages(prompt.value)).value), ObjectHint))
  {
    if !ch.configured then Err(Failure(NotInitialized(ch.service)))
    else
      var prompt :- BuildRefinementPrompt(prose, card, aspect, promptConfig).Rethrow(FailedRefinement);
      var reply :- GenerateChatCompletion(ch, PromptMessages(prompt)).Rethrow(FailedRefinement);
      Ok(ParseStructuredResponse(parse, reply, ObjectHint))
  }

  /** A refinement the model answers in prose becomes the object-shaped
      fallback `{content: reply}`, never an error and never an array. */
  lemma ProseRefinementIsWrapped(prose: Prose, ch: Channel, parse: string -> Option<Json>, card: Json, aspect: string,
                                 promptConfig: Option<Json>)
    requires ch.configured
    requires BuildRefinementPrompt(prose, card, aspect, promptConfig).Ok?
    requires var reply := ch.send(PromptMessages(BuildRefinementPrompt(prose, card, aspect, promptConfig).value));
      Answered(reply) && parse(Cleaned(Trim(reply.value))).None?
    ensures var reply := ch.send(PromptMessages(BuildRefinementPrompt(prose, card, aspect, promptConfig).value));
      && RefineContent(prose, ch, parse, card, aspect, promptConfig) == Ok(Fallback(Trim(reply.value), ObjectHint))
  {
  }

  /** The hint asks for an object, so the fallback is never the array form. */
  lemma ObjectHintIsNotArray()
    ensures MemberOf(ObjectHint, "type") == Some(JStr("object"))
    ensures MemberOf(ObjectHint, "type") != Some(JStr("array"))
  {
    assert "object"[0] != "array"[0];
  }

  /** The messages of `chatWithCardContext`: the advisor prompt, the
      history in order, the new message last. */
  function CardChatMessages(prose: Prose, cardContext: string, userMessage: string, history: seq<ChatMessage>): (ms: seq<ChatMessage>)
    ensures |ms| == |history| + 2
    ensures ms[0].role == System && StartsWith(ms[0].content, AdvisorIntro + cardContext)
    ensures ms[1..|ms| - 1] == history
    ensures ms[|ms| - 1] == ChatMessage(User, userMessage)
  {
    [ChatMessage(System, AdvisorPrompt(prose, cardContext))] + history + [ChatMessage(User, userMessage)]
  }

  /** `chatWithCardContext`: the trimmed reply to the card chat messages. */
  function ChatWithCardContext(prose: Prose, ch: Channel, cardContext: string, userMessage: string,
                               history: seq<ChatMessage>): (r: Result<string>)
    ensures !ch.configured ==> r == Err(Failure(NotInitialized(ch.service)))
    ensures ch.configured ==>
      var reply := ch.send(CardChatMessages(prose, cardContext, userMessage, history));
      && (r.Ok? <==> Answered(reply))
      && (r.Ok? ==> r.value == Trim(reply.value))
      && (r.Err? ==> r.error == Failure(FailedChat))
  {
    if !ch.configured then Err(Failure(NotInitialized(ch.service)))
    else GenerateChatCompletion(ch, CardChatMessages(prose, cardContext, userMessage, history)).Rethrow(FailedChat)
  }

  /** `generateSummary` (the OpenAI service delegates to the Gemini one). */
  function GenerateSummary(c: GeminiClient, lines: seq<string>): (r: Result<string>)
    ensures !c.configured ==> r == Err(Failure(NotInitialized("Gemini")))
    ensures c.configured ==>
      && (r.Ok? <==> Answered(c.generate(SummaryPrompt(lines))))
      && (r.Ok? ==> r.value == Trim(c.generate(SummaryPrompt(lines)).value))
      && (r.Err? ==> r.error == Failure(FailedSummary))
  {
    if !c.configured then Err(Failure(NotInitialized("Gemini")))
    else
      var reply := c.generate(SummaryPrompt(lines));
      if !Answered(reply) then Err(Failure(FailedSummary)) else Ok(Trim(reply.value))
  }

  /** `extractParameters`: the inference prompt is sent as raw text and the
      reply parsed as JSON. A prompt that cannot be rendered, a reply
      without text and a reply that is not JSON all become one error. */
  function ExtractParameters(c: GeminiClient, parse: string -> Option<Json>, message: string, assistant: Option<Json>): (r: Result<Json>)
    ensures !c.configured ==> r == Err(Failure(NotInitialized("Gemini")))
    ensures c.configured ==>
      var prompt := InferencePrompt(assistant, message);
      && (r.Ok? <==> prompt.Ok? && Answered(c.generate(prompt.value)) && parse(c.generate(prompt.value).value).Some?)
      && (r.Ok? ==> r.value == parse(c.generate(prompt.value).value).value)
      && (r.Err? ==> r.error == Failure(FailedExtraction))
  {
    if !c.configured then Err(Failure(NotInitialized("Gemini")))
    else
      var prompt :- InferencePrompt(assistant, message).Rethrow(FailedExtraction);
      var reply := c.generate(prompt);
      if !Answered(reply) then Err(Failure(FailedExtraction))
      else
        match parse(reply.value)
        case None => Err(Failure(FailedExtraction))
        case Some(v) => Ok(v)
  }
}
