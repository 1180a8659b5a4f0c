/** Plain chat on a thread (messages/messages.service.ts).

    A message goes to the model with the assistant's system prompt and the
    thread's whole conversation. The user's message is stored before the
    model is asked and the answer after, so a failed answer leaves the
    question behind. Every fifth exchange from the fifth on, the thread's
    summary is refreshed; a failure there is swallowed.

    The chat model is the OpenAI channel and the summary model the Gemini
    client; both are parameters. Ids of new rows are parameters too.
 */
module Messages {
  import opened Wrappers
  import opened Providers
  import opened Store

  // ---------------------------------------------------------------------
  // Conversation history

  /** `msg.sender === MessageSender.USER ? 'user' : 'assistant'`. */
  function HistoryRole(s: Sender): Role {
    if s == UserSender then User else Role.Assistant
  }

  /** Stored messages as chat turns, in the same order. */
  function ChatHistory(ms: seq<Message>): (h: seq<ChatMessage>)
    ensures |h| == |ms|
    ensures forall i :: 0 <= i < |ms| ==> h[i] == ChatMessage(HistoryRole(ms[i].sender), ms[i].content)
  {
    seq(|ms|, i requires 0 <= i < |ms| => ChatMessage(HistoryRole(ms[i].sender), ms[i].content))
  }

  lemma ChatHistoryAppend(ms: seq<Message>, m: Message)
    ensures ChatHistory(ms + [m]) == ChatHistory(ms) + [ChatMessage(HistoryRole(m.sender), m.content)]
  {
    assert forall i :: 0 <= i < |ms| ==> (ms + [m])[i] == ms[i];
  }

  /** `filter((msg) => msg.id !== id)`. */
  function Without(ms: seq<Message>, id: string): (r: seq<Message>)
    ensures |r| <= |ms|
    ensures forall m :: m in r <==> m in ms && m.id != id
  {
    if |ms| == 0 then []
    else
      var init := Without(ms[..|ms| - 1], id);
      var m := ms[|ms| - 1];
      assert ms == ms[..|ms| - 1] + [m];
      if m.id != id then init + [m] else init
  }

  /** Dropping a freshly appended row by its id gives back the log as it
      was, when no earlier row shares that id. */
  lemma {:induction false} WithoutFresh(ms: seq<Message>, m: Message)
    requires forall x :: x in ms ==> x.id != m.id
    ensures Without(ms + [m], m.id) == ms
    decreases |ms|
  {
    assert (ms + [m])[..|ms|] == ms;
    if |ms| > 0 {
      var init := ms[..|ms| - 1];
      assert ms == init + [ms[|ms| - 1]];
      WithoutKeeps(init, ms[|ms| - 1], m.id);
      WithoutFreshLog(init, m.id);
    }
  }

  lemma {:induction false} WithoutFreshLog(ms: seq<Message>, id: string)
    requires forall x :: x in ms ==> x.id != id
    ensures Without(ms, id) == ms
    decreases |ms|
  {
    if |ms| > 0 {
      var init := ms[..|ms| - 1];
      assert ms == init + [ms[|ms| - 1]];
      WithoutFreshLog(init, id);
    }
  }

  lemma WithoutKeeps(ms: seq<Message>, m: Message, id: string)
    requires m.id != id
    ensures Without(ms + [m], id) == Without(ms, id) + [m]
  {
    assert (ms + [m])[..|ms|] == ms;
  }

  /** The model's input: the assistant's system prompt, the thread's log
      without the row stored as `savedId`, then the user's text. */
  function ChatTranscript(systemPrompt: string, log: seq<Message>, savedId: string, content: string): (r: seq<ChatMessage>)
    ensures |r| == |Without(log, savedId)| + 2
    ensures r[0] == ChatMessage(System, systemPrompt) && r[|r| - 1] == ChatMessage(User, content)
    ensures forall m :: m in Without(log, savedId) ==> ChatMessage(HistoryRole(m.sender), m.content) in r
  {
    var history := ChatHistory(Without(log, savedId));
    var r := [ChatMessage(System, systemPrompt)] + history + [ChatMessage(User, content)];
    assert forall i :: 0 <= i < |history| ==> r[i + 1] == history[i];
    r
  }

  // ---------------------------------------------------------------------
  // Thread access

  /** `if (userId)`: an empty user id is falsy and skips the ownership
      check. */
  function Caller(userId: Option<string>): (r: Option<string>)
    ensures r.Some? <==> userId.Some? && userId.value != ""
    ensures r.Some? ==> r == userId
  {
    if userId.Some? && userId.value != "" then userId else None
  }

  /** `findOne(threadId)` without a caller, `findOneByUser(threadId,
      userId)` with one. */
  function FindThread(w: World, threadId: string, caller: Option<string>): (r: Result<Thread>)
    ensures r.Ok? <==> threadId in w.threads && (caller.Some? ==> w.threads[threadId].userId == caller.value)
    ensures r.Ok? ==> r.value == w.threads[threadId]
    ensures r.Err? ==> r.error.NotFound?
  {
    match caller
    case None =>
      if threadId in w.threads then Ok(w.threads[threadId])
      else Err(NotFound("Thread with ID " + threadId + " not found"))
    case Some(userId) =>
      match OwnedThread(w, threadId, userId)
      case Some(t) => Ok(t)
      case None => Err(NotFound("Thread with ID " + threadId + " not found or you don't have access to it"))
  }

  // ---------------------------------------------------------------------
  // Summary

  /** The summary is refreshed when the thread holds at least ten messages
      and their number is a multiple of five. */
  predicate SummaryDue(total: nat) {
    total >= 10 && total % 5 == 0
  }

  /** Refreshes come at least five messages apart, and once one is due
      another is due five messages later. */
  lemma SummaryDueSpacing(n: nat, m: nat)
    ensures SummaryDue(n) ==> SummaryDue(n + 5)
    ensures SummaryDue(n) && SummaryDue(m) && n < m ==> m - n >= 5
    ensures SummaryDue(n) ==> !SummaryDue(n + 1) && n >= 10
  {
  }

  /** Each exchange stores two messages, so on a thread that only sees
      exchanges the summary is refreshed after every fifth one, from the
      fifth on. */
  lemma SummaryEveryFifthExchange(exchanges: nat)
    ensures SummaryDue(2 * exchanges) <==> exchanges >= 5 && exchanges % 5 == 0
  {
    var q, r := exchanges / 5, exchanges % 5;
    assert exchanges == 5 * q + r;
    assert 2 * exchanges == 5 * (2 * q) + 2 * r;
    if r == 3 || r == 4 {
      assert 2 * exchanges == 5 * (2 * q + 1) + (2 * r - 5);
    }
  }

  /** `MessageSender`'s stored value. */
  function SenderText(s: Sender): string {
    match s
    case UserSender => "user"
    case AssistantSender => "assistant"
  }

  /** The lines `${sender}: ${content}` the summary is made from. */
  function SummaryLines(ms: seq<Message>): (r: seq<string>)
    ensures |r| == |ms|
  {
    seq(|ms|, i requires 0 <= i < |ms| => SenderText(ms[i].sender) + ": " + ms[i].content)
  }

  /** `updateThreadSummary`: the thread's summary becomes the model's
      summary of its messages; any failure leaves the store as it was. */
  function RefreshSummary(w: World, gemini: GeminiClient, threadId: string): (w': World)
    requires threadId in w.threads
    ensures var summary := GenerateSummary(gemini, SummaryLines(MessagesWhere(w.messages, threadId, None)));
      && (summary.Err? ==> w' == w)
      && (summary.Ok? ==> w' == w.(threads := w.threads[threadId := w.threads[threadId].(summary := Some(summary.value))]))
  {
    match GenerateSummary(gemini, SummaryLines(MessagesWhere(w.messages, threadId, None)))
    case Err(_) => w
    case Ok(summary) => w.(threads := w.threads[threadId := w.threads[threadId].(summary := Some(summary))])
  }

  /** What a send may do to the threads: the thread's summary is the only
      thing it may change. */
  predicate OnlySummaryChanged(w: World, w': World, threadId: string)
    requires threadId in w.threads
  {
    && w'.threads.Keys == w.threads.Keys
    && w'.threads[threadId] == w.threads[threadId].(summary := w'.threads[threadId].summary)
    && (forall k :: k in w.threads && k != threadId ==> w'.threads[k] == w.threads[k])
    && w'.assistants == w.assistants
  }

  // ---------------------------------------------------------------------
  // sendMessage

  datatype Exchange = Exchange(userMessage: Message, assistantMessage: Message)

  const NoSystemPrompt := Failure("Cannot read properties of null (reading 'systemPrompt')")

  /** Storing the answer, then refreshing the summary when the thread's
      message count calls for it. */
  function StoreAnswer(w: World, gemini: GeminiClient, threadId: string, answered: Message): (w': World)
    requires threadId in w.threads
    ensures w'.messages == w.messages + [answered]
    ensures OnlySummaryChanged(w, w', threadId)
    ensures w'.threads[threadId].summary != w.threads[threadId].summary ==>
      SummaryDue(|MessagesWhere(w.messages + [answered], threadId, None)|)
    ensures var stored := w.(messages := w.messages + [answered]);
      var summary := GenerateSummary(gemini, SummaryLines(MessagesWhere(stored.messages, threadId, None)));
      SummaryDue(|MessagesWhere(stored.messages, threadId, None)|) && summary.Ok? ==>
        w'.threads[threadId].summary == Some(summary.value)
  {
    var stored := w.(messages := w.messages + [answered]);
    if SummaryDue(|MessagesWhere(stored.messages, threadId, None)|) then RefreshSummary(stored, gemini, threadId) else stored
  }

  /** Everything after the user's message is stored: the system prompt,
      the model, then the answer. */
  function Answer(saved: World, chat: Channel, gemini: GeminiClient, t: Thread, asked: Message, aiMessageId: string): (u: Update<Exchange>)
    requires asked.threadId in saved.threads
    ensures u.result.Err? ==> u.world == saved
    ensures u.result.Ok? ==>
      && AssistantOf(saved, t).Some?
      && var transcript := ChatTranscript(AssistantOf(saved, t).value.systemPrompt,
           MessagesWhere(saved.messages, asked.threadId, None), asked.id, asked.content);
      && var answered := Message(aiMessageId, asked.threadId, None, AssistantSender, u.result.value.assistantMessage.content);
      && GenerateChatCompletion(chat, transcript) == Ok(answered.content)
      && u.result.value == Exchange(asked, answered)
      && u.world == StoreAnswer(saved, gemini, asked.threadId, answered)
  {
    match AssistantOf(saved, t)
    case None => Update(Err(NoSystemPrompt), saved)
    case Some(a) =>
      var transcript := ChatTranscript(a.systemPrompt, MessagesWhere(saved.messages, asked.threadId, None), asked.id, asked.content);
      match GenerateChatCompletion(chat, transcript)
      case Err(e) => Update(Err(e), saved)
      case Ok(reply) =>
        var answered := Message(aiMessageId, asked.threadId, None, AssistantSender, reply);
        Update(Ok(Exchange(asked, answered)), StoreAnswer(saved, gemini, asked.threadId, answered))
  }

  /** The shared body of `sendMessage` and `sendMessageByUser`, with the
      ownership check already decided. The user's message is stored first,
      whatever happens next. */
  function Send(w: World, chat: Channel, gemini: GeminiClient, threadId: string, content: string,
                caller: Option<string>, userMessageId: string, aiMessageId: string): (u: Update<Exchange>)
    ensures FindThread(w, threadId, caller).Err? ==> u == Update(Err(FindThread(w, threadId, caller).error), w)
    ensures FindThread(w, threadId, caller).Ok? ==>
      && threadId in w.threads
      && var asked := Message(userMessageId, threadId, None, UserSender, content);
      && var saved := w.(messages := w.messages + [asked]);
      && u == Answer(saved, chat, gemini, w.threads[threadId], asked, aiMessageId)
  {
    match FindThread(w, threadId, caller)
    case Err(e) => Update(Err(e), w)
    case Ok(t) =>
      var asked := Message(userMessageId, threadId, None, UserSender, content);
      Answer(w.(messages := w.messages + [asked]), chat, gemini, t, asked, aiMessageId)
  }

  /** A failed answer leaves the user's message stored on its own; a
      successful one stores the answer right after it and changes no
      thread but this one's summary. */
  lemma SendOutcome(w: World, chat: Channel, gemini: GeminiClient, threadId: string, content: string,
                    caller: Option<string>, userMessageId: string, aiMessageId: string)
    requires FindThread(w, threadId, caller).Ok?
    ensures var u := Send(w, chat, gemini, threadId, content, caller, userMessageId, aiMessageId);
      var asked := Message(userMessageId, threadId, None, UserSender, content);
      && (u.result.Err? ==> u.world == w.(messages := w.messages + [asked]))
      && (u.result.Ok? ==> u.world.messages == w.messages + [asked, u.result.value.assistantMessage])
      && (u.result.Ok? ==> OnlySummaryChanged(w, u.world, threadId))
  {
    var asked := Message(userMessageId, threadId, None, UserSender, content);
    var saved := w.(messages := w.messages + [asked]);
    AnswerOutcome(saved, chat, gemini, w.threads[threadId], asked, aiMessageId);
  }

  /** What an answer does to the store it is given. */
  lemma AnswerOutcome(saved: World, chat: Channel, gemini: GeminiClient, t: Thread, asked: Message, aiMessageId: string)
    requires asked.threadId in saved.threads
    ensures var u := Answer(saved, chat, gemini, t, asked, aiMessageId);
      && (u.result.Ok? ==> u.world.messages == saved.messages + [u.result.value.assistantMessage])
      && (u.result.Ok? ==> OnlySummaryChanged(saved, u.world, asked.threadId))
  {
  }

  /** `sendMessage(dto, userId?)`. */
  function SendMessage(w: World, chat: Channel, gemini: GeminiClient, threadId: string, content: string,
                       userId: Option<string>, userMessageId: string, aiMessageId: string): (u: Update<Exchange>)
    ensures u == Send(w, chat, gemini, threadId, content, Caller(userId), userMessageId, aiMessageId)
    ensures u.result.Ok? ==> threadId in w.threads
    ensures u.result.Ok? && Caller(userId).Some? ==> w.threads[threadId].userId == userId.value
  {
    Send(w, chat, gemini, threadId, content, Caller(userId), userMessageId, aiMessageId)
  }

  /** `sendMessageByUser(dto, userId)`: ownership is always checked, even
      for an empty user id. */
  function SendMessageByUser(w: World, chat: Channel, gemini: GeminiClient, threadId: string, content: string,
                             userId: string, userMessageId: string, aiMessageId: string): (u: Update<Exchange>)
    ensures u.result.Ok? ==> threadId in w.threads && w.threads[threadId].userId == userId
    ensures userId != "" ==> u == SendMessage(w, chat, gemini, threadId, content, Some(userId), userMessageId, aiMessageId)
  {
    Send(w, chat, gemini, threadId, content, Some(userId), userMessageId, aiMessageId)
  }

  /** With a fresh id for the user's message, the model sees the system
      prompt, then the thread's whole conversation before this message,
      oldest first, then the message itself. */
  lemma FreshSendTranscript(ms: seq<Message>, threadId: string, systemPrompt: string, userMessageId: string, content: string)
    requires forall m :: m in ms ==> m.id != userMessageId
    ensures var asked := Message(userMessageId, threadId, None, UserSender, content);
      ChatTranscript(systemPrompt, MessagesWhere(ms + [asked], threadId, None), userMessageId, content) ==
        [ChatMessage(System, systemPrompt)] + ChatHistory(MessagesWhere(ms, threadId, None)) + [ChatMessage(User, content)]
  {
    var asked := Message(userMessageId, threadId, None, UserSender, content);
    MessagesWhereAppend(ms, asked, threadId, None);
    WithoutFresh(MessagesWhere(ms, threadId, None), asked);
  }

  /** With a fresh id for the user's message, a successful send asked the
      model about the system prompt, the thread's whole earlier
      conversation in order, and the new message last. */
  lemma SendSeesWholeConversation(w: World, chat: Channel, gemini: GeminiClient, threadId: string, content: string,
                                  caller: Option<string>, userMessageId: string, aiMessageId: string)
    requires forall m :: m in w.messages ==> m.id != userMessageId
    requires Send(w, chat, gemini, threadId, content, caller, userMessageId, aiMessageId).result.Ok?
    ensures var u := Send(w, chat, gemini, threadId, content, caller, userMessageId, aiMessageId);
      && threadId in w.threads && AssistantOf(w, w.threads[threadId]).Some?
      && GenerateChatCompletion(chat,
           [ChatMessage(System, AssistantOf(w, w.threads[threadId]).value.systemPrompt)]
             + ChatHistory(MessagesWhere(w.messages, threadId, None))
             + [ChatMessage(User, content)])
         == Ok(u.result.value.assistantMessage.content)
  {
    var u := Send(w, chat, gemini, threadId, content, caller, userMessageId, aiMessageId);
    var asked := Message(userMessageId, threadId, None, UserSender, content);
    FreshSendTranscript(w.messages, threadId, AssistantOf(w, w.threads[threadId]).value.systemPrompt, userMessageId, content);
  }

  // ---------------------------------------------------------------------
  // findOne and remove

  /** `messageRepository.findOne({ where: { id } })`. */
  function MessageById(ms: seq<Message>, id: string): (r: Option<Message>)
    ensures r.Some? ==> r.value in ms && r.value.id == id
    ensures r.None? <==> forall m :: m in ms ==> m.id != id
  {
    if |ms| == 0 then None
    else if ms[0].id == id then Some(ms[0])
    else
      var r := MessageById(ms[1..], id);
      assert forall m :: m in ms ==> m == ms[0] || m in ms[1..];
      r
  }

  const NotYours := Forbidden("You can only access messages from your own threads")

  function MessageNotFound(id: string): Error {
    NotFound("Message with ID " + id + " not found")
  }

  /** The ownership check on a message's thread. Reading `userId` of a
      missing thread relation throws. */
  function CheckOwner(w: World, m: Message, userId: string): (r: Result<Message>)
    ensures r.Ok? <==> m.threadId in w.threads && w.threads[m.threadId].userId == userId
    ensures r.Ok? ==> r.value == m
    ensures m.threadId in w.threads && w.threads[m.threadId].userId != userId ==> r == Err(NotYours)
  {
    if m.threadId !in w.threads then Err(Failure("Cannot read properties of null (reading 'userId')"))
    else if w.threads[m.threadId].userId != userId then Err(NotYours)
    else Ok(m)
  }

  /** `findOne(id, userId?)`: a missing message is NotFound; a caller who
      does not own its thread is Forbidden; without a caller nothing is
      checked. */
  function FindOne(w: World, id: string, userId: Option<string>): (r: Result<Message>)
    ensures MessageById(w.messages, id).None? ==> r == Err(MessageNotFound(id))
    ensures MessageById(w.messages, id).Some? && Caller(userId).None? ==> r == Ok(MessageById(w.messages, id).value)
    ensures Caller(userId).Some? ==>
      (r.Ok? <==> && MessageById(w.messages, id).Some?
                  && var m := MessageById(w.messages, id).value;
                  m.threadId in w.threads && w.threads[m.threadId].userId == userId.value)
    ensures r.Ok? ==> r.value in w.messages && r.value.id == id
  {
    match MessageById(w.messages, id)
    case None => Err(MessageNotFound(id))
    case Some(m) =>
      if Caller(userId).None? then Ok(m) else CheckOwner(w, m, userId.value)
  }

  /** `findOneByUser(id, userId)`: ownership is always checked. */
  function FindOneByUser(w: World, id: string, userId: string): (r: Result<Message>)
    ensures r.Ok? ==> r.value in w.messages && r.value.id == id && r.value.threadId in w.threads
    ensures r.Ok? ==> w.threads[r.value.threadId].userId == userId
    ensures userId != "" ==> r == FindOne(w, id, Some(userId))
  {
    match MessageById(w.messages, id)
    case None => Err(MessageNotFound(id))
    case Some(m) => CheckOwner(w, m, userId)
  }

  /** `remove(id, userId?)`: the message row goes, nothing else changes. */
  function Remove(w: World, id: string, userId: Option<string>): (u: Update<()>)
    ensures u.result.Err? <==> FindOne(w, id, userId).Err?
    ensures u.result.Err? ==> u.world == w && u.result.error == FindOne(w, id, userId).error
    ensures u.result.Ok? ==> u.world == w.(messages := Without(w.messages, id))
  {
    match FindOne(w, id, userId)
    case Err(e) => Update(Err(e), w)
    case Ok(m) => Update(Ok(()), w.(messages := Without(w.messages, m.id)))
  }

  /** `removeByUser(id, userId)`. */
  function RemoveByUser(w: World, id: string, userId: string): (u: Update<()>)
    ensures u.result.Err? <==> FindOneByUser(w, id, userId).Err?
    ensures u.result.Err? ==> u.world == w
    ensures u.result.Ok? ==> u.world == w.(messages := Without(w.messages, id))
  {
    match FindOneByUser(w, id, userId)
    case Err(e) => Update(Err(e), w)
    case Ok(m) => Update(Ok(()), w.(messages := Without(w.messages, m.id)))
  }

  /** A removed message cannot be found again, by anyone. */
  lemma RemovedIsGone(w: World, id: string, userId: Option<string>, anyone: Option<string>)
    requires Remove(w, id, userId).result.Ok?
    ensures FindOne(Remove(w, id, userId).world, id, anyone) == Err(MessageNotFound(id))
  {
  }
}
