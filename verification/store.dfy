/** The rows the services read and write, and the store that holds them.

    A repository is a map from primary key to row; the message table is a
    sequence in `createdAt` order, since every query on it sorts that way.
    Row ids the database generates (uuid columns) are parameters of the
    operations that insert rows. `jsonb` columns that may be `NULL` hold
    `JNull` then. Timestamps are strings supplied by the caller.
 */
module Store {
  import opened Wrappers
  import opened Json

  /** `Assistant` (assistant.entity.ts): only the columns the core reads. */
  datatype Assistant = Assistant(
    id: string,
    name: string,
    systemPrompt: string,
    isActive: bool,
    appType: string,
    promptConfig: Json,
    outputFormat: Json,
    appSettings: Json)

  /** `Thread` (thread.entity.ts). All generation bookkeeping lives in the
      free-form `metadata` column. */
  datatype Thread = Thread(
    id: string,
    userId: string,
    assistantId: string,
    title: string,
    summary: Option<string>,
    metadata: Json)

  /** `MessageSender`: who wrote a message. */
  datatype Sender = UserSender | AssistantSender

  /** `Message` (message.entity.ts): `cardId` is set for card chats only. */
  datatype Message = Message(
    id: string,
    threadId: string,
    cardId: Option<string>,
    sender: Sender,
    content: string)

  datatype World = World(
    assistants: map<string, Assistant>,
    threads: map<string, Thread>,
    messages: seq<Message>)

  /** The outcome of an operation and the store after it. */
  datatype Update<T> = Update(result: Result<T>, world: World)

  /** `findOne({ where: { id, userId } })`: a thread is visible only to its
      owner. */
  function OwnedThread(w: World, id: string, userId: string): (r: Option<Thread>)
    ensures r.Some? <==> id in w.threads && w.threads[id].userId == userId
    ensures r.Some? ==> r.value == w.threads[id]
  {
    if id in w.threads && w.threads[id].userId == userId then Some(w.threads[id]) else None
  }

  /** The `assistant` relation of a thread, `null` when the row is gone. */
  function AssistantOf(w: World, t: Thread): (r: Option<Assistant>)
    ensures r.Some? <==> t.assistantId in w.assistants
  {
    if t.assistantId in w.assistants then Some(w.assistants[t.assistantId]) else None
  }

  /** `findAssistant`: the row with that id, only while it is active. */
  function FindAssistant(w: World, appId: string): (r: Option<Assistant>)
    ensures r.Some? <==> appId in w.assistants && w.assistants[appId].isActive
    ensures r.Some? ==> r.value == w.assistants[appId]
  {
    if appId in w.assistants && w.assistants[appId].isActive then Some(w.assistants[appId]) else None
  }

  /** `threadRepository.update(id, { metadata })`. */
  function UpdateMetadata(w: World, id: string, metadata: Json): (w': World)
    requires id in w.threads
    ensures w'.threads.Keys == w.threads.Keys
    ensures w'.threads[id] == w.threads[id].(metadata := metadata)
    ensures forall k :: k in w.threads && k != id ==> w'.threads[k] == w.threads[k]
    ensures w'.assistants == w.assistants && w'.messages == w.messages
  {
    w.(threads := w.threads[id := w.threads[id].(metadata := metadata)])
  }

  /** `messageRepository.find({ where: { threadId[, cardId] }, order:
      { createdAt: 'ASC' } })`: the matching messages, oldest first. */
  function MessagesWhere(ms: seq<Message>, threadId: string, cardId: Option<string>): (r: seq<Message>)
    ensures |r| <= |ms|
    ensures forall m :: m in r <==> m in ms && m.threadId == threadId && (cardId.Some? ==> m.cardId == cardId)
  {
    if |ms| == 0 then []
    else
      var init := MessagesWhere(ms[..|ms| - 1], threadId, cardId);
      var m := ms[|ms| - 1];
      assert ms == ms[..|ms| - 1] + [m];
      if m.threadId == threadId && (cardId.Some? ==> m.cardId == cardId) then init + [m] else init
  }

  /** Filtering the log after appending is filtering it before, then the
      appended row when it matches: each query sees new rows last. */
  lemma MessagesWhereAppend(ms: seq<Message>, m: Message, threadId: string, cardId: Option<string>)
    ensures MessagesWhere(ms + [m], threadId, cardId) ==
      MessagesWhere(ms, threadId, cardId)
        + (if m.threadId == threadId && (cardId.Some? ==> m.cardId == cardId) then [m] else [])
  {
    assert (ms + [m])[..|ms|] == ms;
  }
}
