/** app/api/chat/route.ts and app/api/profile/route.ts: the two POST
    handlers, as fixed sequences of store operations and generator calls.
    The generators come from a module that is not part of this model; they
    are oracles with the signatures of `OpenAi.GenerateChatResponse` and
    `OpenAi.GeneratePersonalityProfile`. Each handler also returns the list
    of downstream calls it made, in order. */
module Routes {
  import opened Wrappers
  import opened Tables
  import opened Db
  import OpenAi

  /** The fields read from the JSON body; `None` for a missing field. */
  datatype ChatRequest = ChatRequest(userId: Option<string>, message: Option<string>)
  datatype ProfileRequest = ProfileRequest(userId: Option<string>)

  datatype Body =
    | ChatReply(conversationId: Id, messageId: Id, response: string)
    | ProfileReply(profile: string)
    | ErrorReply(error: string)

  datatype Response = Response(status: nat, body: Body)

  /** The downstream calls of the handlers. */
  datatype Call =
    | GetOrCreateConversation
    | GetConversationHistory
    | SaveMessage(role: Role)
    | GenerateChatResponse
    | GetAllUserMessages
    | GetUserProfile
    | GeneratePersonalityProfile
    | SaveUserProfile

  /** Whether each backend statement of a chat request succeeds. */
  datatype ChatFaults = ChatFaults(
    fetchOk: bool, createOk: bool, historyOk: bool,
    userInsertOk: bool, userBumpOk: bool, assistantInsertOk: bool, assistantBumpOk: bool)

  /** Whether each backend statement of a profile request succeeds. */
  datatype ProfileFaults = ProfileFaults(conversationsOk: bool, messagesOk: bool, profileReadOk: bool, upsertOk: bool)

  type ChatGenerator = (seq<OpenAi.ChatMessage>, seq<Message>) -> Result<string>
  type ProfileGenerator = seq<Message> -> Result<string>

  /** Every call of a chat request that runs to the end, in order. */
  const ChatCalls: seq<Call> :=
    [GetOrCreateConversation, GetConversationHistory, SaveMessage(User), GenerateChatResponse, SaveMessage(Assistant)]

  /** Every call of a profile request that runs to the end, in order. */
  const ProfileCalls: seq<Call> :=
    [GetAllUserMessages, GetUserProfile, GeneratePersonalityProfile, SaveUserProfile]

  /** What every caught exception becomes. */
  const InternalError: Response := Response(500, ErrorReply("Internal server error"))

  /** The minimum number of stored messages for a profile to be generated. */
  const ProfileThreshold: nat := 3

  /** JavaScript truthiness of an optional string field. */
  predicate Truthy(v: Option<string>) {
    v.Some? && v.value != ""
  }

  // ---------------------------------------------------------------------
  // POST /api/chat

  /** The part of the store a chat request can change. */
  datatype ChatTables = ChatTables(conversations: seq<Conversation>, messages: seq<Message>, clock: nat, nextId: Id)

  function TablesOf(store: Store): ChatTables
    reads store
  {
    ChatTables(store.conversations, store.messages, store.clock, store.nextId)
  }

  /** What the first half of a chat request leaves: the conversation id (or
      the error that ends the request), the history read, the calls made and
      the tables. */
  datatype ConversationOutcome =
    ConversationOutcome(conversation: Result<Id>, history: seq<Message>, calls: seq<Call>, tables: ChatTables)

  /** What a chat request (or its second half) leaves: the response, the
      calls made and the tables. */
  datatype ChatOutcome = ChatOutcome(response: Response, calls: seq<Call>, tables: ChatTables)

  /** `saveMessage` when its insert succeeds at clock reading `st.clock`:
      the message is appended with the next id, then the conversation is
      bumped at the following tick unless the update is refused. */
  function Saved(st: ChatTables, cid: Id, role: Role, content: string, bumpOk: bool): ChatTables {
    ChatTables(
      if bumpOk then Bump(st.conversations, cid, st.clock + 1) else st.conversations,
      st.messages + [Message(st.nextId, cid, role, content, st.clock)],
      st.clock + 2, st.nextId + 1)
  }

  /** `getConversationHistory(cid)` at the end of the first half. */
  function HistoryStep(st: ChatTables, cid: Id, historyOk: bool): ConversationOutcome {
    if historyOk then ConversationOutcome(Ok(cid), History(st.messages, cid, DefaultHistoryLimit), ChatCalls[..2], st)
    else ConversationOutcome(Err("Failed to fetch conversation history"), [], ChatCalls[..2], st)
  }

  /** The first half of `POST /api/chat` (route.ts lines 20-24):
      `getOrCreateConversation(userId)`, then the history of that
      conversation. */
  function ConversationHalf(st: ChatTables, userId: string, faults: ChatFaults): ConversationOutcome {
    var latest := LatestConversation(st.conversations, userId);
    if faults.fetchOk && latest.Some? then
      HistoryStep(st, latest.value.id, faults.historyOk)
    else if faults.createOk then
      var created := ChatTables(st.conversations + [Conversation(st.nextId, userId, st.clock, st.clock)],
                                st.messages, st.clock + 1, st.nextId + 1);
      HistoryStep(created, st.nextId, faults.historyOk)
    else
      ConversationOutcome(Err("Failed to create conversation"), [], ChatCalls[..1], st)
  }

  /** The second half (route.ts lines 26-46): save the user message,
      generate the reply from that message alone and the history, save the
      reply as the assistant message. A save fails when its insert is
      refused or the conversation does not exist; once the first save has
      succeeded the conversation exists, so only a refusal can fail the
      second. */
  function ExchangeHalf(st: ChatTables, cid: Id, message: string, history: seq<Message>,
                        faults: ChatFaults, generate: ChatGenerator): ChatOutcome
  {
    if !faults.userInsertOk || !HasConversation(st.conversations, cid) then
      ChatOutcome(InternalError, ChatCalls[..3], st)
    else
      var afterUser := Saved(st, cid, User, message, faults.userBumpOk);
      var reply := generate([OpenAi.ChatMessage(User, message)], history);
      if reply.Err? then
        ChatOutcome(InternalError, ChatCalls[..4], afterUser)
      else if !faults.assistantInsertOk then
        ChatOutcome(InternalError, ChatCalls, afterUser)
      else
        ChatOutcome(Response(200, ChatReply(cid, afterUser.nextId, reply.value)), ChatCalls,
                    Saved(afterUser, cid, Assistant, reply.value, faults.assistantBumpOk))
  }

  /** A chat request whose body has a truthy `userId` and `message`: the
      two halves in sequence, a failed first half being a 500. */
  function ChatRequestOutcome(st: ChatTables, userId: string, message: string,
                              faults: ChatFaults, generate: ChatGenerator): ChatOutcome
  {
    var c := ConversationHalf(st, userId, faults);
    if c.conversation.Err? then ChatOutcome(InternalError, c.calls, c.tables)
    else ExchangeHalf(c.tables, c.conversation.value, message, c.history, faults, generate)
  }

  /** The second half, failure by failure: which calls were made, what the
      response is, which messages were appended (the user message, then the
      assistant message, each with the next id and timestamp); the
      conversations table changes only in `updated_at`. The writes made
      before a failure stay. */
  lemma ExchangeSteps(st: ChatTables, cid: Id, message: string, history: seq<Message>,
                      faults: ChatFaults, generate: ChatGenerator)
    requires HasConversation(st.conversations, cid)
    ensures
      var r := ExchangeHalf(st, cid, message, history, faults, generate);
      var reply := generate([OpenAi.ChatMessage(User, message)], history);
      var userMessage := Message(st.nextId, cid, User, message, st.clock);
      && Keys(r.tables.conversations) == Keys(st.conversations)
      && if !faults.userInsertOk then
        r == ChatOutcome(InternalError, ChatCalls[..3], st)
      else if reply.Err? then
        r.response == InternalError && r.calls == ChatCalls[..4] && r.tables.messages == st.messages + [userMessage]
      else if !faults.assistantInsertOk then
        r.response == InternalError && r.calls == ChatCalls && r.tables.messages == st.messages + [userMessage]
      else
        var assistantMessage := Message(st.nextId + 1, cid, Assistant, reply.value, st.clock + 2);
        && r.calls == ChatCalls
        && r.tables.messages == st.messages + [userMessage, assistantMessage]
        && r.response == Response(200, ChatReply(cid, assistantMessage.id, reply.value))
  {
    if faults.userInsertOk {
      var afterUser := Saved(st, cid, User, message, faults.userBumpOk);
      BumpSameKeys(st.conversations, cid, st.clock + 1);
      BumpSameKeys(afterUser.conversations, cid, afterUser.clock + 1);
    }
  }

  /** A whole chat request, failure by failure: a failed create ends it with
      nothing written; otherwise the conversation table gains one row for
      the user exactly when no conversation was reused, the history is read
      from the messages as they were, and the second half runs on the
      conversation found or created, with the ids and timestamps moved on by
      the insert. */
  lemma ChatSteps(st: ChatTables, userId: string, message: string, faults: ChatFaults, generate: ChatGenerator)
    ensures
      var r := ChatRequestOutcome(st, userId, message, faults, generate);
      var latest := LatestConversation(st.conversations, userId);
      var reused := faults.fetchOk && latest.Some?;
      var k := if reused then 0 else 1;
      var cid := if reused then latest.value.id else st.nextId;
      var rows := st.conversations + (if reused then [] else [Conversation(st.nextId, userId, st.clock, st.clock)]);
      var history := History(st.messages, cid, DefaultHistoryLimit);
      var mid := ChatTables(rows, st.messages, st.clock + k, st.nextId + k);
      && (!reused && !faults.createOk ==> r == ChatOutcome(InternalError, ChatCalls[..1], st))
      && (reused || faults.createOk ==>
          && HasConversation(rows, cid)
          && (!faults.historyOk ==> r == ChatOutcome(InternalError, ChatCalls[..2], mid))
          && (faults.historyOk ==> r == ExchangeHalf(mid, cid, message, history, faults, generate)))
  {
    var latest := LatestConversation(st.conversations, userId);
    if faults.fetchOk && latest.Some? {
      var i :| 0 <= i < |st.conversations| && st.conversations[i] == latest.value;
      assert st.conversations + [] == st.conversations;
      assert st.conversations[i].id == latest.value.id;
    } else if faults.createOk {
      LatestOfAppend(st.conversations, Conversation(st.nextId, userId, st.clock, st.clock));
    }
  }

  /** Rows with the same keys have the same ids. */
  lemma HasConversationKept(a: seq<Conversation>, b: seq<Conversation>, id: Id)
    requires Keys(a) == Keys(b) && HasConversation(a, id)
    ensures HasConversation(b, id)
  {
    var i :| 0 <= i < |a| && a[i].id == id;
    assert |a| == |Keys(a)| == |Keys(b)| == |b|;
    assert Keys(a)[i] == Keys(b)[i];
  }

  /** The history handed to the generator is read before the user message
      is saved, so it does not hold that message, and the history of a
      conversation created by the request is empty. */
  lemma HistoryBeforeSave(st: ChatTables, userId: string, faults: ChatFaults, message: string)
    requires ConversationsValid(st.conversations, st.clock, st.nextId)
    requires MessagesValid(st.messages, st.conversations, st.clock, st.nextId)
    ensures
      var c := ConversationHalf(st, userId, faults);
      var reused := faults.fetchOk && LatestConversation(st.conversations, userId).Some?;
      c.conversation.Ok? ==>
        && c.history == History(st.messages, c.conversation.value, DefaultHistoryLimit)
        && Message(c.tables.nextId, c.conversation.value, User, message, c.tables.clock) !in c.history
        && (!reused ==> c.history == [])
  {
    var c := ConversationHalf(st, userId, faults);
    if c.conversation.Ok? {
      NextConversationHasNoHistory(st.messages, st.conversations, st.clock, st.nextId, DefaultHistoryLimit);
      FreshMessageNotInHistory(st.messages, st.conversations, st.clock, st.nextId,
                               Message(c.tables.nextId, c.conversation.value, User, message, c.tables.clock),
                               c.conversation.value, DefaultHistoryLimit);
    }
  }

  /** Once a request has found or created its conversation, that
      conversation is the user's newest whatever the rest of the request
      does, so the next request whose lookup succeeds reuses it. */
  lemma ChatReusesConversation(st: ChatTables, userId: string, message: string, faults: ChatFaults,
                               generate: ChatGenerator, next: ChatFaults)
    requires next.fetchOk
    ensures
      var c := ConversationHalf(st, userId, faults);
      var r := ChatRequestOutcome(st, userId, message, faults, generate);
      c.conversation.Ok? ==>
        && LatestConversation(r.tables.conversations, userId).Some?
        && LatestConversation(r.tables.conversations, userId).value.id == c.conversation.value
        && ConversationHalf(r.tables, userId, next).tables == r.tables
        && (next.historyOk ==> ConversationHalf(r.tables, userId, next).conversation == Ok(c.conversation.value))
  {
    var c := ConversationHalf(st, userId, faults);
    if c.conversation.Ok? {
      var latest := LatestConversation(st.conversations, userId);
      var rows := c.tables.conversations;
      assert LatestConversation(rows, userId).Some? && LatestConversation(rows, userId).value.id == c.conversation.value by {
        if !(faults.fetchOk && latest.Some?) {
          LatestOfAppend(st.conversations, Conversation(st.nextId, userId, st.clock, st.clock));
        }
      }
      var r := ChatRequestOutcome(st, userId, message, faults, generate);
      ChatSteps(st, userId, message, faults, generate);
      ExchangeSteps(c.tables, c.conversation.value, message, c.history, faults, generate);
      SameKeysSameSelection(r.tables.conversations, rows, userId);
    }
  }

  /** `POST /api/chat`. A body that cannot be read is an exception (500); a
      falsy `userId` or `message` is a 400 with no store operation.
      Otherwise the request runs as `ChatRequestOutcome` describes. */
  method ChatPost(store: Store, body: Option<ChatRequest>, faults: ChatFaults, generate: ChatGenerator)
    returns (response: Response, calls: seq<Call>)
    requires store.Valid()
    modifies store
    ensures store.Valid()
    ensures store.profiles == old(store.profiles)
    ensures body.None? ==> response == InternalError && calls == [] && unchanged(store)
    ensures body.Some? && !(Truthy(body.value.userId) && Truthy(body.value.message)) ==>
      response == Response(400, ErrorReply("Missing userId or message")) && calls == [] && unchanged(store)
    ensures body.Some? && Truthy(body.value.userId) && Truthy(body.value.message) ==>
      ChatOutcome(response, calls, TablesOf(store))
        == ChatRequestOutcome(old(TablesOf(store)), body.value.userId.value, body.value.message.value, faults, generate)
  {
    calls := [];
    if body.None? {
      return InternalError, calls;
    }
    if !Truthy(body.value.userId) || !Truthy(body.value.message) {
      return Response(400, ErrorReply("Missing userId or message")), calls;
    }
    var userId, message := body.value.userId.value, body.value.message.value;
    var conversation, history;
    conversation, history, calls := ChatConversation(store, userId, faults);
    if conversation.Err? {
      return InternalError, calls;
    }
    response, calls := ChatExchange(store, conversation.value, message, history, faults, generate);
  }

  /** The first half of `POST /api/chat` on the store. */
  method ChatConversation(store: Store, userId: string, faults: ChatFaults)
    returns (conversation: Result<Id>, history: seq<Message>, calls: seq<Call>)
    requires store.Valid()
    modifies store
    ensures store.Valid()
    ensures store.profiles == old(store.profiles)
    ensures ConversationOutcome(conversation, history, calls, TablesOf(store))
      == ConversationHalf(old(TablesOf(store)), userId, faults)
  {
    ghost var st := TablesOf(store);
    history := [];
    calls := ChatCalls[..1];
    conversation := store.GetOrCreateConversation(userId, faults.fetchOk, faults.createOk);
    if conversation.Err? {
      return;
    }
    assert ConversationHalf(st, userId, faults) == HistoryStep(TablesOf(store), conversation.value, faults.historyOk);

    calls := ChatCalls[..2];
    var read := store.GetConversationHistory(conversation.value, faults.historyOk);
    if read.Err? {
      return Err(read.error), history, calls;
    }
    history := read.value;
  }

  /** The second half of `POST /api/chat` on the store. */
  method ChatExchange(store: Store, cid: Id, message: string, history: seq<Message>,
                      faults: ChatFaults, generate: ChatGenerator)
    returns (response: Response, calls: seq<Call>)
    requires store.Valid()
    modifies store
    ensures store.Valid()
    ensures store.profiles == old(store.profiles)
    ensures ChatOutcome(response, calls, TablesOf(store))
      == ExchangeHalf(old(TablesOf(store)), cid, message, history, faults, generate)
  {
    calls := ChatCalls[..3];
    var userSaved := SaveStep(store, cid, User, message, faults.userInsertOk, faults.userBumpOk);
    if !userSaved {
      return InternalError, calls;
    }

    calls := ChatCalls[..4];
    var reply := generate([OpenAi.ChatMessage(User, message)], history);
    if reply.Err? {
      return InternalError, calls;
    }

    calls := ChatCalls;
    var assistantId := store.nextId;
    var assistantSaved := SaveStep(store, cid, Assistant, reply.value, faults.assistantInsertOk, faults.assistantBumpOk);
    if !assistantSaved {
      return InternalError, calls;
    }
    response := Response(200, ChatReply(cid, assistantId, reply.value));
  }

  /** `saveMessage` as the chat handler uses it: whether the insert
      succeeded, and the tables after it. */
  method SaveStep(store: Store, cid: Id, role: Role, content: string, insertOk: bool, bumpOk: bool)
    returns (saved: bool)
    requires store.Valid()
    modifies store
    ensures store.Valid()
    ensures store.profiles == old(store.profiles)
    ensures saved <==> insertOk && HasConversation(old(store.conversations), cid)
    ensures saved ==> HasConversation(store.conversations, cid)
    ensures TablesOf(store) == if saved then Saved(old(TablesOf(store)), cid, role, content, bumpOk) else old(TablesOf(store))
  {
    var r := store.SaveMessage(cid, role, content, insertOk, bumpOk);
    saved := r.Ok?;
  }

  /** `POST /api/profile`. A body that cannot be read is a 500; a falsy
      `userId` is a 400 with no store read. With fewer than three stored
      messages (of either role) the canned answer is returned without
      generating or writing anything. Otherwise the existing profile is read
      (and ignored), a new one is generated from all the messages and saved
      unconditionally, and the saved text is returned. Any failure is a 500
      and leaves the profiles as they were. */
  method ProfilePost(store: Store, body: Option<ProfileRequest>, faults: ProfileFaults, generate: ProfileGenerator)
    returns (response: Response, calls: seq<Call>)
    requires store.Valid()
    modifies store
    ensures store.Valid()
    ensures store.conversations == old(store.conversations) && store.messages == old(store.messages)
    ensures store.nextId == old(store.nextId)
    ensures calls <= ProfileCalls
    ensures response.status == 200 || response.status == 400 || response == InternalError
    ensures response.status != 200 ==> store.profiles == old(store.profiles)
    ensures body.None? ==> response == InternalError && calls == [] && unchanged(store)
    ensures body.Some? && !Truthy(body.value.userId) ==>
      response == Response(400, ErrorReply("Missing userId")) && calls == [] && unchanged(store)
    ensures body.Some? && Truthy(body.value.userId) ==>
      var userId := body.value.userId.value;
      var noConversations := ConversationIds(old(store.conversations), userId) == {};
      var all := UserMessages(old(store.conversations), old(store.messages), userId);
      var text := generate(all);
      if !faults.conversationsOk || (!noConversations && !faults.messagesOk) then
        response == InternalError && calls == ProfileCalls[..1] && store.profiles == old(store.profiles) && store.clock == old(store.clock)
      else if |all| < ProfileThreshold then
        response == Response(200, ProfileReply(OpenAi.NotEnoughInformation))
        && calls == ProfileCalls[..1] && store.profiles == old(store.profiles) && store.clock == old(store.clock)
      else if !faults.profileReadOk then
        response == InternalError && calls == ProfileCalls[..2] && store.profiles == old(store.profiles) && store.clock == old(store.clock)
      else if text.Err? then
        response == InternalError && calls == ProfileCalls[..3] && store.profiles == old(store.profiles) && store.clock == old(store.clock)
      else if InvalidUserId(userId) || !faults.upsertOk then
        response == InternalError && calls == ProfileCalls && store.profiles == old(store.profiles) && store.clock == old(store.clock)
      else
        && response == Response(200, ProfileReply(text.value))
        && calls == ProfileCalls
        && store.profiles == Upsert(old(store.profiles), userId, text.value, old(store.clock))
        && FindProfile(store.profiles, userId).Some?
        && FindProfile(store.profiles, userId).value.profileText == text.value
  {
    calls := [];
    if body.None? {
      return InternalError, calls;
    }
    if !Truthy(body.value.userId) {
      return Response(400, ErrorReply("Missing userId")), calls;
    }
    var userId := body.value.userId.value;

    calls := ProfileCalls[..1];
    var messages := store.GetAllUserMessages(userId, faults.conversationsOk, faults.messagesOk);
    if messages.Err? {
      return InternalError, calls;
    }
    if ConversationIds(store.conversations, userId) == {} {
      NoConversationsNoMessages(store.conversations, store.messages, userId);
    }
    if |messages.value| < ProfileThreshold {
      return Response(200, ProfileReply(OpenAi.NotEnoughInformation)), calls;
    }

    calls := ProfileCalls[..2];
    var existingProfile := store.GetUserProfile(userId, faults.profileReadOk);
    if existingProfile.Err? {
      return InternalError, calls;
    }

    calls := ProfileCalls[..3];
    var profileText := generate(messages.value);
    if profileText.Err? {
      return InternalError, calls;
    }

    calls := ProfileCalls;
    var saved := store.SaveUserProfile(userId, profileText.value, faults.upsertOk);
    if saved.Err? {
      return InternalError, calls;
    }
    response := Response(200, ProfileReply(profileText.value));
  }
}
