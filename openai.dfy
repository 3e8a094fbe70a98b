/** lib/openai.ts: assembling the chat context and the profile prompt. The
    chat-completion API is an oracle, a function from the list of
    role-tagged messages sent to it to what came back. */
module OpenAi {
  import opened Wrappers
  import opened Tables
  import Text

  /** One `{role, content}` entry of a chat-completion request. */
  datatype ChatMessage = ChatMessage(role: Role, content: string)

  /** What a completion call yields: the first choice's content, which may
      be absent, or a thrown error. */
  datatype Completion = Completed(content: Option<string>) | Failed

  /** The persona instruction that opens every chat context. */
  const SystemPrompt: string :=
    "You are a friendly and engaging AI chatbot. You learn from conversations and remember details about users. \n"
    + "    Be conversational, helpful, and remember important details the user shares."

  /** The system message is sent with role "assistant". */
  const SystemMessage: ChatMessage := ChatMessage(Assistant, SystemPrompt)

  const ChatFallback: string := "Sorry, I could not generate a response."
  const ChatFailure: string := "Failed to generate chat response"
  const NotEnoughInformation: string :=
    "I don't have enough information about you yet. Please chat with me more so I can learn about you!"
  const ProfileFallback: string := "Unable to generate profile at this time."
  const ProfileFailure: string := "Failed to generate personality profile"

  /** The profile prompt template, before and after the user's text. */
  const PromptHead: string :=
    "Based on the following conversation history, create a personality-style profile of the user. \n"
    + "  Focus on their interests, personality traits, communication style, preferences, and any notable characteristics.\n"
    + "  Write it in a friendly, engaging way as if you're describing a friend.\n"
    + "  \n"
    + "  Conversation history:\n"
    + "  "
  const PromptTail: string := "\n  \n  Create a personality profile:"

  /** `conversationHistory.map(msg => ({role: msg.role, content: msg.content}))`. */
  function ToChatMessages(history: seq<Message>): (r: seq<ChatMessage>)
    ensures |r| == |history|
    ensures forall i :: 0 <= i < |history| ==> r[i] == ChatMessage(history[i].role, history[i].content)
  {
    if history == [] then []
    else [ChatMessage(history[0].role, history[0].content)] + ToChatMessages(history[1..])
  }

  /** `[systemMessage, ...conversationMessages, ...messages]`: the system
      message, then the history in order as role/content pairs, then the new
      messages, and nothing else. */
  function ChatContext(messages: seq<ChatMessage>, history: seq<Message>): (r: seq<ChatMessage>)
    ensures |r| == 1 + |history| + |messages|
    ensures r[0] == SystemMessage && r[0].role == Assistant
    ensures forall i :: 0 <= i < |history| ==> r[1 + i] == ChatMessage(history[i].role, history[i].content)
    ensures r[1 + |history|..] == messages
  {
    [SystemMessage] + ToChatMessages(history) + messages
  }

  /** `content || fallback`: absent and empty content both give the
      fallback. */
  function ContentOr(content: Option<string>, fallback: string): string {
    if content.Some? && content.value != "" then content.value else fallback
  }

  /** `generateChatResponse(messages, conversationHistory)`. */
  function GenerateChatResponse(
    messages: seq<ChatMessage>, history: seq<Message>, complete: seq<ChatMessage> -> Completion): (r: Result<string>)
    ensures var c := complete(ChatContext(messages, history));
      && (r.Err? <==> c.Failed?)
      && (r.Err? ==> r.error == ChatFailure)
      && (r.Ok? ==> r.value != "")
      && (c.Completed? && c.content.Some? && c.content.value != "" ==> r == Ok(c.content.value))
      && (c.Completed? && (c.content.None? || c.content.value == "") ==> r == Ok(ChatFallback))
  {
    match complete(ChatContext(messages, history))
    case Failed => Err(ChatFailure)
    case Completed(content) => Ok(ContentOr(content, ChatFallback))
  }

  /** `messages.filter(m => m.role === "user").map(m => m.content)`. */
  function UserContents(messages: seq<Message>): seq<string> {
    if messages == [] then []
    else (if messages[0].role == User then [messages[0].content] else []) + UserContents(messages[1..])
  }

  /** `s` is the content of one of the user's messages. */
  predicate IsUserContent(messages: seq<Message>, s: string) {
    exists i :: 0 <= i < |messages| && messages[i].role == User && messages[i].content == s
  }

  /** Only contents of user messages are kept, and no more of them than
      there are messages. */
  lemma {:induction false} UserContentsOnlyUsers(messages: seq<Message>)
    ensures |UserContents(messages)| <= |messages|
    ensures forall j :: 0 <= j < |UserContents(messages)| ==> IsUserContent(messages, UserContents(messages)[j])
  {
    if messages != [] {
      var head := if messages[0].role == User then [messages[0].content] else [];
      var tail := UserContents(messages[1..]);
      UserContentsOnlyUsers(messages[1..]);
      var r := UserContents(messages);
      assert r == head + tail;
      forall j | 0 <= j < |r| ensures IsUserContent(messages, r[j]) {
        if j < |head| {
          assert r[j] == messages[0].content && messages[0].role == User;
        } else {
          assert r[j] == tail[j - |head|];
          assert IsUserContent(messages[1..], tail[j - |head|]);
          var i :| 0 <= i < |messages[1..]| && messages[1..][i].role == User && messages[1..][i].content == tail[j - |head|];
          assert messages[i + 1] == messages[1..][i];
        }
      }
    }
  }

  /** Filtering distributes over concatenation, so the contents keep the
      messages' order. */
  lemma {:induction false} UserContentsAppend(a: seq<Message>, b: seq<Message>)
    ensures UserContents(a + b) == UserContents(a) + UserContents(b)
  {
    if a == [] {
      assert a + b == b;
    } else {
      assert (a + b)[1..] == a[1..] + b;
      UserContentsAppend(a[1..], b);
    }
  }

  /** No content is kept exactly when no message is user-authored. */
  lemma {:induction false} UserContentsEmptyIff(messages: seq<Message>)
    ensures UserContents(messages) == [] <==> forall i :: 0 <= i < |messages| ==> messages[i].role == Assistant
  {
    if messages != [] {
      UserContentsEmptyIff(messages[1..]);
      assert forall i :: 0 < i < |messages| ==> messages[1..][i - 1] == messages[i];
    }
  }

  /** The content of every user message is kept, at a position `j`. */
  lemma {:induction false} UserContentKept(messages: seq<Message>, k: nat) returns (j: nat)
    requires k < |messages| && messages[k].role == User
    ensures j < |UserContents(messages)| && UserContents(messages)[j] == messages[k].content
  {
    var head := if messages[0].role == User then [messages[0].content] else [];
    if k == 0 {
      j := 0;
    } else {
      var i := UserContentKept(messages[1..], k - 1);
      j := |head| + i;
    }
  }

  /** `userMessages`: the user-authored contents joined with newlines. It
      is empty exactly when there is no user message, or exactly one and its
      content is empty. */
  function ProfileInput(messages: seq<Message>): (r: string)
    ensures r == "" <==> UserContents(messages) == [] || UserContents(messages) == [""]
  {
    Text.JoinEmptyIff(UserContents(messages), "\n");
    Text.Join(UserContents(messages), "\n")
  }

  /** The prompt of the profile request, with the user's text embedded. */
  function ProfilePrompt(userText: string): (r: string)
    ensures Text.OccursAt(r, userText, |PromptHead|)
  {
    var r := PromptHead + userText + PromptTail;
    assert r[|PromptHead|..|PromptHead| + |userText|] == userText;
    r
  }

  /** `generatePersonalityProfile(messages)`. Without user-authored text
      the canned answer is returned and the oracle is not asked; otherwise it
      is asked once, with a single user message whose prompt embeds the
      profile input, and its answer decides the result: a failure is the
      fixed error, non-empty content is returned as it is, and absent or
      empty content gives the fallback. */
  function GeneratePersonalityProfile(messages: seq<Message>, complete: seq<ChatMessage> -> Completion): (r: Result<string>)
    ensures ProfileInput(messages) == "" ==> r == Ok(NotEnoughInformation)
    ensures ProfileInput(messages) != "" ==>
      var c := complete([ChatMessage(User, ProfilePrompt(ProfileInput(messages)))]);
      && (r.Err? <==> c.Failed?)
      && (r.Err? ==> r.error == ProfileFailure)
      && (c.Completed? && c.content.Some? && c.content.value != "" ==> r == Ok(c.content.value))
      && (c.Completed? && (c.content.None? || c.content.value == "") ==> r == Ok(ProfileFallback))
    ensures r.Ok? ==> r.value != ""
  {
    if |messages| == 0 then Ok(NotEnoughInformation)
    else
      var userText := ProfileInput(messages);
      if |userText| == 0 then Ok(NotEnoughInformation)
      else
        match complete([ChatMessage(User, ProfilePrompt(userText))])
        case Failed => Err(ProfileFailure)
        case Completed(content) => Ok(ContentOr(content, ProfileFallback))
  }

  /** With no user message, or a single one with empty content, the canned
      answer comes back whatever the oracle would say. */
  lemma ProfileShortCircuit(messages: seq<Message>, complete: seq<ChatMessage> -> Completion)
    requires UserContents(messages) == [] || UserContents(messages) == [""]
    ensures GeneratePersonalityProfile(messages, complete) == Ok(NotEnoughInformation)
  {
  }

  /** Every user message's content appears verbatim in the profile
      prompt. */
  lemma PromptHasUserMessage(messages: seq<Message>, k: nat) returns (offset: nat)
    requires k < |messages| && messages[k].role == User
    ensures Text.OccursAt(ProfilePrompt(ProfileInput(messages)), messages[k].content, offset)
  {
    var j := UserContentKept(messages, k);
    var inner := Text.JoinPartOccurs(UserContents(messages), "\n", j);
    var text := ProfileInput(messages);
    Text.OccursAtTransitive(ProfilePrompt(text), text, messages[k].content, |PromptHead|, inner);
    offset := |PromptHead| + inner;
  }
}
