# AI-Chatbot core, modelled in Dafny

AI-Chatbot is a Next.js chat application. A user types messages, an LLM
answers them, and the whole exchange is stored in Supabase. On request, the
stored messages are turned into a "personality profile" of the user, and that
profile is saved too. This project models the parts of the application that
hold logic and proves properties about them:

- `db.dfy` (module `Db`) models the data layer of `lib/db.ts`. It is a class
  `Store` with three in-memory tables: conversations, messages and
  user_profiles. A monotone `clock` stands in for `created_at` and
  `updated_at`, and a counter `nextId` stands in for the UUIDs the database
  issues. Each backend statement has a boolean parameter that says whether the
  backend carried it out or answered with an error. The invariant `Valid`
  says:
  - rows are in `created_at` order and their ids are distinct;
  - every message belongs to an existing conversation;
  - there is one profile row per user, and never a row for an id that
    `saveUserProfile` refuses.
- `tables.dfy` (module `Tables`) restates the Supabase query chains as
  functions over those tables: `eq`, `order`, `limit`, `in`, and `upsert ...
  onConflict`. It proves their properties as lemmas: filtering, ordering, the
  history cap, and the upsert keyed on `user_id`.
- `openai.dfy` (module `OpenAi`) models `lib/openai.ts`. It builds the chat
  context and the profile prompt. The completion API is an oracle: a function
  parameter that maps the messages sent to the answer, which may be absent or
  a failure.
- `routes.dfy` (module `Routes`) models the two POST handlers,
  `app/api/chat/route.ts` and `app/api/profile/route.ts`. They are methods over
  a `Store`, and each also returns the list of downstream calls it made. The
  generators they import from `@/lib/gemini` are oracles with the signatures
  of the `lib/openai.ts` functions. The chat handler's two halves and the whole
  request are also pure functions on the tables (`ConversationHalf`,
  `ExchangeHalf`, `ChatRequestOutcome`). The methods are proved to agree with
  these functions, and the properties of a request are lemmas about them.
- `chat_input.dfy` (module `ChatInput`) models the message box of
  `components/ChatInput.tsx` as a class with fields `input`, `disabled` and
  `sent`, where `sent` logs the `onSend` calls. It also restates the
  component's tests as scenario methods.
- `auth_server.dfy` (module `AuthServer`) models the credential lookup of
  `lib/auth-server.ts`: the cookie first, then a `Bearer` header. Token
  verification is an oracle.
- `text.dfy` (module `Text`) models the JavaScript string operations this code
  uses: `trim` with the ECMAScript whitespace set, `join`, `startsWith` and
  `substring`.
- `wrappers.dfy` holds `Option` (for `null`) and `Result` (for a thrown
  `Error` and its message).

Both handlers read `userId` from the JSON body and do not authenticate the
request, so there is no 401 path. The handlers contain no provider fallback and
no error classification: every failure is the same 500.

A request body that cannot be parsed throws inside the `try`, which makes it a
500. The model represents such a body as `None`.

## Model

| member | source | states |
|---|---|---|
| Text.TrimStartSpec | lib/db.ts:163 | `trim` removes a leading prefix made only of whitespace and stops at the first character that is not whitespace |
| Text.TrimEndSpec | lib/db.ts:163 | the same for the trailing end |
| Text.TrimEmptyIff | components/ChatInput.tsx:14 | `Trim(s)`, JavaScript's `s.trim()`, is empty exactly when every character of `s` is whitespace |
| Text.JoinEmptyIff | lib/openai.ts:60-64 | `Join(parts, sep)`, JavaScript's `parts.join(sep)`, is empty for a non-empty separator exactly when there are no parts, or one empty part |
| Text.JoinPartOccurs | lib/openai.ts:57-60 | every part occurs, unchanged, in `Join(parts, sep)` |
| Text.OccursAtTransitive | lib/openai.ts:57-73 | an occurrence inside an occurrence is an occurrence, at the sum of the offsets |
| Text.Drop | lib/auth-server.ts:25 | `substring(n)` keeps everything from index `n`, and is empty past the end |
| Tables.LatestConversation | lib/db.ts:30-36 | the result is a conversation of the user; there is none exactly when the user has no row |
| Tables.LatestIsNewest | lib/db.ts:34-35 | no conversation of the user has a later `created_at` than the one picked |
| Tables.BumpKeepsSelection | lib/db.ts:77-80 | the `updated_at` update (`Bump`) changes neither a user's conversation ids nor whether get-or-create finds a conversation for the user, nor the id of the one it finds |
| Tables.SameKeysSameSelection | lib/db.ts:30-36 | two conversation tables that agree on the id, `user_id` and `created_at` of every row give every user the same conversation ids and the same newest conversation |
| Tables.MessagesIn | lib/db.ts:133-136 | the `in` filter keeps exactly the messages whose conversation is in the id set, and no others |
| Tables.MessagesInAscending | lib/db.ts:137 | filtering keeps the ascending `created_at` order |
| Tables.MessagesInAppend | lib/db.ts:62-70 | an inserted message goes at the end of every query that selects it, and changes no other query |
| Tables.Take | lib/db.ts:95 | `limit(n)` keeps the first `n` rows, or all rows when there are fewer |
| Tables.HistorySpec | lib/db.ts:86-101 | `History(ms, c, limit)`, the history query, has only messages of the conversation, in ascending order, at most `limit` of them; it has all of them when under the limit; it keeps the OLDEST ones |
| Tables.HistoryAfterSave | lib/db.ts:62-95 | a saved message joins the end of its conversation's history while the limit leaves room |
| Tables.UserMessagesSpec | lib/db.ts:109-137 | the messages `UserMessages` gathers are exactly those whose conversation belongs to the user, in ascending order |
| Tables.NoConversationsNoMessages | lib/db.ts:122-125 | a user without conversations has no messages |
| Tables.InvalidUserIdIff | lib/db.ts:163 | the refused ids are exactly those the guard refuses: empty, empty after `trim()`, or `"server-user"` |
| Tables.FindProfile | lib/db.ts:198-202 | the lookup returns a row of the user, or nothing exactly when the user has no row |
| Tables.UpsertSpec | lib/db.ts:168-181 | after `Upsert`, the upsert keyed on `user_id`: user ids stay unique; the user has exactly one row, with the new text and `updated_at`; `created_at` is kept if a row existed; every other user's lookup is unchanged |
| Tables.UpsertKeepsOrder | lib/db.ts:170-179 | an upsert keeps the table in `created_at` order |
| Tables.UpsertKeepsValid | lib/db.ts:163-181 | an upsert for a valid id keeps the profile part of the invariant |
| Tables.Reverse | lib/db.ts:225 | length, position-by-position content and multiset of the reversal |
| Tables.AllProfilesNewestFirst | lib/db.ts:222-233 | the reversed table is in descending `created_at` order and holds the same rows |
| Db.Store.GetOrCreateConversation | lib/db.ts:28-54 | returns the user's newest conversation when the lookup succeeds and finds one, and changes nothing; otherwise inserts exactly one conversation for the user and returns its id; a failed insert is the error "Failed to create conversation"; existing conversations never change; on success the returned conversation is the user's newest |
| Db.Store.InsertConversation | lib/db.ts:43-53 | the insert appends a conversation of the user with the next id and the current time, which becomes the user's newest |
| Db.Store.SaveMessage | lib/db.ts:57-83 | on success, exactly one message with the given conversation, role and content is appended and returned, and the conversation is bumped if the update succeeds; a failed bump neither undoes nor fails the insert; a failed insert changes nothing |
| Db.Store.InsertMessage | lib/db.ts:62-70 | the insert appends the row with the next id and the current time |
| Db.Store.BumpConversation | lib/db.ts:77-80 | the update sets `updated_at` of that conversation, or leaves the table as it was when refused |
| Db.Store.GetConversationHistory | lib/db.ts:86-102 | succeeds exactly when the read succeeds, returning the history; otherwise the fixed error |
| Db.Store.GetAllUserMessages | lib/db.ts:105-151 | a failed conversation read is an error; no conversations gives `[]` without running the message query; otherwise the user's messages or the message-read error |
| Db.Store.SaveUserProfile | lib/db.ts:154-190 | refuses invalid ids and writes nothing; a failed upsert writes nothing; otherwise the table becomes the upsert, and the returned row is what a lookup finds, with the new text |
| Db.Store.GetUserProfile | lib/db.ts:193-216 | returns the user's row, or `None` (not an error) when there is none; a failed read is an error |
| Db.Store.GetAllUserProfiles | lib/db.ts:219-234 | every row, newest first, or the fixed error |
| Db.NextConversationHasNoHistory | lib/db.ts:43-53 | a conversation created now has no messages yet |
| OpenAi.ToChatMessages | lib/openai.ts:18-21 | the history mapped position by position to role/content pairs |
| OpenAi.ChatContext | lib/openai.ts:18-33 | the context is the system message (role assistant, fixed text), then the mapped history in order, then the new messages; its length is one more than the history and the new messages together |
| OpenAi.GenerateChatResponse | lib/openai.ts:13-46 | fails exactly when the oracle fails, with the fixed message; otherwise returns the content, or the fallback for absent or empty content; never returns an empty reply |
| OpenAi.UserContentsAppend | lib/openai.ts:57-59 | the user-content filter `UserContents` keeps the messages' order |
| OpenAi.UserContentsOnlyUsers | lib/openai.ts:57-59 | `UserContents` keeps only contents of user messages, and no more entries than there are messages |
| OpenAi.UserContentsEmptyIff | lib/openai.ts:57-59 | no content is kept exactly when no message is user-authored |
| OpenAi.UserContentKept | lib/openai.ts:57-59 | every user message's content is kept by `UserContents` |
| OpenAi.ProfileInput | lib/openai.ts:57-64 | the joined input is empty exactly when there is no user message, or one with empty content |
| OpenAi.ProfilePrompt | lib/openai.ts:66-73 | the prompt embeds the joined user text right after the fixed head |
| OpenAi.GeneratePersonalityProfile | lib/openai.ts:49-96 | with an empty profile input the canned answer is returned; otherwise the oracle is asked with the prompt, a failure is the fixed error, non-empty content is returned as it is, absent or empty content gives the fallback; a success is never empty |
| OpenAi.ProfileShortCircuit | lib/openai.ts:52-64 | with no user message, or a single one with empty content, the canned answer is returned whatever the oracle would say |
| OpenAi.PromptHasUserMessage | lib/openai.ts:57-73 | every user message's content appears verbatim in the prompt |
| Routes.ChatPost | app/api/chat/route.ts:9-54 | an unreadable body is a 500 and a falsy field is a 400, both with no store call and the store unchanged; otherwise the response, the calls made and the tables after the request are those of `ChatRequestOutcome` on the tables before it |
| Routes.ChatConversation | app/api/chat/route.ts:20-24 | the conversation id or error, the history, the calls and the tables are those of `ConversationHalf` on the tables before it |
| Routes.ChatExchange | app/api/chat/route.ts:26-46 | the response, the calls and the tables are those of `ExchangeHalf` on the tables before it |
| Routes.SaveStep | app/api/chat/route.ts:27-40 | a save succeeds exactly when its insert is carried out and the conversation exists; then the tables are `Saved` (the message appended with the next id and time, the conversation bumped unless refused), otherwise unchanged |
| Routes.ChatSteps | app/api/chat/route.ts:20-33 | a failed create ends the request with a 500, one call and nothing written; otherwise the user gains a conversation exactly when none was reused, the history comes from the messages as they were, a failed read is a 500 after two calls, and the second half runs on the conversation found or created |
| Routes.ExchangeSteps | app/api/chat/route.ts:26-46 | failure by failure: the calls made, the 500, the messages appended (the user message, then the assistant message, each with the next id and time); on success the reply carries the conversation id, the assistant message id and the reply; the conversations' ids, users and `created_at` never change |
| Routes.HistoryBeforeSave | app/api/chat/route.ts:23-33 | the history handed to the generator is that of the messages before the save, does not contain the user message saved next, and is empty for a new conversation |
| Routes.ChatReusesConversation | app/api/chat/route.ts:21-46 | once the conversation is found or created it stays the user's newest whatever the rest of the request does, so the next request whose lookup succeeds reuses it and creates nothing |
| Routes.ProfilePost | app/api/profile/route.ts:5-42 | an unreadable body is a 500 and a falsy `userId` a 400 with no read; fewer than 3 messages gives the canned answer with no generation and no write; otherwise the profile is generated from all messages and saved unconditionally, and the saved text is returned; any failure is a 500 with profiles unchanged |
| ChatInput.ButtonEnabledIffSubmitSends | components/ChatInput.tsx:49 | the button is enabled exactly when a click would send, which is when the component is enabled and the input has a character that is not whitespace |
| ChatInput.ChatInput.constructor | components/ChatInput.tsx:11 | a mounted box is empty and has sent nothing |
| ChatInput.ChatInput.Change | components/ChatInput.tsx:31 | typing replaces the input and nothing else |
| ChatInput.ChatInput.SetDisabled | components/ChatInput.tsx:10 | a new `disabled` property changes nothing else |
| ChatInput.ChatInput.ButtonDisabled | components/ChatInput.tsx:49 | the button is disabled exactly when a submit would not send |
| ChatInput.ChatInput.Submit | components/ChatInput.tsx:13-18 | sends exactly when the trimmed input is non-empty and the box is enabled; it passes the untrimmed input and clears it; otherwise the input is kept and nothing is sent |
| ChatInput.ChatInput.KeyPress | components/ChatInput.tsx:20-25 | Enter without Shift is prevented and submits; any other key changes nothing |
| ChatInput.ClickSendsTypedText | __tests__/ChatInput.test.tsx:14-27 | typing "Hello, chatbot!" and clicking sends it once and empties the box |
| ChatInput.EnterSendsTypedText | __tests__/ChatInput.test.tsx:29-41 | the same with Enter |
| ChatInput.ShiftEnterDoesNotSend | components/ChatInput.tsx:21 | Shift+Enter sends nothing and keeps the text |
| ChatInput.EmptyClickSendsNothing | __tests__/ChatInput.test.tsx:43-52 | clicking on an empty box sends nothing |
| ChatInput.DisabledSendsNothing | __tests__/ChatInput.test.tsx:54-63 | a disabled box has a disabled button and sends nothing |
| AuthServer.BearerToken | lib/auth-server.ts:23-25 | a token exists exactly when the header starts with "Bearer ", and the header is the prefix followed by the token |
| AuthServer.BearerRoundTrip | lib/auth-server.ts:24-25 | a Bearer header gives back the token it was built from |
| AuthServer.CookieComesFirst | lib/auth-server.ts:14-19 | a cookie token that verifies decides the user, whatever the request carries |
| AuthServer.HeaderFallback | lib/auth-server.ts:14-30 | a missing, empty or unverified cookie falls through to the header; only a Bearer header counts, and its token is the header without its first 7 characters |
| AuthServer.GetServerUser | lib/auth-server.ts:6-34 | a user is only ever the oracle's answer for the cookie token or the Bearer token; with neither, the result is `null` |

## Left out

- The Supabase client and PostgREST are left out. This covers the network, the
  client construction in `lib/supabase.ts`, and error codes other than "no
  row": whether a statement succeeds is a parameter.
- Backend error messages: a thrown error keeps its fixed prefix, such as
  "Failed to save message". The backend detail appended after the colon is
  not modelled.
- The foreign key from messages to conversations is not declared in any
  modelled file. The model assumes it: an insert into a missing conversation fails like a refused
  insert.
- Wall-clock time: `new Date()` and the database defaults are clock ticks.
  Timestamps therefore never tie, and insertion order is `created_at` order.
- UUIDs are fresh natural numbers.
- The `limit` parameter is a natural number. Negative or fractional limits
  are not modelled.
- Concurrency: requests run one at a time. The race between two
  get-or-create calls is not modelled.
- The OpenAI SDK is left out: the model name, `temperature`, `max_tokens` and
  the missing-key check at module load. The completion is an oracle.
- `@/lib/gemini`, which the handlers import, is not part of this model. Its
  generators are oracles with the signatures of the `lib/openai.ts`
  functions.
- Logging (`console.log` and `console.error`) is left out.
- The unused `refreshToken` is left out.
- The profile read in the profile handler is modelled only as a read that can
  fail; its value is unused.
- `cookies()` and `request.headers` are left out. They become a map of cookies
  and the optional `authorization` value.
- JSON bodies whose fields are not strings are not modelled. A field is a
  present or absent string.
- UI rendering is left out: the JSX, the CSS, the textarea auto-resize and
  `app/layout.tsx`. The browser blocking events on a disabled textarea is not
  modelled; `Submit` checks `disabled` itself, as the source does.
- `isProfileRequest`, a helper local to a test file, is left out.
- The chat-message component tested by `__tests__/ChatMessage.test.tsx` is not
  part of this model.
