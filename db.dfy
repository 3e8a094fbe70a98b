/** lib/db.ts: the conversation, message and profile store, as an object
    whose three tables the methods update in place. A monotone `clock`
    stands in for `created_at` / `updated_at`, and `nextId` for the UUIDs the
    database issues. Each backend statement of the source has a boolean
    parameter saying whether the backend carried it out (`true`) or answered
    with an error (`false`). */
module Db {
  import opened Wrappers
  import opened Tables

  class Store {
    var conversations: seq<Conversation>
    var messages: seq<Message>
    var profiles: seq<UserProfile>
    /** The next timestamp; every timestamp in the tables is older. */
    var clock: nat
    /** The next row id; every id in the tables is smaller. */
    var nextId: Id

    /** The store's invariant: rows are kept in created_at order with
        distinct ids, issued ids and timestamps lie in the past, every
        message belongs to an existing conversation, and profiles have one
        row per user, never for an id `saveUserProfile` refuses. */
    ghost predicate Valid()
      reads this
    {
      && ConversationsValid(conversations, clock, nextId)
      && MessagesValid(messages, conversations, clock, nextId)
      && ProfilesValid(profiles, clock)
    }

    /** An empty database. */
    constructor ()
      ensures Valid()
      ensures conversations == [] && messages == [] && profiles == []
      ensures clock == 0 && nextId == 0
    {
      conversations, messages, profiles := [], [], [];
      clock, nextId := 0, 0;
    }

    /** `getOrCreateConversation(userId)`: the id of the user's newest
        conversation when the lookup succeeds and finds one; otherwise
        exactly one new conversation is inserted for the user and its id is
        returned. A failed lookup is not an error: it leads to the insert,
        like an empty one. Existing conversations are never changed. */
    method GetOrCreateConversation(userId: string, fetchOk: bool, createOk: bool) returns (r: Result<Id>)
      requires Valid()
      modifies this
      ensures Valid()
      ensures messages == old(messages) && profiles == old(profiles)
      ensures var latest := LatestConversation(old(conversations), userId);
        if fetchOk && latest.Some? then
          && r == Ok(latest.value.id)
          && conversations == old(conversations) && clock == old(clock) && nextId == old(nextId)
        else if createOk then
          && r == Ok(old(nextId))
          && conversations == old(conversations) + [Conversation(old(nextId), userId, old(clock), old(clock))]
          && clock == old(clock) + 1 && nextId == old(nextId) + 1
        else
          && r == Err("Failed to create conversation")
          && conversations == old(conversations) && clock == old(clock) && nextId == old(nextId)
      ensures r.Ok? ==> HasConversation(conversations, r.value)
      ensures r.Ok? ==> LatestConversation(conversations, userId).Some? && LatestConversation(conversations, userId).value.id == r.value
    {
      var existing := LatestConversation(conversations, userId);
      if fetchOk && existing.Some? {
        assert existing.value in conversations;
        return Ok(existing.value.id);
      }
      if !createOk {
        return Err("Failed to create conversation");
      }
      var id := InsertConversation(userId);
      r := Ok(id);
    }

    /** The insert statement of `getOrCreateConversation`: the row gets the
        next id and the current time, and becomes the user's newest. */
    method InsertConversation(userId: string) returns (id: Id)
      requires Valid()
      modifies this
      ensures Valid()
      ensures id == old(nextId)
      ensures conversations == old(conversations) + [Conversation(id, userId, old(clock), old(clock))]
      ensures messages == old(messages) && profiles == old(profiles)
      ensures clock == old(clock) + 1 && nextId == old(nextId) + 1
      ensures LatestConversation(conversations, userId) == Some(Conversation(id, userId, old(clock), old(clock)))
      ensures HasConversation(conversations, id)
    {
      var c := Conversation(nextId, userId, clock, clock);
      ConversationAppendValid(conversations, messages, clock, nextId, c);
      ProfilesValidLater(profiles, clock, clock + 1);
      LatestOfAppend(conversations, c);
      conversations := conversations + [c];
      id := nextId;
      clock, nextId := clock + 1, nextId + 1;
    }

    /** `saveMessage(conversationId, role, content)`: inserts exactly one
        message and returns it, then bumps the conversation's `updated_at`.
        The insert fails when the backend refuses it or the conversation
        does not exist; a failed bump neither undoes nor fails the insert. */
    method SaveMessage(conversationId: Id, role: Role, content: string, insertOk: bool, bumpOk: bool)
      returns (r: Result<Message>)
      requires Valid()
      modifies this
      ensures Valid()
      ensures profiles == old(profiles)
      ensures if insertOk && HasConversation(old(conversations), conversationId) then
          && r == Ok(Message(old(nextId), conversationId, role, content, old(clock)))
          && messages == old(messages) + [r.value]
          && conversations == (if bumpOk then Bump(old(conversations), conversationId, old(clock) + 1) else old(conversations))
          && clock == old(clock) + 2 && nextId == old(nextId) + 1
        else
          && r == Err("Failed to save message")
          && messages == old(messages) && conversations == old(conversations)
          && clock == old(clock) && nextId == old(nextId)
      ensures r.Ok? ==> HasConversation(conversations, conversationId)
    {
      if !insertOk || !HasConversation(conversations, conversationId) {
        return Err("Failed to save message");
      }
      var m := Message(nextId, conversationId, role, content, clock);
      InsertMessage(m);
      BumpConversation(conversationId, bumpOk);
      r := Ok(m);
    }

    /** The insert statement of `saveMessage`: the row gets the next id and
        the current time. */
    method InsertMessage(m: Message)
      requires Valid()
      requires m.id == nextId && m.createdAt == clock && HasConversation(conversations, m.conversationId)
      modifies this
      ensures Valid()
      ensures messages == old(messages) + [m]
      ensures conversations == old(conversations) && profiles == old(profiles)
      ensures clock == old(clock) + 1 && nextId == old(nextId) + 1
    {
      MessageAppendValid(messages, conversations, clock, nextId, m);
      ProfilesValidLater(profiles, clock, clock + 1);
      messages := messages + [m];
      clock, nextId := clock + 1, nextId + 1;
    }

    /** The update statement of `saveMessage`: `updated_at` of the
        conversation becomes the current time, unless the backend refuses. */
    method BumpConversation(id: Id, bumpOk: bool)
      requires Valid()
      modifies this
      ensures Valid()
      ensures conversations == if bumpOk then Bump(old(conversations), id, old(clock)) else old(conversations)
      ensures messages == old(messages) && profiles == old(profiles)
      ensures clock == old(clock) + 1 && nextId == old(nextId)
      ensures HasConversation(old(conversations), id) ==> HasConversation(conversations, id)
    {
      ProfilesValidLater(profiles, clock, clock + 1);
      if bumpOk {
        BumpKeepsKeys(conversations, id, clock);
        BumpValid(conversations, messages, id, clock, clock + 1, nextId);
        conversations := Bump(conversations, id, clock);
      } else {
        TablesLater(conversations, messages, clock, nextId, clock + 1, nextId);
      }
      clock := clock + 1;
    }

    /** `getConversationHistory(conversationId, limit)`: the oldest `limit`
        messages of the conversation, in ascending created_at order. */
    method GetConversationHistory(conversationId: Id, readOk: bool, limit: nat := DefaultHistoryLimit)
      returns (r: Result<seq<Message>>)
      requires Valid()
      ensures readOk <==> r.Ok?
      ensures r.Ok? ==> r.value == History(messages, conversationId, limit) && MessagesAscending(r.value)
      ensures r.Err? ==> r.error == "Failed to fetch conversation history"
    {
      if !readOk {
        return Err("Failed to fetch conversation history");
      }
      HistorySpec(messages, conversationId, limit);
      r := Ok(History(messages, conversationId, limit));
    }

    /** `getAllUserMessages(userId)`: `[]` when the user has no
        conversations (the message query is then not run), otherwise every
        message of every conversation of the user and no other, in ascending
        created_at order. */
    method GetAllUserMessages(userId: string, conversationsOk: bool, messagesOk: bool)
      returns (r: Result<seq<Message>>)
      requires Valid()
      ensures !conversationsOk ==> r == Err("Failed to fetch conversations")
      ensures conversationsOk && ConversationIds(conversations, userId) == {} ==> r == Ok([])
      ensures conversationsOk && ConversationIds(conversations, userId) != {} ==>
        r == if messagesOk then Ok(UserMessages(conversations, messages, userId)) else Err("Failed to fetch messages")
      ensures r.Ok? ==> MessagesAscending(r.value)
    {
      if !conversationsOk {
        return Err("Failed to fetch conversations");
      }
      var ids := ConversationIds(conversations, userId);
      if ids == {} {
        NoConversationsNoMessages(conversations, messages, userId);
        UserMessagesSpec(conversations, messages, userId);
        return Ok([]);
      }
      if !messagesOk {
        return Err("Failed to fetch messages");
      }
      UserMessagesSpec(conversations, messages, userId);
      r := Ok(UserMessages(conversations, messages, userId));
    }

    /** `saveUserProfile(userId, profileText)`: refuses a blank id or the
        `"server-user"` sentinel and writes nothing; otherwise upserts the
        user's row and returns it. Other users' rows are unchanged. */
    method SaveUserProfile(userId: string, profileText: string, upsertOk: bool) returns (r: Result<UserProfile>)
      requires Valid()
      modifies this
      ensures Valid()
      ensures conversations == old(conversations) && messages == old(messages) && nextId == old(nextId)
      ensures r.Ok? <==> !InvalidUserId(userId) && upsertOk
      ensures r.Err? ==> profiles == old(profiles) && clock == old(clock)
      ensures InvalidUserId(userId) ==> r == Err("Invalid userId: " + userId)
      ensures !InvalidUserId(userId) && !upsertOk ==> r == Err("Failed to save user profile")
      ensures !InvalidUserId(userId) && upsertOk ==>
        && profiles == Upsert(old(profiles), userId, profileText, old(clock))
        && clock == old(clock) + 1
        && r.Ok? && Some(r.value) == FindProfile(profiles, userId)
        && r.value.profileText == profileText
    {
      if InvalidUserId(userId) {
        return Err("Invalid userId: " + userId);
      }
      if !upsertOk {
        return Err("Failed to save user profile");
      }
      var t := clock;
      assert ProfilesValid(profiles, t);
      UpsertSpec(profiles, userId, profileText, t);
      UpsertKeepsValid(profiles, userId, profileText, t);
      profiles := Upsert(profiles, userId, profileText, t);
      clock := clock + 1;
      r := Ok(FindProfile(profiles, userId).value);
    }

    /** `getUserProfile(userId)`: the user's row, or `None` (the source's
        `null`) when there is none, which is not an error. */
    method GetUserProfile(userId: string, readOk: bool) returns (r: Result<Option<UserProfile>>)
      requires Valid()
      ensures !readOk ==> r == Err("Failed to fetch user profile")
      ensures readOk ==> r.Ok? && r.value == FindProfile(profiles, userId)
      ensures readOk ==> (r.value.None? <==> forall i :: 0 <= i < |profiles| ==> profiles[i].userId != userId)
      ensures readOk && r.value.Some? ==> r.value.value in profiles && r.value.value.userId == userId
    {
      if !readOk {
        return Err("Failed to fetch user profile");
      }
      r := Ok(FindProfile(profiles, userId));
    }

    /** `getAllUserProfiles()`: every row, newest first. */
    method GetAllUserProfiles(readOk: bool) returns (r: Result<seq<UserProfile>>)
      requires Valid()
      ensures !readOk ==> r == Err("Failed to fetch all user profiles")
      ensures readOk ==> r.Ok? && ProfilesDescending(r.value) && multiset(r.value) == multiset(profiles)
    {
      if !readOk {
        return Err("Failed to fetch all user profiles");
      }
      AllProfilesNewestFirst(profiles);
      r := Ok(Reverse(profiles));
    }
  }

  /** The conversation table's part of the store invariant: rows in
      created_at order with distinct ids, each id issued and each timestamp
      in the past. */
  ghost predicate ConversationsValid(cs: seq<Conversation>, clock: nat, nextId: Id) {
    && ConversationsAscending(cs)
    && (forall i :: 0 <= i < |cs| ==> cs[i].id < nextId && cs[i].createdAt <= cs[i].updatedAt < clock)
    && (forall i, j :: 0 <= i < j < |cs| ==> cs[i].id != cs[j].id)
  }

  /** The message table's part: rows in created_at order with distinct
      issued ids and past timestamps, each in an existing conversation. */
  ghost predicate MessagesValid(ms: seq<Message>, cs: seq<Conversation>, clock: nat, nextId: Id) {
    && MessagesAscending(ms)
    && (forall i :: 0 <= i < |ms| ==>
          ms[i].id < nextId && ms[i].createdAt < clock && HasConversation(cs, ms[i].conversationId))
    && (forall i, j :: 0 <= i < j < |ms| ==> ms[i].id != ms[j].id)
  }

  /** Both tables stay valid when the clock and the id counter move on. */
  lemma TablesLater(cs: seq<Conversation>, ms: seq<Message>, clock: nat, nextId: Id, clock': nat, nextId': Id)
    requires ConversationsValid(cs, clock, nextId) && MessagesValid(ms, cs, clock, nextId)
    requires clock <= clock' && nextId <= nextId'
    ensures ConversationsValid(cs, clock', nextId') && MessagesValid(ms, cs, clock', nextId')
  {
  }

  /** Inserting a conversation with the next id and timestamp keeps both
      tables valid. */
  lemma ConversationAppendValid(cs: seq<Conversation>, ms: seq<Message>, clock: nat, nextId: Id, c: Conversation)
    requires ConversationsValid(cs, clock, nextId) && MessagesValid(ms, cs, clock, nextId)
    requires c.id == nextId && c.createdAt == c.updatedAt == clock
    ensures ConversationsValid(cs + [c], clock + 1, nextId + 1) && MessagesValid(ms, cs + [c], clock + 1, nextId + 1)
  {
    HasConversationAppend(cs, c);
  }

  /** Inserting a message of an existing conversation with the next id and
      timestamp keeps the message table valid. */
  lemma MessageAppendValid(ms: seq<Message>, cs: seq<Conversation>, clock: nat, nextId: Id, m: Message)
    requires ConversationsValid(cs, clock, nextId) && MessagesValid(ms, cs, clock, nextId)
    requires m.id == nextId && m.createdAt == clock && HasConversation(cs, m.conversationId)
    ensures ConversationsValid(cs, clock + 1, nextId + 1) && MessagesValid(ms + [m], cs, clock + 1, nextId + 1)
  {
  }

  /** Bumping `updated_at` to a past timestamp keeps both tables valid. */
  lemma BumpValid(cs: seq<Conversation>, ms: seq<Message>, id: Id, t: nat, clock: nat, nextId: Id)
    requires ConversationsValid(cs, t, nextId) && MessagesValid(ms, cs, t, nextId) && t < clock
    ensures ConversationsValid(Bump(cs, id, t), clock, nextId) && MessagesValid(ms, Bump(cs, id, t), clock, nextId)
  {
    BumpKeepsKeys(cs, id, t);
  }

  /** A conversation appended to the table is the newest of its user,
      and is found by id. */
  lemma LatestOfAppend(cs: seq<Conversation>, c: Conversation)
    ensures LatestConversation(cs + [c], c.userId) == Some(c)
    ensures HasConversation(cs + [c], c.id)
  {
    assert (cs + [c])[|cs|] == c;
  }

  /** Appending a conversation keeps every existing one. */
  lemma HasConversationAppend(cs: seq<Conversation>, c: Conversation)
    ensures forall id :: HasConversation(cs, id) ==> HasConversation(cs + [c], id)
  {
    forall id | HasConversation(cs, id) ensures HasConversation(cs + [c], id) {
      var i :| 0 <= i < |cs| && cs[i].id == id;
      assert (cs + [c])[i] == cs[i];
    }
  }

  /** A bump changes only `updated_at`. */
  lemma BumpKeepsKeys(cs: seq<Conversation>, id: Id, t: nat)
    ensures forall i :: 0 <= i < |cs| ==>
      && Bump(cs, id, t)[i].id == cs[i].id && Bump(cs, id, t)[i].userId == cs[i].userId
      && Bump(cs, id, t)[i].createdAt == cs[i].createdAt
    ensures forall c :: HasConversation(cs, c) <==> HasConversation(Bump(cs, id, t), c)
  {
    var r := Bump(cs, id, t);
    forall c ensures HasConversation(cs, c) <==> HasConversation(r, c) {
      if HasConversation(cs, c) {
        var i :| 0 <= i < |cs| && cs[i].id == c;
        assert r[i].id == c;
      }
      if HasConversation(r, c) {
        var i :| 0 <= i < |r| && r[i].id == c;
        assert cs[i].id == c;
      }
    }
  }

  /** No stored message has an id the store has not issued yet. */
  lemma FreshMessageNotInHistory(ms: seq<Message>, cs: seq<Conversation>, clock: nat, nextId: Id, m: Message, c: Id, limit: nat)
    requires MessagesValid(ms, cs, clock, nextId) && m.id >= nextId
    ensures m !in History(ms, c, limit)
  {
  }

  /** No stored message belongs to the conversation the store would create
      next. */
  lemma NextConversationHasNoHistory(ms: seq<Message>, cs: seq<Conversation>, clock: nat, nextId: Id, limit: nat)
    requires ConversationsValid(cs, clock, nextId) && MessagesValid(ms, cs, clock, nextId)
    ensures History(ms, nextId, limit) == []
  {
    forall i | 0 <= i < |ms| ensures ms[i].conversationId != nextId {
      assert HasConversation(cs, ms[i].conversationId);
    }
    MessagesInNone(ms, {nextId});
  }
}
