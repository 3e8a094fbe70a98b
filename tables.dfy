/** The rows of the three tables behind lib/db.ts (conversations, messages
    and user_profiles) and the queries that module runs on them, restated as
    functions over in-memory tables. A table is a sequence of rows in
    insertion order; timestamps are readings of a monotone clock, so
    insertion order and `created_at` order agree (see `Db.Store.Valid`). */
module Tables {
  import opened Wrappers
  import Text

  /** Row identifiers; the database issues UUIDs, the model fresh numbers. */
  type Id = nat

  datatype Role = User | Assistant

  datatype Conversation = Conversation(id: Id, userId: string, createdAt: nat, updatedAt: nat)

  datatype Message = Message(id: Id, conversationId: Id, role: Role, content: string, createdAt: nat)

  datatype UserProfile = UserProfile(userId: string, profileText: string, createdAt: nat, updatedAt: nat)

  /** The default `limit` of `getConversationHistory`. */
  const DefaultHistoryLimit: nat := 50

  /** The placeholder user id that `saveUserProfile` refuses. */
  const ServerUserSentinel: string := "server-user"

  // ---------------------------------------------------------------------
  // Orderings by created_at

  predicate ConversationsAscending(cs: seq<Conversation>) {
    forall i, j :: 0 <= i < j < |cs| ==> cs[i].createdAt < cs[j].createdAt
  }

  predicate MessagesAscending(ms: seq<Message>) {
    forall i, j :: 0 <= i < j < |ms| ==> ms[i].createdAt < ms[j].createdAt
  }

  predicate ProfilesAscending(ps: seq<UserProfile>) {
    forall i, j :: 0 <= i < j < |ps| ==> ps[i].createdAt < ps[j].createdAt
  }

  predicate ProfilesDescending(ps: seq<UserProfile>) {
    forall i, j :: 0 <= i < j < |ps| ==> ps[i].createdAt > ps[j].createdAt
  }

  // ---------------------------------------------------------------------
  // conversations

  predicate HasConversation(cs: seq<Conversation>, id: Id) {
    exists i :: 0 <= i < |cs| && cs[i].id == id
  }

  /** `select id from conversations where user_id = u order by created_at
      desc limit 1`: the user's conversation created last, if any. */
  function LatestConversation(cs: seq<Conversation>, u: string): (r: Option<Conversation>)
    ensures r.Some? ==> r.value in cs && r.value.userId == u
    ensures r.None? <==> forall i :: 0 <= i < |cs| ==> cs[i].userId != u
  {
    if |cs| == 0 then None
    else if cs[|cs| - 1].userId == u then Some(cs[|cs| - 1])
    else
      var r := LatestConversation(cs[..|cs| - 1], u);
      assert forall i :: 0 <= i < |cs| - 1 ==> cs[..|cs| - 1][i] == cs[i];
      r
  }

  /** No conversation of the user is newer than the one `LatestConversation`
      picks. */
  lemma {:induction false} LatestIsNewest(cs: seq<Conversation>, u: string, k: nat)
    requires ConversationsAscending(cs)
    requires k < |cs| && cs[k].userId == u
    ensures LatestConversation(cs, u).Some?
    ensures cs[k].createdAt <= LatestConversation(cs, u).value.createdAt
  {
    if cs[|cs| - 1].userId != u {
      var front := cs[..|cs| - 1];
      assert front[k] == cs[k];
      LatestIsNewest(front, u, k);
    }
  }

  /** `update conversations set updated_at = t where id = id`. */
  function Bump(cs: seq<Conversation>, id: Id, t: nat): seq<Conversation> {
    seq(|cs|, i requires 0 <= i < |cs| => if cs[i].id == id then cs[i].(updatedAt := t) else cs[i])
  }

  /** `select id from conversations where user_id = u`, as a set of ids. */
  function ConversationIds(cs: seq<Conversation>, u: string): set<Id> {
    set i | 0 <= i < |cs| && cs[i].userId == u :: cs[i].id
  }

  /** The columns of the conversations table that the queries select on:
      everything but `updated_at`. */
  function Keys(cs: seq<Conversation>): seq<(Id, string, nat)> {
    seq(|cs|, i requires 0 <= i < |cs| => (cs[i].id, cs[i].userId, cs[i].createdAt))
  }

  /** Two tables that agree on every row's keys give the same ids for every
      user and the same newest conversation. */
  lemma {:induction false} SameKeysSameSelection(a: seq<Conversation>, b: seq<Conversation>, u: string)
    requires Keys(a) == Keys(b)
    ensures ConversationIds(a, u) == ConversationIds(b, u)
    ensures LatestConversation(a, u).Some? <==> LatestConversation(b, u).Some?
    ensures LatestConversation(a, u).Some? ==>
      && LatestConversation(a, u).value.id == LatestConversation(b, u).value.id
      && LatestConversation(a, u).value.createdAt == LatestConversation(b, u).value.createdAt
  {
    assert |a| == |Keys(a)| == |Keys(b)| == |b|;
    forall i | 0 <= i < |a|
      ensures a[i].id == b[i].id && a[i].userId == b[i].userId && a[i].createdAt == b[i].createdAt
    {
      assert Keys(a)[i] == Keys(b)[i];
    }
    forall x ensures x in ConversationIds(a, u) <==> x in ConversationIds(b, u) {
      if x in ConversationIds(a, u) {
        var i :| 0 <= i < |a| && a[i].userId == u && a[i].id == x;
        assert b[i].userId == u && b[i].id == x;
      }
      if x in ConversationIds(b, u) {
        var i :| 0 <= i < |b| && b[i].userId == u && b[i].id == x;
        assert a[i].userId == u && a[i].id == x;
      }
    }
    if |a| > 0 && a[|a| - 1].userId != u {
      var a', b' := a[..|a| - 1], b[..|b| - 1];
      assert Keys(a') == Keys(b') by {
        assert forall i :: 0 <= i < |a'| ==> Keys(a')[i] == Keys(a)[i] && Keys(b')[i] == Keys(b)[i];
      }
      SameKeysSameSelection(a', b', u);
    }
  }

  /** A bump keeps every row's keys. */
  lemma BumpSameKeys(cs: seq<Conversation>, id: Id, t: nat)
    ensures Keys(Bump(cs, id, t)) == Keys(cs)
  {
    assert forall i :: 0 <= i < |cs| ==> Keys(Bump(cs, id, t))[i] == Keys(cs)[i];
  }

  /** Bumping `updated_at` changes neither a user's conversation ids nor
      the conversation get-or-create picks, so it never changes what a
      later request reuses or gathers. */
  lemma BumpKeepsSelection(cs: seq<Conversation>, id: Id, t: nat, u: string)
    ensures ConversationIds(Bump(cs, id, t), u) == ConversationIds(cs, u)
    ensures LatestConversation(Bump(cs, id, t), u).Some? <==> LatestConversation(cs, u).Some?
    ensures LatestConversation(cs, u).Some? ==>
      LatestConversation(Bump(cs, id, t), u).value.id == LatestConversation(cs, u).value.id
  {
    BumpSameKeys(cs, id, t);
    SameKeysSameSelection(Bump(cs, id, t), cs, u);
  }

  // ---------------------------------------------------------------------
  // messages

  /** `select * from messages where conversation_id in ids`, in table
      order. */
  function MessagesIn(ms: seq<Message>, ids: set<Id>): (r: seq<Message>)
    ensures |r| <= |ms|
    ensures forall m :: m in r <==> m in ms && m.conversationId in ids
  {
    if ms == [] then []
    else
      var rest := MessagesIn(ms[1..], ids);
      assert forall m :: m in ms <==> m == ms[0] || m in ms[1..];
      if ms[0].conversationId in ids then [ms[0]] + rest else rest
  }

  /** Filtering keeps the created_at order. */
  lemma {:induction false} MessagesInAscending(ms: seq<Message>, ids: set<Id>)
    requires MessagesAscending(ms)
    ensures MessagesAscending(MessagesIn(ms, ids))
  {
    if ms != [] {
      var rest := MessagesIn(ms[1..], ids);
      assert MessagesAscending(ms[1..]) by {
        forall i, j | 0 <= i < j < |ms[1..]| ensures ms[1..][i].createdAt < ms[1..][j].createdAt {
          assert ms[1..][i] == ms[i + 1] && ms[1..][j] == ms[j + 1];
        }
      }
      MessagesInAscending(ms[1..], ids);
      forall j | 0 <= j < |rest| ensures ms[0].createdAt < rest[j].createdAt {
        assert rest[j] in ms[1..];
        var k :| 0 <= k < |ms[1..]| && ms[1..][k] == rest[j];
        assert ms[k + 1] == rest[j];
      }
    }
  }

  /** A message appended to the table lands at the end of the result of
      every query that selects it, and changes no other query. */
  lemma {:induction false} MessagesInAppend(ms: seq<Message>, m: Message, ids: set<Id>)
    ensures MessagesIn(ms + [m], ids) == MessagesIn(ms, ids) + (if m.conversationId in ids then [m] else [])
  {
    if ms == [] {
      assert [m][1..] == [];
    } else {
      assert (ms + [m])[1..] == ms[1..] + [m];
      MessagesInAppend(ms[1..], m, ids);
    }
  }

  /** The first `n` elements of `s` (all of them when there are fewer). */
  function Take<T>(s: seq<T>, n: nat): (r: seq<T>)
    ensures |r| == if |s| <= n then |s| else n
    ensures r == s[..|r|]
  {
    if |s| <= n then s else s[..n]
  }

  /** `select * from messages where conversation_id = c order by created_at
      asc limit limit`. */
  function History(ms: seq<Message>, c: Id, limit: nat): seq<Message> {
    Take(MessagesIn(ms, {c}), limit)
  }

  /** The history holds only messages of conversation `c`, in ascending
      created_at order, at most `limit` of them, and they are the OLDEST
      ones: every message of `c` left out is newer than all that are kept. */
  lemma HistorySpec(ms: seq<Message>, c: Id, limit: nat)
    requires MessagesAscending(ms)
    ensures var h := History(ms, c, limit);
      && (forall m :: m in h ==> m in ms && m.conversationId == c)
      && MessagesAscending(h)
      && |h| <= limit
      && (|h| < limit ==> forall m :: m in ms && m.conversationId == c ==> m in h)
      && (forall m, x :: m in ms && m.conversationId == c && m !in h && x in h ==> x.createdAt < m.createdAt)
  {
    var all := MessagesIn(ms, {c});
    var h := History(ms, c, limit);
    MessagesInAscending(ms, {c});
    assert forall k :: 0 <= k < |h| ==> h[k] == all[k];
    forall m, x | m in ms && m.conversationId == c && m !in h && x in h
      ensures x.createdAt < m.createdAt
    {
      HistoryOldest(all, h, m, x);
    }
  }

  /** In an ascending sequence, an element outside a prefix is newer than
      every element of the prefix. */
  lemma HistoryOldest(all: seq<Message>, h: seq<Message>, m: Message, x: Message)
    requires MessagesAscending(all) && |h| <= |all| && h == all[..|h|]
    requires m in all && m !in h && x in h
    ensures x.createdAt < m.createdAt
  {
    var j :| 0 <= j < |all| && all[j] == m;
    var i :| 0 <= i < |h| && h[i] == x;
    assert forall k :: 0 <= k < |h| ==> h[k] == all[k];
    assert all[i] == x;
  }

  /** A saved message joins its conversation's history after every older
      message of that conversation (as long as the limit leaves room). */
  lemma HistoryAfterSave(ms: seq<Message>, m: Message, limit: nat)
    requires |History(ms, m.conversationId, limit)| < limit
    ensures History(ms + [m], m.conversationId, limit) == History(ms, m.conversationId, limit) + [m]
  {
    MessagesInAppend(ms, m, {m.conversationId});
  }

  /** The messages of every conversation that belongs to `u`, in table
      order (`getAllUserMessages`). */
  function UserMessages(cs: seq<Conversation>, ms: seq<Message>, u: string): seq<Message> {
    MessagesIn(ms, ConversationIds(cs, u))
  }

  /** A message is gathered for `u` exactly when its conversation is one of
      `u`'s, and the gathered messages are in ascending created_at order. */
  lemma UserMessagesSpec(cs: seq<Conversation>, ms: seq<Message>, u: string)
    requires MessagesAscending(ms)
    ensures MessagesAscending(UserMessages(cs, ms, u))
    ensures forall m :: m in UserMessages(cs, ms, u) <==>
      m in ms && exists i :: 0 <= i < |cs| && cs[i].userId == u && cs[i].id == m.conversationId
  {
    MessagesInAscending(ms, ConversationIds(cs, u));
  }

  /** A user without conversations has no messages. */
  lemma NoConversationsNoMessages(cs: seq<Conversation>, ms: seq<Message>, u: string)
    requires ConversationIds(cs, u) == {}
    ensures UserMessages(cs, ms, u) == []
  {
    MessagesInNone(ms, {});
  }

  /** A query that no message matches selects nothing. */
  lemma {:induction false} MessagesInNone(ms: seq<Message>, ids: set<Id>)
    requires forall i :: 0 <= i < |ms| ==> ms[i].conversationId !in ids
    ensures MessagesIn(ms, ids) == []
  {
    if ms != [] {
      assert forall i :: 0 <= i < |ms[1..]| ==> ms[1..][i] == ms[i + 1];
      MessagesInNone(ms[1..], ids);
    }
  }

  // ---------------------------------------------------------------------
  // user_profiles

  /** The user ids `saveUserProfile` refuses: the blank ones (empty or
      whitespace only) and the sentinel. */
  predicate InvalidUserId(u: string) {
    Text.AllWhitespace(u) || u == ServerUserSentinel
  }

  /** This is exactly the guard of `saveUserProfile`, `!userId ||
      userId.trim() === "" || userId === "server-user"`. */
  lemma InvalidUserIdIff(u: string)
    ensures InvalidUserId(u) <==> u == "" || Text.Trim(u) == "" || u == ServerUserSentinel
  {
    Text.TrimEmptyIff(u);
  }

  /** At most one row per user (the unique key behind `onConflict:
      "user_id"`). */
  predicate UniqueUsers(ps: seq<UserProfile>) {
    forall i, j :: 0 <= i < j < |ps| ==> ps[i].userId != ps[j].userId
  }

  /** `select * from user_profiles where user_id = u`, `null` when there is
      no such row. */
  function FindProfile(ps: seq<UserProfile>, u: string): (r: Option<UserProfile>)
    ensures r.Some? ==> r.value in ps && r.value.userId == u
    ensures r.None? <==> forall i :: 0 <= i < |ps| ==> ps[i].userId != u
  {
    if ps == [] then None
    else if ps[0].userId == u then Some(ps[0])
    else
      var r := FindProfile(ps[1..], u);
      assert forall i :: 0 < i < |ps| ==> ps[1..][i - 1] == ps[i];
      r
  }

  /** One row's part of the store invariant at clock reading `clock`. */
  predicate ProfileRowValid(p: UserProfile, clock: nat) {
    !InvalidUserId(p.userId) && p.createdAt <= p.updatedAt < clock
  }

  /** The profile table's part of the store invariant. */
  predicate ProfilesValid(ps: seq<UserProfile>, clock: nat) {
    && ProfilesAscending(ps)
    && UniqueUsers(ps)
    && forall i :: 0 <= i < |ps| ==> ProfileRowValid(ps[i], clock)
  }

  /** The profile invariant survives the clock moving on. */
  lemma ProfilesValidLater(ps: seq<UserProfile>, clock: nat, later: nat)
    requires ProfilesValid(ps, clock) && clock <= later
    ensures ProfilesValid(ps, later)
  {
    forall i | 0 <= i < |ps|
      ensures ProfileRowValid(ps[i], later)
    {
      assert ProfileRowValid(ps[i], clock);
    }
  }

  /** The number of rows of user `u`. */
  function CountRows(ps: seq<UserProfile>, u: string): nat {
    if ps == [] then 0 else (if ps[0].userId == u then 1 else 0) + CountRows(ps[1..], u)
  }

  /** `upsert {user_id: u, profile_text: text, updated_at: t} on conflict
      (user_id)`: the user's row gets the new text and `updated_at` and keeps
      its `created_at`; without a row, one is appended (created now). */
  function Upsert(ps: seq<UserProfile>, u: string, text: string, t: nat): seq<UserProfile> {
    if ps == [] then [UserProfile(u, text, t, t)]
    else if ps[0].userId == u then [ps[0].(profileText := text, updatedAt := t)] + ps[1..]
    else [ps[0]] + Upsert(ps[1..], u, text, t)
  }

  /** After an upsert there is exactly one row for `u`, it holds `text`, the
      lookup finds it, and every other user's lookup is as before. */
  lemma UpsertSpec(ps: seq<UserProfile>, u: string, text: string, t: nat)
    requires UniqueUsers(ps)
    ensures var r := Upsert(ps, u, text, t);
      && UniqueUsers(r)
      && CountRows(r, u) == 1
      && FindProfile(r, u).Some?
      && FindProfile(r, u).value.profileText == text
      && FindProfile(r, u).value.updatedAt == t
      && FindProfile(r, u).value.createdAt == (if FindProfile(ps, u).Some? then FindProfile(ps, u).value.createdAt else t)
      && (forall v :: v != u ==> FindProfile(r, v) == FindProfile(ps, v))
  {
    UpsertFinds(ps, u, text, t);
    UpsertUnique(ps, u, text, t);
    UpsertCount(ps, u, text, t);
    forall v | v != u ensures FindProfile(Upsert(ps, u, text, t), v) == FindProfile(ps, v) {
      UpsertOthers(ps, u, text, t, v);
    }
  }

  /** The lookup of `u` after the upsert finds the written row. */
  lemma {:induction false} UpsertFinds(ps: seq<UserProfile>, u: string, text: string, t: nat)
    ensures FindProfile(Upsert(ps, u, text, t), u) ==
      Some(UserProfile(u, text, if FindProfile(ps, u).Some? then FindProfile(ps, u).value.createdAt else t, t))
  {
    if ps != [] && ps[0].userId != u {
      UpsertFinds(ps[1..], u, text, t);
    }
  }

  /** The upsert of `u` leaves the lookup of any other user unchanged. */
  lemma {:induction false} UpsertOthers(ps: seq<UserProfile>, u: string, text: string, t: nat, v: string)
    requires v != u
    ensures FindProfile(Upsert(ps, u, text, t), v) == FindProfile(ps, v)
  {
    var r := Upsert(ps, u, text, t);
    if ps == [] {
    } else if ps[0].userId == u {
      assert r[1..] == ps[1..];
    } else if ps[0].userId != v {
      UpsertOthers(ps[1..], u, text, t, v);
      assert r[1..] == Upsert(ps[1..], u, text, t);
    }
  }

  lemma UniqueTail(ps: seq<UserProfile>)
    requires ps != [] && UniqueUsers(ps)
    ensures UniqueUsers(ps[1..])
    ensures ps[0].userId !in UsersOf(ps[1..])
  {
    forall i, j | 0 <= i < j < |ps[1..]| ensures ps[1..][i].userId != ps[1..][j].userId {
      assert ps[1..][i] == ps[i + 1] && ps[1..][j] == ps[j + 1];
    }
    forall k | 0 <= k < |ps[1..]| ensures ps[1..][k].userId != ps[0].userId {
      assert ps[1..][k] == ps[k + 1];
    }
  }

  /** An upsert keeps the user ids unique. */
  lemma {:induction false} UpsertUnique(ps: seq<UserProfile>, u: string, text: string, t: nat)
    requires UniqueUsers(ps)
    ensures UniqueUsers(Upsert(ps, u, text, t))
  {
    var r := Upsert(ps, u, text, t);
    if ps == [] {
    } else if ps[0].userId == u {
      forall i, j | 0 <= i < j < |r| ensures r[i].userId != r[j].userId {
        assert r[j] == ps[j];
        if i > 0 { assert r[i] == ps[i]; }
      }
    } else {
      var tail := Upsert(ps[1..], u, text, t);
      UniqueTail(ps);
      UpsertUnique(ps[1..], u, text, t);
      UpsertUsers(ps[1..], u, text, t);
      assert r == [ps[0]] + tail;
      forall i, j | 0 <= i < j < |r| ensures r[i].userId != r[j].userId {
        assert r[j] == tail[j - 1];
        if i == 0 {
          assert tail[j - 1].userId in UsersOf(tail);
        } else {
          assert r[i] == tail[i - 1];
        }
      }
    }
  }

  /** After an upsert into a table with unique users, `u` has exactly one
      row. */
  lemma {:induction false} UpsertCount(ps: seq<UserProfile>, u: string, text: string, t: nat)
    requires UniqueUsers(ps)
    ensures CountRows(Upsert(ps, u, text, t), u) == 1
  {
    var r := Upsert(ps, u, text, t);
    if ps == [] {
      assert r[1..] == [];
    } else if ps[0].userId == u {
      assert r[1..] == ps[1..];
      UniqueTail(ps);
      forall i | 0 <= i < |ps[1..]| ensures ps[1..][i].userId != u {
        assert ps[1..][i].userId in UsersOf(ps[1..]);
      }
      NoRowsNoCount(ps[1..], u);
    } else {
      UniqueTail(ps);
      UpsertCount(ps[1..], u, text, t);
      assert r[1..] == Upsert(ps[1..], u, text, t);
    }
  }

  /** Without a row for `u` the count is zero. */
  lemma {:induction false} NoRowsNoCount(ps: seq<UserProfile>, u: string)
    requires forall i :: 0 <= i < |ps| ==> ps[i].userId != u
    ensures CountRows(ps, u) == 0
  {
    if ps != [] {
      assert forall i :: 0 <= i < |ps[1..]| ==> ps[1..][i] == ps[i + 1];
      NoRowsNoCount(ps[1..], u);
    }
  }

  function UsersOf(ps: seq<UserProfile>): set<string> {
    set i | 0 <= i < |ps| :: ps[i].userId
  }

  lemma UsersOfCons(p: UserProfile, ps: seq<UserProfile>)
    ensures UsersOf([p] + ps) == {p.userId} + UsersOf(ps)
  {
    var r := [p] + ps;
    forall x | x in UsersOf(r) ensures x in {p.userId} + UsersOf(ps) {
      var i :| 0 <= i < |r| && r[i].userId == x;
      if i > 0 { assert r[i] == ps[i - 1]; }
    }
    forall x | x in {p.userId} + UsersOf(ps) ensures x in UsersOf(r) {
      if x == p.userId {
        assert r[0].userId == x;
      } else {
        var i :| 0 <= i < |ps| && ps[i].userId == x;
        assert r[i + 1] == ps[i];
      }
    }
  }

  /** An upsert adds `u` to the users of the table and no one else. */
  lemma {:induction false} UpsertUsers(ps: seq<UserProfile>, u: string, text: string, t: nat)
    ensures UsersOf(Upsert(ps, u, text, t)) == UsersOf(ps) + {u}
  {
    var r := Upsert(ps, u, text, t);
    if ps == [] {
      UsersOfCons(r[0], []);
      assert r == [r[0]] + [];
    } else {
      var tail := if ps[0].userId == u then ps[1..] else Upsert(ps[1..], u, text, t);
      assert r == [r[0]] + tail;
      assert ps == [ps[0]] + ps[1..];
      UsersOfCons(r[0], tail);
      UsersOfCons(ps[0], ps[1..]);
      if ps[0].userId != u {
        UpsertUsers(ps[1..], u, text, t);
      }
    }
  }

  /** An upsert keeps every row in place with its creation time, and at most
      appends one row, created at `t`. */
  lemma {:induction false} UpsertShape(ps: seq<UserProfile>, u: string, text: string, t: nat)
    ensures var r := Upsert(ps, u, text, t);
      && (|r| == |ps| || |r| == |ps| + 1)
      && (forall i :: 0 <= i < |ps| ==> r[i].createdAt == ps[i].createdAt)
      && (|r| == |ps| + 1 ==> r[|ps|].createdAt == t)
  {
    if ps != [] && ps[0].userId != u {
      UpsertShape(ps[1..], u, text, t);
      var r := Upsert(ps, u, text, t);
      var tail := Upsert(ps[1..], u, text, t);
      assert r == [ps[0]] + tail;
      forall i | 0 < i < |ps| ensures r[i].createdAt == ps[i].createdAt {
        assert r[i] == tail[i - 1] && ps[i] == ps[1..][i - 1];
      }
    }
  }

  /** An upsert at a time later than every row's creation keeps the table in
      created_at order, and no row is created later than `t`. */
  lemma UpsertKeepsOrder(ps: seq<UserProfile>, u: string, text: string, t: nat)
    requires ProfilesAscending(ps)
    requires forall i :: 0 <= i < |ps| ==> ps[i].createdAt < t
    ensures ProfilesAscending(Upsert(ps, u, text, t))
    ensures forall p :: p in Upsert(ps, u, text, t) ==> p.createdAt <= t
  {
    var r := Upsert(ps, u, text, t);
    UpsertShape(ps, u, text, t);
    forall i, j | 0 <= i < j < |r| ensures r[i].createdAt < r[j].createdAt {
      assert r[i].createdAt == ps[i].createdAt;
    }
    forall p | p in r ensures p.createdAt <= t {
      var k :| 0 <= k < |r| && r[k] == p;
    }
  }

  /** An upsert for a valid user id at time `t` keeps the profile table's
      invariant, with the clock moved past `t`. */
  lemma UpsertKeepsValid(ps: seq<UserProfile>, u: string, text: string, t: nat)
    requires ProfilesValid(ps, t) && !InvalidUserId(u)
    ensures ProfilesValid(Upsert(ps, u, text, t), t + 1)
  {
    UpsertUnique(ps, u, text, t);
    UpsertKeepsOrder(ps, u, text, t);
    UpsertRowsValid(ps, u, text, t);
  }

  lemma {:induction false} UpsertRowsValid(ps: seq<UserProfile>, u: string, text: string, t: nat)
    requires !InvalidUserId(u)
    requires forall i :: 0 <= i < |ps| ==> ProfileRowValid(ps[i], t)
    ensures forall p :: p in Upsert(ps, u, text, t) ==> ProfileRowValid(p, t + 1)
  {
    if ps != [] && ps[0].userId != u {
      assert forall i :: 0 <= i < |ps[1..]| ==> ps[1..][i] == ps[i + 1];
      UpsertRowsValid(ps[1..], u, text, t);
      assert Upsert(ps, u, text, t) == [ps[0]] + Upsert(ps[1..], u, text, t);
    }
  }

  /** `s` in reverse order. */
  function Reverse<T>(s: seq<T>): (r: seq<T>)
    ensures |r| == |s|
    ensures forall i :: 0 <= i < |s| ==> r[i] == s[|s| - 1 - i]
    ensures multiset(r) == multiset(s)
  {
    if s == [] then []
    else
      var r := Reverse(s[1..]) + [s[0]];
      assert s == [s[0]] + s[1..];
      r
  }

  /** `select * from user_profiles order by created_at desc`: the table is
      kept in ascending created_at order, so reversing it gives every row,
      newest first. */
  lemma AllProfilesNewestFirst(ps: seq<UserProfile>)
    requires ProfilesAscending(ps)
    ensures ProfilesDescending(Reverse(ps))
    ensures multiset(Reverse(ps)) == multiset(ps)
  {
  }
}
