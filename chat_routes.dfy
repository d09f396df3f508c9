/**
  Chat sessions of the signed-in user (backend/chat/routes.py): creating a
  session, listing the caller's sessions newest first, and reading the
  messages of one of the caller's sessions.

  The tables are sequences in insertion order; ids come from a sequence
  counter; `created_at` is the server time `now` of the insert.
*/
module ChatRoutes {
  import opened Wrappers
  import AuthRoutes

  datatype ChatSession = ChatSession(id: nat, userId: nat, title: string, createdAt: int)

  datatype StoredMessage = StoredMessage(id: nat, sessionId: nat, sender: string, content: Option<string>)

  const NewChatTitle := "New Chat"
  const SessionNotFoundText := "Session not found"

  // -----------------------------------------------------------------------
  // Listing: filter by owner, order by created_at descending
  // -----------------------------------------------------------------------

  /** `filter(ChatSession.user_id == user_id)`, in table order. */
  function OwnedBy(ss: seq<ChatSession>, userId: nat): (r: seq<ChatSession>)
    ensures forall i :: 0 <= i < |r| ==> r[i].userId == userId
    ensures forall s :: multiset(r)[s] == if s.userId == userId then multiset(ss)[s] else 0
  {
    if |ss| == 0 then []
    else
      assert ss == [ss[0]] + ss[1..];
      if ss[0].userId == userId then [ss[0]] + OwnedBy(ss[1..], userId) else OwnedBy(ss[1..], userId)
  }

  /** Newest first. */
  predicate NewestFirst(ss: seq<ChatSession>) {
    forall i, j :: 0 <= i < j < |ss| ==> ss[i].createdAt >= ss[j].createdAt
  }

  /** Place `x` before the first session that is not newer than it. */
  function Insert(x: ChatSession, ss: seq<ChatSession>): (r: seq<ChatSession>)
    ensures multiset(r) == multiset(ss) + multiset{x}
    ensures |r| == |ss| + 1
  {
    if |ss| == 0 || ss[0].createdAt <= x.createdAt then [x] + ss
    else
      assert ss == [ss[0]] + ss[1..];
      [ss[0]] + Insert(x, ss[1..])
  }

  /** Inserting a session no newer than `c` into sessions no newer than `c` gives sessions no newer than `c`. */
  lemma {:induction false} InsertBounded(x: ChatSession, ss: seq<ChatSession>, c: int)
    requires x.createdAt <= c
    requires forall i :: 0 <= i < |ss| ==> ss[i].createdAt <= c
    ensures forall i :: 0 <= i < |Insert(x, ss)| ==> Insert(x, ss)[i].createdAt <= c
    decreases |ss|
  {
    if |ss| > 0 && ss[0].createdAt > x.createdAt {
      InsertBounded(x, ss[1..], c);
      assert forall i :: 1 <= i < |ss| ==> ss[1..][i - 1] == ss[i];
    }
  }

  /** Inserting into a newest-first list keeps it newest first. */
  lemma {:induction false} InsertNewestFirst(x: ChatSession, ss: seq<ChatSession>)
    requires NewestFirst(ss)
    ensures NewestFirst(Insert(x, ss))
    decreases |ss|
  {
    if |ss| == 0 || ss[0].createdAt <= x.createdAt {
      var r := [x] + ss;
      forall i, j | 0 <= i < j < |r| ensures r[i].createdAt >= r[j].createdAt {
        if i == 0 { assert r[j] == ss[j - 1]; } else { assert r[i] == ss[i - 1] && r[j] == ss[j - 1]; }
      }
    } else {
      var tail := ss[1..];
      var rest := Insert(x, tail);
      InsertNewestFirst(x, tail);
      assert forall k :: 0 <= k < |tail| ==> tail[k] == ss[k + 1];
      InsertBounded(x, tail, ss[0].createdAt);
      var r := [ss[0]] + rest;
      assert Insert(x, ss) == r;
      forall i, j | 0 <= i < j < |r| ensures r[i].createdAt >= r[j].createdAt {
        if i == 0 { assert r[j] == rest[j - 1]; } else { assert r[i] == rest[i - 1] && r[j] == rest[j - 1]; }
      }
    }
  }

  /** `order_by(created_at.desc())`. The database may give sessions created at the same time in any order; here they keep table order. */
  function SortNewestFirst(ss: seq<ChatSession>): (r: seq<ChatSession>)
    ensures NewestFirst(r)
    ensures multiset(r) == multiset(ss)
  {
    if |ss| == 0 then []
    else
      assert ss == [ss[0]] + ss[1..];
      var sorted := SortNewestFirst(ss[1..]);
      InsertNewestFirst(ss[0], sorted);
      Insert(ss[0], sorted)
  }

  /** get_user_chat_sessions. */
  function ListSessions(ss: seq<ChatSession>, userId: nat): seq<ChatSession> {
    SortNewestFirst(OwnedBy(ss, userId))
  }

  /**
    The list holds only the caller's sessions, every one of them as often as
    in the table, and newest first.
  */
  lemma ListSessionsSpec(ss: seq<ChatSession>, userId: nat)
    ensures var r := ListSessions(ss, userId);
      && NewestFirst(r)
      && (forall s :: s in r ==> s.userId == userId && s in ss)
      && (forall s :: s in ss && s.userId == userId ==> s in r)
      && (forall s :: multiset(r)[s] == if s.userId == userId then multiset(ss)[s] else 0)
  {
    var owned := OwnedBy(ss, userId);
    var r := SortNewestFirst(owned);
    forall s | s in r
      ensures s.userId == userId && s in ss
    {
      assert multiset(r)[s] > 0;
    }
    forall s | s in ss && s.userId == userId
      ensures s in r
    {
      assert multiset(ss)[s] > 0;
    }
  }

  /** Another user's new session does not change the list. */
  lemma {:induction false} OwnedByAppendOther(ss: seq<ChatSession>, s: ChatSession, userId: nat)
    requires s.userId != userId
    ensures OwnedBy(ss + [s], userId) == OwnedBy(ss, userId)
    decreases |ss|
  {
    if |ss| == 0 {
      assert OwnedBy([s], userId) == OwnedBy([], userId);
    } else {
      assert (ss + [s])[1..] == ss[1..] + [s];
      OwnedByAppendOther(ss[1..], s, userId);
    }
  }

  // -----------------------------------------------------------------------
  // Reading one session
  // -----------------------------------------------------------------------

  /** `filter(id == session_id, user_id == user_id).first()`. */
  function FindOwned(ss: seq<ChatSession>, sessionId: nat, userId: nat): (r: Option<ChatSession>)
    ensures r.Some? ==> r.value in ss && r.value.id == sessionId && r.value.userId == userId
    ensures r.None? ==> forall s :: s in ss ==> s.id != sessionId || s.userId != userId
  {
    if |ss| == 0 then None
    else if ss[0].id == sessionId && ss[0].userId == userId then Some(ss[0])
    else
      var rest := FindOwned(ss[1..], sessionId, userId);
      assert forall s :: s in ss ==> s == ss[0] || s in ss[1..];
      rest
  }

  /** `session.messages`, in table order. */
  function MessagesOf(ms: seq<StoredMessage>, sessionId: nat): (r: seq<StoredMessage>)
    ensures forall i :: 0 <= i < |r| ==> r[i].sessionId == sessionId
    ensures forall m :: multiset(r)[m] == if m.sessionId == sessionId then multiset(ms)[m] else 0
    ensures forall m :: m in r <==> m in ms && m.sessionId == sessionId
  {
    if |ms| == 0 then []
    else
      var rest := MessagesOf(ms[1..], sessionId);
      assert ms == [ms[0]] + ms[1..];
      assert forall m :: m in ms <==> m == ms[0] || m in ms[1..];
      if ms[0].sessionId == sessionId then [ms[0]] + rest else rest
  }

  /**
    The messages of a session keep the table's order: those stored earlier
    come first, and messages stored later only add to the end.
  */
  lemma {:induction false} MessagesOfAppend(a: seq<StoredMessage>, b: seq<StoredMessage>, sessionId: nat)
    ensures MessagesOf(a + b, sessionId) == MessagesOf(a, sessionId) + MessagesOf(b, sessionId)
    decreases |a|
  {
    if |a| == 0 {
      assert a + b == b;
    } else {
      assert (a + b)[1..] == a[1..] + b;
      MessagesOfAppend(a[1..], b, sessionId);
    }
  }

  /** get_chat_session_messages. */
  function GetMessages(ss: seq<ChatSession>, ms: seq<StoredMessage>, sessionId: nat, userId: nat)
    : Result<seq<StoredMessage>, AuthRoutes.HttpError>
  {
    if FindOwned(ss, sessionId, userId).None? then Err(AuthRoutes.HttpError(404, SessionNotFoundText))
    else Ok(MessagesOf(ms, sessionId))
  }

  /**
    A session that does not exist and a session of another user give the
    same 404; a session of the caller gives exactly its messages, each as
    often as stored, in table order.
  */
  lemma GetMessagesSpec(ss: seq<ChatSession>, ms: seq<StoredMessage>, sessionId: nat, userId: nat)
    ensures (forall s :: s in ss && s.id == sessionId ==> s.userId != userId) ==>
              GetMessages(ss, ms, sessionId, userId) == Err(AuthRoutes.HttpError(404, SessionNotFoundText))
    ensures (exists s :: s in ss && s.id == sessionId && s.userId == userId) ==>
              && GetMessages(ss, ms, sessionId, userId) == Ok(MessagesOf(ms, sessionId))
              && (forall m :: multiset(GetMessages(ss, ms, sessionId, userId).value)[m]
                               == if m.sessionId == sessionId then multiset(ms)[m] else 0)
              && (forall m :: m in GetMessages(ss, ms, sessionId, userId).value <==> m in ms && m.sessionId == sessionId)
  {
  }

  /**
    Messages stored after a read only add to the end: what the caller read
    is a prefix of what the same request returns on the longer table.
  */
  lemma GetMessagesGrows(ss: seq<ChatSession>, ms: seq<StoredMessage>, more: seq<StoredMessage>, sessionId: nat, userId: nat)
    requires GetMessages(ss, ms, sessionId, userId).Ok?
    ensures var later := GetMessages(ss, ms + more, sessionId, userId);
      && later.Ok?
      && later.value == GetMessages(ss, ms, sessionId, userId).value + MessagesOf(more, sessionId)
  {
    MessagesOfAppend(ms, more, sessionId);
  }

  // -----------------------------------------------------------------------
  // The table of sessions
  // -----------------------------------------------------------------------

  /** Session ids are distinct and below the counter. */
  predicate IdsFresh(ss: seq<ChatSession>, nextId: nat) {
    && (forall i :: 0 <= i < |ss| ==> ss[i].id < nextId)
    && (forall i, j :: 0 <= i < j < |ss| ==> ss[i].id != ss[j].id)
  }

  class ChatStore {
    var sessions: seq<ChatSession>
    var messages: seq<StoredMessage>
    var nextId: nat

    predicate Valid()
      reads this
    {
      IdsFresh(sessions, nextId)
    }

    constructor ()
      ensures Valid() && sessions == [] && messages == []
    {
      sessions, messages, nextId := [], [], 0;
    }

    /** create_chat_session: one new session, owned by the caller, titled "New Chat", with a fresh id. */
    method CreateSession(userId: nat, now: int) returns (s: ChatSession)
      requires Valid()
      modifies this
      ensures Valid()
      ensures s == ChatSession(old(nextId), userId, NewChatTitle, now)
      ensures sessions == old(sessions) + [s] && messages == old(messages)
      ensures forall t :: t in old(sessions) ==> t.id != s.id
    {
      s := ChatSession(nextId, userId, NewChatTitle, now);
      sessions := sessions + [s];
      nextId := nextId + 1;
    }
  }

  /** A new session appears in its owner's list and leaves every other user's list as it was. */
  lemma CreateShowsInOwnList(ss: seq<ChatSession>, s: ChatSession, other: nat)
    requires other != s.userId
    ensures s in ListSessions(ss + [s], s.userId)
    ensures ListSessions(ss + [s], other) == ListSessions(ss, other)
  {
    ListSessionsSpec(ss + [s], s.userId);
    OwnedByAppendOther(ss, s, other);
  }
}
