/**
 * The persistent store the server actions and the credential check write to,
 * kept in memory. A record's id is its position in its table, and a table's
 * creation order is its sequence order. Each write checks what the database's
 * constraints would check: unique e-mail addresses, existing rows behind every
 * reference, an existing row for an update. A failed write changes nothing and
 * reports the error the database would raise.
 */
module Db {
  import opened Common

  type UserId = nat
  type SessionId = nat

  datatype UserRecord = UserRecord(
    email: string,
    password: Option<string>,
    name: Option<string>,
    newsInterest: Option<string>,
    searchQuery: Option<string>)

  datatype HistoryEntry = HistoryEntry(userId: UserId, articleUrl: string, title: string, source: Option<string>)

  datatype ChatSession = ChatSession(userId: UserId, title: string)

  datatype StoredMessage = StoredMessage(sessionId: SessionId, role: Role, content: string)

  datatype SavedArticle = SavedArticle(title: string, source: Option<string>, description: Option<string>, thumbnail: Option<string>)

  const UniqueViolation := "Unique constraint failed"
  const ForeignKeyViolation := "Foreign key constraint failed"
  const RecordNotFound := "Record to update not found."

  /** The position of the user with this e-mail address, if any. */
  function EmailIndex(users: seq<UserRecord>, email: string): (r: Option<UserId>)
    ensures r.Some? ==> r.value < |users| && users[r.value].email == email
    ensures r.None? ==> forall i :: 0 <= i < |users| ==> users[i].email != email
  {
    if users == [] then None
    else match EmailIndex(users[..|users| - 1], email)
      case Some(i) => Some(i)
      case None => if users[|users| - 1].email == email then Some(|users| - 1) else None
  }

  /** The messages of one session, in creation order, as role and content. */
  function Log(messages: seq<StoredMessage>, sessionId: SessionId): (r: seq<ChatMessage>)
    ensures |r| <= |messages|
  {
    if messages == [] then []
    else
      var last := messages[|messages| - 1];
      Log(messages[..|messages| - 1], sessionId)
        + (if last.sessionId == sessionId then [ChatMessage(last.role, last.content)] else [])
  }

  /** Appending a message extends its own session's log by it and leaves every other log alone. */
  lemma LogAppend(messages: seq<StoredMessage>, m: StoredMessage, sessionId: SessionId)
    ensures Log(messages + [m], sessionId)
         == Log(messages, sessionId) + (if m.sessionId == sessionId then [ChatMessage(m.role, m.content)] else [])
  {
    assert (messages + [m])[..|messages|] == messages;
  }

  /**
   * A session's log is built message by message: the log of two batches of messages is the
   * log of the first followed by the log of the second.
   */
  lemma {:induction false} LogConcat(a: seq<StoredMessage>, b: seq<StoredMessage>, sessionId: SessionId)
    ensures Log(a + b, sessionId) == Log(a, sessionId) + Log(b, sessionId)
    decreases |b|
  {
    if b == [] {
      assert a + b == a;
    } else {
      var init := b[..|b| - 1];
      LogConcat(a, init, sessionId);
      assert (a + b)[..|a + b| - 1] == a + init;
      assert (a + b)[|a + b| - 1] == b[|b| - 1];
    }
  }

  /** `findMany({ where: { sessionId }, orderBy: { createdAt: "asc" }, take })`. */
  function Oldest(messages: seq<StoredMessage>, sessionId: SessionId, take: nat): (r: seq<ChatMessage>)
    ensures |r| == Min(take, |Log(messages, sessionId)|)
    ensures r <= Log(messages, sessionId)
  {
    var log := Log(messages, sessionId);
    log[..Min(take, |log|)]
  }

  class Store {
    var users: seq<UserRecord>
    var history: seq<HistoryEntry>
    var sessions: seq<ChatSession>
    var messages: seq<StoredMessage>
    var saved: map<(UserId, string), SavedArticle>

    /** E-mail addresses are unique and every reference names an existing row. */
    predicate Valid()
      reads this
    {
      && (forall i, j :: 0 <= i < j < |users| ==> users[i].email != users[j].email)
      && (forall i :: 0 <= i < |history| ==> history[i].userId < |users|)
      && (forall i :: 0 <= i < |sessions| ==> sessions[i].userId < |users|)
      && (forall i :: 0 <= i < |messages| ==> messages[i].sessionId < |sessions|)
      && (forall k :: k in saved ==> k.0 < |users|)
    }

    constructor ()
      ensures Valid()
      ensures users == [] && history == [] && sessions == [] && messages == [] && saved == map[]
    {
      users := [];
      history := [];
      sessions := [];
      messages := [];
      saved := map[];
    }

    /** `user.findUnique({ where: { email } })`. */
    function FindByEmail(email: string): (r: Option<UserId>)
      reads this
      ensures r.Some? ==> r.value < |users| && users[r.value].email == email
      ensures r.None? ==> forall i :: 0 <= i < |users| ==> users[i].email != email
    {
      EmailIndex(users, email)
    }

    /** `user.create`: refused when the e-mail address is taken. */
    method CreateUser(record: UserRecord) returns (r: Result<UserId>)
      requires Valid()
      modifies this
      ensures Valid()
      ensures history == old(history) && sessions == old(sessions) && messages == old(messages) && saved == old(saved)
      ensures old(FindByEmail(record.email)).Some? ==> r == Err(UniqueViolation) && users == old(users)
      ensures old(FindByEmail(record.email)).None? ==> r == Ok(|old(users)|) && users == old(users) + [record]
    {
      if FindByEmail(record.email).Some? {
        return Err(UniqueViolation);
      }
      r := Ok(|users|);
      users := users + [record];
    }

    /** `user.update({ where: { id }, data: { newsInterest, searchQuery } })`. */
    method UpdatePreferences(id: UserId, newsInterest: string, searchQuery: string) returns (r: Result<()>)
      requires Valid()
      modifies this
      ensures Valid()
      ensures history == old(history) && sessions == old(sessions) && messages == old(messages) && saved == old(saved)
      ensures id >= |old(users)| ==> r == Err(RecordNotFound) && users == old(users)
      ensures id < |old(users)| ==>
        r == Ok(()) && users == old(users)[id := old(users)[id].(newsInterest := Some(newsInterest), searchQuery := Some(searchQuery))]
    {
      if id >= |users| {
        return Err(RecordNotFound);
      }
      users := users[id := users[id].(newsInterest := Some(newsInterest), searchQuery := Some(searchQuery))];
      r := Ok(());
    }

    /** `history.create`. */
    method CreateHistory(entry: HistoryEntry) returns (r: Result<()>)
      requires Valid()
      modifies this
      ensures Valid()
      ensures users == old(users) && sessions == old(sessions) && messages == old(messages) && saved == old(saved)
      ensures entry.userId >= |users| ==> r == Err(ForeignKeyViolation) && history == old(history)
      ensures entry.userId < |users| ==> r == Ok(()) && history == old(history) + [entry]
    {
      if entry.userId >= |users| {
        return Err(ForeignKeyViolation);
      }
      history := history + [entry];
      r := Ok(());
    }

    /** `chatSession.create`. */
    method CreateSession(session: ChatSession) returns (r: Result<SessionId>)
      requires Valid()
      modifies this
      ensures Valid()
      ensures users == old(users) && history == old(history) && messages == old(messages) && saved == old(saved)
      ensures session.userId >= |users| ==> r == Err(ForeignKeyViolation) && sessions == old(sessions)
      ensures session.userId < |users| ==> r == Ok(|old(sessions)|) && sessions == old(sessions) + [session]
    {
      if session.userId >= |users| {
        return Err(ForeignKeyViolation);
      }
      r := Ok(|sessions|);
      sessions := sessions + [session];
    }

    /** `message.create`. */
    method CreateMessage(message: StoredMessage) returns (r: Result<()>)
      requires Valid()
      modifies this
      ensures Valid()
      ensures users == old(users) && history == old(history) && sessions == old(sessions) && saved == old(saved)
      ensures message.sessionId >= |sessions| ==> r == Err(ForeignKeyViolation) && messages == old(messages)
      ensures message.sessionId < |sessions| ==> r == Ok(()) && messages == old(messages) + [message]
    {
      if message.sessionId >= |sessions| {
        return Err(ForeignKeyViolation);
      }
      messages := messages + [message];
      r := Ok(());
    }

    /** `savedArticle.delete` of the record found under the key. */
    method DeleteSaved(key: (UserId, string))
      requires Valid() && key in saved
      modifies this
      ensures Valid()
      ensures users == old(users) && history == old(history) && sessions == old(sessions) && messages == old(messages)
      ensures saved == old(saved) - {key}
    {
      saved := saved - {key};
    }

    /** `savedArticle.create`: refused for a key already present or a missing user. */
    method CreateSaved(key: (UserId, string), article: SavedArticle) returns (r: Result<()>)
      requires Valid()
      modifies this
      ensures Valid()
      ensures users == old(users) && history == old(history) && sessions == old(sessions) && messages == old(messages)
      ensures key in old(saved) ==> r == Err(UniqueViolation) && saved == old(saved)
      ensures key !in old(saved) && key.0 >= |users| ==> r == Err(ForeignKeyViolation) && saved == old(saved)
      ensures key !in old(saved) && key.0 < |users| ==> r == Ok(()) && saved == old(saved)[key := article]
    {
      if key in saved {
        return Err(UniqueViolation);
      }
      if key.0 >= |users| {
        return Err(ForeignKeyViolation);
      }
      saved := saved[key := article];
      r := Ok(());
    }
  }
}
