/**
 * lib/actions.ts: the server actions behind history, preferences, the chat
 * assistant and saved articles. `sessionUser` is the signed-in user's id as the
 * session reports it (`None` when there is no session or no id); the store is
 * the `Db.Store` they write to. An action that throws returns `Err`.
 */
module Actions {
  import opened Common
  import opened Db
  import Ai
  import Api

  const Unauthorized := "Unauthorized"

  /** The article fields the history and save actions receive. */
  datatype ArticleRef = ArticleRef(url: string, title: string, source: Option<string>,
                                   description: Option<string>, thumbnail: Option<string>)

  /** `{ content, sessionId }` as sent back to the chat client. */
  datatype ChatReply = ChatReply(content: string, sessionId: SessionId)

  /** `content.slice(0, 50) + "..."`: the title of a new chat session. */
  function SessionTitle(content: string): (r: string)
    ensures |r| == Min(50, |content|) + 3
    ensures r[..|r| - 3] <= content && r[|r| - 3..] == "..."
  {
    content[..Min(50, |content|)] + "..."
  }

  /** `addToHistory`: one entry per call; without a user nothing happens, and a failed write is swallowed. */
  method AddToHistory(store: Store, sessionUser: Option<UserId>, article: ArticleRef)
    requires store.Valid()
    modifies store
    ensures store.Valid()
    ensures store.users == old(store.users) && store.sessions == old(store.sessions)
    ensures store.messages == old(store.messages) && store.saved == old(store.saved)
    ensures sessionUser.None? || sessionUser.value >= |store.users| ==> store.history == old(store.history)
    ensures sessionUser.Some? && sessionUser.value < |store.users| ==>
      store.history == old(store.history) + [HistoryEntry(sessionUser.value, article.url, article.title, article.source)]
  {
    if sessionUser.None? {
      return;
    }
    var _ := store.CreateHistory(HistoryEntry(sessionUser.value, article.url, article.title, article.source));
  }

  /**
   * `updatePreferences`: the interest is kept as typed and its translation becomes the
   * user's search query. `apiKey` and `complete` are the translation's credential and
   * completion endpoint.
   */
  method UpdatePreferences(store: Store, sessionUser: Option<UserId>, interest: string,
                           apiKey: Option<string>, complete: Ai.Request -> Ai.Completion) returns (r: Result<()>)
    requires store.Valid()
    modifies store
    ensures store.Valid()
    ensures store.history == old(store.history) && store.sessions == old(store.sessions)
    ensures store.messages == old(store.messages) && store.saved == old(store.saved)
    ensures sessionUser.None? ==> r == Err(Unauthorized) && store.users == old(store.users)
    ensures sessionUser.Some? && sessionUser.value >= |old(store.users)| ==>
      r == Err(RecordNotFound) && store.users == old(store.users)
    ensures sessionUser.Some? && sessionUser.value < |old(store.users)| ==>
      var u := sessionUser.value;
      && r == Ok(())
      && |store.users| == |old(store.users)|
      && store.users[u] == old(store.users)[u].(newsInterest := Some(interest),
                                                searchQuery := Some(Ai.InterpretNewsInterest(interest, apiKey, complete)))
      && forall v :: 0 <= v < |store.users| && v != u ==> store.users[v] == old(store.users)[v]
  {
    if sessionUser.None? {
      return Err(Unauthorized);
    }
    var interpretedQuery := Ai.InterpretNewsInterest(interest, apiKey, complete);
    r := store.UpdatePreferences(sessionUser.value, interest, interpretedQuery);
  }

  /**
   * `sendChatMessage`: picks or creates the session, stores the user's message, answers
   * with the session's oldest ten messages as history and stores the answer. The chat
   * pipeline's date, completion endpoint, search and buster pick are parameters.
   */
  method SendChatMessage(store: Store, sessionUser: Option<UserId>, content: string, sessionId: Option<SessionId>,
                         date: string, complete: Ai.Request -> Ai.Completion,
                         search: Api.Params -> Api.SearchReply, buster: nat) returns (r: Result<ChatReply>)
    requires store.Valid() && buster < |Api.Busters|
    modifies store
    ensures store.Valid()
    ensures store.users == old(store.users) && store.history == old(store.history) && store.saved == old(store.saved)
    ensures r.Err? ==> store.sessions == old(store.sessions) && store.messages == old(store.messages)
    ensures sessionUser.None? ==> r == Err(Unauthorized)
    ensures sessionUser.Some? && sessionId.None? && sessionUser.value >= |old(store.users)| ==> r == Err(ForeignKeyViolation)
    ensures sessionUser.Some? && sessionId.Some? && sessionId.value >= |old(store.sessions)| ==> r == Err(ForeignKeyViolation)
    ensures sessionUser.Some? && sessionId.None? && sessionUser.value < |old(store.users)| ==>
      && r.Ok? && r.value.sessionId == |old(store.sessions)|
      && store.sessions == old(store.sessions) + [ChatSession(sessionUser.value, SessionTitle(content))]
    ensures sessionUser.Some? && sessionId.Some? && sessionId.value < |old(store.sessions)| ==>
      r.Ok? && r.value.sessionId == sessionId.value && store.sessions == old(store.sessions)
    ensures r.Ok? ==>
      var sid := r.value.sessionId;
      var history := Oldest(old(store.messages) + [StoredMessage(sid, User, content)], sid, 10);
      && r.value.content == Ai.GenerateChatResponse(content, history, date, complete, search, buster)
      && store.messages == old(store.messages) + [StoredMessage(sid, User, content), StoredMessage(sid, Assistant, r.value.content)]
  {
    if sessionUser.None? {
      return Err(Unauthorized);
    }
    var currentSessionId: SessionId;
    if sessionId.None? {
      var created := store.CreateSession(ChatSession(sessionUser.value, SessionTitle(content)));
      if created.Err? {
        return Err(created.message);
      }
      currentSessionId := created.value;
    } else {
      currentSessionId := sessionId.value;
    }
    var stored := store.CreateMessage(StoredMessage(currentSessionId, User, content));
    if stored.Err? {
      return Err(stored.message);
    }
    ghost var withQuestion := old(store.messages) + [StoredMessage(currentSessionId, User, content)];
    assert store.messages == withQuestion;
    var history := Oldest(store.messages, currentSessionId, 10);
    var response := Ai.GenerateChatResponse(content, history, date, complete, search, buster);
    var answered := store.CreateMessage(StoredMessage(currentSessionId, Assistant, response));
    assert store.messages == withQuestion + [StoredMessage(currentSessionId, Assistant, response)];
    r := Ok(ChatReply(response, currentSessionId));
  }

  /** The saved-article table after a toggle of `key`: the record removed if present, else added. */
  function Toggled(saved: map<(UserId, string), SavedArticle>, key: (UserId, string), article: SavedArticle): (m: map<(UserId, string), SavedArticle>)
    ensures key in m <==> key !in saved
    ensures forall k :: k != key ==> (k in m <==> k in saved) && (k in m ==> m[k] == saved[k])
  {
    if key in saved then saved - {key} else saved[key := article]
  }

  /**
   * Toggling the same key twice restores its membership. The table itself comes back when
   * the key was absent; when it was present, exactly when its record equals the one saved again.
   */
  lemma ToggleTwice(saved: map<(UserId, string), SavedArticle>, key: (UserId, string), article: SavedArticle)
    ensures key in Toggled(Toggled(saved, key, article), key, article) <==> key in saved
    ensures key !in saved ==> Toggled(Toggled(saved, key, article), key, article) == saved
    ensures key in saved ==> (Toggled(Toggled(saved, key, article), key, article) == saved <==> saved[key] == article)
  {
    var twice := Toggled(Toggled(saved, key, article), key, article);
    if key !in saved {
      assert Toggled(saved, key, article) == saved[key := article];
      assert saved[key := article] - {key} == saved;
    } else {
      assert Toggled(saved, key, article) == saved - {key};
      assert twice == (saved - {key})[key := article];
      assert twice[key] == article;
      if saved[key] == article {
        assert twice == saved;
      }
    }
  }

  /**
   * `toggleSaveArticle`: deletes the user's record for the url when there is one and
   * reports `false`, otherwise creates it and reports `true`.
   */
  method ToggleSaveArticle(store: Store, sessionUser: Option<UserId>, article: ArticleRef) returns (r: Result<bool>)
    requires store.Valid()
    modifies store
    ensures store.Valid()
    ensures store.users == old(store.users) && store.history == old(store.history)
    ensures store.sessions == old(store.sessions) && store.messages == old(store.messages)
    ensures sessionUser.None? ==> r == Err(Unauthorized) && store.saved == old(store.saved)
    ensures sessionUser.Some? ==>
      var key := (sessionUser.value, article.url);
      var record := SavedArticle(article.title, article.source, article.description, article.thumbnail);
      && (key in old(store.saved) || key.0 < |store.users| ==>
            r.Ok? && store.saved == Toggled(old(store.saved), key, record) && (r.value <==> key in store.saved))
      && (key !in old(store.saved) && key.0 >= |store.users| ==> r == Err(ForeignKeyViolation) && store.saved == old(store.saved))
  {
    if sessionUser.None? {
      return Err(Unauthorized);
    }
    var key := (sessionUser.value, article.url);
    if key in store.saved {
      store.DeleteSaved(key);
      return Ok(false);
    }
    var created := store.CreateSaved(key, SavedArticle(article.title, article.source, article.description, article.thumbnail));
    if created.Err? {
      return Err(created.message);
    }
    r := Ok(true);
  }

  // ---------------------------------------------------------------------------
  // Properties of the chat history window

  /**
   * The history sent to the generator is the session's oldest ten messages: for a session
   * that held at most nine before, it is the whole log, ending with the message just stored.
   */
  lemma {:induction false} ShortSessionHistoryEndsWithMessage(messages: seq<StoredMessage>, sid: SessionId, content: string)
    requires |Log(messages, sid)| < 10
    ensures var h := Oldest(messages + [StoredMessage(sid, User, content)], sid, 10);
      h == Log(messages, sid) + [ChatMessage(User, content)] && h[|h| - 1] == ChatMessage(User, content)
  {
    LogAppend(messages, StoredMessage(sid, User, content), sid);
  }

  /** Once a session holds ten messages, the window stops moving: later messages, the new one included, are not sent. */
  lemma {:induction false} LongSessionHistoryIsFixed(messages: seq<StoredMessage>, sid: SessionId, content: string)
    requires |Log(messages, sid)| >= 10
    ensures Oldest(messages + [StoredMessage(sid, User, content)], sid, 10) == Log(messages, sid)[..10]
  {
    LogAppend(messages, StoredMessage(sid, User, content), sid);
    var log := Log(messages, sid);
    assert (log + [ChatMessage(User, content)])[..10] == log[..10];
  }

  /** A message for another session does not change this session's log. */
  lemma OtherSessionLog(messages: seq<StoredMessage>, m: StoredMessage, sid: SessionId)
    requires m.sessionId != sid
    ensures Log(messages + [m], sid) == Log(messages, sid)
  {
    LogAppend(messages, m, sid);
  }
}
