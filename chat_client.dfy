/**
 * components/news/chat-interface.tsx: the assistant's client-side chat log.
 * `handleSubmit` is split into the step before its `await` (`BeginSubmit`) and
 * the step after it (`CompleteSubmit`); `Submit` runs both around the server
 * action. Clock readings (`Date.now()`) are the parameters `now` and `later`.
 */
module ChatClient {
  import opened Common
  import opened Text
  import Db
  import Actions
  import Ai
  import Api

  /** A message of the log: its id, the author and the text. */
  datatype LogMessage = LogMessage(id: string, role: Role, content: string)

  /** The server action's call: the text typed and the session it continues. */
  datatype ChatCall = ChatCall(content: string, sessionId: Option<Db.SessionId>)

  /** How the awaited action ended: the reply with its session, or an exception. */
  datatype ChatOutcome = Replied(content: string, sessionId: Option<Db.SessionId>) | Failed

  const TroubleReply := "Sorry, I had trouble finding news for that. Please try again."

  /** A submit goes ahead only with non-blank input and no request in flight. */
  predicate Accepts(input: string, isLoading: bool) {
    Trim(input) != "" && !isLoading
  }

  /**
   * The awaited `sendChatMessage` call as the client sees it: the reply with the
   * session it was stored under, or `Failed` for any error the action throws.
   */
  method Ask(store: Db.Store, sessionUser: Option<Db.UserId>, call: ChatCall, date: string,
             complete: Ai.Request -> Ai.Completion, search: Api.Params -> Api.SearchReply, buster: nat)
    returns (outcome: ChatOutcome)
    requires store.Valid() && buster < |Api.Busters|
    modifies store
    ensures store.Valid()
    ensures outcome.Replied? ==> outcome.sessionId.Some? && outcome.sessionId.value < |store.sessions|
    ensures sessionUser.None? ==> outcome.Failed?
  {
    var reply := Actions.SendChatMessage(store, sessionUser, call.content, call.sessionId,
                                         date, complete, search, buster);
    outcome := if reply.Ok? then Replied(reply.value.content, Some(reply.value.sessionId)) else Failed;
  }

  class ChatInterface {
    var messages: seq<LogMessage>
    var input: string
    var isLoading: bool
    var currentSessionId: Option<Db.SessionId>

    constructor (initialMessages: seq<LogMessage>, sessionId: Option<Db.SessionId>)
      ensures messages == initialMessages && input == "" && !isLoading && currentSessionId == sessionId
    {
      messages := initialMessages;
      input := "";
      isLoading := false;
      currentSessionId := sessionId;
    }

    /** Typing into the box. */
    method SetInput(text: string)
      modifies this
      ensures input == text
      ensures messages == old(messages) && isLoading == old(isLoading) && currentSessionId == old(currentSessionId)
    {
      input := text;
    }

    /** The clear button: the log is emptied but the server session is kept. */
    method Clear()
      modifies this
      ensures messages == []
      ensures input == old(input) && isLoading == old(isLoading) && currentSessionId == old(currentSessionId)
    {
      messages := [];
    }

    /**
     * `handleSubmit` up to its `await`: the untrimmed input is logged as the user's
     * message, the box is cleared and loading is set; a blank input or a request in
     * flight makes it do nothing.
     */
    method BeginSubmit(now: nat) returns (call: Option<ChatCall>)
      modifies this
      ensures !Accepts(old(input), old(isLoading)) ==> call.None? && unchanged(this)
      ensures Accepts(old(input), old(isLoading)) ==>
        && call == Some(ChatCall(old(input), old(currentSessionId)))
        && messages == old(messages) + [LogMessage(IntToString(now), User, old(input))]
        && input == "" && isLoading && currentSessionId == old(currentSessionId)
    {
      var content := input;
      if !Accepts(content, isLoading) {
        return None;
      }
      var id := IntToString(now);
      messages := messages + [LogMessage(id, User, content)];
      input := "";
      isLoading := true;
      call := Some(ChatCall(content, currentSessionId));
    }

    /**
     * `handleSubmit` after its `await`: the reply, or the fixed apology on an exception, is
     * logged as the assistant's message; a reply's session replaces the current one only
     * when it carries one. Loading is cleared either way.
     */
    method CompleteSubmit(outcome: ChatOutcome, later: nat)
      modifies this
      ensures !isLoading && input == old(input)
      ensures outcome.Replied? ==>
        && messages == old(messages) + [LogMessage(IntToString(later + 1), Assistant, outcome.content)]
        && currentSessionId == (if outcome.sessionId.Some? then outcome.sessionId else old(currentSessionId))
      ensures outcome.Failed? ==>
        messages == old(messages) + [LogMessage("error", Assistant, TroubleReply)] && currentSessionId == old(currentSessionId)
    {
      match outcome {
        case Replied(content, sessionId) =>
          messages := messages + [LogMessage(IntToString(later + 1), Assistant, content)];
          if sessionId.Some? {
            currentSessionId := sessionId;
          }
        case Failed =>
          messages := messages + [LogMessage("error", Assistant, TroubleReply)];
      }
      isLoading := false;
    }

    /**
     * A whole submit against `sendChatMessage`: an accepted submit grows the log by exactly
     * two messages, the user's first, and ends with loading cleared; a refused one changes
     * neither the view nor the store.
     */
    method Submit(store: Db.Store, sessionUser: Option<Db.UserId>, now: nat, later: nat, date: string,
                  complete: Ai.Request -> Ai.Completion, search: Api.Params -> Api.SearchReply, buster: nat)
      requires store.Valid() && buster < |Api.Busters|
      modifies this, store
      ensures store.Valid()
      ensures !Accepts(old(input), old(isLoading)) ==>
        messages == old(messages) && input == old(input) && isLoading == old(isLoading)
        && currentSessionId == old(currentSessionId) && unchanged(store)
      ensures Accepts(old(input), old(isLoading)) ==>
        && |messages| == |old(messages)| + 2
        && messages[..|old(messages)|] == old(messages)
        && messages[|old(messages)|] == LogMessage(IntToString(now), User, old(input))
        && messages[|old(messages)| + 1].role == Assistant
        && input == "" && !isLoading
    {
      var call := BeginSubmit(now);
      if call.Some? {
        var outcome := Ask(store, sessionUser, call.value, date, complete, search, buster);
        CompleteSubmit(outcome, later);
      }
    }
  }
}
