/**
 * The chat context provider (frontend/src/context/ChatContext.js): the
 * current session and the message history shared by the chat screens.
 * The socket connection is not modelled; an incoming `new-message` event is
 * the method `ReceiveMessage`. Awaits are taken in program order.
 */
module ChatContext {
  import opened Wrappers
  import opened ChatApi

  /** The signed-in user (`useAuth().user`). */
  datatype AuthUser = AuthUser(id: string)

  /** What `chatService.createSession` resolves with. */
  datatype Session = Session(sessionId: string)

  /** The body `sendMessage` posts to `/chat/message`. */
  datatype SendRequest = SendRequest(sessionId: string, message: string, documentId: Option<string>, userId: string)

  const OutsideProvider: string := "useChat must be used within a ChatProvider"

  /** `useChat`: the provider's value, or the error thrown when there is no provider above. */
  function UseChat<T>(context: Option<T>): (r: Outcome<T>)
    ensures r.Rejected? <==> context.None?
    ensures r.Rejected? ==> r.reason == OutsideProvider
    ensures context.Some? ==> r == Resolved(context.value)
  {
    match context
    case None => Rejected(OutsideProvider)
    case Some(value) => Resolved(value)
  }

  /** The assistant turn `sendMessage` appends when the request fails. */
  const ErrorTurn: Message := Message(Assistant, Apology, true)

  /** The error the sequential model reports when `currentSession.sessionId` or `user.id` is read on null. */
  const NullAccess: string := "TypeError"

  class ChatProvider {
    var messages: seq<Message>
    var currentSession: Option<Session>
    const user: Option<AuthUser>

    constructor (user: Option<AuthUser>)
      ensures messages == [] && currentSession == None && this.user == user
    {
      messages, currentSession := [], None;
      this.user := user;
    }

    /**
     * `createSession`: without a user nothing happens; otherwise a created
     * session replaces the current one and empties the history, and a failed
     * request changes nothing and is rethrown.
     */
    method CreateSession(created: Outcome<Session>) returns (r: Outcome<Option<Session>>)
      modifies this
      ensures user.None? ==> r == Resolved(None)
      ensures user.Some? && created.Resolved? ==>
                r == Resolved(Some(created.value)) && currentSession == Some(created.value) && messages == []
      ensures user.Some? && created.Rejected? ==> r == Rejected(created.reason)
      ensures !(user.Some? && created.Resolved?) ==>
                currentSession == old(currentSession) && messages == old(messages)
    {
      if user.None? {
        return Resolved(None);
      }
      match created {
        case Rejected(e) =>
          return Rejected(e);
        case Resolved(session) =>
          currentSession := Some(session);
          messages := [];
          return Resolved(Some(session));
      }
    }

    /**
     * `sendMessage`: creates a session first when there is none, then appends
     * the user turn; the request is sent only when both a session and a user
     * exist. Its reply is returned as is (the assistant turn arrives through
     * the socket); a failure appends one flagged assistant turn and is rethrown.
     */
    method SendMessage(content: string, documentId: Option<string>, created: Outcome<Session>, response: Outcome<Reply>)
      returns (sent: Option<SendRequest>, r: Outcome<Reply>)
      modifies this
      // creating the missing session failed: the rejection propagates before anything is appended
      ensures old(currentSession).None? && user.Some? && created.Rejected? ==>
                && sent == None && r == Rejected(created.reason)
                && messages == old(messages) && currentSession == old(currentSession)
      ensures !(old(currentSession).None? && user.Some? && created.Rejected?) ==>
                && currentSession == (if old(currentSession).None? && user.Some? then Some(created.value) else old(currentSession))
                && (sent.None? <==> currentSession.None? || user.None?)
                && (sent.Some? ==> sent.value == SendRequest(currentSession.value.sessionId, content, documentId, user.value.id))
                && (sent.None? ==> r == Rejected(NullAccess))
                && (sent.Some? ==> r == response)
                && messages == History(old(messages), old(currentSession).None? && user.Some?)
                               + [Message(User, content, false)] + (if r.Resolved? then [] else [ErrorTurn])
    {
      sent := None;
      if currentSession.None? {
        var c := CreateSession(created);
        if c.Rejected? {
          return None, Rejected(c.reason);
        }
      }
      messages := messages + [Message(User, content, false)];
      if currentSession.None? || user.None? {
        messages := messages + [ErrorTurn];
        return None, Rejected(NullAccess);
      }
      sent := Some(SendRequest(currentSession.value.sessionId, content, documentId, user.value.id));
      match response {
        case Resolved(reply) =>
          r := Resolved(reply);
        case Rejected(e) =>
          messages := messages + [ErrorTurn];
          r := Rejected(e);
      }
    }

    /** The `new-message` socket event: the incoming turn is appended at the end. */
    method ReceiveMessage(m: Message)
      modifies this`messages
      ensures messages == old(messages) + [m]
    {
      messages := messages + [m];
    }
  }

  /** The history a send starts from: emptied when it had to create a session first. */
  function History(before: seq<Message>, createdSession: bool): seq<Message> {
    if createdSession then [] else before
  }
}
