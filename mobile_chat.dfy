// The chat screen of the mobile app (mobile-app/src/screens/ChatScreen.js):
// its three state cells (the message list, the draft and the loading flag)
// and the socket events it emits. The fetch answer, the socket's presence and
// incoming messages arrive as method parameters.
module MobileChat {
  import opened Wrappers
  import opened Text
  import MessageStore
  import ChatServer

  /** What the screen emits on its socket. A send carries no "ai_response". */
  datatype Outgoing =
    | JoinChat(contactId: nat)
    | SendChat(request: ChatServer.SendRequest)

  /** One drawn row: whose side it sits on, its text and its time stamp. */
  datatype Row = Row(mine: bool, content: string, timestamp: nat)

  /** renderMessage: a message is drawn on the user's own side exactly when
      its sender is the logged-in user. */
  function RenderRow(m: MessageStore.Message, userId: nat): (row: Row)
    ensures row.mine <==> m.senderId == userId
    ensures row.content == m.content && row.timestamp == m.timestamp
  {
    Row(m.senderId == userId, m.content, m.timestamp)
  }

  /** A message the server stores for a sender is drawn on the sender's own
      side on the sender's screen and on the other side on the receiver's. */
  lemma SidesOfStoredMessage(m: MessageStore.Message)
    requires m.senderId != m.receiverId
    ensures RenderRow(m, m.senderId).mine
    ensures !RenderRow(m, m.receiverId).mine
  {
  }

  class ChatScreen {
    const contactId: nat
    /** The logged-in user. */
    const userId: nat
    var messages: seq<MessageStore.Message>
    /** The text in the input box. */
    var draft: string
    var loading: bool
    /** Every event emitted on the socket, in order. */
    var emitted: seq<Outgoing>

    constructor (contactId: nat, userId: nat)
      ensures this.contactId == contactId && this.userId == userId
      ensures messages == [] && draft == "" && loading && emitted == []
    {
      this.contactId := contactId;
      this.userId := userId;
      messages := [];
      draft := "";
      loading := true;
      emitted := [];
    }

    /** The mount effect: with a socket, join the chat of this contact. The
        fetch it starts completes through FetchMessages. */
    method Mount(hasSocket: bool)
      modifies this`emitted
      ensures emitted == old(emitted) + if hasSocket then [JoinChat(contactId)] else []
    {
      if hasSocket {
        emitted := emitted + [JoinChat(contactId)];
      }
    }

    /** fetchMessages once the request settles: the server's list replaces
        the local one, a failed request leaves it, and loading ends either way. */
    method FetchMessages(response: Option<seq<MessageStore.Message>>)
      modifies this`messages, this`loading
      ensures response.Some? ==> messages == response.value
      ensures response.None? ==> messages == old(messages)
      ensures !loading
    {
      if response.Some? {
        messages := response.value;
      }
      loading := false;
    }

    /** handleNewMessage: the incoming message is appended at the end, with
        no check for one already present. */
    method HandleNewMessage(m: MessageStore.Message)
      modifies this`messages
      ensures messages == old(messages) + [m]
      ensures |messages| == |old(messages)| + 1 && messages[..|old(messages)|] == old(messages)
    {
      messages := messages + [m];
    }

    /** The input box's change handler. */
    method SetDraft(text: string)
      modifies this`draft
      ensures draft == text
    {
      draft := text;
    }

    /** sendMessage. A draft that is blank after trimming changes nothing.
        Otherwise, when a socket exists, a send of the untrimmed draft to this
        contact typed "text" is emitted, and the draft is cleared whether or
        not there was a socket. The message list is never touched: messages
        appear only through HandleNewMessage. */
    method SendMessage(hasSocket: bool)
      modifies this`draft, this`emitted
      ensures messages == old(messages)
      ensures Trim(old(draft)) == "" ==> draft == old(draft) && emitted == old(emitted)
      ensures Trim(old(draft)) != "" ==>
                && draft == ""
                && emitted == old(emitted) +
                     if hasSocket then [SendChat(ChatServer.SendRequest(contactId, old(draft), Some("text"), false))]
                     else []
    {
      if Trim(draft) == "" {
        return;
      }
      if hasSocket {
        emitted := emitted + [SendChat(ChatServer.SendRequest(contactId, draft, Some("text"), false))];
      }
      draft := "";
    }
  }
}
