// The request and socket handlers of the chat server (backend/app.py) over an
// in-memory store: the users table, the messages table, the rooms each user's
// socket has joined, and the log of events the server emits.
module ChatServer {
  import opened Wrappers
  import opened MessageStore
  import Moderation

  /** Where an emitted event goes: back to the calling socket, or to a room. */
  datatype Target = Caller(userId: nat) | Room(name: string)

  /** The socket events the handlers emit. */
  datatype Event =
    | JoinedRoom(room: string)
    | NewMessage(message: Message)
    | MessageBlocked(notice: string, reason: string)

  datatype Emission = Emission(target: Target, event: Event)

  /** The payload of a send_message event; `messageType` is absent when the
      client sends no "type", and `aiResponse` is the "ai_response" flag. */
  datatype SendRequest = SendRequest(receiverId: nat, content: string, messageType: Option<string>, aiResponse: bool)

  /** What the payment provider reported for a charge. */
  datatype PaymentResult = PaymentResult(success: bool, message: string)

  /** The HTTP answer of the payment route. */
  datatype PaymentResponse =
    | Paid(creditsAdded: int, newBalance: int)       // 200
    | Declined(error: string)                        // 400
    | Failed                                         // 500

  const BlockedNotice: string := "Message contains inappropriate content"

  /** The loop of get_contacts: the summary of each user, in order. */
  method Summaries(ms: seq<Message>, others: seq<User>, me: nat) returns (contacts: seq<ContactSummary>)
    ensures |contacts| == |others|
    ensures forall k :: 0 <= k < |others| ==> contacts[k] == ContactSummaryOf(ms, others[k], me)
  {
    contacts := [];
    for i := 0 to |others|
      invariant |contacts| == i
      invariant forall k :: 0 <= k < i ==> contacts[k] == ContactSummaryOf(ms, others[k], me)
    {
      contacts := contacts + [ContactSummaryOf(ms, others[i], me)];
    }
  }

  class Server {
    var users: seq<User>
    var messages: seq<Message>
    /** The id the database assigns to the next stored message. */
    var nextId: nat
    /** (user, room) for every room a user's socket has joined. */
    var memberships: set<(nat, string)>
    /** Every event emitted so far, in order. */
    var outbox: seq<Emission>

    /** User ids are a primary key. Every stored message id was assigned
        before `nextId`, so the id a new message takes is one no stored
        message has (see Deliver). */
    ghost predicate Valid()
      reads this
    {
      && UniqueIds(users)
      && (forall i :: 0 <= i < |messages| ==> messages[i].id < nextId)
    }

    constructor (users: seq<User>)
      requires UniqueIds(users)
      ensures Valid()
      ensures this.users == users && messages == [] && memberships == {} && outbox == []
    {
      this.users := users;
      messages := [];
      nextId := 1;
      memberships := {};
      outbox := [];
    }

    /** get_contacts: one summary per user other than the caller, in table
        order, each built from the current messages. */
    method GetContacts(me: nat) returns (contacts: seq<ContactSummary>)
      requires UniqueIds(users)
      ensures contacts == ContactList(messages, users, me)
      ensures forall i :: 0 <= i < |contacts| ==> contacts[i].id != me
      ensures forall u :: u in users && u.id != me ==> exists i :: 0 <= i < |contacts| && contacts[i].id == u.id
      ensures forall i, j :: 0 <= i < j < |contacts| ==> contacts[i].id != contacts[j].id
      ensures forall c :: c in contacts ==> exists u :: u in users && u.id != me && c.id == u.id
    {
      var ms := messages;
      contacts := Summaries(ms, OtherUsers(users, me), me);
      ContactListOfSummaries(ms, users, me, contacts);
      ContactListExact(ms, users, me);
    }

    /** get_messages: mark every message from the contact to the caller as
        read, then answer the pair's messages oldest first (the commit expires
        the loaded rows, so the answer shows the updated flags). */
    method GetMessages(me: nat, contactId: nat) returns (result: seq<Message>)
      requires Valid()
      modifies this`messages
      ensures Valid()
      ensures messages == MarkRead(old(messages), contactId, me)
      ensures result == OrderedConversation(messages, me, contactId)
      ensures CountUnread(messages, contactId, me) == 0
      ensures forall m :: m in result ==> m in messages && Between(m, me, contactId)
    {
      messages := MarkRead(messages, contactId, me);
      MarkReadClearsUnread(old(messages), contactId, me);
      OrderedConversationExact(messages, me, contactId);
      result := OrderedConversation(messages, me, contactId);
    }

    /** join_chat: the caller's socket joins the chat room of the contact it
        views (or its own user room when no contact is given) and is told the
        room's name. */
    method JoinChat(me: nat, contactId: Option<nat>) returns (room: string)
      modifies this`memberships, this`outbox
      ensures room == JoinRoomName(me, contactId)
      ensures memberships == old(memberships) + {(me, room)}
      ensures outbox == old(outbox) + [Emission(Caller(me), JoinedRoom(room))]
    {
      room := JoinRoomName(me, contactId);
      memberships := memberships + {(me, room)};
      outbox := outbox + [Emission(Caller(me), JoinedRoom(room))];
    }

    /** send_message. `verdict` is what content moderation answered for the
        content; `now` and `aiNow` are the clock at the two inserts; `aiReply`
        is what the reply generator answered for the returned history.
        A flagged message is neither stored nor broadcast: only the caller is
        told it was blocked. Otherwise the message is stored with the next id,
        unread, typed "text" unless the client said otherwise, and emitted to
        both chat rooms of the pair. With "ai_response" set, the newest ten
        messages of the pair become the history, and a reply from the receiver
        to the caller is stored and emitted to the same two rooms. */
    method SendMessage(me: nat, request: SendRequest, verdict: Moderation.ModerationResult,
                       now: nat, aiReply: string, aiNow: nat)
      returns (history: seq<Turn>)
      requires Valid()
      modifies this`messages, this`nextId, this`outbox
      ensures Valid()
      ensures verdict.flagged ==>
        && messages == old(messages) && nextId == old(nextId) && history == []
        && outbox == old(outbox) + [Emission(Caller(me), MessageBlocked(BlockedNotice, verdict.reason))]
      ensures !verdict.flagged ==>
        var stored := Message(old(nextId), me, request.receiverId, request.content,
                              if request.messageType.Some? then request.messageType.value else DefaultMessageType,
                              now, false, false);
        var rooms := SendRooms(me, request.receiverId);
        var sent := [Emission(Room(rooms.0), NewMessage(stored)), Emission(Room(rooms.1), NewMessage(stored))];
        if !request.aiResponse then
          && messages == old(messages) + [stored] && nextId == old(nextId) + 1
          && outbox == old(outbox) + sent && history == []
        else
          var window := HistoryWindow(old(messages) + [stored], me, request.receiverId);
          var reply := Message(old(nextId) + 1, request.receiverId, me, aiReply, "text", aiNow, false, true);
          && messages == old(messages) + [stored, reply] && nextId == old(nextId) + 2
          && outbox == old(outbox) + sent
                       + [Emission(Room(rooms.0), NewMessage(reply)), Emission(Room(rooms.1), NewMessage(reply))]
          && |history| == |window|
          && forall i :: 0 <= i < |window| ==>
               history[i] == Turn(if window[i].senderId == me then "user" else "assistant", window[i].content)
    {
      if verdict.flagged {
        outbox := outbox + [Emission(Caller(me), MessageBlocked(BlockedNotice, verdict.reason))];
        return [];
      }
      history := Accept(me, request, now, aiReply, aiNow);
    }

    /** send_message for content moderation let through: store and broadcast
        the caller's message, then run the AI branch when it was asked for. */
    method Accept(me: nat, request: SendRequest, now: nat, aiReply: string, aiNow: nat)
      returns (history: seq<Turn>)
      requires Valid()
      modifies this`messages, this`nextId, this`outbox
      ensures Valid()
      ensures
        var stored := Message(old(nextId), me, request.receiverId, request.content,
                              if request.messageType.Some? then request.messageType.value else DefaultMessageType,
                              now, false, false);
        var rooms := SendRooms(me, request.receiverId);
        var sent := [Emission(Room(rooms.0), NewMessage(stored)), Emission(Room(rooms.1), NewMessage(stored))];
        if !request.aiResponse then
          && messages == old(messages) + [stored] && nextId == old(nextId) + 1
          && outbox == old(outbox) + sent && history == []
        else
          var window := HistoryWindow(old(messages) + [stored], me, request.receiverId);
          var reply := Message(old(nextId) + 1, request.receiverId, me, aiReply, "text", aiNow, false, true);
          && messages == old(messages) + [stored, reply] && nextId == old(nextId) + 2
          && outbox == old(outbox) + sent
                       + [Emission(Room(rooms.0), NewMessage(reply)), Emission(Room(rooms.1), NewMessage(reply))]
          && |history| == |window|
          && forall i :: 0 <= i < |window| ==>
               history[i] == Turn(if window[i].senderId == me then "user" else "assistant", window[i].content)
    {
      history := [];
      var messageType := if request.messageType.Some? then request.messageType.value else DefaultMessageType;
      var rooms := SendRooms(me, request.receiverId);
      Deliver(Message(nextId, me, request.receiverId, request.content, messageType, now, false, false), rooms);
      if request.aiResponse {
        history := ReplyWithAi(me, request.receiverId, aiReply, aiNow);
      }
    }

    /** The AI branch of send_message, run after the caller's message is
        stored: the newest ten messages of the pair become the history, and
        the generator's reply is stored from the receiver to the caller as an
        AI-generated text message and emitted to the pair's two rooms. */
    method ReplyWithAi(me: nat, receiver: nat, aiReply: string, aiNow: nat) returns (history: seq<Turn>)
      requires Valid()
      modifies this`messages, this`nextId, this`outbox
      ensures Valid()
      ensures var window := HistoryWindow(old(messages), me, receiver);
              var reply := Message(old(nextId), receiver, me, aiReply, "text", aiNow, false, true);
              var rooms := SendRooms(me, receiver);
              && messages == old(messages) + [reply] && nextId == old(nextId) + 1
              && outbox == old(outbox) + [Emission(Room(rooms.0), NewMessage(reply)), Emission(Room(rooms.1), NewMessage(reply))]
              && |history| == |window|
              && forall i :: 0 <= i < |window| ==>
                   history[i] == Turn(if window[i].senderId == me then "user" else "assistant", window[i].content)
    {
      var window := HistoryWindow(messages, me, receiver);
      history := FormatConversation(window, me);
      Deliver(Message(nextId, receiver, me, aiReply, "text", aiNow, false, true), SendRooms(me, receiver));
    }

    /** Store one message under the next id, which no stored message has,
        and emit it to two rooms. */
    method Deliver(m: Message, rooms: (string, string))
      requires Valid() && m.id == nextId
      modifies this`messages, this`nextId, this`outbox
      ensures Valid()
      ensures messages == old(messages) + [m] && nextId == old(nextId) + 1
      ensures forall i :: 0 <= i < |old(messages)| ==> old(messages)[i].id != m.id
      ensures outbox == old(outbox) + [Emission(Room(rooms.0), NewMessage(m)), Emission(Room(rooms.1), NewMessage(m))]
    {
      messages := messages + [m];
      nextId := nextId + 1;
      outbox := outbox + [Emission(Room(rooms.0), NewMessage(m)), Emission(Room(rooms.1), NewMessage(m))];
    }

    /** The credit top-up of the payment route, after the provider answered.
        A declined charge answers 400 and changes nothing. A successful charge
        adds exactly the requested credits to the caller's balance and answers
        200; if the caller is not in the table or the request names no credits,
        the handler raises (500) before changing anything. */
    method ProcessPayment(me: nat, credits: Option<int>, result: PaymentResult)
      returns (response: PaymentResponse)
      requires Valid()
      modifies this`users
      ensures Valid()
      ensures !result.success ==> response == Declined(result.message) && users == old(users)
      ensures result.success && (FindUser(old(users), me).None? || credits.None?) ==>
                response == Failed && users == old(users)
      ensures result.success && FindUser(old(users), me).Some? && credits.Some? ==>
                var k := FindUser(old(users), me).value;
                && |users| == |old(users)|
                && users[k] == old(users)[k].(credits := old(users)[k].credits + credits.value)
                && (forall i :: 0 <= i < |users| && i != k ==> users[i] == old(users)[i])
                && response == Paid(credits.value, users[k].credits)
    {
      if !result.success {
        return Declined(result.message);
      }
      var k := FindUser(users, me);
      if k.None? || credits.None? {
        return Failed;
      }
      var user := users[k.value];
      var updated := user.(credits := user.credits + credits.value);
      users := users[k.value := updated];
      return Paid(credits.value, updated.credits);
    }
  }
}
