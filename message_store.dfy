// The rules the chat server (backend/app.py) applies to its stored users and
// messages, stated over an in-memory store: which messages belong to a pair
// of users, timestamp order, unread counts, the contact-list summary, marking
// as read, the Socket.IO room names, and the window of history handed to the
// AI reply generator.
module MessageStore {
  import opened Text
  import opened Wrappers

  /** A registered user (backend/models.py). */
  datatype User = User(id: nat, username: string, avatar: Option<string>, credits: int)

  /** A stored message (backend/models.py); the timestamp is a clock reading. */
  datatype Message = Message(
    id: nat,
    senderId: nat,
    receiverId: nat,
    content: string,
    messageType: string,
    timestamp: nat,
    read: bool,
    isAiGenerated: bool)

  /** The default of the message_type column. */
  const DefaultMessageType: string := "text"

  // ---------------------------------------------------------------------------
  // Users
  // ---------------------------------------------------------------------------

  predicate UniqueIds(users: seq<User>)
  {
    forall i, j :: 0 <= i < j < |users| ==> users[i].id != users[j].id
  }

  /** `User.query.filter(User.id != me)`, in table order. Each user other than
      `me` is kept, `me` never is, and distinct ids stay distinct, so every
      other user appears exactly once. */
  function OtherUsers(users: seq<User>, me: nat): (r: seq<User>)
    ensures |r| <= |users|
    ensures forall u :: u in r <==> u in users && u.id != me
  {
    if users == [] then []
    else
      var rest := OtherUsers(users[1..], me);
      if users[0].id == me then rest else [users[0]] + rest
  }

  /** Filtering keeps distinct ids distinct. */
  lemma {:induction false} OtherUsersUnique(users: seq<User>, me: nat)
    requires UniqueIds(users)
    ensures UniqueIds(OtherUsers(users, me))
  {
    if users != [] {
      var tail := users[1..];
      assert UniqueIds(tail);
      OtherUsersUnique(tail, me);
      if users[0].id != me {
        NewIdStaysUnique(users[0], OtherUsers(tail, me), tail);
      }
    }
  }

  /** Putting in front a user whose id no user of a larger list has keeps ids
      unique. */
  lemma NewIdStaysUnique(u: User, rest: seq<User>, pool: seq<User>)
    requires UniqueIds(rest)
    requires forall x :: x in rest ==> x in pool
    requires forall k :: 0 <= k < |pool| ==> pool[k].id != u.id
    ensures UniqueIds([u] + rest)
  {
    var r := [u] + rest;
    forall i, j | 0 <= i < j < |r|
      ensures r[i].id != r[j].id
    {
      if i == 0 {
        assert r[j] in pool;
      } else {
        assert r[i] == rest[i - 1] && r[j] == rest[j - 1];
      }
    }
  }

  /** `User.query.get(id)`: the position of the user with that id, if any. */
  function FindUser(users: seq<User>, id: nat): (k: Option<nat>)
    ensures k.Some? ==> k.value < |users| && users[k.value].id == id
    ensures k.None? <==> forall i :: 0 <= i < |users| ==> users[i].id != id
  {
    if users == [] then None
    else if users[|users| - 1].id == id then Some(|users| - 1)
    else FindUser(users[..|users| - 1], id)
  }

  // ---------------------------------------------------------------------------
  // Conversations
  // ---------------------------------------------------------------------------

  /** The message was sent from `a` to `b` or from `b` to `a`. */
  predicate Between(m: Message, a: nat, b: nat)
  {
    (m.senderId == a && m.receiverId == b) || (m.senderId == b && m.receiverId == a)
  }

  /** The pair filter of get_messages, get_contacts and send_message, in store
      order: every message of the pair with its multiplicity, and nothing else. */
  function Conversation(ms: seq<Message>, a: nat, b: nat): (r: seq<Message>)
    ensures |r| <= |ms|
    ensures forall m :: multiset(r)[m] == if Between(m, a, b) then multiset(ms)[m] else 0
  {
    if ms == [] then []
    else
      var rest := Conversation(ms[..|ms| - 1], a, b);
      var last := ms[|ms| - 1];
      assert ms == ms[..|ms| - 1] + [last];
      if Between(last, a, b) then rest + [last] else rest
  }

  /** The filter does not depend on which side of the pair is named first. */
  lemma {:induction false} ConversationSymmetric(ms: seq<Message>, a: nat, b: nat)
    ensures Conversation(ms, a, b) == Conversation(ms, b, a)
  {
    if ms != [] {
      ConversationSymmetric(ms[..|ms| - 1], a, b);
    }
  }

  /** Storing a message extends the pair's conversation by it exactly when it
      belongs to the pair. */
  lemma ConversationAppend(ms: seq<Message>, m: Message, a: nat, b: nat)
    ensures Conversation(ms + [m], a, b) == Conversation(ms, a, b) + (if Between(m, a, b) then [m] else [])
  {
    assert (ms + [m])[..|ms + [m]| - 1] == ms;
  }

  /** A message is in the pair's conversation exactly when it is stored and
      belongs to the pair. */
  lemma ConversationMembers(ms: seq<Message>, a: nat, b: nat)
    ensures forall m :: m in Conversation(ms, a, b) <==> m in ms && Between(m, a, b)
  {
    var c := Conversation(ms, a, b);
    assert forall m :: m in c <==> multiset(c)[m] > 0;
  }

  // ---------------------------------------------------------------------------
  // Timestamp order (ORDER BY timestamp; ties are left in store order)
  // ---------------------------------------------------------------------------

  predicate SortedByTime(s: seq<Message>)
  {
    forall i, j :: 0 <= i < j < |s| ==> s[i].timestamp <= s[j].timestamp
  }

  /** Put `m` before the first element that is not older than it. */
  function InsertByTime(m: Message, s: seq<Message>): (r: seq<Message>)
    ensures |r| == |s| + 1
    ensures multiset(r) == multiset(s) + multiset{m}
  {
    if s == [] || m.timestamp <= s[0].timestamp then [m] + s
    else
      assert s == [s[0]] + s[1..];
      [s[0]] + InsertByTime(m, s[1..])
  }

  /** A sorted sequence stays sorted when an element no newer than all of its
      elements is put in front. */
  lemma SortedCons(x: Message, s: seq<Message>)
    requires SortedByTime(s)
    requires forall k :: 0 <= k < |s| ==> x.timestamp <= s[k].timestamp
    ensures SortedByTime([x] + s)
  {
    var r := [x] + s;
    forall i, j | 0 <= i < j < |r|
      ensures r[i].timestamp <= r[j].timestamp
    {
      assert r[j] == s[j - 1];
      if i > 0 {
        assert r[i] == s[i - 1];
      }
    }
  }

  /** Inserting into a sorted sequence keeps it sorted. */
  lemma {:induction false} InsertByTimeSorted(m: Message, s: seq<Message>)
    requires SortedByTime(s)
    ensures SortedByTime(InsertByTime(m, s))
  {
    if s == [] || m.timestamp <= s[0].timestamp {
      SortedCons(m, s);
    } else {
      var rest := InsertByTime(m, s[1..]);
      InsertByTimeSorted(m, s[1..]);
      forall k | 0 <= k < |rest|
        ensures s[0].timestamp <= rest[k].timestamp
      {
        assert rest[k] in multiset(rest);
        if rest[k] != m {
          assert rest[k] in multiset(s[1..]);
        }
      }
      SortedCons(s[0], rest);
    }
  }

  /** Ascending timestamp order of `s`: sorted, and a permutation of `s`. */
  function SortByTime(s: seq<Message>): (r: seq<Message>)
    ensures |r| == |s|
    ensures SortedByTime(r)
    ensures multiset(r) == multiset(s)
  {
    if s == [] then []
    else
      assert s == [s[0]] + s[1..];
      InsertByTimeSorted(s[0], SortByTime(s[1..]));
      InsertByTime(s[0], SortByTime(s[1..]))
  }

  /** get_messages' list: the pair's messages, oldest first. */
  function OrderedConversation(ms: seq<Message>, a: nat, b: nat): (r: seq<Message>)
    ensures |r| == |Conversation(ms, a, b)|
    ensures |r| <= |ms|
  {
    SortByTime(Conversation(ms, a, b))
  }

  /** The ordered conversation holds exactly the messages exchanged between
      the two users in either direction, with their multiplicity, in
      ascending timestamp order. */
  lemma OrderedConversationExact(ms: seq<Message>, a: nat, b: nat)
    ensures SortedByTime(OrderedConversation(ms, a, b))
    ensures forall m :: m in OrderedConversation(ms, a, b) <==> m in ms && Between(m, a, b)
    ensures forall m :: multiset(OrderedConversation(ms, a, b))[m] == if Between(m, a, b) then multiset(ms)[m] else 0
  {
    var c := Conversation(ms, a, b);
    assert forall m :: m in OrderedConversation(ms, a, b) <==> multiset(c)[m] > 0;
  }

  // ---------------------------------------------------------------------------
  // Unread counts and marking as read
  // ---------------------------------------------------------------------------

  /** The message went from `from` to `to` and has not been read. */
  predicate UnreadFrom(m: Message, from: nat, to: nat)
  {
    m.senderId == from && m.receiverId == to && !m.read
  }

  /** `Message.query.filter_by(sender_id=from, receiver_id=to, read=False).count()`. */
  function CountUnread(ms: seq<Message>, from: nat, to: nat): (n: nat)
    ensures n <= |ms|
    ensures n == 0 <==> forall i :: 0 <= i < |ms| ==> !UnreadFrom(ms[i], from, to)
  {
    if ms == [] then 0
    else CountUnread(ms[..|ms| - 1], from, to) + (if UnreadFrom(ms[|ms| - 1], from, to) then 1 else 0)
  }

  /** Every unread message from `from` to `to` is in their conversation, so
      the unread count never exceeds the conversation's length. */
  lemma {:induction false} UnreadWithinConversation(ms: seq<Message>, from: nat, to: nat)
    ensures CountUnread(ms, from, to) <= |Conversation(ms, from, to)|
  {
    if ms != [] {
      UnreadWithinConversation(ms[..|ms| - 1], from, to);
    }
  }

  /** The bulk update of get_messages: every message from `from` to `to` gets
      read = True. Only read flags change, and only of those messages. */
  function MarkRead(ms: seq<Message>, from: nat, to: nat): (r: seq<Message>)
    ensures |r| == |ms|
    ensures forall i :: 0 <= i < |ms| ==> r[i].(read := ms[i].read) == ms[i]
    ensures forall i :: 0 <= i < |ms| && ms[i].senderId == from && ms[i].receiverId == to ==> r[i].read
    ensures forall i :: 0 <= i < |ms| && !(ms[i].senderId == from && ms[i].receiverId == to) ==>
      r[i].read == ms[i].read
  {
    seq(|ms|, i requires 0 <= i < |ms| =>
      if ms[i].senderId == from && ms[i].receiverId == to then ms[i].(read := true) else ms[i])
  }

  /** After marking, the contact's unread count towards the caller is zero. */
  lemma MarkReadClearsUnread(ms: seq<Message>, from: nat, to: nat)
    ensures CountUnread(MarkRead(ms, from, to), from, to) == 0
  {
  }

  /** Marking one direction as read leaves the unread count of every other
      direction unchanged. */
  lemma {:induction false} MarkReadKeepsOtherCounts(ms: seq<Message>, from: nat, to: nat, x: nat, y: nat)
    requires x != from || y != to
    ensures CountUnread(MarkRead(ms, from, to), x, y) == CountUnread(ms, x, y)
  {
    if ms != [] {
      var init := ms[..|ms| - 1];
      MarkReadKeepsOtherCounts(init, from, to, x, y);
      assert MarkRead(ms, from, to)[..|ms| - 1] == MarkRead(init, from, to);
    }
  }

  // ---------------------------------------------------------------------------
  // The contact list
  // ---------------------------------------------------------------------------

  /** One entry of get_contacts' answer. */
  datatype ContactSummary = ContactSummary(
    id: nat,
    username: string,
    avatar: Option<string>,
    lastMessage: string,
    lastMessageTime: Option<nat>,
    unreadCount: nat)

  const NoMessagesYet: string := "No messages yet"

  /** The newest message of a non-empty conversation
      (ORDER BY timestamp DESC, first row). */
  function Latest(conversation: seq<Message>): (m: Message)
    requires conversation != []
    ensures m in conversation
    ensures forall x :: x in conversation ==> x.timestamp <= m.timestamp
  {
    var sorted := SortByTime(conversation);
    assert multiset(sorted)[sorted[|sorted| - 1]] > 0;
    assert forall x :: x in conversation ==> x in multiset(sorted);
    sorted[|sorted| - 1]
  }

  /** The entry get_contacts builds for user `u` as seen by `me`: the user's
      id, name and avatar, and the unread count from the user to `me`. */
  function ContactSummaryOf(ms: seq<Message>, u: User, me: nat): (c: ContactSummary)
    ensures c.id == u.id && c.username == u.username && c.avatar == u.avatar
    ensures c.unreadCount == CountUnread(ms, u.id, me)
  {
    var conversation := Conversation(ms, me, u.id);
    if conversation == [] then
      ContactSummary(u.id, u.username, u.avatar, NoMessagesYet, None, CountUnread(ms, u.id, me))
    else
      var last := Latest(conversation);
      ContactSummary(u.id, u.username, u.avatar, last.content, Some(last.timestamp), CountUnread(ms, u.id, me))
  }

  /** With no message between the user and `me`, the entry says "No
      messages yet" and has no time; otherwise it shows the content and time
      of a message of the pair that no other message of the pair is newer
      than. */
  lemma ContactSummaryOfSpec(ms: seq<Message>, u: User, me: nat)
    ensures (forall m :: m in ms ==> !Between(m, me, u.id)) ==>
              ContactSummaryOf(ms, u, me).lastMessage == NoMessagesYet
              && ContactSummaryOf(ms, u, me).lastMessageTime.None?
    ensures (exists m :: m in ms && Between(m, me, u.id)) ==>
              exists m :: m in ms && Between(m, me, u.id)
                && ContactSummaryOf(ms, u, me).lastMessage == m.content
                && ContactSummaryOf(ms, u, me).lastMessageTime == Some(m.timestamp)
                && forall x :: x in ms && Between(x, me, u.id) ==> x.timestamp <= m.timestamp
  {
    var conversation := Conversation(ms, me, u.id);
    ConversationMembers(ms, me, u.id);
    if conversation != [] {
      var last := Latest(conversation);
      assert last in ms && Between(last, me, u.id);
    }
  }

  /** The answer of get_contacts: the summaries of the other users, in table order. */
  function ContactList(ms: seq<Message>, users: seq<User>, me: nat): (r: seq<ContactSummary>)
    ensures |r| <= |users|
    ensures forall i :: 0 <= i < |r| ==> r[i].id != me
  {
    var others := OtherUsers(users, me);
    assert forall i :: 0 <= i < |others| ==> others[i] in others;
    seq(|others|, i requires 0 <= i < |others| => ContactSummaryOf(ms, others[i], me))
  }

  /** A list holding, position by position, the summary of each other user
      is the contact list. */
  lemma ContactListOfSummaries(ms: seq<Message>, users: seq<User>, me: nat, contacts: seq<ContactSummary>)
    requires |contacts| == |OtherUsers(users, me)|
    requires forall k :: 0 <= k < |contacts| ==> contacts[k] == ContactSummaryOf(ms, OtherUsers(users, me)[k], me)
    ensures contacts == ContactList(ms, users, me)
  {
  }

  /** The contact list never names the caller, names every other user, and,
      as user ids are unique, names each of them exactly once. */
  lemma ContactListExact(ms: seq<Message>, users: seq<User>, me: nat)
    requires UniqueIds(users)
    ensures forall i :: 0 <= i < |ContactList(ms, users, me)| ==> ContactList(ms, users, me)[i].id != me
    ensures forall u :: u in users && u.id != me ==>
              exists i :: 0 <= i < |ContactList(ms, users, me)| && ContactList(ms, users, me)[i].id == u.id
    ensures forall i, j :: 0 <= i < j < |ContactList(ms, users, me)| ==>
              ContactList(ms, users, me)[i].id != ContactList(ms, users, me)[j].id
    ensures forall c :: c in ContactList(ms, users, me) ==> exists u :: u in users && u.id != me && c.id == u.id
  {
    var others := OtherUsers(users, me);
    var list := ContactList(ms, users, me);
    OtherUsersUnique(users, me);
    forall i | 0 <= i < |list|
      ensures list[i].id == others[i].id && list[i].id != me
    {
      assert others[i] in others;
    }
    forall u | u in users && u.id != me
      ensures exists i :: 0 <= i < |list| && list[i].id == u.id
    {
      var i :| 0 <= i < |others| && others[i] == u;
      assert list[i].id == u.id;
    }
    forall c | c in list
      ensures exists u :: u in users && u.id != me && c.id == u.id
    {
      var i :| 0 <= i < |list| && list[i] == c;
      assert others[i] in others;
    }
  }

  // ---------------------------------------------------------------------------
  // Socket.IO rooms
  // ---------------------------------------------------------------------------

  /** f"chat_{a}_{b}". */
  function ChatRoom(a: nat, b: nat): string
  {
    "chat_" + Decimal(a) + "_" + Decimal(b)
  }

  /** f"user_{u}". */
  function UserRoom(u: nat): string
  {
    "user_" + Decimal(u)
  }

  /** The room join_chat puts user `me` in: the chat room named contact first
      when a contact id is given, else the user's own room. */
  function JoinRoomName(me: nat, contactId: Option<nat>): (room: string)
    ensures |room| >= 5 + |Decimal(me)|
    ensures room[..5] == (if contactId.Some? then "chat_" else "user_")
    ensures room[|room| - |Decimal(me)|..] == Decimal(me)
  {
    if contactId.Some? then ChatRoom(contactId.value, me) else UserRoom(me)
  }

  /** The two rooms send_message emits to, sender first and receiver first. */
  function SendRooms(sender: nat, receiver: nat): (rooms: (string, string))
    ensures rooms.0 == rooms.1 <==> sender == receiver
  {
    if ChatRoom(sender, receiver) == ChatRoom(receiver, sender) then
      ChatRoomInjective(sender, receiver, receiver, sender);
      (ChatRoom(sender, receiver), ChatRoom(receiver, sender))
    else
      (ChatRoom(sender, receiver), ChatRoom(receiver, sender))
  }

  /** In a digit string followed by '_', the first '_' is right after the digits. */
  lemma UnderscoreAfterDigits(x: string, y: string)
    requires IsDigits(x)
    ensures (x + "_" + y)[|x|] == '_'
    ensures forall k :: 0 <= k < |x| ==> (x + "_" + y)[k] != '_'
  {
  }

  /** A user's own room is never a chat room. */
  lemma UserRoomNotChatRoom(u: nat, a: nat, b: nat)
    ensures UserRoom(u) != ChatRoom(a, b)
  {
    assert UserRoom(u)[0] != ChatRoom(a, b)[0];
  }

  /** Two digit strings joined by '_' split back uniquely. */
  lemma SplitAtUnderscore(x: string, y: string, x': string, y': string)
    requires IsDigits(x) && IsDigits(x')
    requires x + "_" + y == x' + "_" + y'
    ensures x == x' && y == y'
  {
    var s := x + "_" + y;
    UnderscoreAfterDigits(x, y);
    UnderscoreAfterDigits(x', y');
    assert |x| == |x'|;
    assert x == s[..|x|] == x';
    assert y == s[|x| + 1..] == y';
  }

  /** Different ordered pairs of users get different chat rooms. */
  lemma ChatRoomInjective(a: nat, b: nat, c: nat, d: nat)
    requires ChatRoom(a, b) == ChatRoom(c, d)
    ensures a == c && b == d
  {
    ChatRoomParts(a, b);
    ChatRoomParts(c, d);
    DropPrefix("chat_", Decimal(a) + "_" + Decimal(b), Decimal(c) + "_" + Decimal(d));
    SplitAtUnderscore(Decimal(a), Decimal(b), Decimal(c), Decimal(d));
    DecimalInjective(a, c);
    DecimalInjective(b, d);
  }

  /** The room name is the prefix followed by the two ids around an underscore. */
  lemma ChatRoomParts(a: nat, b: nat)
    ensures ChatRoom(a, b) == "chat_" + (Decimal(a) + "_" + Decimal(b))
  {
    var x, y := Decimal(a), Decimal(b);
    assert "chat_" + x + "_" + y == "chat_" + (x + "_" + y);
  }

  /** Equal texts with a common prefix agree after it. */
  lemma DropPrefix(p: string, x: string, y: string)
    requires p + x == p + y
    ensures x == y
  {
    assert x == (p + x)[|p|..];
    assert y == (p + y)[|p|..];
  }

  /** Both parties who have each other's chat open are in one of the two rooms
      of a message between them: the sender views the receiver, and the
      receiver views the sender. */
  lemma BothPartiesReceive(sender: nat, receiver: nat)
    ensures JoinRoomName(sender, Some(receiver)) == SendRooms(sender, receiver).1
    ensures JoinRoomName(receiver, Some(sender)) == SendRooms(sender, receiver).0
  {
  }

  /** Nobody else receives it: a user whose joined room is one of the two rooms
      is the sender viewing the receiver or the receiver viewing the sender. */
  lemma OnlyPartiesReceive(u: nat, contactId: Option<nat>, sender: nat, receiver: nat)
    requires JoinRoomName(u, contactId) == SendRooms(sender, receiver).0
          || JoinRoomName(u, contactId) == SendRooms(sender, receiver).1
    ensures (u == sender && contactId == Some(receiver)) || (u == receiver && contactId == Some(sender))
  {
    UserRoomNotChatRoom(u, sender, receiver);
    UserRoomNotChatRoom(u, receiver, sender);
    if contactId.None? {
    } else if JoinRoomName(u, contactId) == SendRooms(sender, receiver).0 {
      ChatRoomInjective(contactId.value, u, sender, receiver);
    } else {
      ChatRoomInjective(contactId.value, u, receiver, sender);
    }
  }

  // ---------------------------------------------------------------------------
  // The history handed to the AI reply generator
  // ---------------------------------------------------------------------------

  const HistoryLimit: nat := 10

  /** ORDER BY timestamp DESC LIMIT 10, then reversed: the newest ten messages
      of the pair (fewer if there are fewer), oldest first. */
  function HistoryWindow(ms: seq<Message>, a: nat, b: nat): (h: seq<Message>)
    ensures |h| <= HistoryLimit && |h| <= |OrderedConversation(ms, a, b)|
    ensures h == OrderedConversation(ms, a, b)[|OrderedConversation(ms, a, b)| - |h|..]
  {
    var all := OrderedConversation(ms, a, b);
    if |all| <= HistoryLimit then all else all[|all| - HistoryLimit..]
  }

  /** The window holds min(10, conversation length) messages, is in time
      order, and is the tail of the pair's ordered conversation. */
  lemma HistoryWindowSpec(ms: seq<Message>, a: nat, b: nat)
    ensures var h := HistoryWindow(ms, a, b);
      && |h| == (if |Conversation(ms, a, b)| < HistoryLimit then |Conversation(ms, a, b)| else HistoryLimit)
      && SortedByTime(h)
      && h == OrderedConversation(ms, a, b)[|OrderedConversation(ms, a, b)| - |h|..]
  {
    var all := OrderedConversation(ms, a, b);
    var h := HistoryWindow(ms, a, b);
    if |all| > HistoryLimit {
      SortedTail(all, h);
      forall i, j | 0 <= i < j < |h| ensures h[i].timestamp <= h[j].timestamp {
        assert h[i] == all[|all| - |h| + i] && h[j] == all[|all| - |h| + j];
      }
    }
  }

  /** A tail of a time-ordered list: its elements come from the list, and
      nothing before the tail is newer than anything in it. */
  lemma SortedTail(all: seq<Message>, h: seq<Message>)
    requires SortedByTime(all)
    requires |h| <= |all| && h == all[|all| - |h|..]
    ensures forall m :: m in h ==> m in all
    ensures forall i, j :: 0 <= i < |all| - |h| && 0 <= j < |h| ==> all[i].timestamp <= h[j].timestamp
  {
    forall m | m in h ensures m in all {
      var k :| 0 <= k < |h| && h[k] == m;
      assert all[|all| - |h| + k] == m;
    }
    forall i, j | 0 <= i < |all| - |h| && 0 <= j < |h|
      ensures all[i].timestamp <= h[j].timestamp
    {
      assert h[j] == all[|all| - |h| + j];
    }
  }

  /** The window holds the most recent messages: every message of the pair
      left out is no newer than every message kept, and every kept message
      belongs to the pair. */
  lemma HistoryWindowIsRecent(ms: seq<Message>, a: nat, b: nat)
    ensures forall m :: m in HistoryWindow(ms, a, b) ==> m in ms && Between(m, a, b)
    ensures forall i, j :: 0 <= i < |OrderedConversation(ms, a, b)| - |HistoryWindow(ms, a, b)| && 0 <= j < |HistoryWindow(ms, a, b)| ==>
      OrderedConversation(ms, a, b)[i].timestamp <= HistoryWindow(ms, a, b)[j].timestamp
  {
    HistoryWindowSpec(ms, a, b);
    OrderedConversationExact(ms, a, b);
    SortedTail(OrderedConversation(ms, a, b), HistoryWindow(ms, a, b));
  }

  /** One entry of the conversation passed to the reply generator. */
  datatype Turn = Turn(role: string, content: string)

  /** The loop of send_message that formats the window: a message is a "user"
      turn exactly when the caller sent it, and an "assistant" turn otherwise;
      order and contents are kept. */
  method FormatConversation(window: seq<Message>, me: nat) returns (turns: seq<Turn>)
    ensures |turns| == |window|
    ensures forall i :: 0 <= i < |window| ==> turns[i].content == window[i].content
    ensures forall i :: 0 <= i < |window| ==> (turns[i].role == "user" <==> window[i].senderId == me)
    ensures forall i :: 0 <= i < |window| ==> (turns[i].role == "assistant" <==> window[i].senderId != me)
  {
    turns := [];
    for i := 0 to |window|
      invariant |turns| == i
      invariant forall k :: 0 <= k < i ==> turns[k].content == window[k].content
      invariant forall k :: 0 <= k < i ==> turns[k].role == (if window[k].senderId == me then "user" else "assistant")
    {
      var role := if window[i].senderId == me then "user" else "assistant";
      turns := turns + [Turn(role, window[i].content)];
    }
  }
}
