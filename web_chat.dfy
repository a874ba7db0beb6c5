// The conversation state of the web demo page (frontend/js/chat.js): the
// contacts table and the per-contact message lists, changed in place by
// opening a chat, sending, and the simulated reply. The DOM is not modelled;
// what the page would draw is returned as a list of bubbles.
module WebChat {
  import opened Wrappers
  import opened Text
  import FrontendAi

  /** The `sender` field of a demo message: 'user' or 'contact'. */
  datatype Sender = FromUser | FromContact

  /** A demo message. `kind` is the optional `type` field ('image', 'audio');
      media messages carry `content` (the URL) and audio a `duration`. */
  datatype ChatMessage = ChatMessage(
    text: string,
    time: string,
    sender: Sender,
    kind: Option<string>,
    content: Option<string>,
    duration: Option<string>)

  /** A row of the contacts table; `unread` may be missing. */
  datatype Contact = Contact(id: nat, name: string, avatar: string, lastMessage: string, time: string, unread: Option<nat>)

  /** The element drawn for one message; `sent` selects the 'sent' style. */
  datatype Bubble =
    | TextBubble(text: string, time: string, sent: bool)
    | ImageBubble(text: string, src: Option<string>, time: string, sent: bool)
    | AudioBubble(duration: Option<string>, time: string, sent: bool)

  /** The replies simulateReply picks from at random. */
  const SimulatedReplies: seq<string> := [
    "That's interesting!",
    "I see what you mean.",
    "Tell me more about that.",
    "I agree with you.",
    "Thanks for letting me know!",
    "I'll get back to you on that.",
    "Can we talk about this later?",
    "I appreciate your thoughts on this."
  ]

  /** The type dispatch of renderMessages: 'image' and 'audio' get their own
      elements and every other type, or none, a text element. A message is
      drawn as sent exactly when the user sent it. */
  function BubbleFor(m: ChatMessage): (b: Bubble)
    ensures b.ImageBubble? <==> m.kind == Some("image")
    ensures b.AudioBubble? <==> m.kind == Some("audio")
    ensures b.TextBubble? <==> m.kind != Some("image") && m.kind != Some("audio")
    ensures b.sent <==> m.sender == FromUser
    ensures !b.AudioBubble? ==> b.text == m.text
  {
    var sent := m.sender == FromUser;
    if m.kind == Some("image") then ImageBubble(m.text, m.content, m.time, sent)
    else if m.kind == Some("audio") then AudioBubble(m.duration, m.time, sent)
    else TextBubble(m.text, m.time, sent)
  }

  /** `contacts.find(c => c.id == id)`: the first row with that id, if any. */
  function FindContact(contacts: seq<Contact>, id: nat): (k: Option<nat>)
    ensures k.Some? ==> k.value < |contacts| && contacts[k.value].id == id
    ensures k.Some? ==> forall j :: 0 <= j < k.value ==> contacts[j].id != id
    ensures k.None? <==> forall j :: 0 <= j < |contacts| ==> contacts[j].id != id
  {
    if contacts == [] then None
    else if contacts[0].id == id then Some(0)
    else match FindContact(contacts[1..], id)
      case None => None
      case Some(j) => Some(j + 1)
  }

  /** `contact.unread || 0`. */
  function UnreadOrZero(c: Contact): nat
  {
    if c.unread.Some? then c.unread.value else 0
  }

  /** The list kept for a contact, or the empty list when there is none. */
  function ListOf(messages: map<nat, seq<ChatMessage>>, id: nat): seq<ChatMessage>
  {
    if id in messages then messages[id] else []
  }

  class ChatPage {
    var contacts: seq<Contact>
    var messages: map<nat, seq<ChatMessage>>
    /** The value of the message input box. */
    var input: string
    /** The text of the chat header. */
    var title: string
    /** The AI status panel. */
    var banner: FrontendAi.Banner

    constructor (contacts: seq<Contact>, messages: map<nat, seq<ChatMessage>>)
      ensures this.contacts == contacts && this.messages == messages
      ensures input == "" && title == "" && banner == FrontendAi.MonitoringBanner
    {
      this.contacts := contacts;
      this.messages := messages;
      input := "";
      title := "";
      banner := FrontendAi.MonitoringBanner;
    }

    /** The user types into the input box. */
    method Type(text: string)
      modifies this`input
      ensures input == text
    {
      input := text;
    }

    /** The timer callback scheduled by a flagged moderation check: the panel
        returns to its monitoring state. */
    method ResetBanner()
      modifies this`banner
      ensures banner == FrontendAi.MonitoringBanner
    {
      banner := FrontendAi.MonitoringBanner;
    }

    /** renderMessages: one bubble per message of the contact's list, in
        order; a contact without a list renders as empty. */
    method RenderMessages(id: nat) returns (view: seq<Bubble>)
      ensures |view| == |ListOf(messages, id)|
      ensures forall i :: 0 <= i < |view| ==> view[i] == BubbleFor(ListOf(messages, id)[i])
      ensures id !in messages ==> view == []
    {
      var chatMessages := if id in messages then messages[id] else [];
      view := [];
      for i := 0 to |chatMessages|
        invariant |view| == i
        invariant forall k :: 0 <= k < i ==> view[k] == BubbleFor(chatMessages[k])
      {
        view := view + [BubbleFor(chatMessages[i])];
      }
    }

    /** openChat: an id that matches no contact changes nothing. Otherwise the
        header shows the contact's name, its messages are drawn, and its unread
        count becomes 0; no other row changes. */
    method OpenChat(id: nat) returns (view: Option<seq<Bubble>>)
      modifies this`contacts, this`title
      ensures FindContact(old(contacts), id).None? ==>
                view.None? && contacts == old(contacts) && title == old(title)
      ensures FindContact(old(contacts), id).Some? ==>
                var k := FindContact(old(contacts), id).value;
                && contacts == old(contacts)[k := old(contacts)[k].(unread := Some(0))]
                && title == old(contacts)[k].name
                && view.Some? && |view.value| == |ListOf(messages, id)|
                && forall i :: 0 <= i < |view.value| ==> view.value[i] == BubbleFor(ListOf(messages, id)[i])
    {
      var k := FindContact(contacts, id);
      if k.None? {
        return None;
      }
      var contact := contacts[k.value];
      title := contact.name;
      var drawn := RenderMessages(id);
      contacts := contacts[k.value := contact.(unread := Some(0))];
      return Some(drawn);
    }

    /** sendMessage. A blank input (after trimming) changes nothing. With no
        active contact the lookup throws before anything changes. Otherwise
        the trimmed text is appended as the user's message to the end of the
        active contact's list (created first if missing), the input is
        cleared, the moderation banner is updated, and a reply is scheduled
        for that contact; the contacts table and other lists are unchanged. */
    method SendMessage(activeId: Option<nat>, time: string) returns (scheduled: Option<nat>)
      modifies this`messages, this`input, this`banner
      ensures Trim(old(input)) == "" || activeId.None? ==>
                && scheduled.None? && messages == old(messages)
                && input == old(input) && banner == old(banner)
      ensures Trim(old(input)) != "" && activeId.Some? ==>
                var k := activeId.value;
                var text := Trim(old(input));
                && messages == old(messages)[k := ListOf(old(messages), k) + [ChatMessage(text, time, FromUser, None, None, None)]]
                && input == ""
                && banner == FrontendAi.SimulateAIContentModeration(text, old(banner)).0
                && scheduled == Some(k)
                && k in messages
    {
      var text := Trim(input);
      if text == "" || activeId.None? {
        return None;
      }
      var k := activeId.value;
      var list := if k in messages then messages[k] else [];
      messages := messages[k := list + [ChatMessage(text, time, FromUser, None, None, None)]];
      input := "";
      banner := FrontendAi.SimulateAIContentModeration(text, banner).0;
      scheduled := Some(k);
    }

    /** simulateReply with the randomly chosen reply passed in. Without a list
        for the contact the push throws and nothing changes. Otherwise one
        contact message is appended to the end of its list, and the contact's
        row, if any, shows the reply and the time and has its unread count
        (missing counts as 0) raised by one. */
    method SimulateReply(id: nat, reply: string, time: string) returns (ok: bool)
      requires reply in SimulatedReplies
      modifies this`messages, this`contacts
      ensures ok <==> id in old(messages)
      ensures !ok ==> messages == old(messages) && contacts == old(contacts)
      ensures ok ==> messages == old(messages)[id := old(messages)[id] + [ChatMessage(reply, time, FromContact, None, None, None)]]
      ensures ok && FindContact(old(contacts), id).None? ==> contacts == old(contacts)
      ensures ok && FindContact(old(contacts), id).Some? ==>
                var k := FindContact(old(contacts), id).value;
                contacts == old(contacts)[k := old(contacts)[k].(lastMessage := reply, time := time,
                                                                  unread := Some(UnreadOrZero(old(contacts)[k]) + 1))]
    {
      if id !in messages {
        return false;
      }
      messages := messages[id := messages[id] + [ChatMessage(reply, time, FromContact, None, None, None)]];
      var k := FindContact(contacts, id);
      if k.Some? {
        var contact := contacts[k.value];
        contacts := contacts[k.value := contact.(lastMessage := reply, time := time,
                                                 unread := Some(UnreadOrZero(contact) + 1))];
      }
      return true;
    }
  }
}
