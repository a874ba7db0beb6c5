# Chat platform: verified model of the message and moderation rules

This project models the logic of a small chat platform: a Flask/Socket.IO
backend, a browser demo page and a React Native chat screen. It covers the
message rules of the backend, its keyword moderation fallback and upload
gate, and the conversation state of the two clients; the routes and helpers
listed under "## Left out" are not modelled:

- **Message store and handlers** (`backend/app.py`), as class `ChatServer.Server`
  over an in-memory users table and messages table. The pure rules it uses
  live in module `MessageStore`:
  - the messages between two users;
  - timestamp order;
  - unread counts and the contact-list summary;
  - mark-as-read on fetch;
  - the Socket.IO room names;
  - the ten-message window handed to the AI reply generator.
  The handlers are `get_contacts`, `get_messages`, `join_chat`,
  `send_message` (moderation gate, store, emit to two rooms, AI reply) and
  the credit top-up of the payment route. Emitted events are appended to an
  output log.
- **Keyword moderation fallback** of the backend (`backend/ai_integration.py`),
  module `Moderation`: the loop over the word list and the reason builder.
- **Simulated AI helpers** of the demo page (`frontend/js/ai-integration.js`),
  module `FrontendAi`. It includes a proof that the demo's keyword test and
  the backend's agree on every input.
- **Demo conversation state** (`frontend/js/chat.js`), class
  `WebChat.ChatPage`. It holds the per-contact message lists and the contacts
  table, which opening a chat, sending and the simulated reply update in place.
- **Mobile chat screen** (`mobile-app/src/screens/ChatScreen.js`), class
  `MobileChat.ChatScreen`. It holds the message list, draft, loading flag and
  emitted socket events.
- **Upload gate** (`backend/utils/file_upload.py` with the extension set of
  `backend/config.py`), module `FileUpload`.

Module `Text` holds the host-language string primitives the code relies on:
- ASCII lower-casing;
- substring search (Python `in`, JavaScript `includes`);
- JavaScript `trim`, with its full white-space set;
- decimal rendering of ids in f-strings;
- Python `str.join`.

Where the server reads the clock, calls OpenAI, or receives the payment
provider's answer, the model takes the value as a parameter instead. The
same holds for the client's random reply choice, `uuid4` and
`secure_filename`.

Points where the program may surprise a reader:
- Neither client sends optimistically. The mobile screen never adds a sent
  message to its list; it only appends what arrives as `new_message`.
- Matching in both keyword filters is by substring, not by whole word.
- `get_messages` answers with the read flags after the update: the commit
  expires the loaded rows, so they are read again.

## Model

| member | source | states |
|---|---|---|
| Text.Lower | backend/ai_integration.py:31 | lower-casing keeps the length and maps each character through ASCII case folding |
| Text.Contains | backend/ai_integration.py:34 | a word longer than the text never occurs in it, and the empty word occurs in every text |
| Text.ContainsIff | backend/ai_integration.py:34 | the substring test holds exactly when the word occurs at some position of the text |
| Text.TrimEmptyIff | frontend/js/chat.js:92-93 | a trimmed input is empty exactly when the input is made only of JavaScript white space |
| Text.TrimStartSpec | frontend/js/chat.js:92 | trimming the start keeps a suffix, drops only white space, and leaves no white space at the front |
| Text.TrimEndSpec | frontend/js/chat.js:92 | trimming the end keeps a prefix, drops only white space, and leaves no white space at the back |
| Text.TrimIsInfix | frontend/js/chat.js:92 | trim returns a contiguous piece of the input with only white space removed from either end and none left at the ends |
| Text.Trim | frontend/js/chat.js:92 | the trimmed text is no longer than the input and neither starts nor ends with JavaScript white space |
| Text.Decimal | backend/app.py:249 | an id renders as a non-empty run of decimal digits, one digit exactly when the id is below 10 |
| Text.DecimalInjective | backend/app.py:249 | different user ids render as different decimal texts inside room names |
| Text.Join | backend/ai_integration.py:59 | a non-empty join starts with the first part and ends with the last |
| Moderation.SimpleContentCheck | backend/ai_integration.py:26-47 | the fallback flags exactly when some listed word is a substring of the lower-cased text; a flagged verdict has category sexual, score 0.9 and reason "Contains inappropriate content"; an unflagged one has empty tables and an empty reason |
| Moderation.RepeatedWordsIrrelevant | backend/ai_integration.py:30 | the repeated 'nude' and 'naked' entries change no verdict |
| Moderation.EmbeddedWordFlagged | backend/ai_integration.py:31-34 | a listed word embedded in any surrounding text is flagged, whatever the case of the surroundings |
| Moderation.UpperCaseFlagged | backend/ai_integration.py:31 | "NUDE" is flagged |
| Moderation.InnerWordFlagged | backend/ai_integration.py:33-34 | "denuded" is flagged, because matching is not by whole word |
| Moderation.LowerCasedSameVerdict | backend/ai_integration.py:31 | lower-casing a message a second time changes no verdict |
| Moderation.FlaggedNames | backend/ai_integration.py:53-56 | the collected names are exactly the names of flagged categories, in table order |
| Moderation.GetModerationReason | backend/ai_integration.py:49-60 | the reason is empty exactly when no category is flagged; otherwise it is "Content flagged for: " and the flagged names joined by ", " |
| Moderation.FallbackReasonConsistent | backend/ai_integration.py:35-47 | the fallback's reason is empty exactly when its own category table flags nothing |
| FrontendAi.SomeIncluded | frontend/js/ai-integration.js:5-7 | `some` over the word list holds exactly when some listed word is a substring |
| FrontendAi.SimulateAIContentModeration | frontend/js/ai-integration.js:2-21 | the warning panel is shown, and the reset scheduled, exactly when the lower-cased text contains a listed word; otherwise the panel is unchanged |
| FrontendAi.FrontendAgreesWithBackend | frontend/js/ai-integration.js:4-7 | the demo list and the backend list are the same set of words, and the two filters flag the same texts |
| FrontendAi.FrontendUpperCaseFlagged | frontend/js/ai-integration.js:6 | "NUDE" raises the demo warning |
| FrontendAi.SimulateAITranslation | frontend/js/ai-integration.js:24-29 | the output is "[Translated to ", then the language, then "] ", then the input unchanged as a suffix |
| FrontendAi.TranslationInjective | frontend/js/ai-integration.js:28 | for one language, different inputs never give the same output |
| WebChat.BubbleFor | frontend/js/chat.js:19-28 | 'image' gets the image element, 'audio' the audio element, any other type or none the text element; a bubble is styled as sent exactly when the user sent it |
| WebChat.FindContact | frontend/js/chat.js:3 | the first contact row with the id, and none exactly when no row has it |
| WebChat.ChatPage.RenderMessages | frontend/js/chat.js:15-35 | one bubble per message of the contact's list, in order; a contact without a list renders as empty |
| WebChat.ChatPage.OpenChat | frontend/js/chat.js:2-12 | an unknown id changes nothing; otherwise the header shows the contact's name, its messages are drawn, its unread count becomes 0, and no other row changes |
| WebChat.ChatPage.SendMessage | frontend/js/chat.js:91-124 | blank input or no active contact changes nothing; otherwise exactly one user message with the trimmed text is appended to the end of the active list (created if missing), other lists are unchanged, the input is cleared, the banner is updated, and a reply is scheduled for a contact whose list now exists |
| WebChat.ChatPage.SimulateReply | frontend/js/chat.js:127-161 | the push succeeds exactly when the contact has a list; exactly one contact message with the reply is appended; the contact's row shows the reply and time and its unread count (missing as 0) rises by exactly 1; no other row changes |
| WebChat.ChatPage.Type | frontend/js/chat.js:92 | typing sets the input box's value that sending later reads |
| WebChat.ChatPage.ResetBanner | frontend/js/ai-integration.js:16-19 | the timer callback restores the monitoring panel |
| MobileChat.RenderRow | mobile-app/src/screens/ChatScreen.js:80-104 | a row is on the user's own side exactly when its sender is the logged-in user |
| MobileChat.SidesOfStoredMessage | mobile-app/src/screens/ChatScreen.js:81 | a message between two users is drawn as own on the sender's screen and as other on the receiver's |
| MobileChat.ChatScreen.Mount | mobile-app/src/screens/ChatScreen.js:28-42 | with a socket, the screen emits join_chat for its contact; without one, nothing |
| MobileChat.ChatScreen.FetchMessages | mobile-app/src/screens/ChatScreen.js:44-53 | a successful fetch replaces the list with the server's list, a failed one keeps it, and loading is false afterwards either way |
| MobileChat.ChatScreen.HandleNewMessage | mobile-app/src/screens/ChatScreen.js:55-58 | the incoming message is appended at the end, earlier messages keep their order, and duplicates are kept |
| MobileChat.ChatScreen.SetDraft | mobile-app/src/screens/ChatScreen.js:126 | the input's change handler sets the draft to the typed text |
| MobileChat.ChatScreen.SendMessage | mobile-app/src/screens/ChatScreen.js:60-72 | a blank draft emits nothing and keeps the draft; otherwise a send of the untrimmed draft to the contact typed 'text' is emitted when a socket exists, and the draft is cleared in both cases; the message list never changes |
| FileUpload.AcceptedNameShape | backend/utils/file_upload.py:7-12 | an accepted name ends with a dot followed by an allowed extension written in any case |
| FileUpload.LastDot | backend/utils/file_upload.py:12 | the position of the last '.', or -1 exactly when there is no dot |
| FileUpload.NoDotRejected | backend/utils/file_upload.py:11 | a name without a dot is rejected |
| FileUpload.AllowedFileOfSplit | backend/utils/file_upload.py:11-12 | a name made of any stem, a dot and a dot-free extension has that extension and is accepted exactly when the lower-cased extension is allowed |
| FileUpload.DoubleExtensionExample | backend/utils/file_upload.py:12 | "a.tar.png" is judged by "png" and accepted |
| FileUpload.UpperCaseExample | backend/utils/file_upload.py:12 | "X.JPG" is accepted |
| FileUpload.DotFileExample | backend/utils/file_upload.py:11-12 | ".png" is accepted |
| FileUpload.ListedExtensionExample | backend/config.py:32 | "clip.mp4" is accepted |
| FileUpload.UnlistedExtensionExample | backend/config.py:32 | "setup.exe" is rejected |
| FileUpload.TrailingDotExample | backend/utils/file_upload.py:12 | "name." has an empty extension and is rejected |
| FileUpload.PathJoin | backend/utils/file_upload.py:20 | an absolute second part replaces the first, and the second part always ends the path |
| FileUpload.UploadFolder.SaveUploadedFile | backend/utils/file_upload.py:14-34 | a missing file or a disallowed name gives "Invalid file type" and writes nothing; otherwise the user's directory exists and the data is stored under the stamped name in it, and the path is returned |
| MessageStore.OtherUsers | backend/app.py:115 | every user other than the caller is kept, the caller never is, and the result is no longer than the table |
| MessageStore.OtherUsersUnique | backend/app.py:115 | filtering out the caller keeps distinct user ids distinct |
| MessageStore.FindUser | backend/app.py:220 | the position of the user with the id, and none exactly when no user has it |
| MessageStore.Conversation | backend/app.py:150-152 | the pair's messages in either direction with their multiplicity, and nothing else |
| MessageStore.ConversationMembers | backend/app.py:150-152 | a message is in the pair's conversation exactly when it is stored and exchanged between the two users |
| MessageStore.ConversationSymmetric | backend/app.py:150-152 | the pair filter does not depend on which user is named first |
| MessageStore.ConversationAppend | backend/app.py:278-279 | storing a message extends a pair's conversation by it exactly when it belongs to the pair |
| MessageStore.SortByTime | backend/app.py:153 | the result is in ascending timestamp order and a permutation of the input |
| MessageStore.InsertByTimeSorted | backend/app.py:153 | inserting into a sorted list keeps it sorted |
| MessageStore.OrderedConversation | backend/app.py:150-153 | the ordered list has as many messages as the pair's conversation, and no more than the store |
| MessageStore.OrderedConversationExact | backend/app.py:150-153 | get_messages' list is sorted by time and holds exactly the pair's messages with their multiplicity |
| MessageStore.CountUnread | backend/app.py:131-135 | the count is zero exactly when no message from the contact to the caller is unread |
| MessageStore.UnreadWithinConversation | backend/app.py:131-135 | the unread count never exceeds the pair's conversation length |
| MessageStore.MarkRead | backend/app.py:156-158 | only read flags change; every message from the contact to the caller becomes read; every other message keeps its flag |
| MessageStore.MarkReadClearsUnread | backend/app.py:156-159 | after marking, the contact's unread count towards the caller is zero |
| MessageStore.MarkReadKeepsOtherCounts | backend/app.py:156-158 | marking one direction leaves the unread count of every other direction unchanged |
| MessageStore.Latest | backend/app.py:120-123 | the last message is in the conversation and no message of the conversation is newer |
| MessageStore.ContactSummaryOf | backend/app.py:125-136 | a contact entry carries the user's id, name and avatar and the count of unread messages from that user to the caller |
| MessageStore.ContactSummaryOfSpec | backend/app.py:119-130 | a contact entry shows "No messages yet" and no time when the pair has no messages, and otherwise the content and time of a message of the pair that no other is newer than |
| MessageStore.ContactList | backend/app.py:115-136 | the list is no longer than the users table and never names the caller |
| MessageStore.ContactListExact | backend/app.py:115-136 | the contact list never names the caller, names every other user, names each once, and names only users of the table |
| MessageStore.JoinRoomName | backend/app.py:249 | the room starts with "chat_" when a contact is given and "user_" otherwise, and ends with the caller's id |
| MessageStore.SendRooms | backend/app.py:293-294 | the two rooms of a message are the same room exactly when the sender writes to themself |
| MessageStore.UserRoomNotChatRoom | backend/app.py:249 | a user room is never a chat room |
| MessageStore.ChatRoomInjective | backend/app.py:249 | different ordered pairs get different chat rooms |
| MessageStore.BothPartiesReceive | backend/app.py:249 | a user viewing the other party's chat has joined one of the two rooms a message between them is sent to (the rooms of lines 293-294) |
| MessageStore.OnlyPartiesReceive | backend/app.py:249 | only the sender viewing the receiver and the receiver viewing the sender are in those two rooms (lines 293-296) |
| MessageStore.HistoryWindow | backend/app.py:301-308 | the window holds at most ten messages and is a tail of the pair's ordered conversation |
| MessageStore.HistoryWindowSpec | backend/app.py:301-308 | the AI history holds min(10, conversation length) messages, oldest first, and is the tail of the pair's ordered conversation |
| MessageStore.HistoryWindowIsRecent | backend/app.py:301-304 | every kept message belongs to the pair and none left out is newer than one kept |
| MessageStore.FormatConversation | backend/app.py:307-310 | one turn per message, in order, same content; the role is "user" exactly when the caller sent it, otherwise "assistant" |
| ChatServer.Summaries | backend/app.py:117-136 | the loop builds, position by position, the summary of each user it is given |
| ChatServer.Server.GetContacts | backend/app.py:108-138 | the answer is the contact list of the current store; with unique user ids it never names the caller, names every other user exactly once, and names only users of the table |
| ChatServer.Server.GetMessages | backend/app.py:143-173 | the contact's messages to the caller are marked read and nothing else changes; the answer is the pair's ordered conversation; no message from the contact to the caller is unread afterwards |
| ChatServer.Server.JoinChat | backend/app.py:244-253 | the caller joins chat_{contact}_{caller}, or user_{caller} without a contact, and is told the room name |
| ChatServer.Server.SendMessage | backend/app.py:255-341 | a flagged message is not stored or broadcast and only message_blocked goes to the caller; otherwise it is stored with the next id, unread, typed 'text' unless given, and emitted to both chat rooms; with ai_response the newest ten messages become the history, and the reply is stored from the receiver to the caller and emitted to the same rooms |
| ChatServer.Server.Accept | backend/app.py:270-341 | a message that passed moderation is stored with the next id, unread, typed 'text' unless given, and emitted to both chat rooms; with ai_response the AI branch follows |
| ChatServer.Server.ReplyWithAi | backend/app.py:299-341 | after the caller's message is stored, the history is the newest ten messages of the pair with roles by sender, and the reply is stored from the receiver to the caller as AI-generated text and emitted to both rooms |
| ChatServer.Server.Deliver | backend/app.py:278-296 | the message is appended to the store under the next id, which no stored message has, the counter advances, and it is emitted to the two rooms in order |
| ChatServer.Server.ProcessPayment | backend/app.py:202-233 | a declined charge answers 400 and changes nothing; a successful one adds exactly the requested credits to the caller only and answers 200 with the new balance; an unknown caller or missing credits field fails before any change |

## Left out

- The OpenAI paths of `moderate_content`, `generate_response` and `translate_message` (backend/ai_integration.py) are foreign calls. Their answers are parameters: the moderation verdict and the reply text of `ChatServer.Server.SendMessage`.
- Stripe processing (backend/utils/payment_processor.py) is a foreign call with float amounts. Its answer is the `PaymentResult` parameter of `ChatServer.Server.ProcessPayment`.
- frontend/js/payment.js is not modelled: its local price (lines 23-24) is float arithmetic with an exchange rate and `toFixed(2)`, and the rest is DOM updates.
- frontend/js/app.js rendering, `simulateAISmartReplies` and the random status simulations are out of scope: DOM work and `Math.random`.
- `renderContacts` in app.js calls `openChat(1)`, which calls `renderContacts` again, so the pair recurses without end. Only `openChat`'s own state change is modelled.
- The DOM is out of scope. Rendering is modelled as the list of bubbles or rows it would draw, and the status panel as its text and colour.
- The `new_message` subscription and unsubscription of the mobile screen, and scrolling, are out of scope.
- `register` and `login` (backend/app.py:29-84): the duplicate-email check, password hashing and verification, and token creation are not modelled.
- `get_user` (backend/app.py:86-106): its 403 answer when the caller asks for another user's record is not modelled.
- The `upload_file` route (backend/app.py:178-200): its "No file provided" and "No file selected" answers are not modelled; only the `save_uploaded_file` gate behind it is.
- `generate_response` and `translate_message` (backend/ai_integration.py:62-110): the role mapping of the history, the random fallback replies and the return of the untranslated text on failure are not modelled; the reply is a parameter.
- The cents conversion `int(amount * 100)` of the payment processor (backend/utils/payment_processor.py:21, 29) is not modelled, since it is float arithmetic ahead of a foreign call.
- Authentication, JWT, CORS, and the socket and auth service modules of the mobile app are plumbing with no rules of their own.
- The routes not named above, and the other mobile screens, are UI, navigation and hard-coded data.
- Request parsing is out of scope, and so is a missing key in a socket or HTTP payload, which raises a KeyError. The one modelled exception is the payment's `credits` field, whose absence makes the top-up fail.
- Database sessions, SQL and the seed data are out of scope. The store is two in-memory tables, with message ids assigned in insertion order.
- The order of messages with equal timestamps is left unspecified by SQL. The model keeps such ties in store order.
- Socket sessions are identified by user id in `memberships`. Joining is additive and leaving a room is not modelled, as the server never leaves rooms.
- Clock readings, `toLocaleTimeString`, `uuid4().hex` and `secure_filename` are parameters.
- Text.Lower: lower-cases A-Z only, not Python's full Unicode `lower()`. On non-ASCII input the verdict can differ from the program's: "NA\u212AED" (with KELVIN SIGN) lower-cases to "naked" in Python and is flagged there, but the model lets it through.
- WebChat.ChatPage.SendMessage: the active contact is a parameter. A missing active element throws in the page before any change, and is modelled as no change and no scheduled reply.
- WebChat.ChatPage.SimulateReply: the random choice of reply is a parameter restricted to the page's list. A push onto a missing list throws before any change, and is modelled as no change.
- ChatServer.Server.SendMessage: the window handed to the reply generator is returned, and the generator's reply is a parameter. The moderation call itself is not modelled; its verdict is a parameter.
- FileUpload.UploadFolder.SaveUploadedFile: the directory and file writes are modelled as a set of directories and a map of files. Disk errors are not modelled.
