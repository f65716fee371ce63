# Eventify chat and event-creation core in Dafny

Eventify is an event-booking platform. A Node.js backend serves REST
and Socket.IO. A React Native client lets attendees browse events, buy
tickets and chat with organizers. Organizers create events through a
multi-step wizard. This project models the parts of that system that
have interesting state and rules:

- **Backend chat protocol** (`ChatProtocol`, `ChatProperties`):
  - the five Socket.IO handlers of `chat.controller.js`: `start_chat`,
    `send_message`, `get_chat_history`, `get_all_chats`, `delete_chat`;
  - the chat collection, as a sequence of documents in natural order;
  - the acknowledgements and room broadcasts each handler emits.
- **Socket authentication** (`SocketAuth`): token extraction from the
  handshake, the JWT middleware verdicts, room joining on connection,
  and the `initializeSocket`/`getIo` singleton.
- **Client socket layer** (`SocketActions`): the `SocketEvents` names,
  the emit wrappers, the listener registry with its `listenTo*`/`remove*`
  functions, `removeAllChatListeners` and `setupChatListeners`.
- **Chat screens** (`ChatView`, `ChatListView`):
  - the `Chat` screen: start or resume a chat, history, live messages,
    optimistic sends and their echo suppression;
  - the `ChatList` screen: mapping server chats to list rows, deletion,
    refresh on a new chat.
- **Event creation** (`EventForm`, `CreateEventScreen`, `HelloScreen`):
  - the four-section wizard shared by `CreateEvent.jsx` and `Hello.jsx`:
    per-section validation, navigation, ticket and image editing,
    payload construction, submission and reset;
  - for `CreateEvent.jsx`, the platform-dependent date/time picker with
    JavaScript `Date` setter semantics;
  - for `Hello.jsx`, the text date fields.
- **Event details and organizer details** (`EventDetails`,
  `OrganizerDetails`): sold-out logic of the ticket cards, the chat
  button of an organizer profile, and availability statistics.
- **Redux slices** (`EventStore`, `OrganizerStore`): the async thunks'
  outcomes and the reducers of `eventSlice.jsx` and `organizerSlice.jsx`.

Shared helpers:
- `Wrappers` holds `Option` and `Result`.
- `Text` holds JavaScript `trim`, `replace` (first occurrence) and ASCII
  `toLowerCase`, plus decimal rendering of a natural number.
- `Sorting` holds a stable insertion sort used for the server's chat
  order and the client's message order. The client's sort is stable too;
  for the store's sort the model picks one order for ties (see "Left out").

The environment is passed in as values:
- The clock, the ObjectId generator, Mongoose's `ObjectId.isValid` and
  the organizer lookup form the `Env` record of `ChatProtocol`.
- JWT verification is a function parameter of `SocketAuth.Authenticate`.
- JavaScript `Number()` is an abstract `string -> Option<real>`
  (`None` stands for `NaN`).
- Locale formatting is a `string -> string` parameter.
- The image picker and the HTTP replies are explicit inputs.

A string field that is missing, `null` or `undefined` is modelled as
`""`, since the source only ever tests such fields for truthiness.

## Model

| member | source | states |
|---|---|---|
| ChatProtocol.Fail | eventify-backend/controllers/chat-controller/chat.controller.js:32-39 | a failure sends exactly one `error` event back to the caller, naming the failed event and message, and leaves the store untouched |
| ChatProtocol.Ack | eventify-backend/controllers/chat-controller/chat.controller.js:47-54 | a success acknowledgement goes only to the caller on the `success` channel and carries the originating event name and data |
| ChatProtocol.FirstMatch | eventify-backend/controllers/chat-controller/chat.controller.js:135-140 | the document found is the first in collection order satisfying the query; no earlier document satisfies it |
| ChatProtocol.FindById | eventify-backend/controllers/chat-controller/chat.controller.js:265-270 | `findById` returns a document carrying the id, and returns nothing exactly when no document has that id |
| ChatProtocol.FindActive | eventify-backend/controllers/chat-controller/chat.controller.js:135-140 | the lookup for an existing chat finds an active chat of exactly this user and organizer, and fails exactly when there is none |
| ChatProtocol.ActiveChatsOf | eventify-backend/controllers/chat-controller/chat.controller.js:426-429 | the organizer's list query keeps every active chat of that organizer with its multiplicity, and nothing else |
| ChatProtocol.ListOrderIsPreorder | eventify-backend/controllers/chat-controller/chat.controller.js:430 | ordering by last activity then by update time, both descending, is a total preorder, so the sort is well defined |
| ChatProtocol.SeedMessage | eventify-backend/controllers/chat-controller/chat.controller.js:166-175 | a new chat opens with one USER message stamped now, holding the initial text or the default greeting when that text is empty |
| ChatProtocol.HandleStartChat | eventify-backend/controllers/chat-controller/chat.controller.js:76-215 | each guard (missing ids, caller mismatch, non-USER role, invalid ids, unknown organizer) rejects with the store unchanged; an existing active chat is reused without writing; otherwise exactly one chat is appended, the caller is told and the organizer's room gets `new_chat` |
| ChatProtocol.ChatRoom | eventify-backend/controllers/chat-controller/chat.controller.js:191 | the room of a conversation, `chat_<id>` |
| ChatProtocol.ChatRoomInjective | eventify-backend/controllers/chat-controller/chat.controller.js:191 | different chats get different rooms, and the chat id can be read back from its room name |
| ChatProtocol.SenderOf | eventify-backend/controllers/chat-controller/chat.controller.js:237-238 | a message is attributed to ORGANIZER exactly when the socket's role is ORGANIZER |
| ChatProtocol.HandleSendMessage | eventify-backend/controllers/chat-controller/chat.controller.js:234-330 | blank text, an invalid or unknown chat id, or a non-party sender rejects with the store unchanged; an allowed send appends the trimmed message to that chat only, marks it active, and notifies the chat room and the recipient |
| ChatProtocol.RecipientOf | eventify-backend/controllers/chat-controller/chat.controller.js:307-310 | the personal room a message is also sent to: the organizer for a USER sender, the user otherwise |
| ChatProtocol.RecipientIsTheOtherParty | eventify-backend/controllers/chat-controller/chat.controller.js:270-310 | a caller allowed to send in a chat between two parties notifies the other party, never themselves |
| ChatProtocol.HandleGetChatHistory | eventify-backend/controllers/chat-controller/chat.controller.js:349-409 | history never writes; an invalid or unknown chat is rejected; a missing user record, or a missing organizer record when the caller is not the user, fails with "Failed to get chat history"; a foreign caller is rejected; a party receives the chat's messages in stored order |
| ChatProtocol.HandleGetAllChats | eventify-backend/controllers/chat-controller/chat.controller.js:416-438 | only organizers may list chats; the list is the organizer's active chats, sorted by the preorder; the store never changes |
| ChatProtocol.HandleDeleteChat | eventify-backend/controllers/chat-controller/chat.controller.js:457-515 | deletion by anyone but the chat's organizer is rejected; an allowed delete clears only that chat's active flag and notifies both parties' rooms |
| ChatProtocol.Step | eventify-backend/controllers/chat-controller/chat.controller.js:76-515 | any request either fails with the store unchanged or changes it append-only: at most one new chat, none except on `start_chat`, and reads never write |
| ChatProtocol.StartChatIsStep | eventify-backend/controllers/chat-controller/chat.controller.js:76-215 | `start_chat` fails with the store unchanged, or adds at most one chat while every existing chat keeps its id and parties and its messages are only extended |
| ChatProtocol.SendMessageIsStep | eventify-backend/controllers/chat-controller/chat.controller.js:234-330 | `send_message` fails with the store unchanged, or keeps the number of chats while every chat keeps its id and parties and its messages are only extended |
| ChatProtocol.DeleteChatIsStep | eventify-backend/controllers/chat-controller/chat.controller.js:457-515 | `delete_chat` fails with the store unchanged, or keeps the number of chats while every chat keeps its id, parties and messages |
| ChatProperties.FindByIdFollowsIds | eventify-backend/controllers/chat-controller/chat.controller.js:265 | a lookup by id depends only on the ids in the store, not on chat contents |
| ChatProperties.FindByIdUnique | eventify-backend/controllers/chat-controller/chat.controller.js:265 | with unique ids, looking up a stored document's id finds exactly that document |
| ChatProperties.StartChatTwiceReusesChat | eventify-backend/controllers/chat-controller/chat.controller.js:135-163 | starting the same user–organizer chat twice creates one chat; the second call returns the first chat's id and leaves the store unchanged |
| ChatProperties.Appended | eventify-backend/controllers/chat-controller/chat.controller.js:283-288 | the messages produced by a run of sends are the trimmed texts in send order, attributed to the sender and stamped with the clock |
| ChatProperties.SendsAppendInOrder | eventify-backend/controllers/chat-controller/chat.controller.js:283-292 | a sequence of allowed sends to one chat appends their messages in order at the end of that chat and changes no other chat |
| ChatProperties.AppendTwice | eventify-backend/controllers/chat-controller/chat.controller.js:283-292 | two successive appends to the same chat equal one append of both batches, and other chats stay as they were |
| ChatProperties.SendUpdatesOneRecord | eventify-backend/controllers/chat-controller/chat.controller.js:283-293 | an allowed send rewrites only the target chat's record: its messages grow by one and it becomes active; every other record is identical |
| ChatProperties.SentMessageReadBack | eventify-backend/controllers/chat-controller/chat.controller.js:283-293 | a message just sent is the last entry a party reads back through `get_chat_history` (when the party check does not throw on a missing record), and no earlier entry is stamped later |
| ChatProperties.DeleteHidesFromListKeepsHistory | eventify-backend/controllers/chat-controller/chat.controller.js:491-493 | after a soft delete the chat disappears from the organizer's list but both parties still read its history (with both party records present) |
| ChatProperties.StepKeepsUniqueIds | eventify-backend/controllers/chat-controller/chat.controller.js:76-515 | no request can make two chat documents share an id |
| ChatProperties.StartChatKeepsOneActivePerPair | eventify-backend/controllers/chat-controller/chat.controller.js:135-182 | `start_chat` preserves the invariant that each user–organizer pair has at most one active chat |
| ChatProperties.DeleteKeepsOneActivePerPair | eventify-backend/controllers/chat-controller/chat.controller.js:491-493 | deleting a chat preserves the one-active-chat-per-pair invariant |
| ChatProperties.ReactivationBreaksOneActivePerPair | eventify-backend/controllers/chat-controller/chat.controller.js:292 | a message to a deleted chat reactivates it even when the pair already has a newer active chat, leaving two active chats for one pair |
| ChatProperties.ReactivationFixture | eventify-backend/controllers/chat-controller/chat.controller.js:265-281 | the two-chat store used above satisfies both invariants and lets the user send to the deleted chat |
| ChatProperties.ReactivationResult | eventify-backend/controllers/chat-controller/chat.controller.js:292 | on that store the send leaves the pair with two active chats |
| ChatProperties.TwoPartyScenario | eventify-backend/controllers/chat-controller/chat.controller.js:76-438 | a user opens a chat, the organizer replies, and the organizer's list then shows that one chat holding both messages |
| ChatProperties.ScenarioStart | eventify-backend/controllers/chat-controller/chat.controller.js:166-215 | the first step creates chat C1 whose only message is the user's "Hi" |
| ChatProperties.ScenarioReply | eventify-backend/controllers/chat-controller/chat.controller.js:283-323 | the organizer's reply is appended as an ORGANIZER message after "Hi" |
| ChatProperties.ScenarioList | eventify-backend/controllers/chat-controller/chat.controller.js:426-438 | the organizer's listing then returns exactly that chat |
| Sorting.Insert | eventify-backend/controllers/chat-controller/chat.controller.js:430 | inserting into a sorted sequence keeps it sorted and adds exactly the new element |
| Sorting.HeadBelowInserted | eventify-backend/controllers/chat-controller/chat.controller.js:430 | when the new element does not go first, the old head orders before every element of the sorted rest it is inserted into |
| Sorting.Sort | eventify-backend/controllers/chat-controller/chat.controller.js:430 | sorting yields a sorted permutation of the input |
| Sorting.SortOfSorted | eventify-user/src/screens/chatModule/Chat.jsx:63-66 | sorting an already-sorted sequence leaves it unchanged |
| Sorting.SortIsStable | eventify-user/src/screens/chatModule/Chat.jsx:63-66 | the sort is stable: the elements equivalent to any given one come out in their input order |
| SocketAuth.TokenOf | eventify-backend/utilities/socket-utility/socket.utility.js:37-40 | the token comes from the `auth` field, else the query string, else the `Authorization` header with its first `Bearer ` removed |
| SocketAuth.NoTokenIff | eventify-backend/utilities/socket-utility/socket.utility.js:37-45 | there is no token exactly when auth and query are empty and the header is empty or exactly `Bearer ` |
| SocketAuth.BearerHeaderToken | eventify-backend/utilities/socket-utility/socket.utility.js:40 | a `Bearer <token>` header with no other source yields exactly `<token>` |
| SocketAuth.Authenticate | eventify-backend/utilities/socket-utility/socket.utility.js:28-82 | no token, a token lacking id or role, an expired token and an invalid token each fail with their own message, and any other verification failure carries its reason; success exactly when the token verifies with both claims |
| SocketAuth.RoomsOf | eventify-backend/utilities/socket-utility/socket.utility.js:88-97 | a user with an id joins their personal room and then the lower-cased role room; without an id only the role room |
| SocketAuth.Connect | eventify-backend/utilities/socket-utility/socket.utility.js:28-97 | a socket is refused exactly when authentication fails, with its message; otherwise it connects as the decoded user in that user's rooms |
| SocketAuth.NewChatReachesOrganizer | eventify-backend/controllers/chat-controller/chat.controller.js:209-215 | when a user starts a chat with a connected organizer, the `new_chat` notice is sent to the personal room that organizer's socket joined on connection |
| SocketAuth.InitializeSocket | eventify-backend/utilities/socket-utility/socket.utility.js:12-128 | after initialisation `getIo` returns the server |
| SocketAuth.GetIo | eventify-backend/utilities/socket-utility/socket.utility.js:137-141 | `getIo` throws exactly when the server was never initialised, with the "not initialized" message |
| SocketActions.ClientAndServerNamesDisjoint | eventify-user/src/utils/customSocket/socketEvents/SocketEvents.jsx:2-15 | the client's camelCase event names share none with the server's snake_case names, so no client emit matches a server handler |
| SocketActions.ClientNamesAreCamelCase | eventify-user/src/utils/customSocket/socketEvents/SocketEvents.jsx:2-15 | no client event name contains an underscore |
| SocketActions.ServerNamesAreSnakeCase | eventify-backend/controllers/chat-controller/chat.controller.js:13-26 | every server event name contains an underscore |
| SocketActions.AllSlotsComplete | eventify-user/src/utils/customSocket/socketActions/SocketActions.jsx:42-91 | the listener slots are listed once each and the list covers every slot |
| SocketActions.EventOf | eventify-user/src/utils/customSocket/socketActions/SocketActions.jsx:42-91 | every listener slot listens on one of the client's event names |
| SocketActions.RegistrationOfInjective | eventify-user/src/utils/customSocket/socketActions/SocketActions.jsx:42-91 | different slots or callbacks never produce the same socket registration |
| SocketActions.On | eventify-user/src/utils/customSocket/socketActions/SocketActions.jsx:42-91 | `socket.on` adds exactly one registration and changes nothing else |
| SocketActions.Off | eventify-user/src/utils/customSocket/socketActions/SocketActions.jsx:97-151 | `socket.off` removes one copy of a present registration, and is a no-op for an absent one |
| SocketActions.Emit | eventify-user/src/utils/customSocket/socketActions/SocketActions.jsx:8-26 | an emit appends exactly one outgoing event and leaves the listeners alone |
| SocketActions.StartChat | eventify-user/src/utils/customSocket/socketActions/SocketActions.jsx:8-10 | `startChat` emits one START_CHAT event carrying its data |
| SocketActions.SendMessage | eventify-user/src/utils/customSocket/socketActions/SocketActions.jsx:12-14 | `sendMessage` emits one SEND_MESSAGE event carrying its data |
| SocketActions.GetChatHistory | eventify-user/src/utils/customSocket/socketActions/SocketActions.jsx:16-18 | `getChatHistory` emits one GET_CHAT_HISTORY event carrying its data |
| SocketActions.GetAllChats | eventify-user/src/utils/customSocket/socketActions/SocketActions.jsx:20-22 | `getAllChats` emits one GET_ALL_CHATS event with no payload |
| SocketActions.DeleteChat | eventify-user/src/utils/customSocket/socketActions/SocketActions.jsx:24-26 | `deleteChat` emits one DELETE_CHAT event carrying its data |
| SocketActions.StartNewChat | eventify-user/src/utils/customSocket/socketActions/SocketActions.jsx:168-175 | `startNewChat` emits START_CHAT with user and organizer ids, and the default greeting when no initial message is given |
| SocketActions.ClientGreetingMatchesServer | eventify-user/src/utils/customSocket/socketActions/SocketActions.jsx:168-175 | the client's default greeting is the same text the server seeds |
| SocketActions.SendChatMessage | eventify-user/src/utils/customSocket/socketActions/SocketActions.jsx:177-179 | `sendChatMessage` emits SEND_MESSAGE with exactly the chat id and text |
| SocketActions.FetchChatHistory | eventify-user/src/utils/customSocket/socketActions/SocketActions.jsx:181-183 | `fetchChatHistory` emits GET_CHAT_HISTORY with exactly the chat id |
| SocketActions.DeleteChatById | eventify-user/src/utils/customSocket/socketActions/SocketActions.jsx:185-187 | `deleteChatById` emits DELETE_CHAT with exactly the chat id |
| SocketActions.Listen | eventify-user/src/utils/customSocket/socketActions/SocketActions.jsx:42-91 | a `listenTo*` call records the callback in its slot and registers one handler: the callback itself, or a wrapper for the start-chat slot |
| SocketActions.Remove | eventify-user/src/utils/customSocket/socketActions/SocketActions.jsx:97-151 | a `remove*` call empties its slot and unregisters that slot's handler, and does nothing when the slot is empty |
| SocketActions.RemoveEach | eventify-user/src/utils/customSocket/socketActions/SocketActions.jsx:153-162 | removing a list of slots empties exactly those slots, keeps the rest and only ever unregisters |
| SocketActions.RemoveEachUnregisters | eventify-user/src/utils/customSocket/socketActions/SocketActions.jsx:153-162 | removing distinct slots unregisters exactly one bare callback per filled slot, and nothing else |
| SocketActions.RemoveAllChatListeners | eventify-user/src/utils/customSocket/socketActions/SocketActions.jsx:153-162 | `removeAllChatListeners` leaves no recorded callback, sends nothing, takes away exactly one bare callback per filled slot, and leaves every start-chat wrapper registered |
| SocketActions.StartChatWrapperOutlivesRemoval | eventify-user/src/utils/customSocket/socketActions/SocketActions.jsx:42-49 | the start-chat listener registers a filtering wrapper, but removal unregisters the bare callback, so the wrapper stays registered |
| SocketActions.ListenThenRemoveRestores | eventify-user/src/utils/customSocket/socketActions/SocketActions.jsx:42-151 | for every slot but the start-chat one, registering a listener and then removing it restores the registrations exactly |
| SocketActions.Forwarded | eventify-user/src/utils/customSocket/socketActions/SocketActions.jsx:42-49 | a plain listener receives every response; the start-chat wrapper forwards only responses whose event is the client's START_CHAT name |
| SocketActions.ServerStartAckNeverForwarded | eventify-user/src/utils/customSocket/socketActions/SocketActions.jsx:42-49 | the server's `start_chat` acknowledgement never passes the wrapper's filter |
| SocketActions.ListenEach | eventify-user/src/utils/customSocket/socketActions/SocketActions.jsx:189-209 | listening over a slot list fills exactly the provided slots, registers exactly their handlers and sends nothing |
| SocketActions.SetupChatListeners | eventify-user/src/utils/customSocket/socketActions/SocketActions.jsx:189-209 | `setupChatListeners` installs every provided callback in its slot and leaves other slots as they were |
| SocketActions.ProvidedRegistrationsCount | eventify-user/src/utils/customSocket/socketActions/SocketActions.jsx:189-209 | a registration occurs once per listed slot that is provided with that callback |
| SocketActions.SetupRegistersExactlyProvided | eventify-user/src/utils/customSocket/socketActions/SocketActions.jsx:189-209 | after setup each provided callback is registered exactly once more than before, and nothing else is added |
| ChatView.Initial | eventify-user/src/screens/chatModule/Chat.jsx:30-45 | the screen opens loading, disconnected, empty, with no pending message and the chat id from the route |
| ChatView.SentNoLaterIsPreorder | eventify-user/src/screens/chatModule/Chat.jsx:63-66 | ordering messages by send time is a total preorder |
| ChatView.ByTime | eventify-user/src/screens/chatModule/Chat.jsx:63-78 | the message list is sorted by send time and is a permutation of what was received |
| ChatView.ListenAll | eventify-user/src/screens/chatModule/Chat.jsx:104-132 | mounting installs the screen's callbacks in their slots, including the start-chat one, and emits nothing |
| ChatView.Mount | eventify-user/src/screens/chatModule/Chat.jsx:104-132 | without participant or user id nothing is sent; otherwise an existing chat is fetched by id, and a new one is started with the booking request |
| ChatView.MountSendsOneRequest | eventify-user/src/screens/chatModule/Chat.jsx:104-132 | mounting sends at most one request, and exactly one when both ids are present |
| ChatView.Cleanup | eventify-user/src/screens/chatModule/Chat.jsx:134-137 | unmounting empties every slot, takes away exactly one bare callback per filled slot (so a start-chat wrapper stays registered), forgets the pending message and keeps what is displayed |
| ChatView.HandleStartChatSuccess | eventify-user/src/screens/chatModule/Chat.jsx:48-70 | only a successful START_CHAT response changes the screen: it adopts the chat id and shows its messages sorted by time |
| ChatView.HandleChatHistory | eventify-user/src/screens/chatModule/Chat.jsx:72-80 | history always ends loading; a non-empty history replaces the messages by their time-sorted order; an empty one keeps them |
| ChatView.HandleNewMessage | eventify-user/src/screens/chatModule/Chat.jsx:83-97 | a message whose id equals the pending one only clears the pending id; any other message is appended |
| ChatView.HandleError | eventify-user/src/screens/chatModule/Chat.jsx:99-102 | an error stops loading and changes nothing else |
| ChatView.TempMessage | eventify-user/src/screens/chatModule/Chat.jsx:140-148 | the optimistic message has a non-empty temporary id, the USER sender and the trimmed text |
| ChatView.OnSendMessage | eventify-user/src/screens/chatModule/Chat.jsx:140-155 | sending needs a connection, a chat id and non-blank text; it then shows the temporary message, remembers its id, clears the input and emits one SEND_MESSAGE |
| ChatView.FromServer | eventify-backend/controllers/chat-controller/chat.controller.js:313-321 | a server message arrives with its text, time and mapped sender, and without an `_id` |
| ChatView.NoticeMessage | eventify-backend/controllers/chat-controller/chat.controller.js:313-321 | only a `new_message` notice yields a message for the screen |
| ChatView.ServerMessageNeverSuppressed | eventify-user/src/screens/chatModule/Chat.jsx:83-97 | a message as the server sends it is always appended, because it carries no id to match the pending one |
| ChatView.Echoes | eventify-user/src/screens/chatModule/Chat.jsx:87-94 | a message is taken for the echo of the optimistic copy only when a pending id is set and equals the message's `_id` |
| ChatView.OptimisticSendShowsTwice | eventify-user/src/screens/chatModule/Chat.jsx:83-155 | if the server's broadcast of the sent text reached the new-message callback, the text would appear twice and the pending id would stay set; as written the event names differ, so no broadcast arrives |
| ChatListView.PartyName | eventify-user/src/screens/chatModule/ChatList.jsx:74-93 | a populated party with a user name shows that name; otherwise the fallback |
| ChatListView.LastMessage | eventify-user/src/screens/chatModule/ChatList.jsx:72 | the preview is the chat's last message, and absent exactly when it has none |
| ChatListView.ToEntry | eventify-user/src/screens/chatModule/ChatList.jsx:70-110 | a list row keeps the chat id and last message and names the other party: the organizer when the viewer is the user, the user otherwise |
| ChatListView.ToEntries | eventify-user/src/screens/chatModule/ChatList.jsx:70-110 | the rows correspond one-to-one, in order, to the received chats |
| ChatListView.HandleChatsList | eventify-user/src/screens/chatModule/ChatList.jsx:54-113 | a list response ends loading; no data clears the list; with a viewer the rows are the mapped chats |
| ChatListView.WithoutChatContents | eventify-user/src/screens/chatModule/ChatList.jsx:43-46 | filtering by chat id keeps every other row with its multiplicity and drops exactly the rows with that id |
| ChatListView.WithoutChatKeepsOrder | eventify-user/src/screens/chatModule/ChatList.jsx:43-46 | the filter distributes over concatenation, so surviving rows keep their order |
| ChatListView.WithoutAbsentChat | eventify-user/src/screens/chatModule/ChatList.jsx:43-46 | deleting an id not in the list leaves it unchanged |
| ChatListView.HandleChatDeleted | eventify-user/src/screens/chatModule/ChatList.jsx:43-46 | a `chatDeleted` event removes exactly the rows of that chat and touches nothing else |
| ChatListView.HandleNewChat | eventify-user/src/screens/chatModule/ChatList.jsx:48-52 | a new-chat event keeps the rows and requests the full list once |
| ChatListView.Mount | eventify-user/src/screens/chatModule/ChatList.jsx:130-155 | without a current user nothing happens; otherwise the three callbacks fill their slots, exactly their three registrations are added to the socket, and one list request is sent |
| ChatListView.Cleanup | eventify-user/src/screens/chatModule/ChatList.jsx:130-162 | without a current user there is no cleanup; otherwise it empties exactly the screen's three slots, keeps the others, unregisters the stored callback of each filled one and sends nothing |
| ChatListView.MountThenCleanupRestores | eventify-user/src/screens/chatModule/ChatList.jsx:130-162 | mounting and then cleaning up, from empty screen slots, leaves the socket's registrations and slots exactly as they were |
| ChatListView.FromStore | eventify-backend/controllers/chat-controller/chat.controller.js:426-432 | a listed chat carries the stored id, both party ids and every message; the user is populated with its `userName`, the organizer only with `organizerName`, so only the user can be shown by name |
| ChatListView.ListedAreOwn | eventify-backend/controllers/chat-controller/chat.controller.js:426-438 | every chat in an organizer's listing is a stored chat that is active and has that organizer |
| ChatListView.ShowOwnList | eventify-user/src/screens/chatModule/ChatList.jsx:54-113 | an organizer's rows point at each chat's user, show the user's name or "User" when the profile has none, in list order, with the chat's last message |
| ChatListView.ShowOwnChat | eventify-user/src/screens/chatModule/ChatList.jsx:70-93 | a chat shown to its own organizer names its user as participant, under the user's populated name or "User", with the latest message text |
| ChatListView.OrganizerListShowsUsers | eventify-user/src/screens/chatModule/ChatList.jsx:54-113 | composing the server listing with the screen gives one row per active chat of the organizer, each pointing at its user under that user's name or "User" |
| Text.TrimStartSpec | eventify-backend/controllers/chat-controller/chat.controller.js:248 | leading trimming removes only a whitespace prefix and stops at a non-space |
| Text.TrimEndSpec | eventify-backend/controllers/chat-controller/chat.controller.js:248 | trailing trimming removes only a whitespace suffix and stops at a non-space |
| Text.TrimIsCore | eventify-backend/controllers/chat-controller/chat.controller.js:286 | the trimmed text is a contiguous slice with whitespace around it, and starts and ends with non-space |
| Text.Trim | eventify-backend/controllers/chat-controller/chat.controller.js:286 | the model of `String.prototype.trim`: leading then trailing whitespace removed; its properties are stated by TrimStartSpec, TrimEndSpec, TrimIsCore and TrimEmptyIffBlank |
| Text.TrimEmptyIffBlank | eventify-backend/controllers/chat-controller/chat.controller.js:248 | trimming yields the empty string exactly when the text is all whitespace |
| Text.TrimStartOfBlank | eventify-backend/controllers/chat-controller/chat.controller.js:248 | an all-whitespace text trims to the empty string from the left |
| Text.TrimOfUnpadded | eventify-backend/controllers/chat-controller/chat.controller.js:286 | a text with no surrounding whitespace is its own trim |
| Text.TrimIdempotent | eventify-backend/controllers/chat-controller/chat.controller.js:286 | trimming twice equals trimming once |
| Text.IndexOfFrom | eventify-backend/utilities/socket-utility/socket.utility.js:40 | the search finds the first occurrence at or after the start |
| Text.RemoveFirstSpec | eventify-backend/utilities/socket-utility/socket.utility.js:40 | `replace` with a string removes the first occurrence only, and is the identity when there is none |
| Text.RemoveFirst | eventify-backend/utilities/socket-utility/socket.utility.js:40 | the model of `replace` with a string pattern; its properties are stated by RemoveFirstSpec |
| Text.RemoveLeadingPrefix | eventify-backend/utilities/socket-utility/socket.utility.js:40 | removing a pattern that the text starts with leaves the rest |
| Text.RemoveFirstEmpty | eventify-backend/utilities/socket-utility/socket.utility.js:40 | removing the pattern leaves nothing exactly when the text is empty or is the pattern |
| Text.ToLowerSpec | eventify-backend/utilities/socket-utility/socket.utility.js:97 | lower-casing keeps the length and maps ASCII capitals to small letters, other characters unchanged |
| Text.ToLower | eventify-backend/utilities/socket-utility/socket.utility.js:97 | the model of `toLowerCase` on ASCII text; its properties are stated by ToLowerSpec |
| Text.Decimal | eventify-user/src/screens/eventModule/CreateEvent.jsx:368 | a number renders as a non-empty string of decimal digits |
| Text.Digit | eventify-user/src/screens/eventModule/CreateEvent.jsx:368 | each digit character denotes its value |
| Text.DecimalRoundTrip | eventify-user/src/screens/eventModule/CreateEvent.jsx:368 | reading the rendered digits back gives the number, with no leading zero except for 0 |
| Text.DecimalInjective | eventify-user/src/screens/eventModule/CreateEvent.jsx:368 | different numbers render differently, so image names built from different times differ |
| EventForm.TicketsErrors | eventify-user/src/screens/eventModule/CreateEvent.jsx:310-321 | a ticket error key is reported exactly for a ticket from the start index whose name is blank, or whose price or quantity is not positive |
| EventForm.SectionErrors | eventify-user/src/screens/eventModule/CreateEvent.jsx:288-333 | a section's error map holds exactly the keys of that section whose field check fails |
| EventForm.NoErrorsIffValid | eventify-user/src/screens/eventModule/CreateEvent.jsx:288-333 | validation returns no errors exactly when every field of the section is acceptable |
| EventForm.FaultBreaksSection | eventify-user/src/screens/eventModule/CreateEvent.jsx:288-333 | one failing field is enough to make the section invalid |
| EventForm.NoFaultIsValid | eventify-user/src/screens/eventModule/CreateEvent.jsx:288-333 | a section with no failing field is valid |
| EventForm.NoTicketFaultIsValid | eventify-user/src/screens/eventModule/CreateEvent.jsx:306-321 | the tickets section is valid when attendees are positive and no ticket fails |
| EventForm.Next | eventify-user/src/screens/eventModule/CreateEvent.jsx:121-125 | "next" advances one section, never past the last, and clears errors when the section is valid; otherwise it stays and shows a non-empty error set; the form is untouched |
| EventForm.Prev | eventify-user/src/screens/eventModule/CreateEvent.jsx:127-129 | "previous" goes back one section, stopping at the first, and changes nothing else |
| EventForm.PrevUndoesNext | eventify-user/src/screens/eventModule/CreateEvent.jsx:121-129 | going back after a successful step forward from any section before the last returns to that section, with the errors cleared |
| EventForm.NextNeverSkips | eventify-user/src/screens/eventModule/CreateEvent.jsx:121-125 | "next" never moves more than one section, and moves only from a valid section |
| EventForm.AddTicket | eventify-user/src/screens/eventModule/CreateEvent.jsx:266-271 | adding a ticket appends one blank ticket and changes nothing else |
| EventForm.RemoveTicket | eventify-user/src/screens/eventModule/CreateEvent.jsx:273-279 | removal keeps at least one ticket: the last ticket or an out-of-range index is a no-op, otherwise exactly that ticket goes |
| EventForm.SetField | eventify-user/src/screens/eventModule/CreateEvent.jsx:281-285 | editing a ticket field changes only that field |
| EventForm.ChangeTicket | eventify-user/src/screens/eventModule/CreateEvent.jsx:281-285 | editing a ticket changes only that ticket, which gets the new field value |
| EventForm.RemoveImage | eventify-user/src/screens/eventModule/CreateEvent.jsx:257-263 | removing an image drops exactly that one; the primary index stays unless now out of range, then moves to the last image |
| EventForm.PrimaryMovesOnEarlierRemoval | eventify-user/src/screens/eventModule/CreateEvent.jsx:257-262 | removing an image in front of the primary one keeps the index, so the primary designation moves to the image that followed it |
| EventForm.SelectImages | eventify-user/src/screens/eventModule/CreateEvent.jsx:232-249 | picking keeps the first five images in order and resets the primary image to the first |
| EventForm.SetPrimary | eventify-user/src/screens/eventModule/CreateEvent.jsx:613-618 | tapping an image makes exactly that image the primary one and changes nothing else |
| EventForm.TappedImageIsSentPrimary | eventify-user/src/screens/eventModule/CreateEvent.jsx:350 | after a tap on image i, the submitted `primaryIndex` reads back as i |
| EventForm.EmptyForm | eventify-user/src/screens/eventModule/CreateEvent.jsx:387-407 | the reset form has empty texts, blank dates, one blank ticket, tickets shown, and no images |
| EventForm.Reset | eventify-user/src/screens/eventModule/CreateEvent.jsx:387-407 | resetting returns to the first section with no errors and an empty form that satisfies the ticket and image invariants |
| EventForm.TicketOut | eventify-user/src/screens/eventModule/CreateEvent.jsx:356-360 | a submitted ticket has the trimmed name and the numeric price and quantity |
| EventForm.ImageOut | eventify-user/src/screens/eventModule/CreateEvent.jsx:364-370 | a submitted image keeps its uri and defaults the type to `image/jpeg` and the name to `img_<now>.jpg` |
| EventForm.ToPayload | eventify-user/src/screens/eventModule/CreateEvent.jsx:339-370 | the payload is a DRAFT carrying title, description, category, type, organizer id, venue, dates, featured flag, primary index, captions, the registration and show-tickets flags, the parsed attendee limit, and every ticket and image converted one-to-one, each image stamped with its own clock reading |
| EventForm.DefaultNamesCollideIff | eventify-user/src/screens/eventModule/CreateEvent.jsx:364-370 | two unnamed images get the same default name exactly when the clock read the same millisecond for both (a fallback: picked images always arrive named) |
| EventForm.HandleCreateEvent | eventify-user/src/screens/eventModule/CreateEvent.jsx:335-384 | an invalid section on screen only shows its errors and sends nothing; a valid one sends the payload, and the wizard resets when creation succeeds and keeps the form otherwise |
| EventForm.SubmitChecksOnlyImages | eventify-user/src/screens/eventModule/CreateEvent.jsx:322-336 | submitting from the last section sends a payload exactly when at least one image is picked; the earlier sections are not re-checked |
| CreateEventScreen.DaysInMonth | eventify-user/src/screens/eventModule/CreateEvent.jsx:179-181 | months have 28 to 31 days; February has 29 exactly in leap years, and April, June, September and November have 30 |
| CreateEventScreen.Roll | eventify-user/src/screens/eventModule/CreateEvent.jsx:179-181 | an out-of-range day rolls into the next month as `Date` does, and a valid day is untouched |
| CreateEventScreen.Copy | eventify-user/src/screens/eventModule/CreateEvent.jsx:176-178 | `new Date(d)` of a valid date is the same moment, and is never blank |
| CreateEventScreen.SetFullYear | eventify-user/src/screens/eventModule/CreateEvent.jsx:179 | `setFullYear` always yields a valid date in that year, starting from the epoch for an invalid date |
| CreateEventScreen.SetMonth | eventify-user/src/screens/eventModule/CreateEvent.jsx:180 | `setMonth` on a valid date yields a valid date in the same year |
| CreateEventScreen.SetDate | eventify-user/src/screens/eventModule/CreateEvent.jsx:181 | `setDate` on a valid date yields a valid date in the same year |
| CreateEventScreen.MergeDayAsWritten | eventify-user/src/screens/eventModule/CreateEvent.jsx:175-186 | the as-written date step lands in the selected year and keeps the target's time of day |
| CreateEventScreen.MergeDayAsWrittenIff | eventify-user/src/screens/eventModule/CreateEvent.jsx:175-186 | the as-written step gives the selected day exactly when the target's day exists in the selected month; otherwise it lands a month later |
| CreateEventScreen.MergeDayAsWrittenSkipsMonth | eventify-user/src/screens/eventModule/CreateEvent.jsx:175-186 | selecting 15 February 2025 for a target of 31 January 2025 stores 15 March 2025 |
| CreateEventScreen.MergeDay | eventify-user/src/screens/eventModule/CreateEvent.jsx:175-186 | the date step stores exactly the selected year, month and day with the target's time, or midnight when the target is not a valid date |
| CreateEventScreen.MergeDayAgreesWithoutRollOver | eventify-user/src/screens/eventModule/CreateEvent.jsx:175-186 | when no roll-over happens the as-written and intended date steps agree |
| CreateEventScreen.MergeTime | eventify-user/src/screens/eventModule/CreateEvent.jsx:195-207 | the time step sets only hour and minute of a valid date, and an invalid date stays invalid |
| CreateEventScreen.PressStartAsWritten | eventify-user/src/screens/eventModule/CreateEvent.jsx:132-141 | pressing the start field shows its picker; only Android marks the start as the target and enters date mode |
| CreateEventScreen.PressEndAsWritten | eventify-user/src/screens/eventModule/CreateEvent.jsx:143-152 | pressing the end field shows its picker; only Android marks the end as the target and enters date mode |
| CreateEventScreen.PressStart | eventify-user/src/screens/eventModule/CreateEvent.jsx:132-141 | pressing the start field shows its picker and makes the start the target on every platform |
| CreateEventScreen.PressEnd | eventify-user/src/screens/eventModule/CreateEvent.jsx:143-152 | pressing the end field shows its picker and makes the end the target on every platform |
| CreateEventScreen.PressesAgreeOnAndroid | eventify-user/src/screens/eventModule/CreateEvent.jsx:132-152 | on Android the intended presses equal the as-written ones |
| CreateEventScreen.NewTarget | eventify-user/src/screens/eventModule/CreateEvent.jsx:154-207 | iOS stores the selection as is; the Android date step keeps the selected year and the target's time of day (as written it is the setter chain, which may land a month late; only the intended step is sure to land on the selected month and day); the Android time step sets only hour and minute |
| CreateEventScreen.DateChange | eventify-user/src/screens/eventModule/CreateEvent.jsx:154-212 | a picker event writes only the target field, and nothing when dismissed or empty; Android steps from date mode to time mode and closes after time or dismissal; iOS keeps the picker state; the screen runs the as-written date step |
| CreateEventScreen.IosNeverSetsStartAsWritten | eventify-user/src/screens/eventModule/CreateEvent.jsx:132-172 | as written, nothing on iOS ever changes which field is the target |
| CreateEventScreen.IosStartPickerWritesEnd | eventify-user/src/screens/eventModule/CreateEvent.jsx:132-172 | as written, on iOS a selection from the start picker of a fresh screen leaves the start and overwrites the end |
| CreateEventScreen.IosPickersWriteTheirOwnField | eventify-user/src/screens/eventModule/CreateEvent.jsx:132-172 | with the intended presses each iOS picker writes its own field |
| CreateEventScreen.AndroidStartFlow | eventify-user/src/screens/eventModule/CreateEvent.jsx:132-207 | with the intended date step, pressing start on Android, choosing a day and then a time sets the start to that day and time, leaves the end and closes the pickers |
| CreateEventScreen.AndroidStartFlowAsWritten | eventify-user/src/screens/eventModule/CreateEvent.jsx:132-207 | the screen as written reaches the same result whenever the start's day of the month exists in the chosen month |
| CreateEventScreen.ScreenDateStepSkipsMonth | eventify-user/src/screens/eventModule/CreateEvent.jsx:175-186 | on the screen as written, a start of 31 January 2025 10:00 and a pick of 15 February store 15 March 2025 10:00 and leave the end alone |
| CreateEventScreen.DismissKeepsDates | eventify-user/src/screens/eventModule/CreateEvent.jsx:157-165 | dismissing a picker never changes the dates; on Android it closes the pickers |
| CreateEventScreen.Opening | eventify-user/src/screens/eventModule/CreateEvent.jsx:36-80 | the screen opens on the first section with an empty form whose start is now and end an hour later |
| CreateEventScreen.ResetNeedsBothDates | eventify-user/src/screens/eventModule/CreateEvent.jsx:304-305 | after a reset both date keys are reported, while the opening form has neither |
| CreateEventScreen.InvalidDatePassesCheck | eventify-user/src/screens/eventModule/CreateEvent.jsx:304-305 | an invalid `Date` object is truthy and passes the date check |
| HelloScreen.Opening | eventify-user/src/screens/eventModule/Hello.jsx:38-60 | the text-date screen opens with empty title and dates, one blank ticket and no images, on the first section |
| HelloScreen.OpeningIsReset | eventify-user/src/screens/eventModule/Hello.jsx:242-262 | the screen's opening state is what a reset produces |
| HelloScreen.SpacesPassDateCheck | eventify-user/src/screens/eventModule/Hello.jsx:152-153 | dates made of spaces pass the check, because it tests truthiness without trimming |
| HelloScreen.SubmitSendsTypedDates | eventify-user/src/screens/eventModule/Hello.jsx:190-240 | a valid last section with images sends a DRAFT carrying the dates exactly as typed and trimmed ticket names, and resets after success |
| EventDetails.HandleBuyTicket | eventify-user/src/screens/eventModule/EventDetails.jsx:80-89 | buying navigates to the purchase screen with the event and ticket exactly when the ticket is not sold out |
| EventDetails.TicketCard | eventify-user/src/screens/eventModule/EventDetails.jsx:91-125 | a card is disabled and labelled sold out exactly when sold out; otherwise it shows the positive remaining count and "Buy Now" |
| EventDetails.EnabledButtonNavigates | eventify-user/src/screens/eventModule/EventDetails.jsx:80-125 | the card's button is enabled exactly when pressing it navigates |
| OrganizerDetails.HandleChatPress | eventify-user/src/screens/organizers/OrganizersDetails.jsx:102-116 | without a signed-in user the press alerts "Please log in"; otherwise it opens Chat with the organizer as participant and no chat id |
| OrganizerDetails.ChatParams | eventify-user/src/screens/chatModule/Chat.jsx:30-36 | the chat screen reads participant and user ids from the route and no chat id when none was passed |
| OrganizerDetails.ChatPressStartsChat | eventify-user/src/screens/organizers/OrganizersDetails.jsx:102-116 | from an organizer profile a signed-in user's press mounts Chat, which emits one START_CHAT for that user, that organizer and the booking request |
| OrganizerDetails.AvailableCount | eventify-user/src/screens/organizers/OrganizersDetails.jsx:169 | the available count is at most the number of slots, equals it exactly when all are available, and is zero exactly when none is |
| OrganizerDetails.AvailableCountAppend | eventify-user/src/screens/organizers/OrganizersDetails.jsx:169 | the count over two slot lists is the sum of their counts |
| OrganizerDetails.AvailableStat | eventify-user/src/screens/organizers/OrganizersDetails.jsx:81 | the availability statistic never exceeds the number of slots |
| OrganizerDetails.FormatDateMissingIff | eventify-user/src/screens/organizers/OrganizersDetails.jsx:84-92 | since locale formatting never produces "N/A", the screen shows "N/A" exactly for a missing date |
| OrganizerDetails.FormatDate | eventify-user/src/screens/organizers/OrganizersDetails.jsx:84-92 | the model of `formatDate`: "N/A" for a missing date, else the locale formatting; its property is stated by FormatDateMissingIff |
| OrganizerDetails.FormatTimeBlankIff | eventify-user/src/screens/organizers/OrganizersDetails.jsx:94-100 | since locale formatting never produces the empty string, a time is blank exactly for a missing date |
| OrganizerDetails.FormatTime | eventify-user/src/screens/organizers/OrganizersDetails.jsx:94-100 | the model of `formatTime`: empty for a missing date, else the locale formatting; its property is stated by FormatTimeBlankIff |
| OrganizerDetails.ProfilePicture | eventify-user/src/screens/organizers/OrganizersDetails.jsx:76-78 | there is always a picture to show; the stored one is shown exactly when it is set, otherwise a placeholder URL labelled with the name's first character, or "O" |
| OrganizerDetails.PlaceholderFollowsInitial | eventify-user/src/screens/organizers/OrganizersDetails.jsx:76-78 | two organizers without a picture share a placeholder exactly when their names start with the same character (both "O" when nameless) |
| EventStore.InitialEvents | eventify-user/src/redux/slices/eventSlice.jsx:69-73 | the store starts with no events, not loading and no error |
| EventStore.RejectionOf | eventify-user/src/redux/slices/eventSlice.jsx:31-36 | a rejection carries the server's response body when there is one, else the fallback message |
| EventStore.CreateEventSettles | eventify-user/src/redux/slices/eventSlice.jsx:9-39 | `createEvent` fulfils exactly on a server reply, with its data; a failure rejects with the body or "Network Error" |
| EventStore.ListEventsSettles | eventify-user/src/redux/slices/eventSlice.jsx:42-65 | `getAllEvents` fulfils exactly on a server reply; a failure rejects with the body or "Error fetching events" |
| EventStore.ReduceEvents | eventify-user/src/redux/slices/eventSlice.jsx:79-104 | pending sets loading and clears the error; a created event is appended; a listing replaces the events; a rejection stores its payload and stops loading |
| EventStore.CreationsAppendInOrder | eventify-user/src/redux/slices/eventSlice.jsx:79-104 | over any sequence of create actions, the events grow by exactly the created events in order |
| EventStore.ReduceAllEvents | eventify-user/src/redux/slices/eventSlice.jsx:75-104 | the store after a run of actions, each reduced in turn; CreationsAppendInOrder states what it keeps |
| EventStore.CreateWithoutServer | eventify-user/src/redux/slices/eventSlice.jsx:31-36 | a creation that reaches no server ends not loading, with the events unchanged and the "Network Error" message |
| OrganizerStore.InitialOrganizers | eventify-user/src/redux/slices/organizerSlice.jsx:59-64 | the store starts empty with no current organizer, not loading and no error |
| OrganizerStore.GetOrganizers | eventify-user/src/redux/slices/organizerSlice.jsx:31-55 | a request is sent exactly when a token exists; no token rejects with "Admin is not authenticated."; an error answer rejects with its message or the fallback; rejections always carry a message |
| OrganizerStore.ReduceOrganizers | eventify-user/src/redux/slices/organizerSlice.jsx:66-93 | each action updates only its own fields, and only `clearCurrentOrganizer` touches the current organizer |
| OrganizerStore.DispatchSettles | eventify-user/src/redux/slices/organizerSlice.jsx:31-93 | a dispatched fetch always ends not loading, with the list on success or the error message on failure |

## Left out

- The `img_<now>.jpg` image-name default at submit is a fallback that picked images never reach: the picker always names them, with the file name or a random-suffixed one. Picked names arrive as given, and the random part is not modelled.
- Persistence: MongoDB documents and save failures are not modelled. The store is a sequence of chat documents, and a failed write surfaces only as the generic failure message. The `updatedAt` timestamp is modelled as the clock value of the latest write; `createdAt` is left out.
- Ties in the chat list: MongoDB returns chats with equal `lastActivity` and `updatedAt` in an unspecified order. The model picks one, the stored order, so a statement about the order of tied chats holds for that choice only.
- A missing user document under `populate` in the list: the list payload assumes every chat's user exists. A deleted user would make `chat.user._id` throw on the client, which is not modelled. On the server, the history handler's failure on a missing record is modelled.
- Transport: delivery of room broadcasts, CORS, ping/pong and reconnection are not modelled. Emits are recorded as effects and nothing assumes they arrive.
- Concurrency: two `start_chat` calls interleaving across their `await`s are not modelled. Each handler runs atomically.
- JWT internals (signature and expiry) are a verification function parameter.
- Disconnect and error logging handlers are left out; they only log.
- Axios, AsyncStorage, FormData, the image picker UI and the random part of picked image names are left out. Picked images arrive as a sequence, and HTTP outcomes arrive as replies.
- SocketManager internals (connect/disconnect and the singleton socket) are left out. The registry stands for the one shared socket.
- Time zones and locale formatting are left out; dates are local calendar moments and formatting is a parameter.
- JavaScript `Number()` parsing is an abstract function. Non-numeric input maps to `NaN`, which passes the "must be positive" check exactly as in the source.
- CreateEvent's `handleTimeChange` is left out: `showTimePicker` is never set to true, so it cannot run.
- `Organizers.jsx` and `DateTimePickerField.jsx` are not part of this model.
- Styling, toasts, console logging and the validation messages' wording are left out; the error map is modelled by its keys.
- EventForm.ChangeTicket: requires the index to be in range; JavaScript would create a sparse slot past the end, which the UI cannot trigger.
- The date pickers' `minimumDate` is not modelled: it constrains the picker UI, not the handlers.
- The organizer profile heading and its `'Organizer'` fallback are display only and not modelled; the chat route carries `userName` as given.
- Text.ToLowerSpec: folds only ASCII letters; `toLowerCase` also folds other scripts, and the only lower-cased values are role names.

## Findings

| source | as written | input that shows it | evidently intended | confidence | as-written member | corrected member |
|---|---|---|---|---|---|---|
| eventify-user/src/screens/eventModule/CreateEvent.jsx:132-172 | on iOS the press handlers never set `isSettingStartTime`, and `handleDateChange` writes the end date whenever `isSettingStartTime` is false | iOS, fresh screen: press the start field and pick a moment; the start date is unchanged and the end date becomes the pick | the start picker writes the start date | not executed | CreateEventScreen.IosStartPickerWritesEnd | CreateEventScreen.IosPickersWriteTheirOwnField |
| eventify-user/src/screens/eventModule/CreateEvent.jsx:175-186 | the Android date step calls `setFullYear`, `setMonth`, `setDate` one after the other on the old date, so a day that does not exist in the new month rolls over | target 31 January 2025 10:00, pick 15 February 2025: `setMonth(1)` gives 3 March, and `setDate(15)` then gives 15 March 2025 | 15 February 2025 at 10:00 | not executed | CreateEventScreen.MergeDayAsWrittenSkipsMonth | CreateEventScreen.MergeDay |
