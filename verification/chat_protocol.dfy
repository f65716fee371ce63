/**
 * The realtime chat protocol handler of the backend
 * (eventify-backend/controllers/chat-controller/chat.controller.js) as a pure step
 * function over an abstract conversation store:
 *
 *   Step(store, caller, request, env) = Outcome(store', effects)
 *
 * The store is the chat collection in its natural (insertion) order. `effects` lists,
 * in order, the room joins of the calling connection and the emits it causes, each to
 * the caller itself or to a named room. The clock, the ObjectId generator,
 * `mongoose.Types.ObjectId.isValid` and `Organizer.findById` are the environment `env`.
 */
module ChatProtocol {
  import opened Wrappers
  import opened Text
  import Sorting

  // Client-to-server event names, as the server spells them.
  const START_CHAT: string := "start_chat"
  const SEND_MESSAGE: string := "send_message"
  const GET_CHAT_HISTORY: string := "get_chat_history"
  const GET_ALL_CHATS: string := "get_all_chats"
  const DELETE_CHAT: string := "delete_chat"

  // Server-to-client event names.
  const NEW_CHAT: string := "new_chat"
  const NEW_MESSAGE: string := "new_message"
  const CHAT_HISTORY: string := "chat_history"
  const ALL_CHATS_LIST: string := "all_chats_list"
  const CHAT_DELETED: string := "chat_deleted"
  const ERROR: string := "chat_error"
  const SUCCESS: string := "chat_success"

  /** Every event name the server listens to or emits. */
  const ServerEvents: set<string> := {
    START_CHAT, SEND_MESSAGE, GET_CHAT_HISTORY, GET_ALL_CHATS, DELETE_CHAT,
    NEW_CHAT, NEW_MESSAGE, CHAT_HISTORY, ALL_CHATS_LIST, CHAT_DELETED, ERROR, SUCCESS
  }

  const ROLE_USER: string := "USER"
  const ROLE_ORGANIZER: string := "ORGANIZER"
  const DEFAULT_GREETING: string := "Hello! I'd like to inquire about your events."

  // Error texts, one per guard.
  const MSG_IDS_REQUIRED: string := "User ID and Organizer ID are required"
  const MSG_OWN_ACCOUNT: string := "You can only start chats for your own account"
  const MSG_USERS_ONLY: string := "Only regular users can start chats with organizers"
  const MSG_BAD_PARTY_ID: string := "Invalid user or organizer ID format"
  const MSG_NO_ORGANIZER: string := "Organizer not found"
  const MSG_START_FAILED: string := "Failed to start chat"
  const MSG_TEXT_REQUIRED: string := "Chat ID and message text are required"
  const MSG_BAD_CHAT_ID: string := "Invalid chat ID format"
  const MSG_NO_CHAT: string := "Chat not found"
  const MSG_CANNOT_SEND: string := "Unauthorized to send message in this chat"
  const MSG_VALID_ID_REQUIRED: string := "Valid chat ID is required"
  const MSG_CANNOT_VIEW: string := "Unauthorized to view this chat"
  const MSG_HISTORY_FAILED: string := "Failed to get chat history"
  const MSG_ORGANIZERS_ONLY: string := "Only organizers can view all chats"
  const MSG_FETCH_FAILED: string := "Failed to fetch chats"
  const MSG_NOT_OWNER: string := "Only the organizer of this chat can delete it"

  // Success texts.
  const MSG_EXISTING: string := "Existing chat found"
  const MSG_STARTED: string := "Chat started successfully"
  const MSG_SENT: string := "Message sent successfully"
  const MSG_DELETED: string := "Chat deleted successfully"

  datatype Sender = USER | ORGANIZER

  /** A stored message. The object the server builds and broadcasts carries no `_id`. */
  datatype Message = Message(sender: Sender, text: string, sentAt: nat)

  /** A conversation record; `user` and `organizer` are the parties' ids. */
  datatype Chat = Chat(
    user: string,
    organizer: string,
    messages: seq<Message>,
    isActive: bool,
    lastActivity: nat,
    updatedAt: nat)

  datatype ChatDoc = ChatDoc(id: string, chat: Chat)

  /** The chat collection in natural order. */
  type Store = seq<ChatDoc>

  /** The identity attached to the connection by the authentication middleware. */
  datatype Caller = Caller(id: string, role: string)

  /**
   * What the handlers take from outside: the clock, the id the driver gives a new
   * record, the ObjectId format check, and whether an organizer or a user record
   * exists (a `populate` of a missing record yields `null`).
   */
  datatype Env = Env(
    now: nat,
    newId: string,
    isValidId: string -> bool,
    organizerExists: string -> bool,
    userExists: string -> bool)

  /** An inbound event with its payload; absent or empty fields are "". */
  datatype Request =
    | StartChat(userId: string, organizerId: string, initialMessage: string)
    | SendMessage(chatId: string, text: string)
    | GetChatHistory(chatId: string)
    | GetAllChats
    | DeleteChat(chatId: string)

  /** The `error.message` of a failure raised by the store driver; its text is opaque. */
  datatype Detail = DriverError

  datatype AckData =
    | StartedData(chatId: string, messages: seq<Message>, user: string, organizer: string, isNew: bool)
    | SentData(chatId: string, message: Message)
    | DeletedData(chatId: string, deletedAt: nat)

  datatype Payload =
    | ErrorAck(event: string, message: string, timestamp: nat, details: Option<Detail>)
    | SuccessAck(event: string, message: string, timestamp: nat, data: AckData)
    | NewChatNotice(chatId: string, user: string, initialMessage: Message, timestamp: nat)
    | NewMessageNotice(chatId: string, sent: Message, senderId: string, senderRole: string)
    | HistoryReply(
        chatId: string, user: string, organizer: string,
        messages: seq<Message>, isActive: bool, lastActivity: nat)
    | ChatsList(chats: seq<ChatDoc>, total: nat)
    | DeletedNotice(chatId: string, deletedAt: nat)

  /** The calling connection itself, or a room: a party's personal room or `chat_<id>`. */
  datatype Target = ToCaller | ToRoom(room: string)

  datatype Effect =
    | Emit(target: Target, event: string, payload: Payload)
    | Join(room: string)

  datatype Outcome = Outcome(store: Store, effects: seq<Effect>)

  /** The room of one conversation. */
  function ChatRoom(chatId: string): string {
    "chat_" + chatId
  }

  /** Different chats have different rooms, and the chat id can be read back from the room name. */
  lemma ChatRoomInjective(a: string, b: string)
    ensures ChatRoom(a)[5..] == a
    ensures ChatRoom(a) == ChatRoom(b) <==> a == b
  {
    if ChatRoom(a) == ChatRoom(b) {
      assert ChatRoom(a)[5..] == a && ChatRoom(b)[5..] == b;
    }
  }

  // ---------------------------------------------------------------- acknowledgements

  /** `sendError`: one `chat_error` to the caller tagged with the event; the store is kept. */
  function Fail(store: Store, event: string, message: string, env: Env,
                details: Option<Detail> := None): (o: Outcome)
    ensures IsRejection(o, store, event)
    ensures RejectionMessage(o) == message
  {
    Outcome(store, [Emit(ToCaller, ERROR, ErrorAck(event, message, env.now, details))])
  }

  /** `sendSuccess`: a `chat_success` to the caller tagged with the event. */
  function Ack(event: string, message: string, env: Env, data: AckData): (e: Effect)
    ensures e.Emit? && e.target == ToCaller && e.event == SUCCESS
    ensures e.payload.SuccessAck? && e.payload.event == event && e.payload.data == data
  {
    Emit(ToCaller, SUCCESS, SuccessAck(event, message, env.now, data))
  }

  /** The outcome is a single error reply for `event` and the store is untouched. */
  predicate IsRejection(o: Outcome, store: Store, event: string) {
    && o.store == store
    && |o.effects| == 1
    && o.effects[0].Emit?
    && o.effects[0].target == ToCaller
    && o.effects[0].event == ERROR
    && o.effects[0].payload.ErrorAck?
    && o.effects[0].payload.event == event
  }

  /** The text of a single error reply. */
  function RejectionMessage(o: Outcome): string
    requires |o.effects| == 1 && o.effects[0].Emit? && o.effects[0].payload.ErrorAck?
  {
    o.effects[0].payload.message
  }

  predicate RejectedWith(o: Outcome, store: Store, event: string, message: string) {
    IsRejection(o, store, event) && RejectionMessage(o) == message
  }

  /** True when the outcome's first effect is an error reply. */
  predicate IsErrorReply(o: Outcome) {
    |o.effects| > 0 && o.effects[0].Emit? && o.effects[0].event == ERROR
  }

  // ---------------------------------------------------------------- store lookups

  /** Index of the first record at or after `from` that satisfies `p`. */
  function FirstMatch(store: Store, p: ChatDoc -> bool, from: nat): (r: Option<nat>)
    requires from <= |store|
    ensures r.Some? ==> from <= r.value < |store| && p(store[r.value])
    ensures forall i :: from <= i < |store| && (r.None? || i < r.value) ==> !p(store[i])
    decreases |store| - from
  {
    if from == |store| then None
    else if p(store[from]) then Some(from)
    else FirstMatch(store, p, from + 1)
  }

  /** `Chat.findById(id)`: the first record with that id, if any. */
  function FindById(store: Store, id: string): (r: Option<nat>)
    ensures r.Some? ==> r.value < |store| && store[r.value].id == id
    ensures r.None? <==> !HasId(store, id)
  {
    FirstMatch(store, (d: ChatDoc) => d.id == id, 0)
  }

  predicate HasId(store: Store, id: string) {
    exists i :: 0 <= i < |store| && store[i].id == id
  }

  /** The record is an active conversation between `userId` and `organizerId`. */
  predicate IsActivePair(d: ChatDoc, userId: string, organizerId: string) {
    d.chat.user == userId && d.chat.organizer == organizerId && d.chat.isActive
  }

  predicate HasActiveChat(store: Store, userId: string, organizerId: string) {
    exists i :: 0 <= i < |store| && IsActivePair(store[i], userId, organizerId)
  }

  /** `Chat.findOne({user, organizer, isActive: true})`. */
  function FindActive(store: Store, userId: string, organizerId: string): (r: Option<nat>)
    ensures r.Some? ==> r.value < |store| && IsActivePair(store[r.value], userId, organizerId)
    ensures r.None? <==> !HasActiveChat(store, userId, organizerId)
  {
    FirstMatch(store, (d: ChatDoc) => IsActivePair(d, userId, organizerId), 0)
  }

  /** The record is an active conversation owned by `organizerId`. */
  predicate ListedFor(d: ChatDoc, organizerId: string) {
    d.chat.organizer == organizerId && d.chat.isActive
  }

  /** `Chat.find({organizer, isActive: true})` in natural order. */
  function ActiveChatsOf(store: Store, organizerId: string): (r: seq<ChatDoc>)
    ensures forall d :: multiset(r)[d] == if ListedFor(d, organizerId) then multiset(store)[d] else 0
    ensures forall d :: d in r <==> d in store && ListedFor(d, organizerId)
    ensures |r| <= |store|
  {
    if store == [] then []
    else
      var rest := ActiveChatsOf(store[1..], organizerId);
      assert store == [store[0]] + store[1..];
      if ListedFor(store[0], organizerId) then [store[0]] + rest else rest
  }

  /** The list order: `lastActivity` descending, then `updatedAt` descending. */
  predicate ListsBefore(a: ChatDoc, b: ChatDoc) {
    || a.chat.lastActivity > b.chat.lastActivity
    || (a.chat.lastActivity == b.chat.lastActivity && a.chat.updatedAt >= b.chat.updatedAt)
  }

  lemma ListOrderIsPreorder()
    ensures Sorting.TotalPreorder(ListsBefore)
  {
  }

  // ---------------------------------------------------------------- START_CHAT

  /** Every guard of START_CHAT passes. */
  predicate StartChatAllowed(caller: Caller, userId: string, organizerId: string, env: Env) {
    && userId != "" && organizerId != ""
    && caller.id == userId
    && caller.role == ROLE_USER
    && env.isValidId(userId) && env.isValidId(organizerId)
    && env.organizerExists(organizerId)
  }

  /** The seed message of a new conversation: the supplied text or the default greeting. */
  function SeedMessage(initialMessage: string, env: Env): (m: Message)
    ensures m.sender == USER && m.sentAt == env.now
    ensures initialMessage != "" ==> m.text == initialMessage
    ensures initialMessage == "" ==> m.text == DEFAULT_GREETING
  {
    Message(USER, if initialMessage != "" then initialMessage else DEFAULT_GREETING, env.now)
  }

  function HandleStartChat(store: Store, caller: Caller, userId: string, organizerId: string,
                           initialMessage: string, env: Env): (o: Outcome)
    // guards, in the order they are checked
    ensures userId == "" || organizerId == "" ==>
      RejectedWith(o, store, START_CHAT, MSG_IDS_REQUIRED)
    ensures userId != "" && organizerId != "" && caller.id != userId ==>
      RejectedWith(o, store, START_CHAT, MSG_OWN_ACCOUNT)
    ensures userId != "" && organizerId != "" && caller.id == userId && caller.role != ROLE_USER ==>
      RejectedWith(o, store, START_CHAT, MSG_USERS_ONLY)
    ensures && userId != "" && organizerId != "" && caller.id == userId && caller.role == ROLE_USER
            && (!env.isValidId(userId) || !env.isValidId(organizerId)) ==>
      RejectedWith(o, store, START_CHAT, MSG_BAD_PARTY_ID)
    ensures && userId != "" && organizerId != "" && caller.id == userId && caller.role == ROLE_USER
            && env.isValidId(userId) && env.isValidId(organizerId) && !env.organizerExists(organizerId) ==>
      RejectedWith(o, store, START_CHAT, MSG_NO_ORGANIZER)
    ensures !StartChatAllowed(caller, userId, organizerId, env) ==> IsRejection(o, store, START_CHAT)
    // an active conversation for the pair is reused
    ensures StartChatAllowed(caller, userId, organizerId, env) && HasActiveChat(store, userId, organizerId) ==>
      && o.store == store
      && |o.effects| == 2
      && exists i :: 0 <= i < |store| && IsActivePair(store[i], userId, organizerId)
           && o.effects[0] == Join(ChatRoom(store[i].id))
           && o.effects[1] == Ack(START_CHAT, MSG_EXISTING, env,
                StartedData(store[i].id, store[i].chat.messages, userId, organizerId, false))
    // otherwise exactly one new active conversation with exactly one seed message
    ensures && StartChatAllowed(caller, userId, organizerId, env)
            && !HasActiveChat(store, userId, organizerId) && !HasId(store, env.newId) ==>
      && |o.store| == |store| + 1
      && o.store[..|store|] == store
      && o.store[|store|].id == env.newId
      && IsActivePair(o.store[|store|], userId, organizerId)
      && o.store[|store|].chat.messages == [SeedMessage(initialMessage, env)]
      && o.effects == [
           Join(ChatRoom(env.newId)),
           Ack(START_CHAT, MSG_STARTED, env,
             StartedData(env.newId, [SeedMessage(initialMessage, env)], userId, organizerId, true)),
           Emit(ToRoom(organizerId), NEW_CHAT,
             NewChatNotice(env.newId, userId, SeedMessage(initialMessage, env), env.now))]
    // a record id the store already holds makes the save fail
    ensures && StartChatAllowed(caller, userId, organizerId, env)
            && !HasActiveChat(store, userId, organizerId) && HasId(store, env.newId) ==>
      RejectedWith(o, store, START_CHAT, MSG_START_FAILED)
  {
    if userId == "" || organizerId == "" then Fail(store, START_CHAT, MSG_IDS_REQUIRED, env)
    else if caller.id != userId then Fail(store, START_CHAT, MSG_OWN_ACCOUNT, env)
    else if caller.role != ROLE_USER then Fail(store, START_CHAT, MSG_USERS_ONLY, env)
    else if !env.isValidId(userId) || !env.isValidId(organizerId) then
      Fail(store, START_CHAT, MSG_BAD_PARTY_ID, env)
    else if !env.organizerExists(organizerId) then Fail(store, START_CHAT, MSG_NO_ORGANIZER, env)
    else match FindActive(store, userId, organizerId)
      case Some(i) =>
        var doc := store[i];
        Outcome(store, [
          Join(ChatRoom(doc.id)),
          Ack(START_CHAT, MSG_EXISTING, env,
            StartedData(doc.id, doc.chat.messages, userId, organizerId, false))])
      case None =>
        if FindById(store, env.newId).Some? then
          Fail(store, START_CHAT, MSG_START_FAILED, env, Some(DriverError))
        else
          var seed := SeedMessage(initialMessage, env);
          var chat := Chat(userId, organizerId, [seed], true, env.now, env.now);
          Outcome(store + [ChatDoc(env.newId, chat)], [
            Join(ChatRoom(env.newId)),
            Ack(START_CHAT, MSG_STARTED, env, StartedData(env.newId, [seed], userId, organizerId, true)),
            Emit(ToRoom(organizerId), NEW_CHAT, NewChatNotice(env.newId, userId, seed, env.now))])
  }

  // ---------------------------------------------------------------- SEND_MESSAGE

  /** The stored sender type of a caller: ORGANIZER for that role, USER for every other role. */
  function SenderOf(caller: Caller): (s: Sender)
    ensures s == ORGANIZER <==> caller.role == ROLE_ORGANIZER
  {
    if caller.role == ROLE_ORGANIZER then ORGANIZER else USER
  }

  /** The caller is the stored party that matches their sender type. */
  predicate MaySendIn(caller: Caller, chat: Chat) {
    if SenderOf(caller) == USER then caller.id == chat.user else caller.id == chat.organizer
  }

  /** The party that did not send. */
  function RecipientOf(sender: Sender, chat: Chat): string {
    if sender == USER then chat.organizer else chat.user
  }

  /**
   * A caller allowed to send in a chat between two different parties notifies the
   * other party of that chat, never themselves.
   */
  lemma RecipientIsTheOtherParty(caller: Caller, chat: Chat)
    requires MaySendIn(caller, chat) && chat.user != chat.organizer
    ensures RecipientOf(SenderOf(caller), chat) != caller.id
    ensures caller.id == chat.user ==> RecipientOf(SenderOf(caller), chat) == chat.organizer
    ensures caller.id == chat.organizer ==> RecipientOf(SenderOf(caller), chat) == chat.user
  {
  }

  /** Every guard of SEND_MESSAGE passes. */
  predicate SendAllowed(store: Store, caller: Caller, chatId: string, text: string, env: Env) {
    && chatId != "" && Trim(text) != ""
    && env.isValidId(chatId)
    && FindById(store, chatId).Some?
    && MaySendIn(caller, store[FindById(store, chatId).value].chat)
  }

  /** Record `i` is replaced by `d` and every other record is kept. */
  predicate OnlyRecordChanged(store: Store, store': Store, i: nat, d: ChatDoc) {
    && |store'| == |store|
    && i < |store|
    && store'[i] == d
    && forall j :: 0 <= j < |store| && j != i ==> store'[j] == store[j]
  }

  function HandleSendMessage(store: Store, caller: Caller, chatId: string, text: string,
                             env: Env): (o: Outcome)
    ensures chatId == "" || Trim(text) == "" ==>
      RejectedWith(o, store, SEND_MESSAGE, MSG_TEXT_REQUIRED)
    ensures chatId != "" && Trim(text) != "" && !env.isValidId(chatId) ==>
      RejectedWith(o, store, SEND_MESSAGE, MSG_BAD_CHAT_ID)
    ensures chatId != "" && Trim(text) != "" && env.isValidId(chatId) && !HasId(store, chatId) ==>
      RejectedWith(o, store, SEND_MESSAGE, MSG_NO_CHAT)
    ensures && chatId != "" && Trim(text) != "" && env.isValidId(chatId) && HasId(store, chatId)
            && !MaySendIn(caller, store[FindById(store, chatId).value].chat) ==>
      RejectedWith(o, store, SEND_MESSAGE, MSG_CANNOT_SEND)
    ensures !SendAllowed(store, caller, chatId, text, env) ==> IsRejection(o, store, SEND_MESSAGE)
    ensures SendAllowed(store, caller, chatId, text, env) ==>
      var i := FindById(store, chatId).value;
      var chat := store[i].chat;
      var msg := Message(SenderOf(caller), Trim(text), env.now);
      var notice := NewMessageNotice(store[i].id, msg, caller.id, caller.role);
      && OnlyRecordChanged(store, o.store, i, ChatDoc(store[i].id,
           chat.(messages := chat.messages + [msg], isActive := true,
                 lastActivity := env.now, updatedAt := env.now)))
      && o.effects == [
           Ack(SEND_MESSAGE, MSG_SENT, env, SentData(store[i].id, msg)),
           Emit(ToRoom(ChatRoom(chatId)), NEW_MESSAGE, notice),
           Emit(ToRoom(RecipientOf(msg.sender, chat)), NEW_MESSAGE, notice)]
  {
    var senderType := SenderOf(caller);
    if chatId == "" || Trim(text) == "" then Fail(store, SEND_MESSAGE, MSG_TEXT_REQUIRED, env)
    else if !env.isValidId(chatId) then Fail(store, SEND_MESSAGE, MSG_BAD_CHAT_ID, env)
    else match FindById(store, chatId)
      case None => Fail(store, SEND_MESSAGE, MSG_NO_CHAT, env)
      case Some(i) =>
        var chat := store[i].chat;
        if (senderType == USER && caller.id != chat.user)
           || (senderType == ORGANIZER && caller.id != chat.organizer) then
          Fail(store, SEND_MESSAGE, MSG_CANNOT_SEND, env)
        else
          var msg := Message(senderType, Trim(text), env.now);
          var chat' := chat.(messages := chat.messages + [msg], isActive := true,
                             lastActivity := env.now, updatedAt := env.now);
          var notice := NewMessageNotice(store[i].id, msg, caller.id, caller.role);
          Outcome(store[i := ChatDoc(store[i].id, chat')], [
            Ack(SEND_MESSAGE, MSG_SENT, env, SentData(store[i].id, msg)),
            Emit(ToRoom(ChatRoom(chatId)), NEW_MESSAGE, notice),
            Emit(ToRoom(RecipientOf(senderType, chat)), NEW_MESSAGE, notice)])
  }

  // ---------------------------------------------------------------- GET_CHAT_HISTORY

  predicate IsParty(caller: Caller, chat: Chat) {
    caller.id == chat.user || caller.id == chat.organizer
  }

  /**
   * The party check reads the populated user's `_id` first and, unless the caller is
   * that user, the populated organizer's `_id`; either read throws on a missing record.
   */
  predicate PartyCheckThrows(caller: Caller, chat: Chat, env: Env) {
    || !env.userExists(chat.user)
    || (caller.id != chat.user && !env.organizerExists(chat.organizer))
  }

  /** Every guard of GET_CHAT_HISTORY passes; the chat's `isActive` plays no part. */
  predicate HistoryAllowed(store: Store, caller: Caller, chatId: string, env: Env) {
    && chatId != "" && env.isValidId(chatId)
    && FindById(store, chatId).Some?
    && !PartyCheckThrows(caller, store[FindById(store, chatId).value].chat, env)
    && IsParty(caller, store[FindById(store, chatId).value].chat)
  }

  function HandleGetChatHistory(store: Store, caller: Caller, chatId: string, env: Env): (o: Outcome)
    ensures o.store == store
    ensures chatId == "" || !env.isValidId(chatId) ==>
      RejectedWith(o, store, GET_CHAT_HISTORY, MSG_VALID_ID_REQUIRED)
    ensures chatId != "" && env.isValidId(chatId) && !HasId(store, chatId) ==>
      RejectedWith(o, store, GET_CHAT_HISTORY, MSG_NO_CHAT)
    ensures && chatId != "" && env.isValidId(chatId) && HasId(store, chatId)
            && PartyCheckThrows(caller, store[FindById(store, chatId).value].chat, env) ==>
      RejectedWith(o, store, GET_CHAT_HISTORY, MSG_HISTORY_FAILED)
    ensures && chatId != "" && env.isValidId(chatId) && HasId(store, chatId)
            && !PartyCheckThrows(caller, store[FindById(store, chatId).value].chat, env)
            && !IsParty(caller, store[FindById(store, chatId).value].chat) ==>
      RejectedWith(o, store, GET_CHAT_HISTORY, MSG_CANNOT_VIEW)
    ensures HistoryAllowed(store, caller, chatId, env) ==>
      var d := store[FindById(store, chatId).value];
      o.effects == [
        Join(ChatRoom(chatId)),
        Emit(ToCaller, CHAT_HISTORY, HistoryReply(d.id, d.chat.user, d.chat.organizer,
          d.chat.messages, d.chat.isActive, d.chat.lastActivity))]
  {
    if chatId == "" || !env.isValidId(chatId) then
      Fail(store, GET_CHAT_HISTORY, MSG_VALID_ID_REQUIRED, env)
    else match FindById(store, chatId)
      case None => Fail(store, GET_CHAT_HISTORY, MSG_NO_CHAT, env)
      case Some(i) =>
        var d := store[i];
        if PartyCheckThrows(caller, d.chat, env) then
          Fail(store, GET_CHAT_HISTORY, MSG_HISTORY_FAILED, env)
        else if caller.id != d.chat.user && caller.id != d.chat.organizer then
          Fail(store, GET_CHAT_HISTORY, MSG_CANNOT_VIEW, env)
        else
          Outcome(store, [
            Join(ChatRoom(chatId)),
            Emit(ToCaller, CHAT_HISTORY, HistoryReply(d.id, d.chat.user, d.chat.organizer,
              d.chat.messages, d.chat.isActive, d.chat.lastActivity))])
  }

  // ---------------------------------------------------------------- GET_ALL_CHATS

  function HandleGetAllChats(store: Store, caller: Caller, env: Env): (o: Outcome)
    ensures o.store == store
    ensures caller.role != ROLE_ORGANIZER ==>
      RejectedWith(o, store, GET_ALL_CHATS, MSG_ORGANIZERS_ONLY)
    ensures caller.role == ROLE_ORGANIZER && !env.isValidId(caller.id) ==>
      RejectedWith(o, store, GET_ALL_CHATS, MSG_FETCH_FAILED)
    ensures caller.role == ROLE_ORGANIZER && env.isValidId(caller.id) ==>
      && |o.effects| == 1
      && o.effects[0].Emit? && o.effects[0].target == ToCaller
      && o.effects[0].event == ALL_CHATS_LIST
      && o.effects[0].payload.ChatsList?
      && (forall d :: multiset(o.effects[0].payload.chats)[d] ==
            if ListedFor(d, caller.id) then multiset(store)[d] else 0)
      && (forall d :: d in o.effects[0].payload.chats <==> d in store && ListedFor(d, caller.id))
      && Sorting.SortedBy(ListsBefore, o.effects[0].payload.chats)
      && o.effects[0].payload.total == |o.effects[0].payload.chats|
  {
    if caller.role != ROLE_ORGANIZER then Fail(store, GET_ALL_CHATS, MSG_ORGANIZERS_ONLY, env)
    else if !env.isValidId(caller.id) then
      // the organizer id is cast to an ObjectId by the query and the cast throws
      Fail(store, GET_ALL_CHATS, MSG_FETCH_FAILED, env, Some(DriverError))
    else
      ListOrderIsPreorder();
      var found := ActiveChatsOf(store, caller.id);
      var chats := Sorting.Sort(ListsBefore, found);
      assert forall d :: d in chats <==> d in found by {
        forall d ensures d in chats <==> d in found {
          assert d in chats <==> d in multiset(chats);
          assert d in found <==> d in multiset(found);
        }
      }
      Outcome(store, [Emit(ToCaller, ALL_CHATS_LIST, ChatsList(chats, |chats|))])
  }

  // ---------------------------------------------------------------- DELETE_CHAT

  /** Every guard of DELETE_CHAT passes: an organizer deleting a chat they own. */
  predicate DeleteAllowed(store: Store, caller: Caller, chatId: string, env: Env) {
    && chatId != "" && env.isValidId(chatId)
    && FindById(store, chatId).Some?
    && caller.role == ROLE_ORGANIZER
    && caller.id == store[FindById(store, chatId).value].chat.organizer
  }

  function HandleDeleteChat(store: Store, caller: Caller, chatId: string, env: Env): (o: Outcome)
    ensures chatId == "" || !env.isValidId(chatId) ==>
      RejectedWith(o, store, DELETE_CHAT, MSG_VALID_ID_REQUIRED)
    ensures chatId != "" && env.isValidId(chatId) && !HasId(store, chatId) ==>
      RejectedWith(o, store, DELETE_CHAT, MSG_NO_CHAT)
    ensures && chatId != "" && env.isValidId(chatId) && HasId(store, chatId)
            && !DeleteAllowed(store, caller, chatId, env) ==>
      RejectedWith(o, store, DELETE_CHAT, MSG_NOT_OWNER)
    ensures DeleteAllowed(store, caller, chatId, env) ==>
      var i := FindById(store, chatId).value;
      var chat := store[i].chat;
      && OnlyRecordChanged(store, o.store, i, ChatDoc(store[i].id,
           chat.(isActive := false, lastActivity := env.now, updatedAt := env.now)))
      && o.effects == [
           Ack(DELETE_CHAT, MSG_DELETED, env, DeletedData(store[i].id, env.now)),
           Emit(ToRoom(chat.user), CHAT_DELETED, DeletedNotice(store[i].id, env.now)),
           Emit(ToRoom(chat.organizer), CHAT_DELETED, DeletedNotice(store[i].id, env.now))]
  {
    if chatId == "" || !env.isValidId(chatId) then
      Fail(store, DELETE_CHAT, MSG_VALID_ID_REQUIRED, env)
    else match FindById(store, chatId)
      case None => Fail(store, DELETE_CHAT, MSG_NO_CHAT, env)
      case Some(i) =>
        var d := store[i];
        if caller.role != ROLE_ORGANIZER || caller.id != d.chat.organizer then
          Fail(store, DELETE_CHAT, MSG_NOT_OWNER, env)
        else
          var chat' := d.chat.(isActive := false, lastActivity := env.now, updatedAt := env.now);
          Outcome(store[i := ChatDoc(d.id, chat')], [
            Ack(DELETE_CHAT, MSG_DELETED, env, DeletedData(d.id, env.now)),
            Emit(ToRoom(d.chat.user), CHAT_DELETED, DeletedNotice(d.id, env.now)),
            Emit(ToRoom(d.chat.organizer), CHAT_DELETED, DeletedNotice(d.id, env.now))])
  }

  // ---------------------------------------------------------------- the step function

  /**
   * Record ids, parties and message logs only grow: every earlier record keeps its
   * id and parties, and its messages are a prefix of its new messages.
   */
  ghost predicate AppendOnly(store: Store, store': Store) {
    && |store| <= |store'|
    && forall i :: 0 <= i < |store| ==>
         && store'[i].id == store[i].id
         && store'[i].chat.user == store[i].chat.user
         && store'[i].chat.organizer == store[i].chat.organizer
         && store[i].chat.messages <= store'[i].chat.messages
  }

  function Step(store: Store, caller: Caller, req: Request, env: Env): (o: Outcome)
    ensures IsErrorReply(o) ==> o.store == store
    ensures AppendOnly(store, o.store)
    ensures |o.store| <= |store| + 1
    ensures !req.StartChat? ==> |o.store| == |store|
    ensures req.GetChatHistory? || req.GetAllChats? ==> o.store == store
  {
    match req
    case StartChat(u, org, text) =>
      StartChatIsStep(store, caller, u, org, text, env);
      HandleStartChat(store, caller, u, org, text, env)
    case SendMessage(id, text) =>
      SendMessageIsStep(store, caller, id, text, env);
      HandleSendMessage(store, caller, id, text, env)
    case GetChatHistory(id) => HandleGetChatHistory(store, caller, id, env)
    case GetAllChats => HandleGetAllChats(store, caller, env)
    case DeleteChat(id) =>
      DeleteChatIsStep(store, caller, id, env);
      HandleDeleteChat(store, caller, id, env)
  }

  /** A handler outcome that leaves the store alone on error and only appends otherwise. */
  ghost predicate StepShaped(store: Store, o: Outcome, extra: nat) {
    && (IsErrorReply(o) ==> o.store == store)
    && AppendOnly(store, o.store)
    && |store| <= |o.store| <= |store| + extra
  }

  lemma StartChatIsStep(store: Store, caller: Caller, u: string, org: string, text: string, env: Env)
    ensures StepShaped(store, HandleStartChat(store, caller, u, org, text, env), 1)
  {
  }

  lemma SendMessageIsStep(store: Store, caller: Caller, id: string, text: string, env: Env)
    ensures StepShaped(store, HandleSendMessage(store, caller, id, text, env), 0)
  {
  }

  lemma DeleteChatIsStep(store: Store, caller: Caller, id: string, env: Env)
    ensures StepShaped(store, HandleDeleteChat(store, caller, id, env), 0)
    ensures var o := HandleDeleteChat(store, caller, id, env);
      |o.store| == |store| &&
      forall i :: 0 <= i < |store| ==> o.store[i].chat.messages == store[i].chat.messages
  {
  }
}
