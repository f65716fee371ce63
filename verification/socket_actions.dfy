/**
 * The client's socket helpers: emit helpers that send one named event each, and
 * a registry of eight listener slots on top of an event emitter whose `on`, `off`
 * and `emit` are modelled abstractly (a multiset of registrations and a log of
 * emitted events).
 *
 * Client event names are camelCase and are kept apart from the server's
 * snake_case names: nothing here assumes a client emit reaches a server handler.
 */
module SocketActions {
  import opened Wrappers
  import ChatProtocol

  // ------------------------------------------------------------ client event names

  const START_CHAT := "startChat"
  const SEND_MESSAGE := "sendMessage"
  const GET_CHAT_HISTORY := "getChatHistory"
  const GET_ALL_CHATS := "getAllChats"
  const DELETE_CHAT := "deleteChat"
  const NEW_CHAT := "newChat"
  const NEW_MESSAGE := "newMessage"
  const CHAT_HISTORY := "chatHistory"
  const ALL_CHATS_LIST := "allChatsList"
  const CHAT_DELETED := "chatDeleted"
  const ERROR := "chatError"
  const SUCCESS := "chatSuccess"

  const ClientEvents: set<string> := {
    START_CHAT, SEND_MESSAGE, GET_CHAT_HISTORY, GET_ALL_CHATS, DELETE_CHAT,
    NEW_CHAT, NEW_MESSAGE, CHAT_HISTORY, ALL_CHATS_LIST, CHAT_DELETED, ERROR, SUCCESS}

  const DEFAULT_GREETING := "Hello! I'd like to inquire about your events."

  /** No client event name is also a server event name. */
  lemma ClientAndServerNamesDisjoint()
    ensures ClientEvents * ChatProtocol.ServerEvents == {}
  {
    // every client name is camelCase and every server name holds an underscore
    ClientNamesAreCamelCase();
    ServerNamesAreSnakeCase();
  }

  lemma ClientNamesAreCamelCase()
    ensures forall e :: e in ClientEvents ==> '_' !in e
  {
  }

  lemma ServerNamesAreSnakeCase()
    ensures forall f :: f in ChatProtocol.ServerEvents ==> '_' in f
  {
    forall f | f in ChatProtocol.ServerEvents
      ensures '_' in f
    {
    }
  }

  // ------------------------------------------------------------ the emitter

  /** The data objects the helpers send. */
  datatype ClientData =
    | StartChatData(userId: string, organizerId: string, initialMessage: string)
    | SendMessageData(chatId: string, text: string)
    | ChatIdData(chatId: string)

  datatype Emission = Emission(event: string, data: Option<ClientData>)

  /** A listener: a screen's callback (by identity), or the start-chat filter wrapped around one. */
  datatype Handler = Callback(id: nat) | StartChatFilter(inner: nat)

  datatype Registration = Registration(event: string, handler: Handler)

  /** The eight module-level callback variables. */
  datatype Slot =
    | StartChatSuccessSlot | NewChatSlot | NewMessageSlot | ChatHistorySlot
    | AllChatsListSlot | ChatDeletedSlot | ErrorSlot | SuccessSlot

  const AllSlots: seq<Slot> := [
    StartChatSuccessSlot, NewChatSlot, NewMessageSlot, ChatHistorySlot,
    AllChatsListSlot, ChatDeletedSlot, ErrorSlot, SuccessSlot]

  /** `AllSlots` names every slot once. */
  lemma AllSlotsComplete()
    ensures forall s: Slot :: s in AllSlots
    ensures forall i, j :: 0 <= i < j < |AllSlots| ==> AllSlots[i] != AllSlots[j]
  {
    forall s: Slot
      ensures s in AllSlots
    {
      var i := match s
        case StartChatSuccessSlot => 0 case NewChatSlot => 1 case NewMessageSlot => 2
        case ChatHistorySlot => 3 case AllChatsListSlot => 4 case ChatDeletedSlot => 5
        case ErrorSlot => 6 case SuccessSlot => 7;
      assert AllSlots[i] == s;
    }
  }

  /**
   * The slots (a slot absent from the map holds `null`), the emitter's registrations,
   * and every event emitted so far.
   */
  datatype Registry = Registry(slots: map<Slot, nat>, registrations: multiset<Registration>, sent: seq<Emission>)

  const EmptyRegistry := Registry(map[], multiset{}, [])

  /** The event a slot's listener is registered on. */
  function EventOf(slot: Slot): (e: string)
    ensures e in ClientEvents
  {
    match slot
    case StartChatSuccessSlot => SUCCESS
    case NewChatSlot => NEW_CHAT
    case NewMessageSlot => NEW_MESSAGE
    case ChatHistorySlot => CHAT_HISTORY
    case AllChatsListSlot => ALL_CHATS_LIST
    case ChatDeletedSlot => CHAT_DELETED
    case ErrorSlot => ERROR
    case SuccessSlot => SUCCESS
  }

  /** What `listenTo…` hands to the emitter for callback `cb` in `slot`. */
  function RegistrationOf(slot: Slot, cb: nat): Registration {
    if slot == StartChatSuccessSlot then Registration(SUCCESS, StartChatFilter(cb))
    else Registration(EventOf(slot), Callback(cb))
  }

  /** Different slots never produce the same registration. */
  lemma RegistrationOfInjective(s: Slot, t: Slot, a: nat, b: nat)
    ensures RegistrationOf(s, a) == RegistrationOf(t, b) ==> s == t && a == b
  {
  }

  function On(r: Registry, event: string, h: Handler): (r': Registry)
    ensures r'.registrations == r.registrations + multiset{Registration(event, h)}
    ensures r'.slots == r.slots && r'.sent == r.sent
  {
    r.(registrations := r.registrations + multiset{Registration(event, h)})
  }

  /** Removes one registration of `h` on `event`, when there is one. */
  function Off(r: Registry, event: string, h: Handler): (r': Registry)
    ensures Registration(event, h) in r.registrations ==>
      r'.registrations + multiset{Registration(event, h)} == r.registrations
    ensures Registration(event, h) !in r.registrations ==> r'.registrations == r.registrations
    ensures r'.slots == r.slots && r'.sent == r.sent
  {
    r.(registrations := r.registrations - multiset{Registration(event, h)})
  }

  /** `r'` is `r` after exactly one emission of `event` carrying `data`, and nothing else changed. */
  predicate EmittedOnce(r: Registry, r': Registry, event: string, data: Option<ClientData>) {
    && |r'.sent| == |r.sent| + 1
    && r'.sent[..|r.sent|] == r.sent
    && r'.sent[|r.sent|] == Emission(event, data)
    && r'.slots == r.slots && r'.registrations == r.registrations
  }

  function Emit(r: Registry, event: string, data: Option<ClientData>): (r': Registry)
    ensures EmittedOnce(r, r', event, data)
  {
    r.(sent := r.sent + [Emission(event, data)])
  }

  // ------------------------------------------------------------ emit helpers

  function StartChat(r: Registry, data: ClientData): (r': Registry)
    ensures EmittedOnce(r, r', START_CHAT, Some(data))
  {
    Emit(r, START_CHAT, Some(data))
  }

  function SendMessage(r: Registry, data: ClientData): (r': Registry)
    ensures EmittedOnce(r, r', SEND_MESSAGE, Some(data))
  {
    Emit(r, SEND_MESSAGE, Some(data))
  }

  function GetChatHistory(r: Registry, data: ClientData): (r': Registry)
    ensures EmittedOnce(r, r', GET_CHAT_HISTORY, Some(data))
  {
    Emit(r, GET_CHAT_HISTORY, Some(data))
  }

  /** Emitted without a data object. */
  function GetAllChats(r: Registry): (r': Registry)
    ensures EmittedOnce(r, r', GET_ALL_CHATS, None)
  {
    Emit(r, GET_ALL_CHATS, None)
  }

  function DeleteChat(r: Registry, data: ClientData): (r': Registry)
    ensures EmittedOnce(r, r', DELETE_CHAT, Some(data))
  {
    Emit(r, DELETE_CHAT, Some(data))
  }

  /** START_CHAT with the default greeting standing in for an empty opening message. */
  function StartNewChat(r: Registry, userId: string, organizerId: string, initialMessage: string): (r': Registry)
    ensures initialMessage != "" ==>
      EmittedOnce(r, r', START_CHAT, Some(StartChatData(userId, organizerId, initialMessage)))
    ensures initialMessage == "" ==>
      EmittedOnce(r, r', START_CHAT, Some(StartChatData(userId, organizerId, DEFAULT_GREETING)))
  {
    StartChat(r, StartChatData(userId, organizerId,
      if initialMessage != "" then initialMessage else DEFAULT_GREETING))
  }

  /** The client's default greeting is the same text the server seeds a chat with. */
  lemma ClientGreetingMatchesServer()
    ensures DEFAULT_GREETING == ChatProtocol.DEFAULT_GREETING
  {
  }

  function SendChatMessage(r: Registry, chatId: string, text: string): (r': Registry)
    ensures EmittedOnce(r, r', SEND_MESSAGE, Some(SendMessageData(chatId, text)))
  {
    SendMessage(r, SendMessageData(chatId, text))
  }

  function FetchChatHistory(r: Registry, chatId: string): (r': Registry)
    ensures EmittedOnce(r, r', GET_CHAT_HISTORY, Some(ChatIdData(chatId)))
  {
    GetChatHistory(r, ChatIdData(chatId))
  }

  function DeleteChatById(r: Registry, chatId: string): (r': Registry)
    ensures EmittedOnce(r, r', DELETE_CHAT, Some(ChatIdData(chatId)))
  {
    DeleteChat(r, ChatIdData(chatId))
  }

  // ------------------------------------------------------------ listener slots

  /** `listenTo…`: store the callback in its slot and register the slot's listener. */
  function Listen(r: Registry, slot: Slot, cb: nat): (r': Registry)
    ensures r'.slots == r.slots[slot := cb]
    ensures r'.registrations == r.registrations + multiset{RegistrationOf(slot, cb)}
    ensures slot != StartChatSuccessSlot ==> Registration(EventOf(slot), Callback(cb)) in r'.registrations
    ensures r'.sent == r.sent
  {
    var r1 := r.(slots := r.slots[slot := cb]);
    if slot == StartChatSuccessSlot then On(r1, SUCCESS, StartChatFilter(cb))
    else On(r1, EventOf(slot), Callback(cb))
  }

  /** `remove…Listener`: nothing when the slot is empty, else deregister the stored callback and empty the slot. */
  function Remove(r: Registry, slot: Slot): (r': Registry)
    ensures slot !in r.slots ==> r' == r
    ensures slot in r.slots ==>
      && r'.slots == r.slots - {slot}
      && r'.registrations == r.registrations - multiset{Registration(EventOf(slot), Callback(r.slots[slot]))}
    ensures slot !in r'.slots
    ensures r'.sent == r.sent
  {
    if slot !in r.slots then r
    else Off(r, EventOf(slot), Callback(r.slots[slot])).(slots := r.slots - {slot})
  }

  /** What removing the slots of `order` hands to `off`: the bare stored callback of each filled slot. */
  function BareRegistrations(slots: map<Slot, nat>, order: seq<Slot>): multiset<Registration>
    decreases |order|
  {
    if order == [] then multiset{}
    else
      (if order[0] in slots then multiset{Registration(EventOf(order[0]), Callback(slots[order[0]]))} else multiset{})
      + BareRegistrations(slots, order[1..])
  }

  /** Emptying a slot that `order` does not name changes nothing that the removal of `order` hands over. */
  lemma {:induction false} BareRegistrationsIgnoreOtherSlots(slots: map<Slot, nat>, order: seq<Slot>, s: Slot)
    requires s !in order
    ensures BareRegistrations(slots - {s}, order) == BareRegistrations(slots, order)
    decreases |order|
  {
    if order != [] {
      BareRegistrationsIgnoreOtherSlots(slots, order[1..], s);
    }
  }

  /** Removal never hands over a start-chat wrapper, only bare callbacks. */
  lemma {:induction false} BareRegistrationsHoldNoWrapper(slots: map<Slot, nat>, order: seq<Slot>, cb: nat)
    ensures BareRegistrations(slots, order)[Registration(SUCCESS, StartChatFilter(cb))] == 0
    decreases |order|
  {
    if order != [] {
      BareRegistrationsHoldNoWrapper(slots, order[1..], cb);
    }
  }

  /** Removing slots one after another, in the given order. */
  function RemoveEach(r: Registry, order: seq<Slot>): (r': Registry)
    ensures forall s :: s in r'.slots <==> s in r.slots && s !in order
    ensures forall s :: s in r'.slots ==> r'.slots[s] == r.slots[s]
    ensures r'.registrations <= r.registrations
    ensures r'.sent == r.sent
    decreases |order|
  {
    if order == [] then r
    else RemoveEach(Remove(r, order[0]), order[1..])
  }

  /** Removing the distinct slots of `order` unregisters each filled slot's bare callback once, and nothing else. */
  lemma {:induction false} RemoveEachUnregisters(r: Registry, order: seq<Slot>)
    requires forall i, j :: 0 <= i < j < |order| ==> order[i] != order[j]
    ensures RemoveEach(r, order).registrations == r.registrations - BareRegistrations(r.slots, order)
    decreases |order|
  {
    if order != [] {
      var r1 := Remove(r, order[0]);
      var head := if order[0] in r.slots then multiset{Registration(EventOf(order[0]), Callback(r.slots[order[0]]))}
                  else multiset{};
      var rest := BareRegistrations(r.slots, order[1..]);
      assert r1.registrations == r.registrations - head;
      assert r1.slots == r.slots - {order[0]};
      assert order[0] !in order[1..];
      BareRegistrationsIgnoreOtherSlots(r.slots, order[1..], order[0]);
      RemoveEachUnregisters(r1, order[1..]);
      SubtractInTurn(r.registrations, head, rest);
    }
  }

  /** Taking away `a` and then `b` takes away `a + b`. */
  lemma SubtractInTurn<T>(m: multiset<T>, a: multiset<T>, b: multiset<T>)
    ensures (m - a) - b == m - (a + b)
  {
    forall x ensures ((m - a) - b)[x] == (m - (a + b))[x] {
    }
  }

  /**
   * `removeAllChatListeners` empties every slot and emits nothing. It unregisters
   * each stored callback as a bare listener, so a start-chat wrapper stays registered.
   */
  function RemoveAllChatListeners(r: Registry): (r': Registry)
    ensures r'.slots == map[]
    ensures r'.registrations == r.registrations - BareRegistrations(r.slots, AllSlots)
    ensures r'.registrations <= r.registrations
    ensures forall cb :: r'.registrations[Registration(SUCCESS, StartChatFilter(cb))]
                          == r.registrations[Registration(SUCCESS, StartChatFilter(cb))]
    ensures r'.sent == r.sent
  {
    AllSlotsComplete();
    var r' := RemoveEach(r, AllSlots);
    RemoveEachUnregisters(r, AllSlots);
    forall cb: nat
      ensures r'.registrations[Registration(SUCCESS, StartChatFilter(cb))]
           == r.registrations[Registration(SUCCESS, StartChatFilter(cb))]
    {
      BareRegistrationsHoldNoWrapper(r.slots, AllSlots, cb);
    }
    r'
  }

  /**
   * The start-chat listener registers a wrapper, but removal deregisters the bare
   * callback: after listening and removing, the wrapper is still registered.
   */
  lemma StartChatWrapperOutlivesRemoval(r: Registry, cb: nat)
    ensures var after := Remove(Listen(r, StartChatSuccessSlot, cb), StartChatSuccessSlot);
      && StartChatSuccessSlot !in after.slots
      && after.registrations[Registration(SUCCESS, StartChatFilter(cb))]
         == r.registrations[Registration(SUCCESS, StartChatFilter(cb))] + 1
  {
  }

  /** Every other slot removes exactly what listening added. */
  lemma ListenThenRemoveRestores(r: Registry, slot: Slot, cb: nat)
    requires slot != StartChatSuccessSlot
    ensures Remove(Listen(r, slot, cb), slot).registrations == r.registrations
  {
    var l := Listen(r, slot, cb);
    assert l.slots[slot] == cb;
  }

  /** A server response as a success listener sees it: its `event` tag. */
  function Forwarded(h: Handler, responseEvent: string): (cb: Option<nat>)
    ensures h.Callback? ==> cb == Some(h.id)
    ensures h.StartChatFilter? ==> (cb.Some? <==> responseEvent == START_CHAT)
    ensures cb.Some? && h.StartChatFilter? ==> cb.value == h.inner
  {
    match h
    case Callback(id) => Some(id)
    case StartChatFilter(inner) => if responseEvent == START_CHAT then Some(inner) else None
  }

  /** The server tags its start-chat acknowledgement "start_chat", which the client filter never forwards. */
  lemma ServerStartAckNeverForwarded(cb: nat)
    ensures Forwarded(StartChatFilter(cb), ChatProtocol.START_CHAT) == None
  {
  }

  // ------------------------------------------------------------ setupChatListeners

  /** The optional callbacks of `setupChatListeners`, one per slot. */
  datatype Callbacks = Callbacks(
    onStartChatSuccess: Option<nat>, onNewChat: Option<nat>, onNewMessage: Option<nat>,
    onChatHistory: Option<nat>, onAllChatsList: Option<nat>, onChatDeleted: Option<nat>,
    onError: Option<nat>, onSuccess: Option<nat>)

  function Provided(cbs: Callbacks, slot: Slot): Option<nat> {
    match slot
    case StartChatSuccessSlot => cbs.onStartChatSuccess
    case NewChatSlot => cbs.onNewChat
    case NewMessageSlot => cbs.onNewMessage
    case ChatHistorySlot => cbs.onChatHistory
    case AllChatsListSlot => cbs.onAllChatsList
    case ChatDeletedSlot => cbs.onChatDeleted
    case ErrorSlot => cbs.onError
    case SuccessSlot => cbs.onSuccess
  }

  /** The registrations the provided callbacks of `order` account for. */
  function ProvidedRegistrations(cbs: Callbacks, order: seq<Slot>): multiset<Registration>
    decreases |order|
  {
    if order == [] then multiset{}
    else
      (match Provided(cbs, order[0])
       case None => multiset{}
       case Some(cb) => multiset{RegistrationOf(order[0], cb)})
      + ProvidedRegistrations(cbs, order[1..])
  }

  /** Listening on each provided slot of `order`, in that order. */
  function ListenEach(r: Registry, cbs: Callbacks, order: seq<Slot>): (r': Registry)
    requires forall i, j :: 0 <= i < j < |order| ==> order[i] != order[j]
    ensures forall s :: s in r'.slots <==> s in r.slots || (s in order && Provided(cbs, s).Some?)
    ensures forall s :: s in r'.slots ==>
      r'.slots[s] == if s in order && Provided(cbs, s).Some? then Provided(cbs, s).value else r.slots[s]
    ensures r'.registrations == r.registrations + ProvidedRegistrations(cbs, order)
    ensures r'.sent == r.sent
    decreases |order|
  {
    if order == [] then r
    else
      var r1 := match Provided(cbs, order[0])
        case None => r
        case Some(cb) => Listen(r, order[0], cb);
      ListenEach(r1, cbs, order[1..])
  }

  /** `setupChatListeners`: every provided callback ends up in its slot, and nothing is emitted. */
  function SetupChatListeners(r: Registry, cbs: Callbacks): (r': Registry)
    ensures forall s :: Provided(cbs, s).Some? ==> s in r'.slots && r'.slots[s] == Provided(cbs, s).value
    ensures forall s :: Provided(cbs, s).None? ==> (s in r'.slots <==> s in r.slots)
    ensures forall s :: Provided(cbs, s).None? && s in r.slots ==> r'.slots[s] == r.slots[s]
    ensures r'.registrations == r.registrations + ProvidedRegistrations(cbs, AllSlots)
    ensures r'.sent == r.sent
  {
    AllSlotsComplete();
    ListenEach(r, cbs, AllSlots)
  }

  /** Counting the registrations of one slot's callback among those of a duplicate-free order. */
  lemma {:induction false} ProvidedRegistrationsCount(cbs: Callbacks, order: seq<Slot>, s: Slot, cb: nat)
    requires forall i, j :: 0 <= i < j < |order| ==> order[i] != order[j]
    ensures ProvidedRegistrations(cbs, order)[RegistrationOf(s, cb)] ==
      if s in order && Provided(cbs, s) == Some(cb) then 1 else 0
    decreases |order|
  {
    if order != [] {
      ProvidedRegistrationsCount(cbs, order[1..], s, cb);
      assert s in order[1..] <==> s in order && s != order[0];
      match Provided(cbs, order[0])
      case None =>
      case Some(c) =>
        RegistrationOfInjective(order[0], s, c, cb);
    }
  }

  /**
   * `setupChatListeners` adds exactly one registration for each provided callback
   * and none for a callback that was not provided.
   */
  lemma SetupRegistersExactlyProvided(r: Registry, cbs: Callbacks, s: Slot, cb: nat)
    ensures SetupChatListeners(r, cbs).registrations[RegistrationOf(s, cb)] ==
      r.registrations[RegistrationOf(s, cb)] + (if Provided(cbs, s) == Some(cb) then 1 else 0)
  {
    assert s in AllSlots;
    ProvidedRegistrationsCount(cbs, AllSlots, s, cb);
  }
}
