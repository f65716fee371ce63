/**
 * The client's conversation screen as a state machine: the mount decision
 * (start a chat or fetch its history), the four socket callbacks, sending with an
 * optimistic copy, and cleanup. The socket helpers' registry is part of the
 * screen state, so every emit and every listener change is visible.
 */
module ChatView {
  import opened Wrappers
  import opened Text
  import Sorting
  import ChatProtocol
  import SA = SocketActions

  /** A message as the screen holds it; `id` is the optional `_id` field. */
  datatype ViewMessage = ViewMessage(id: Option<string>, sender: string, text: string, sentAt: int)

  /** Route parameters: the other party, the chat id (empty for none) and the current user. */
  datatype Params = Params(participantId: string, chatId: string, currentUserId: string)

  /** The screen's state; `pending` is the optimistic-message reference, `currentChatId` "" for null. */
  datatype Screen = Screen(
    messages: seq<ViewMessage>,
    messageText: string,
    currentChatId: string,
    isConnected: bool,
    isLoading: bool,
    pending: Option<string>,
    registry: SA.Registry)

  const OPENING_REQUEST := "Hello, I need help with my booking"
  const SENDER_USER := "USER"
  const SENDER_ORGANIZER := "ORGANIZER"

  // identities of the screen's four memoized callbacks
  const ON_START_CHAT_SUCCESS: nat := 1
  const ON_CHAT_HISTORY: nat := 2
  const ON_NEW_MESSAGE: nat := 3
  const ON_ERROR: nat := 4

  /** The state before mount: no messages, loading, the chat id from the route. */
  function Initial(params: Params, registry: SA.Registry): (s: Screen)
    ensures s.messages == [] && s.isLoading && !s.isConnected && s.pending.None?
    ensures s.currentChatId == params.chatId && s.registry == registry
  {
    Screen([], "", params.chatId, false, true, None, registry)
  }

  /** Ordering by sending time, as the screen's sort comparator. */
  predicate SentNoLater(a: ViewMessage, b: ViewMessage) {
    a.sentAt <= b.sentAt
  }

  lemma SentNoLaterIsPreorder()
    ensures Sorting.TotalPreorder(SentNoLater)
  {
  }

  function ByTime(ms: seq<ViewMessage>): (r: seq<ViewMessage>)
    ensures Sorting.SortedBy(SentNoLater, r)
    ensures multiset(r) == multiset(ms)
  {
    SentNoLaterIsPreorder();
    Sorting.Sort(SentNoLater, ms)
  }

  // ------------------------------------------------------------ mount and cleanup

  /** The four listeners the screen registers. */
  function ListenAll(r: SA.Registry): (r': SA.Registry)
    ensures r'.slots == r.slots[SA.StartChatSuccessSlot := ON_START_CHAT_SUCCESS]
                              [SA.ChatHistorySlot := ON_CHAT_HISTORY]
                              [SA.NewMessageSlot := ON_NEW_MESSAGE]
                              [SA.ErrorSlot := ON_ERROR]
    ensures r'.sent == r.sent
  {
    var r1 := SA.Listen(r, SA.StartChatSuccessSlot, ON_START_CHAT_SUCCESS);
    var r2 := SA.Listen(r1, SA.ChatHistorySlot, ON_CHAT_HISTORY);
    var r3 := SA.Listen(r2, SA.NewMessageSlot, ON_NEW_MESSAGE);
    SA.Listen(r3, SA.ErrorSlot, ON_ERROR)
  }

  /** The mount effect: without both parties it only stops loading; otherwise it listens and sends one request. */
  function Mount(s: Screen, params: Params): (s': Screen)
    ensures params.participantId == "" || params.currentUserId == "" ==>
      s' == s.(isLoading := false)
    ensures params.participantId != "" && params.currentUserId != "" ==>
      && s'.isConnected
      && s'.registry.slots == ListenAll(s.registry).slots
      && s'.messages == s.messages && s'.pending == s.pending
      && (params.chatId == "" ==>
            SA.EmittedOnce(ListenAll(s.registry), s'.registry, SA.START_CHAT,
              Some(SA.StartChatData(params.currentUserId, params.participantId, OPENING_REQUEST))))
      && (params.chatId != "" ==>
            SA.EmittedOnce(ListenAll(s.registry), s'.registry, SA.GET_CHAT_HISTORY,
              Some(SA.ChatIdData(params.chatId))))
  {
    if params.participantId == "" || params.currentUserId == "" then s.(isLoading := false)
    else
      var r := ListenAll(s.registry);
      var r' := if params.chatId == "" then
          SA.StartChat(r, SA.StartChatData(params.currentUserId, params.participantId, OPENING_REQUEST))
        else SA.GetChatHistory(r, SA.ChatIdData(params.chatId));
      s.(isConnected := true, registry := r')
  }

  /** Mounting sends at most one request, and exactly one when both parties are known. */
  lemma MountSendsOneRequest(s: Screen, params: Params)
    ensures |Mount(s, params).registry.sent| ==
      |s.registry.sent| + (if params.participantId != "" && params.currentUserId != "" then 1 else 0)
  {
  }

  /** Unmount: every listener slot is emptied and the pending id is forgotten; nothing is rolled back. */
  function Cleanup(s: Screen): (s': Screen)
    ensures s'.registry.slots == map[] && s'.registry.sent == s.registry.sent
    ensures s'.registry.registrations == s.registry.registrations - SA.BareRegistrations(s.registry.slots, SA.AllSlots)
    ensures s'.registry.registrations <= s.registry.registrations
    ensures forall cb :: s'.registry.registrations[SA.Registration(SA.SUCCESS, SA.StartChatFilter(cb))]
                          == s.registry.registrations[SA.Registration(SA.SUCCESS, SA.StartChatFilter(cb))]
    ensures s'.pending.None? && s'.messages == s.messages
  {
    s.(registry := SA.RemoveAllChatListeners(s.registry), pending := None)
  }

  // ------------------------------------------------------------ callbacks

  /** The `data` of a start-chat success response: a chat id ("" when absent) and its messages. */
  datatype StartData = StartData(chatId: string, messages: seq<ViewMessage>)

  /** A response delivered on the success channel. */
  datatype SuccessResponse = SuccessResponse(success: bool, event: string, data: Option<StartData>)

  function HandleStartChatSuccess(s: Screen, resp: SuccessResponse): (s': Screen)
    ensures !resp.success || resp.event != SA.START_CHAT ==> s' == s
    ensures resp.success && resp.event == SA.START_CHAT ==>
      && !s'.isLoading && s'.pending == s.pending && s'.registry == s.registry
      && (resp.data.None? || resp.data.value.chatId == "" ==>
            s'.currentChatId == s.currentChatId && s'.messages == s.messages)
      && (resp.data.Some? && resp.data.value.chatId != "" ==>
            && s'.currentChatId == resp.data.value.chatId
            && (resp.data.value.messages == [] ==> s'.messages == s.messages)
            && (resp.data.value.messages != [] ==>
                  && Sorting.SortedBy(SentNoLater, s'.messages)
                  && multiset(s'.messages) == multiset(resp.data.value.messages)))
  {
    if !resp.success || resp.event != SA.START_CHAT then s
    else match resp.data
      case None => s.(isLoading := false)
      case Some(d) =>
        if d.chatId == "" then s.(isLoading := false)
        else if d.messages != [] then
          s.(currentChatId := d.chatId, messages := ByTime(d.messages), isLoading := false)
        else s.(currentChatId := d.chatId, isLoading := false)
  }

  /** The chat-history callback; a missing `messages` field is the empty list. */
  function HandleChatHistory(s: Screen, messages: seq<ViewMessage>): (s': Screen)
    ensures !s'.isLoading
    ensures messages == [] ==> s'.messages == s.messages
    ensures messages != [] ==>
      Sorting.SortedBy(SentNoLater, s'.messages) && multiset(s'.messages) == multiset(messages)
    ensures s'.currentChatId == s.currentChatId && s'.pending == s.pending && s'.registry == s.registry
  {
    if messages != [] then s.(messages := ByTime(messages), isLoading := false)
    else s.(isLoading := false)
  }

  /** The message echoes the optimistic copy when its `_id` equals the pending id. */
  predicate Echoes(pending: Option<string>, msg: ViewMessage) {
    pending.Some? && pending.value != "" && msg.id == Some(pending.value)
  }

  /** The new-message callback: drop a missing message, swallow the echo once, else append. */
  function HandleNewMessage(s: Screen, msg: Option<ViewMessage>): (s': Screen)
    ensures msg.None? ==> s' == s
    ensures msg.Some? && Echoes(s.pending, msg.value) ==> s' == s.(pending := None)
    ensures msg.Some? && !Echoes(s.pending, msg.value) ==>
      s' == s.(messages := s.messages + [msg.value])
  {
    match msg
    case None => s
    case Some(m) =>
      if Echoes(s.pending, m) then s.(pending := None)
      else s.(messages := s.messages + [m])
  }

  /** The error callback only stops loading: the optimistic copy stays. */
  function HandleError(s: Screen): (s': Screen)
    ensures !s'.isLoading
    ensures s'.messages == s.messages && s'.pending == s.pending && s'.registry == s.registry
  {
    s.(isLoading := false)
  }

  /** Sending: nothing unless there is non-blank text, a chat id and a connection. */
  predicate CanSend(s: Screen) {
    Trim(s.messageText) != "" && s.currentChatId != "" && s.isConnected
  }

  /** The optimistic copy of a message sent at `now`, keyed by the decimal clock value. */
  function TempMessage(text: string, now: nat): (m: ViewMessage)
    ensures m.id.Some? && m.id.value != "" && m.sender == SENDER_USER
  {
    ViewMessage(Some(Decimal(now)), SENDER_USER, text, now)
  }

  function OnSendMessage(s: Screen, now: nat): (s': Screen)
    ensures !CanSend(s) ==> s' == s
    ensures CanSend(s) ==>
      var text := Trim(s.messageText);
      && s'.messages == s.messages + [TempMessage(text, now)]
      && s'.pending == TempMessage(text, now).id
      && SA.EmittedOnce(s.registry, s'.registry, SA.SEND_MESSAGE, Some(SA.SendMessageData(s.currentChatId, text)))
      && s'.messageText == ""
      && s'.currentChatId == s.currentChatId && s'.isConnected
  {
    var text := Trim(s.messageText);
    if text == "" || s.currentChatId == "" || !s.isConnected then s
    else
      var temp := TempMessage(text, now);
      s.(pending := temp.id,
         messages := s.messages + [temp],
         registry := SA.SendMessage(s.registry, SA.SendMessageData(s.currentChatId, text)),
         messageText := "")
  }

  // ------------------------------------------------------------ the server's messages

  /** How a stored message reaches the screen: its fields, without an `_id`. */
  function FromServer(m: ChatProtocol.Message): (v: ViewMessage)
    ensures v.id.None? && v.text == m.text && v.sentAt == m.sentAt
    ensures v.sender == (if m.sender == ChatProtocol.USER then SENDER_USER else SENDER_ORGANIZER)
  {
    ViewMessage(None, if m.sender == ChatProtocol.USER then SENDER_USER else SENDER_ORGANIZER, m.text, m.sentAt)
  }

  /** The `message` field of a NEW_MESSAGE notice, as the callback receives it. */
  function NoticeMessage(p: ChatProtocol.Payload): (v: Option<ViewMessage>)
    ensures p.NewMessageNotice? ==> v == Some(FromServer(p.sent))
    ensures !p.NewMessageNotice? ==> v.None?
  {
    if p.NewMessageNotice? then Some(FromServer(p.sent)) else None
  }

  /** A message coming from the server is never taken for the echo: it is always appended. */
  lemma ServerMessageNeverSuppressed(s: Screen, m: ChatProtocol.Message)
    ensures HandleNewMessage(s, Some(FromServer(m))).messages == s.messages + [FromServer(m)]
    ensures HandleNewMessage(s, Some(FromServer(m))).pending == s.pending
  {
  }

  /**
   * If the server's broadcast of a sent message reached the new-message callback,
   * the text would show twice: the optimistic copy and the broadcast copy, since a
   * server message carries no client id and the pending id is never cleared. As
   * written the callback listens on 'newMessage' while the server broadcasts
   * 'new_message', so no broadcast arrives; this is the delivery the names would allow
   * once they agree.
   */
  lemma OptimisticSendShowsTwice(s: Screen, now: nat, m: ChatProtocol.Message)
    requires CanSend(s)
    requires m.text == Trim(s.messageText)
    ensures var s' := HandleNewMessage(OnSendMessage(s, now), Some(FromServer(m)));
      && |s'.messages| == |s.messages| + 2
      && s'.messages[|s.messages|].text == m.text
      && s'.messages[|s.messages| + 1].text == m.text
      && s'.pending.Some?
  {
    var sent := OnSendMessage(s, now);
    ServerMessageNeverSuppressed(sent, m);
  }
}
