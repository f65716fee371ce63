/**
 * The client's conversation list: mapping the server's list into display entries,
 * dropping deleted conversations, re-fetching on a new-chat notice, and the
 * mount/cleanup listener set.
 */
module ChatListView {
  import opened Wrappers
  import ChatProtocol
  import SA = SocketActions

  /** A party of a listed chat: a populated profile or a bare id. */
  datatype Party = Profile(profileId: string, userName: string) | BareId(bareId: string)

  datatype ListedMessage = ListedMessage(text: string, sentAt: int)

  /** A chat as the list payload carries it; a missing `messages` field is the empty list. */
  datatype ListedChat = ListedChat(id: string, user: Party, organizer: Party, messages: seq<ListedMessage>)

  /** A display entry; `participantId` None stands for `null`. */
  datatype Entry = Entry(id: string, participantName: string, participantId: Option<string>,
                         lastMessage: Option<ListedMessage>)

  datatype ListScreen = ListScreen(chats: seq<Entry>, isLoading: bool, registry: SA.Registry)

  const UNKNOWN_PARTICIPANT := "Unknown Participant"
  const ORGANIZER_FALLBACK := "Organizer"
  const USER_FALLBACK := "User"

  // identities of the screen's three memoized callbacks
  const ON_ALL_CHATS_LIST: nat := 5
  const ON_CHAT_DELETED: nat := 6
  const ON_NEW_CHAT: nat := 7

  /** The id a party stands for: the profile's `_id`, or the bare id. */
  function PartyId(p: Party): string {
    match p
    case Profile(id, _) => id
    case BareId(id) => id
  }

  /** The display name of a party, or `fallback` when it has none. */
  function PartyName(p: Party, fallback: string): (name: string)
    ensures p.Profile? && p.userName != "" ==> name == p.userName
    ensures p.BareId? || p.userName == "" ==> name == fallback
  {
    if p.Profile? && p.userName != "" then p.userName else fallback
  }

  /** The final message, or None for a chat without messages. */
  function LastMessage(ms: seq<ListedMessage>): (m: Option<ListedMessage>)
    ensures ms == [] <==> m.None?
    ensures ms != [] ==> m.value == ms[|ms| - 1]
  {
    if ms == [] then None else Some(ms[|ms| - 1])
  }

  /** One display entry: the other party relative to the current user, and the last message. */
  function ToEntry(c: ListedChat, currentUserId: string): (e: Entry)
    ensures e.id == c.id && e.lastMessage == LastMessage(c.messages)
    ensures PartyId(c.user) == currentUserId ==>
      e.participantId == Some(PartyId(c.organizer)) && e.participantName == PartyName(c.organizer, ORGANIZER_FALLBACK)
    ensures PartyId(c.user) != currentUserId && PartyId(c.organizer) == currentUserId ==>
      e.participantId == Some(PartyId(c.user)) && e.participantName == PartyName(c.user, USER_FALLBACK)
    ensures PartyId(c.user) != currentUserId && PartyId(c.organizer) != currentUserId ==>
      e.participantId.None? && e.participantName == UNKNOWN_PARTICIPANT
  {
    var userId := PartyId(c.user);
    var organizerId := PartyId(c.organizer);
    if userId == currentUserId then
      Entry(c.id, PartyName(c.organizer, ORGANIZER_FALLBACK), Some(organizerId), LastMessage(c.messages))
    else if organizerId == currentUserId then
      Entry(c.id, PartyName(c.user, USER_FALLBACK), Some(userId), LastMessage(c.messages))
    else Entry(c.id, UNKNOWN_PARTICIPANT, None, LastMessage(c.messages))
  }

  /** `chats.map(...)`: one entry per chat, in the same order. */
  function ToEntries(cs: seq<ListedChat>, currentUserId: string): (es: seq<Entry>)
    ensures |es| == |cs|
    ensures forall i :: 0 <= i < |cs| ==> es[i] == ToEntry(cs[i], currentUserId)
  {
    if cs == [] then [] else [ToEntry(cs[0], currentUserId)] + ToEntries(cs[1..], currentUserId)
  }

  /** The list callback; `chats` None stands for a payload without a `chats` field. */
  function HandleChatsList(s: ListScreen, chats: Option<seq<ListedChat>>, currentUserId: string): (s': ListScreen)
    ensures !s'.isLoading && s'.registry == s.registry
    ensures chats.None? ==> s'.chats == []
    ensures chats.Some? && currentUserId == "" ==> s'.chats == s.chats
    ensures chats.Some? && currentUserId != "" ==>
      && |s'.chats| == |chats.value|
      && forall i :: 0 <= i < |chats.value| ==> s'.chats[i] == ToEntry(chats.value[i], currentUserId)
  {
    match chats
    case None => s.(isLoading := false, chats := [])
    case Some(cs) =>
      if currentUserId == "" then s.(isLoading := false)
      else s.(isLoading := false, chats := ToEntries(cs, currentUserId))
  }

  /** `prev.filter(chat => chat._id !== chatId)`. */
  function WithoutChat(es: seq<Entry>, chatId: string): seq<Entry>
  {
    if es == [] then []
    else (if es[0].id != chatId then [es[0]] else []) + WithoutChat(es[1..], chatId)
  }

  /** The filter keeps every entry with another id, as often as it occurred, and no entry with `chatId`. */
  lemma {:induction false} WithoutChatContents(es: seq<Entry>, chatId: string)
    ensures forall e :: multiset(WithoutChat(es, chatId))[e] == if e.id != chatId then multiset(es)[e] else 0
    ensures forall e :: e in WithoutChat(es, chatId) <==> e in es && e.id != chatId
    decreases |es|
  {
    if es != [] {
      WithoutChatContents(es[1..], chatId);
      assert es == [es[0]] + es[1..];
      assert multiset(es) == multiset{es[0]} + multiset(es[1..]);
      var r := WithoutChat(es, chatId);
      assert multiset(r) == multiset(if es[0].id != chatId then [es[0]] else []) + multiset(WithoutChat(es[1..], chatId));
      forall e ensures e in r <==> e in es && e.id != chatId {
        assert e in r <==> e in multiset(r);
        assert e in es <==> e in multiset(es);
      }
    }
  }

  /** Filtering distributes over concatenation, so the kept entries keep their relative order. */
  lemma {:induction false} WithoutChatKeepsOrder(a: seq<Entry>, b: seq<Entry>, chatId: string)
    ensures WithoutChat(a + b, chatId) == WithoutChat(a, chatId) + WithoutChat(b, chatId)
    decreases |a|
  {
    if a != [] {
      assert (a + b)[1..] == a[1..] + b;
      WithoutChatKeepsOrder(a[1..], b, chatId);
    } else {
      assert a + b == b;
    }
  }

  /** A list without the deleted id is left exactly as it was. */
  lemma {:induction false} WithoutAbsentChat(es: seq<Entry>, chatId: string)
    requires forall i :: 0 <= i < |es| ==> es[i].id != chatId
    ensures WithoutChat(es, chatId) == es
    decreases |es|
  {
    if es != [] {
      WithoutAbsentChat(es[1..], chatId);
      assert es == [es[0]] + es[1..];
    }
  }

  /** The deleted-chat callback: exactly the entries with that id disappear. */
  function HandleChatDeleted(s: ListScreen, chatId: string): (s': ListScreen)
    ensures forall e :: e in s'.chats <==> e in s.chats && e.id != chatId
    ensures forall e: Entry :: e.id != chatId ==> multiset(s'.chats)[e] == multiset(s.chats)[e]
    ensures s'.isLoading == s.isLoading && s'.registry == s.registry
  {
    WithoutChatContents(s.chats, chatId);
    s.(chats := WithoutChat(s.chats, chatId))
  }

  /** A new-chat notice triggers a full re-fetch; the list itself is not touched. */
  function HandleNewChat(s: ListScreen): (s': ListScreen)
    ensures s'.chats == s.chats
    ensures SA.EmittedOnce(s.registry, s'.registry, SA.GET_ALL_CHATS, None)
  {
    s.(registry := SA.GetAllChats(s.registry))
  }

  /** The slots the screen listens on, in the order its cleanup removes them. */
  const ListSlots: seq<SA.Slot> := [SA.AllChatsListSlot, SA.ChatDeletedSlot, SA.NewChatSlot]

  /** The three registrations the screen's listeners hand to the socket. */
  function ListRegistrations(): multiset<SA.Registration> {
    multiset{SA.RegistrationOf(SA.AllChatsListSlot, ON_ALL_CHATS_LIST),
             SA.RegistrationOf(SA.ChatDeletedSlot, ON_CHAT_DELETED),
             SA.RegistrationOf(SA.NewChatSlot, ON_NEW_CHAT)}
  }

  /** Mount: without a current user nothing happens; otherwise three listeners and one list request. */
  function Mount(s: ListScreen, currentUserId: string): (s': ListScreen)
    ensures currentUserId == "" ==> s' == s
    ensures currentUserId != "" ==>
      && s'.chats == s.chats
      && s'.registry.slots == s.registry.slots[SA.AllChatsListSlot := ON_ALL_CHATS_LIST]
                                             [SA.ChatDeletedSlot := ON_CHAT_DELETED]
                                             [SA.NewChatSlot := ON_NEW_CHAT]
      && s'.registry.registrations == s.registry.registrations + ListRegistrations()
      && |s'.registry.sent| == |s.registry.sent| + 1
      && s'.registry.sent[|s.registry.sent|] == SA.Emission(SA.GET_ALL_CHATS, None)
  {
    if currentUserId == "" then s
    else
      var r1 := SA.Listen(s.registry, SA.AllChatsListSlot, ON_ALL_CHATS_LIST);
      var r2 := SA.Listen(r1, SA.ChatDeletedSlot, ON_CHAT_DELETED);
      var r3 := SA.Listen(r2, SA.NewChatSlot, ON_NEW_CHAT);
      s.(registry := SA.GetAllChats(r3))
  }

  /**
   * Unmount: the effect returns a cleanup only once a current user is set. The
   * cleanup empties exactly the three slots the screen uses, keeps the others, and
   * unregisters the callback stored in each filled one.
   */
  function Cleanup(s: ListScreen, currentUserId: string): (s': ListScreen)
    ensures currentUserId == "" ==> s' == s
    ensures currentUserId != "" ==>
      && (forall k :: k in s'.registry.slots <==> k in s.registry.slots && k !in ListSlots)
      && (forall k :: k in s'.registry.slots ==> s'.registry.slots[k] == s.registry.slots[k])
      && s'.registry.registrations == s.registry.registrations - SA.BareRegistrations(s.registry.slots, ListSlots)
    ensures s'.registry.sent == s.registry.sent && s'.chats == s.chats
  {
    if currentUserId == "" then s
    else
      SA.RemoveEachUnregisters(s.registry, ListSlots);
      s.(registry := SA.RemoveEach(s.registry, ListSlots))
  }

  /** After a mount with a user, the three slots hold the screen's callbacks. */
  lemma MountFillsSlots(s: ListScreen, currentUserId: string)
    requires currentUserId != ""
    ensures var slots := Mount(s, currentUserId).registry.slots;
      && SA.AllChatsListSlot in slots && slots[SA.AllChatsListSlot] == ON_ALL_CHATS_LIST
      && SA.ChatDeletedSlot in slots && slots[SA.ChatDeletedSlot] == ON_CHAT_DELETED
      && SA.NewChatSlot in slots && slots[SA.NewChatSlot] == ON_NEW_CHAT
  {
  }

  /** What removing the screen's slots hands to `off` once all three hold the screen's callbacks. */
  lemma BareOfMounted(slots: map<SA.Slot, nat>)
    requires SA.AllChatsListSlot in slots && slots[SA.AllChatsListSlot] == ON_ALL_CHATS_LIST
    requires SA.ChatDeletedSlot in slots && slots[SA.ChatDeletedSlot] == ON_CHAT_DELETED
    requires SA.NewChatSlot in slots && slots[SA.NewChatSlot] == ON_NEW_CHAT
    ensures SA.BareRegistrations(slots, ListSlots) == ListRegistrations()
  {
    assert ListSlots[1..] == [SA.ChatDeletedSlot, SA.NewChatSlot];
    assert ListSlots[1..][1..] == [SA.NewChatSlot];
    assert ListSlots[1..][1..][1..] == [];
  }

  /** Adding and then taking away the same registrations gives the original back. */
  lemma AddThenSubtract<T>(m: multiset<T>, a: multiset<T>)
    ensures (m + a) - a == m
  {
    forall x ensures ((m + a) - a)[x] == m[x] {
    }
  }

  /** Registering the screen's three listeners and then removing its filled slots leaves the registrations as they were. */
  lemma ListenersRestored(before: SA.Registry, mounted: SA.Registry, after: SA.Registry)
    requires mounted.registrations == before.registrations + ListRegistrations()
    requires SA.AllChatsListSlot in mounted.slots && mounted.slots[SA.AllChatsListSlot] == ON_ALL_CHATS_LIST
    requires SA.ChatDeletedSlot in mounted.slots && mounted.slots[SA.ChatDeletedSlot] == ON_CHAT_DELETED
    requires SA.NewChatSlot in mounted.slots && mounted.slots[SA.NewChatSlot] == ON_NEW_CHAT
    requires after.registrations == mounted.registrations - SA.BareRegistrations(mounted.slots, ListSlots)
    ensures after.registrations == before.registrations
  {
    BareOfMounted(mounted.slots);
    AddThenSubtract(before.registrations, ListRegistrations());
  }

  /** Filling the three screen slots and then emptying them gives the original slots back. */
  lemma RefillThenEmpty(slots: map<SA.Slot, nat>, filled: map<SA.Slot, nat>, emptied: map<SA.Slot, nat>)
    requires SA.AllChatsListSlot !in slots && SA.ChatDeletedSlot !in slots && SA.NewChatSlot !in slots
    requires filled == slots[SA.AllChatsListSlot := ON_ALL_CHATS_LIST][SA.ChatDeletedSlot := ON_CHAT_DELETED]
                            [SA.NewChatSlot := ON_NEW_CHAT]
    requires forall k :: k in emptied <==> k in filled && k !in ListSlots
    requires forall k :: k in emptied ==> emptied[k] == filled[k]
    ensures emptied == slots
  {
    forall k ensures k in emptied <==> k in slots {
      assert k in ListSlots <==> k == SA.AllChatsListSlot || k == SA.ChatDeletedSlot || k == SA.NewChatSlot;
    }
  }

  /**
   * Mounting and then cleaning up, from a screen whose three slots are empty,
   * restores the socket's listeners and the slots.
   */
  lemma MountThenCleanupRestores(s: ListScreen, currentUserId: string)
    requires SA.AllChatsListSlot !in s.registry.slots && SA.ChatDeletedSlot !in s.registry.slots
    requires SA.NewChatSlot !in s.registry.slots
    ensures var s' := Cleanup(Mount(s, currentUserId), currentUserId);
      s'.registry.slots == s.registry.slots && s'.registry.registrations == s.registry.registrations
  {
    if currentUserId != "" {
      var m := Mount(s, currentUserId);
      var s' := Cleanup(m, currentUserId);
      MountFillsSlots(s, currentUserId);
      ListenersRestored(s.registry, m.registry, s'.registry);
      RefillThenEmpty(s.registry.slots, m.registry.slots, s'.registry.slots);
    }
  }

  // ------------------------------------------------------------ the server's list

  /**
   * A stored conversation as it appears in the list payload. The user is populated
   * with its `userName` (looked up through `userName`, "" when the profile has none);
   * the organizer is populated with `organizerName` only, so it carries no `userName`.
   */
  function FromStore(d: ChatProtocol.ChatDoc, userName: string -> string): (c: ListedChat)
    ensures c.id == d.id && PartyId(c.user) == d.chat.user && PartyId(c.organizer) == d.chat.organizer
    ensures PartyName(c.user, USER_FALLBACK) == (if userName(d.chat.user) != "" then userName(d.chat.user) else USER_FALLBACK)
    ensures PartyName(c.organizer, ORGANIZER_FALLBACK) == ORGANIZER_FALLBACK
    ensures |c.messages| == |d.chat.messages|
    ensures forall i :: 0 <= i < |d.chat.messages| ==>
      c.messages[i] == ListedMessage(d.chat.messages[i].text, d.chat.messages[i].sentAt)
  {
    ListedChat(d.id, Profile(d.chat.user, userName(d.chat.user)), Profile(d.chat.organizer, ""),
      seq(|d.chat.messages|, i requires 0 <= i < |d.chat.messages| =>
        ListedMessage(d.chat.messages[i].text, d.chat.messages[i].sentAt)))
  }

  /** The name an organizer's row shows for the chat's user: the populated `userName`, else "User". */
  function ShownUserName(u: string, userName: string -> string): string {
    if userName(u) != "" then userName(u) else USER_FALLBACK
  }

  /** Every conversation in an organizer's list is active and theirs, and is one of the stored ones. */
  lemma ListedAreOwn(store: ChatProtocol.Store, organizerId: string, env: ChatProtocol.Env)
    requires env.isValidId(organizerId)
    ensures var o := ChatProtocol.HandleGetAllChats(store, ChatProtocol.Caller(organizerId, ChatProtocol.ROLE_ORGANIZER), env);
      forall d :: d in o.effects[0].payload.chats ==> d.chat.isActive && d.chat.organizer == organizerId && d in store
  {
    var o := ChatProtocol.HandleGetAllChats(store, ChatProtocol.Caller(organizerId, ChatProtocol.ROLE_ORGANIZER), env);
    forall d | d in o.effects[0].payload.chats
      ensures d.chat.isActive && d.chat.organizer == organizerId && d in store
    {
      assert d in multiset(o.effects[0].payload.chats);
    }
  }

  /** The list payload for a sequence of stored conversations, one entry each, in order. */
  function FromStoreAll(docs: seq<ChatProtocol.ChatDoc>, userName: string -> string): (cs: seq<ListedChat>)
    ensures |cs| == |docs|
    ensures forall i :: 0 <= i < |docs| ==> cs[i] == FromStore(docs[i], userName)
  {
    seq(|docs|, i requires 0 <= i < |docs| => FromStore(docs[i], userName))
  }

  /** An organizer's own conversation is shown under the user's name (or "User") with its latest text. */
  lemma ShowOwnChat(d: ChatProtocol.ChatDoc, organizerId: string, userName: string -> string)
    requires d.chat.organizer == organizerId && d.chat.user != organizerId
    ensures var e := ToEntry(FromStore(d, userName), organizerId);
      && e.participantId == Some(d.chat.user)
      && e.participantName == ShownUserName(d.chat.user, userName)
      && (d.chat.messages != [] ==>
            e.lastMessage.Some? && e.lastMessage.value.text == d.chat.messages[|d.chat.messages| - 1].text)
  {
    var c := FromStore(d, userName);
    assert PartyId(c.user) != organizerId && PartyId(c.organizer) == organizerId;
  }

  /** The list screen's view of a list of an organizer's own conversations. */
  lemma ShowOwnList(s: ListScreen, docs: seq<ChatProtocol.ChatDoc>, organizerId: string, userName: string -> string)
    requires organizerId != ""
    requires forall d :: d in docs ==> d.chat.organizer == organizerId && d.chat.user != organizerId
    ensures var shown := HandleChatsList(s, Some(FromStoreAll(docs, userName)), organizerId);
      && |shown.chats| == |docs|
      && forall i :: 0 <= i < |docs| ==>
           && shown.chats[i].participantId == Some(docs[i].chat.user)
           && shown.chats[i].participantName == ShownUserName(docs[i].chat.user, userName)
           && (docs[i].chat.messages != [] ==>
                 shown.chats[i].lastMessage.Some? &&
                 shown.chats[i].lastMessage.value.text == docs[i].chat.messages[|docs[i].chat.messages| - 1].text)
  {
    var shown := HandleChatsList(s, Some(FromStoreAll(docs, userName)), organizerId);
    forall i | 0 <= i < |docs|
      ensures shown.chats[i] == ToEntry(FromStore(docs[i], userName), organizerId)
    {
    }
    forall i | 0 <= i < |docs|
      ensures shown.chats[i].participantId == Some(docs[i].chat.user)
      ensures shown.chats[i].participantName == ShownUserName(docs[i].chat.user, userName)
      ensures docs[i].chat.messages != [] ==>
                shown.chats[i].lastMessage.Some? &&
                shown.chats[i].lastMessage.value.text == docs[i].chat.messages[|docs[i].chat.messages| - 1].text
    {
      assert docs[i] in docs;
      ShowOwnChat(docs[i], organizerId, userName);
    }
  }

  /**
   * An organizer's own list shows, for every conversation, the user as the other
   * party, under the user's populated name or "User" when it has none.
   */
  lemma OrganizerListShowsUsers(s: ListScreen, store: ChatProtocol.Store, organizerId: string,
                                env: ChatProtocol.Env, userName: string -> string)
    requires organizerId != "" && env.isValidId(organizerId)
    requires forall d :: d in store ==> d.chat.user != organizerId
    ensures var o := ChatProtocol.HandleGetAllChats(store, ChatProtocol.Caller(organizerId, ChatProtocol.ROLE_ORGANIZER), env);
      && o.effects != [] && o.effects[0].Emit? && o.effects[0].payload.ChatsList?
      && var listed := o.effects[0].payload.chats;
      var shown := HandleChatsList(s, Some(FromStoreAll(listed, userName)), organizerId);
      && |shown.chats| == |listed|
      && forall i :: 0 <= i < |listed| ==>
           && shown.chats[i].participantId == Some(listed[i].chat.user)
           && shown.chats[i].participantName == ShownUserName(listed[i].chat.user, userName)
  {
    var o := ChatProtocol.HandleGetAllChats(store, ChatProtocol.Caller(organizerId, ChatProtocol.ROLE_ORGANIZER), env);
    ListedAreOwn(store, organizerId, env);
    ShowOwnList(s, o.effects[0].payload.chats, organizerId, userName);
  }
}
