/**
 * Properties that relate several protocol steps: repeated START_CHAT, a run of
 * SEND_MESSAGE calls, soft delete against listing and history, the store's
 * uniqueness invariants, and a two-party scenario: a user starts a chat with an
 * organizer, the organizer replies, and the organizer lists it.
 */
module ChatProperties {
  import opened Wrappers
  import opened Text
  import opened ChatProtocol

  /** No two records share an id. */
  ghost predicate UniqueIds(store: Store) {
    forall i, j :: 0 <= i < j < |store| ==> store[i].id != store[j].id
  }

  /** At most one active record per (user, organizer) pair. */
  ghost predicate OneActivePerPair(store: Store) {
    forall i, j :: 0 <= i < j < |store| && store[i].chat.isActive ==>
      !IsActivePair(store[j], store[i].chat.user, store[i].chat.organizer)
  }

  /** Two stores with the same ids, position by position, find the same record for an id. */
  lemma FindByIdFollowsIds(s: Store, t: Store, id: string)
    requires |s| == |t|
    requires forall k :: 0 <= k < |s| ==> s[k].id == t[k].id
    ensures FindById(s, id) == FindById(t, id)
  {
    var a, b := FindById(s, id), FindById(t, id);
    if a.Some? {
      assert t[a.value].id == id;
    }
    if b.Some? {
      assert s[b.value].id == id;
    }
  }

  /** A record that every id lookup reaches is the only one with that id. */
  lemma FindByIdUnique(store: Store, i: nat)
    requires UniqueIds(store) && i < |store|
    ensures FindById(store, store[i].id) == Some(i)
  {
  }

  // ------------------------------------------------------------ START_CHAT twice

  /**
   * A second START_CHAT for the same pair, before any delete, returns the record the
   * first one created, with `isNew == false`, and creates nothing.
   */
  lemma StartChatTwiceReusesChat(store: Store, caller: Caller, userId: string, organizerId: string,
                                 text1: string, text2: string, env1: Env, env2: Env)
    requires StartChatAllowed(caller, userId, organizerId, env1)
    requires StartChatAllowed(caller, userId, organizerId, env2)
    requires !HasActiveChat(store, userId, organizerId) && !HasId(store, env1.newId)
    ensures var first := HandleStartChat(store, caller, userId, organizerId, text1, env1);
            var second := HandleStartChat(first.store, caller, userId, organizerId, text2, env2);
            && second.store == first.store
            && second.effects[0] == Join(ChatRoom(env1.newId))
            && second.effects[1].payload.data ==
                 StartedData(env1.newId, [SeedMessage(text1, env1)], userId, organizerId, false)
  {
    var first := HandleStartChat(store, caller, userId, organizerId, text1, env1);
    var s := first.store;
    assert HasActiveChat(s, userId, organizerId) by {
      assert IsActivePair(s[|store|], userId, organizerId);
    }
    var second := HandleStartChat(s, caller, userId, organizerId, text2, env2);
    var i :| 0 <= i < |s| && IsActivePair(s[i], userId, organizerId)
             && second.effects[0] == Join(ChatRoom(s[i].id))
             && second.effects[1] == Ack(START_CHAT, MSG_EXISTING, env2,
                  StartedData(s[i].id, s[i].chat.messages, userId, organizerId, false));
    assert forall k :: 0 <= k < |store| ==> !IsActivePair(s[k], userId, organizerId) by {
      forall k | 0 <= k < |store|
        ensures !IsActivePair(s[k], userId, organizerId)
      {
        assert s[k] == s[..|store|][k] == store[k];
      }
    }
    assert i == |store|;
  }

  // ------------------------------------------------------------ a run of sends

  /** Everything SEND_MESSAGE checks except the text. */
  predicate CanSendTo(store: Store, caller: Caller, chatId: string, env: Env) {
    && chatId != "" && env.isValidId(chatId)
    && FindById(store, chatId).Some?
    && MaySendIn(caller, store[FindById(store, chatId).value].chat)
  }

  /** The store after sending each of `texts` in turn into one chat. */
  function SendAll(store: Store, caller: Caller, chatId: string, texts: seq<string>, env: Env): Store
    decreases |texts|
  {
    if texts == [] then store
    else
      var next := HandleSendMessage(store, caller, chatId, texts[0], env).store;
      SendAll(next, caller, chatId, texts[1..], env)
  }

  /** The messages a run of sends is meant to append, in call order. */
  function Appended(sender: Sender, texts: seq<string>, now: nat): (ms: seq<Message>)
    ensures |ms| == |texts|
    ensures forall k :: 0 <= k < |texts| ==> ms[k] == Message(sender, Trim(texts[k]), now)
  {
    if texts == [] then [] else [Message(sender, Trim(texts[0]), now)] + Appended(sender, texts[1..], now)
  }

  /**
   * N accepted sends into one chat grow its log by exactly N messages, in call order,
   * and change no other record.
   */
  lemma {:induction false} SendsAppendInOrder(store: Store, caller: Caller, chatId: string,
                                              texts: seq<string>, env: Env)
    requires CanSendTo(store, caller, chatId, env)
    requires forall k :: 0 <= k < |texts| ==> Trim(texts[k]) != ""
    decreases |texts|
    ensures var i := FindById(store, chatId).value;
            var s := SendAll(store, caller, chatId, texts, env);
            && |s| == |store|
            && s[i].chat.messages == store[i].chat.messages + Appended(SenderOf(caller), texts, env.now)
            && (forall j :: 0 <= j < |store| && j != i ==> s[j] == store[j])
  {
    var i := FindById(store, chatId).value;
    if texts != [] {
      var next := HandleSendMessage(store, caller, chatId, texts[0], env).store;
      var msg := Message(SenderOf(caller), Trim(texts[0]), env.now);
      SendUpdatesOneRecord(store, caller, chatId, texts[0], env);
      FindByIdFollowsIds(store, next, chatId);
      assert CanSendTo(next, caller, chatId, env);
      SendsAppendInOrder(next, caller, chatId, texts[1..], env);
      var rest := Appended(SenderOf(caller), texts[1..], env.now);
      assert Appended(SenderOf(caller), texts, env.now) == [msg] + rest;
      AppendTwice(store, next, SendAll(next, caller, chatId, texts[1..], env), i, [msg], rest);
    } else {
      assert store[i].chat.messages + Appended(SenderOf(caller), texts, env.now) == store[i].chat.messages;
    }
  }

  /** Appending `a` and then `b` to record `i` appends `a + b`. */
  lemma AppendTwice(store: Store, mid: Store, last: Store, i: nat, a: seq<Message>, b: seq<Message>)
    requires i < |store| == |mid| == |last|
    requires mid[i].chat.messages == store[i].chat.messages + a
    requires last[i].chat.messages == mid[i].chat.messages + b
    requires forall j :: 0 <= j < |store| && j != i ==> mid[j] == store[j]
    requires forall j :: 0 <= j < |store| && j != i ==> last[j] == mid[j]
    ensures last[i].chat.messages == store[i].chat.messages + (a + b)
    ensures forall j :: 0 <= j < |store| && j != i ==> last[j] == store[j]
  {
    assert store[i].chat.messages + a + b == store[i].chat.messages + (a + b);
  }

  /** One accepted send appends one message to the one record it names. */
  lemma SendUpdatesOneRecord(store: Store, caller: Caller, chatId: string, text: string, env: Env)
    requires chatId != "" && env.isValidId(chatId)
    requires FindById(store, chatId).Some?
    requires MaySendIn(caller, store[FindById(store, chatId).value].chat)
    requires Trim(text) != ""
    ensures var i := FindById(store, chatId).value;
            var s := HandleSendMessage(store, caller, chatId, text, env).store;
            && |s| == |store|
            && s[i].id == store[i].id
            && s[i].chat.user == store[i].chat.user
            && s[i].chat.organizer == store[i].chat.organizer
            && s[i].chat.messages == store[i].chat.messages + [Message(SenderOf(caller), Trim(text), env.now)]
            && (forall j :: 0 <= j < |store| && j != i ==> s[j] == store[j])
            && (forall j :: 0 <= j < |store| ==> s[j].id == store[j].id)
  {
    assert SendAllowed(store, caller, chatId, text, env);
  }

  // ------------------------------------------------------------ send, then history

  /**
   * A message accepted by SEND_MESSAGE is the last entry of the history that either
   * party reads afterwards, with the sender's type and the trimmed text; with a clock
   * that has not gone backwards its `sentAt` is no earlier than any earlier message's.
   */
  lemma SentMessageReadBack(store: Store, caller: Caller, reader: Caller, chatId: string,
                            text: string, env: Env)
    requires SendAllowed(store, caller, chatId, text, env)
    requires IsParty(reader, store[FindById(store, chatId).value].chat)
    requires !PartyCheckThrows(reader, store[FindById(store, chatId).value].chat, env)
    requires forall m :: m in store[FindById(store, chatId).value].chat.messages ==> m.sentAt <= env.now
    ensures var sent := HandleSendMessage(store, caller, chatId, text, env);
            var h := HandleGetChatHistory(sent.store, reader, chatId, env);
            && |h.effects| == 2 && h.effects[1].payload.HistoryReply?
            && var ms := h.effects[1].payload.messages;
               && |ms| > 0
               && ms[|ms| - 1].sender == SenderOf(caller)
               && ms[|ms| - 1].text == Trim(text)
               && ms[..|ms| - 1] == store[FindById(store, chatId).value].chat.messages
               && forall k :: 0 <= k < |ms| - 1 ==> ms[k].sentAt <= ms[|ms| - 1].sentAt
  {
    var sent := HandleSendMessage(store, caller, chatId, text, env);
    FindByIdFollowsIds(store, sent.store, chatId);
    var i := FindById(store, chatId).value;
    assert HistoryAllowed(sent.store, reader, chatId, env);
    var ms := sent.store[i].chat.messages;
    assert ms[..|ms| - 1] == store[i].chat.messages;
    forall k | 0 <= k < |ms| - 1
      ensures ms[k].sentAt <= ms[|ms| - 1].sentAt
    {
      assert ms[k] in store[i].chat.messages;
    }
  }

  // ------------------------------------------------------------ soft delete

  /**
   * After DELETE_CHAT the conversation is gone from its organizer's list, yet both
   * original parties still read its (now inactive) history with every message kept.
   */
  lemma DeleteHidesFromListKeepsHistory(store: Store, caller: Caller, chatId: string,
                                        userRole: string, env: Env)
    requires UniqueIds(store)
    requires DeleteAllowed(store, caller, chatId, env)
    requires env.isValidId(caller.id)
    requires var chat := store[FindById(store, chatId).value].chat;
      env.userExists(chat.user) && env.organizerExists(chat.organizer)
    ensures var i := FindById(store, chatId).value;
            var chat := store[i].chat;
            var del := HandleDeleteChat(store, caller, chatId, env);
            var list := HandleGetAllChats(del.store, caller, env);
            var forUser := HandleGetChatHistory(del.store, Caller(chat.user, userRole), chatId, env);
            var forOrganizer := HandleGetChatHistory(del.store, caller, chatId, env);
            && (forall d :: d in list.effects[0].payload.chats ==> d.id != chatId)
            && forUser.effects[1] == forOrganizer.effects[1]
            && forUser.effects[1].payload ==
                 HistoryReply(chatId, chat.user, chat.organizer, chat.messages, false, env.now)
  {
    var i := FindById(store, chatId).value;
    var del := HandleDeleteChat(store, caller, chatId, env);
    FindByIdFollowsIds(store, del.store, chatId);
    var list := HandleGetAllChats(del.store, caller, env);
    forall d | d in list.effects[0].payload.chats
      ensures d.id != chatId
    {
      var j :| 0 <= j < |del.store| && del.store[j] == d;
      if j != i {
        assert store[j].id != store[i].id;
      }
    }
    assert HistoryAllowed(del.store, Caller(store[i].chat.user, userRole), chatId, env);
    assert HistoryAllowed(del.store, caller, chatId, env);
  }

  // ------------------------------------------------------------ invariants

  /** Every step keeps record ids distinct. */
  lemma StepKeepsUniqueIds(store: Store, caller: Caller, req: Request, env: Env)
    requires UniqueIds(store)
    ensures UniqueIds(Step(store, caller, req, env).store)
  {
    var o := Step(store, caller, req, env);
    if req.StartChat? && |o.store| == |store| + 1 {
      var u, org, text := req.userId, req.organizerId, req.initialMessage;
      if !StartChatAllowed(caller, u, org, env) || HasActiveChat(store, u, org) {
        assert IsRejection(o, store, START_CHAT) || o.store == store;
      } else if HasId(store, env.newId) {
        assert o.store == store;
      } else {
        assert o.store[..|store|] == store;
      }
    }
  }

  /** START_CHAT never creates a second active conversation for a pair. */
  lemma StartChatKeepsOneActivePerPair(store: Store, caller: Caller, userId: string,
                                       organizerId: string, text: string, env: Env)
    requires OneActivePerPair(store)
    ensures OneActivePerPair(HandleStartChat(store, caller, userId, organizerId, text, env).store)
  {
    var o := HandleStartChat(store, caller, userId, organizerId, text, env);
    if o.store != store {
      assert StartChatAllowed(caller, userId, organizerId, env);
      assert !HasActiveChat(store, userId, organizerId) && !HasId(store, env.newId);
      forall i, j | 0 <= i < j < |o.store| && o.store[i].chat.isActive
        ensures !IsActivePair(o.store[j], o.store[i].chat.user, o.store[i].chat.organizer)
      {
        if j == |store| {
          assert o.store[i] == store[i];
          assert !IsActivePair(store[i], userId, organizerId);
        } else {
          assert o.store[i] == store[i] && o.store[j] == store[j];
        }
      }
    }
  }

  /** DELETE_CHAT only deactivates, so it keeps the pair invariant. */
  lemma DeleteKeepsOneActivePerPair(store: Store, caller: Caller, chatId: string, env: Env)
    requires OneActivePerPair(store)
    ensures OneActivePerPair(HandleDeleteChat(store, caller, chatId, env).store)
  {
    var o := HandleDeleteChat(store, caller, chatId, env);
    if DeleteAllowed(store, caller, chatId, env) {
      var i := FindById(store, chatId).value;
      forall a, b | 0 <= a < b < |o.store| && o.store[a].chat.isActive
        ensures !IsActivePair(o.store[b], o.store[a].chat.user, o.store[a].chat.organizer)
      {
        assert a != i;
        assert o.store[a] == store[a];
        if b != i { assert o.store[b] == store[b]; }
      }
    }
  }

  /**
   * SEND_MESSAGE re-activates a soft-deleted record without looking for another
   * active record of the same pair, so after delete, START_CHAT and a send into the
   * old record, two active conversations exist for one pair.
   */
  lemma ReactivationBreaksOneActivePerPair(env: Env)
    requires env.isValidId("a")
    ensures var hi := Message(USER, "hi", 0);
            var store := [ChatDoc("a", Chat("u", "o", [hi], false, 0, 0)),
                          ChatDoc("b", Chat("u", "o", [hi], true, 1, 1))];
            BreaksOneActivePerPair(store, Caller("u", ROLE_USER), "a", "hello", env)
  {
    var hi := Message(USER, "hi", 0);
    var store := [ChatDoc("a", Chat("u", "o", [hi], false, 0, 0)),
                  ChatDoc("b", Chat("u", "o", [hi], true, 1, 1))];
    ReactivationFixture(store, Caller("u", ROLE_USER), env);
    ReactivationResult(store, Caller("u", ROLE_USER), env);
  }

  /** A well-formed store with one active record per pair, and an accepted send that breaks that. */
  ghost predicate BreaksOneActivePerPair(store: Store, caller: Caller, chatId: string, text: string, env: Env) {
    && UniqueIds(store) && OneActivePerPair(store)
    && SendAllowed(store, caller, chatId, text, env)
    && !OneActivePerPair(HandleSendMessage(store, caller, chatId, text, env).store)
  }

  lemma ReactivationFixture(store: Store, caller: Caller, env: Env)
    requires store == [ChatDoc("a", Chat("u", "o", [Message(USER, "hi", 0)], false, 0, 0)),
                       ChatDoc("b", Chat("u", "o", [Message(USER, "hi", 0)], true, 1, 1))]
    requires caller == Caller("u", ROLE_USER) && env.isValidId("a")
    ensures UniqueIds(store) && OneActivePerPair(store)
    ensures SendAllowed(store, caller, "a", "hello", env)
  {
    TrimOfUnpadded("hello");
    assert FindById(store, "a") == Some(0);
  }

  lemma ReactivationResult(store: Store, caller: Caller, env: Env)
    requires store == [ChatDoc("a", Chat("u", "o", [Message(USER, "hi", 0)], false, 0, 0)),
                       ChatDoc("b", Chat("u", "o", [Message(USER, "hi", 0)], true, 1, 1))]
    requires caller == Caller("u", ROLE_USER)
    requires SendAllowed(store, caller, "a", "hello", env)
    ensures !OneActivePerPair(HandleSendMessage(store, caller, "a", "hello", env).store)
  {
    assert FindById(store, "a") == Some(0);
    var s := HandleSendMessage(store, caller, "a", "hello", env).store;
    assert s[0].chat.isActive && IsActivePair(s[1], "u", "o");
  }

  // ------------------------------------------------------------ the two-party scenario

  /**
   * User U123 starts a chat with organizer O456 saying "Hi"; O456 replies; O456's list
   * then holds exactly that chat, with both messages, and the reply reached U123's room.
   */
  lemma TwoPartyScenario(isValidId: string -> bool, organizerExists: string -> bool, userExists: string -> bool)
    requires isValidId("U123") && isValidId("O456") && isValidId("C1")
    requires organizerExists("O456")
    ensures var env := Env(1, "C1", isValidId, organizerExists, userExists);
            var user := Caller("U123", ROLE_USER);
            var organizer := Caller("O456", ROLE_ORGANIZER);
            var started := HandleStartChat([], user, "U123", "O456", "Hi", env);
            var replied := HandleSendMessage(started.store, organizer, "C1", "When are you free?", env);
            var listed := HandleGetAllChats(replied.store, organizer, env);
            && |started.effects| == 3
            && started.effects[1] == Ack(START_CHAT, MSG_STARTED, env,
                 StartedData("C1", [Message(USER, "Hi", 1)], "U123", "O456", true))
            && |replied.effects| == 3
            && replied.effects[2] == Emit(ToRoom("U123"), NEW_MESSAGE,
                 NewMessageNotice("C1", Message(ORGANIZER, "When are you free?", 1), "O456", ROLE_ORGANIZER))
            && |replied.store| == 1
            && replied.store[0].chat.messages == [Message(USER, "Hi", 1), Message(ORGANIZER, "When are you free?", 1)]
            && listed.effects == [Emit(ToCaller, ALL_CHATS_LIST, ChatsList(replied.store, 1))]
  {
    var env := Env(1, "C1", isValidId, organizerExists, userExists);
    ScenarioStart(env);
    var started := HandleStartChat([], Caller("U123", ROLE_USER), "U123", "O456", "Hi", env);
    ScenarioReply(started.store, env);
    var replied := HandleSendMessage(started.store, Caller("O456", ROLE_ORGANIZER), "C1", "When are you free?", env);
    ScenarioList(replied.store, env);
  }

  lemma ScenarioStart(env: Env)
    requires env.newId == "C1" && env.isValidId("U123") && env.isValidId("O456")
    requires env.organizerExists("O456")
    ensures var o := HandleStartChat([], Caller("U123", ROLE_USER), "U123", "O456", "Hi", env);
            && |o.store| == 1 && o.store[0].id == "C1"
            && IsActivePair(o.store[0], "U123", "O456")
            && o.store[0].chat.messages == [Message(USER, "Hi", env.now)]
            && |o.effects| == 3
            && o.effects[1] == Ack(START_CHAT, MSG_STARTED, env,
                 StartedData("C1", [Message(USER, "Hi", env.now)], "U123", "O456", true))
  {
    assert StartChatAllowed(Caller("U123", ROLE_USER), "U123", "O456", env);
    assert !HasActiveChat([], "U123", "O456") && !HasId([], "C1");
  }

  lemma ScenarioReply(store: Store, env: Env)
    requires |store| == 1 && store[0].id == "C1" && IsActivePair(store[0], "U123", "O456")
    requires env.isValidId("C1")
    ensures var o := HandleSendMessage(store, Caller("O456", ROLE_ORGANIZER), "C1", "When are you free?", env);
            var msg := Message(ORGANIZER, "When are you free?", env.now);
            && |o.store| == 1 && ListedFor(o.store[0], "O456")
            && o.store[0].chat.messages == store[0].chat.messages + [msg]
            && |o.effects| == 3
            && o.effects[2] == Emit(ToRoom("U123"), NEW_MESSAGE,
                 NewMessageNotice("C1", msg, "O456", ROLE_ORGANIZER))
  {
    TrimOfUnpadded("When are you free?");
    assert FindById(store, "C1") == Some(0);
    assert SendAllowed(store, Caller("O456", ROLE_ORGANIZER), "C1", "When are you free?", env);
  }

  lemma ScenarioList(store: Store, env: Env)
    requires |store| == 1 && ListedFor(store[0], "O456") && env.isValidId("O456")
    ensures HandleGetAllChats(store, Caller("O456", ROLE_ORGANIZER), env).effects
            == [Emit(ToCaller, ALL_CHATS_LIST, ChatsList(store, 1))]
  {
    var o := HandleGetAllChats(store, Caller("O456", ROLE_ORGANIZER), env);
    var chats := o.effects[0].payload.chats;
    assert multiset(store) == multiset{store[0]};
    assert multiset(chats) == multiset{store[0]};
    assert chats == store by {
      assert |chats| == |multiset(chats)| == 1;
      assert chats[0] in multiset(chats);
    }
  }
}
