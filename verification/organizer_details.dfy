/**
 * The organizer profile screen: the guard in front of the chat button, the
 * route it opens, the availability count, the empty-input fallbacks of its
 * formatters and the profile-picture fallback.
 */
module OrganizerDetails {
  import opened Wrappers
  import SA = SocketActions
  import ChatView

  const CHAT_SCREEN := "Chat"
  const LOGIN_ALERT := "Please log in to start a chat"
  const PLACEHOLDER_URL := "https://via.placeholder.com/150?text="
  const NO_DATE := "N/A"

  /** One availability slot of an organizer. */
  datatype Slot = Slot(isAvailable: bool)

  /** The organizer passed in the route; an empty string stands for a missing field. */
  datatype Organizer = Organizer(id: string, userName: string, profilePicture: string, availability: seq<Slot>)

  /** The route the chat button opens; the chat id is `null`, so the chat screen starts a chat. */
  datatype ChatRoute = ChatRoute(participantId: string, participantName: string, chatId: Option<string>, currentUserId: string)

  datatype Press = Alert(message: string) | Navigate(screen: string, route: ChatRoute)

  /** `handleChatPress`: without a signed-in user an alert, otherwise the chat screen with this organizer. */
  function HandleChatPress(o: Organizer, currentUserId: string): (p: Press)
    ensures p.Alert? <==> currentUserId == ""
    ensures p.Alert? ==> p.message == LOGIN_ALERT
    ensures p.Navigate? ==>
      && p.screen == CHAT_SCREEN
      && p.route == ChatRoute(o.id, o.userName, None, currentUserId)
  {
    if currentUserId == "" then Alert(LOGIN_ALERT)
    else Navigate(CHAT_SCREEN, ChatRoute(o.id, o.userName, None, currentUserId))
  }

  /** How the chat screen reads the route: a missing chat id becomes the empty string. */
  function ChatParams(r: ChatRoute): (p: ChatView.Params)
    ensures p.participantId == r.participantId && p.currentUserId == r.currentUserId
    ensures r.chatId.None? ==> p.chatId == ""
  {
    ChatView.Params(r.participantId, if r.chatId.Some? then r.chatId.value else "", r.currentUserId)
  }

  /**
   * Pressing the chat button as a signed-in user and mounting the chat screen on the
   * route it opens sends exactly one start-chat request, from that user to this organizer.
   */
  lemma ChatPressStartsChat(o: Organizer, currentUserId: string, registry: SA.Registry)
    requires currentUserId != "" && o.id != ""
    ensures var p := HandleChatPress(o, currentUserId);
      var params := ChatParams(p.route);
      var s := ChatView.Mount(ChatView.Initial(params, registry), params);
      SA.EmittedOnce(ChatView.ListenAll(registry), s.registry, SA.START_CHAT,
        Some(SA.StartChatData(currentUserId, o.id, ChatView.OPENING_REQUEST)))
  {
  }

  /** The number of slots marked available. */
  function AvailableCount(slots: seq<Slot>): (n: nat)
    ensures n <= |slots|
    ensures n == |slots| <==> forall i :: 0 <= i < |slots| ==> slots[i].isAvailable
    ensures n == 0 <==> forall i :: 0 <= i < |slots| ==> !slots[i].isAvailable
  {
    if slots == [] then 0
    else (if slots[0].isAvailable then 1 else 0) + AvailableCount(slots[1..])
  }

  /** The count of the available slots of a concatenation adds up. */
  lemma {:induction false} AvailableCountAppend(a: seq<Slot>, b: seq<Slot>)
    ensures AvailableCount(a + b) == AvailableCount(a) + AvailableCount(b)
    decreases |a|
  {
    if a == [] {
      assert a + b == b;
    } else {
      assert (a + b)[1..] == a[1..] + b;
      AvailableCountAppend(a[1..], b);
    }
  }

  /** The "Available" statistic of the screen. */
  function AvailableStat(o: Organizer): (n: nat)
    ensures n <= |o.availability|
  {
    AvailableCount(o.availability)
  }

  /** `formatDate`: "N/A" for a missing date; the locale formatting of a present one is a parameter. */
  function FormatDate(s: string, locale: string -> string): (r: string)
    ensures s == "" ==> r == NO_DATE
    ensures s != "" ==> r == locale(s)
  {
    if s == "" then NO_DATE else locale(s)
  }

  /** `formatTime`: the empty string for a missing date. */
  function FormatTime(s: string, locale: string -> string): (r: string)
    ensures s == "" ==> r == ""
    ensures s != "" ==> r == locale(s)
  {
    if s == "" then "" else locale(s)
  }

  /**
   * A missing date and a present one are told apart on screen: locale formatting
   * never yields "N/A" (an unparsable date shows "Invalid Date"), so "N/A" appears
   * exactly for a missing date.
   */
  lemma FormatDateMissingIff(s: string, locale: string -> string)
    requires forall x :: locale(x) != NO_DATE
    ensures FormatDate(s, locale) == NO_DATE <==> s == ""
  {
  }

  /** Locale time formatting never yields the empty string, so a time is blank exactly for a missing date. */
  lemma FormatTimeBlankIff(s: string, locale: string -> string)
    requires forall x :: locale(x) != ""
    ensures FormatTime(s, locale) == "" <==> s == ""
  {
  }

  /** The picture shown: the stored one, else a placeholder labelled by the name's first character, or "O". */
  function ProfilePicture(o: Organizer): (url: string)
    // there is always something to show, and the stored picture is kept exactly when there is one
    ensures url != ""
    ensures url == o.profilePicture <==> o.profilePicture != ""
    ensures o.profilePicture == "" ==>
      && |url| == |PLACEHOLDER_URL| + 1
      && url[..|PLACEHOLDER_URL|] == PLACEHOLDER_URL
      && url[|PLACEHOLDER_URL|] == (if o.userName != "" then o.userName[0] else 'O')
  {
    if o.profilePicture != "" then o.profilePicture
    else PLACEHOLDER_URL + [if o.userName != "" then o.userName[0] else 'O']
  }

  /** Two organizers without a stored picture get the same placeholder exactly when their names start alike. */
  lemma PlaceholderFollowsInitial(o1: Organizer, o2: Organizer)
    requires o1.profilePicture == "" && o2.profilePicture == ""
    ensures ProfilePicture(o1) == ProfilePicture(o2) <==>
      (if o1.userName != "" then o1.userName[0] else 'O') == (if o2.userName != "" then o2.userName[0] else 'O')
  {
    var u1, u2 := ProfilePicture(o1), ProfilePicture(o2);
    if u1 == u2 {
      assert u1[|PLACEHOLDER_URL|] == u2[|PLACEHOLDER_URL|];
    }
  }
}
