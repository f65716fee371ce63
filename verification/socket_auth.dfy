/**
 * Connection authentication of the realtime server: which token a handshake
 * offers, how a verification result becomes either an attached identity or a
 * rejection message, which rooms a connected socket joins, and the guard on
 * the shared server instance.
 *
 * Signature and expiry checking are outside the model: the verifier is a
 * function parameter that classifies a token.
 */
module SocketAuth {
  import opened Wrappers
  import opened Text
  import ChatProtocol

  const BEARER_PREFIX := "Bearer "

  const MSG_NO_TOKEN := "Authentication error: No token provided"
  const MSG_BAD_STRUCTURE := "Authentication error: Invalid token structure"
  const MSG_EXPIRED := "Authentication failed: Token expired"
  const MSG_INVALID := "Authentication failed: Invalid token"
  const MSG_FAILED_PREFIX := "Authentication failed: "
  const MSG_NOT_INITIALIZED := "Socket.io not initialized. Call initializeSocket first."

  /**
   * The three places a client can put its token. A missing value, `null` and the
   * empty string are all the empty string here: each is falsy.
   */
  datatype Handshake = Handshake(authToken: string, queryToken: string, authorization: string)

  /** The `user` object inside a decoded token. */
  datatype UserClaim = UserClaim(id: string, email: Option<string>)

  /** A decoded token payload. */
  datatype Claims = Claims(user: Option<UserClaim>, role: string, sessionId: Option<string>)

  /** What verifying a token can produce. */
  datatype Verification =
    | Verified(claims: Claims)
    | Expired
    | Malformed
    | OtherFailure(reason: string)

  /** The identity attached to an authenticated socket. */
  datatype SocketUser = SocketUser(id: string, role: string, email: Option<string>, sessionId: Option<string>)

  /** The outcome of a connection attempt. */
  datatype Connection =
    | Rejected(message: string)
    | Connected(user: SocketUser, rooms: seq<string>)

  /** The token the handshake offers: the first non-empty source, the header with its first "Bearer " cut out. */
  function TokenOf(h: Handshake): (t: string)
    ensures h.authToken != "" ==> t == h.authToken
    ensures h.authToken == "" && h.queryToken != "" ==> t == h.queryToken
    ensures h.authToken == "" && h.queryToken == "" ==> t == RemoveFirst(h.authorization, BEARER_PREFIX)
  {
    if h.authToken != "" then h.authToken
    else if h.queryToken != "" then h.queryToken
    else RemoveFirst(h.authorization, BEARER_PREFIX)
  }

  /** No token is offered exactly when every source is empty, a bare "Bearer " header counting as empty. */
  lemma NoTokenIff(h: Handshake)
    ensures TokenOf(h) == "" <==>
      h.authToken == "" && h.queryToken == "" && (h.authorization == "" || h.authorization == BEARER_PREFIX)
  {
    RemoveFirstEmpty(h.authorization, BEARER_PREFIX);
  }

  /** A standard bearer header yields the token it carries. */
  lemma BearerHeaderToken(token: string)
    ensures TokenOf(Handshake("", "", BEARER_PREFIX + token)) == token
  {
    RemoveLeadingPrefix(BEARER_PREFIX, token);
  }

  /** The payload names a user id and a role. */
  predicate WellFormed(c: Claims) {
    c.user.Some? && c.user.value.id != "" && c.role != ""
  }

  /** The authentication middleware: the identity to attach, or the message the connection is refused with. */
  function Authenticate(h: Handshake, verify: string -> Verification): (r: Result<SocketUser, string>)
    ensures TokenOf(h) == "" ==> r == Failure(MSG_NO_TOKEN)
    ensures TokenOf(h) != "" ==>
      match verify(TokenOf(h))
      case Verified(c) =>
        if WellFormed(c) then
          r == Success(SocketUser(c.user.value.id, c.role, c.user.value.email, c.sessionId))
        else r == Failure(MSG_BAD_STRUCTURE)
      case Expired => r == Failure(MSG_EXPIRED)
      case Malformed => r == Failure(MSG_INVALID)
      case OtherFailure(reason) => r == Failure(MSG_FAILED_PREFIX + reason)
    // an identity is attached exactly when a token is offered, verifies and is well formed
    ensures r.Success? <==>
      && TokenOf(h) != ""
      && verify(TokenOf(h)).Verified?
      && WellFormed(verify(TokenOf(h)).claims)
    ensures r.Success? ==> r.value.id != "" && r.value.role != ""
    // a refusal carries one of the fixed messages or the verifier's own reason
    ensures r.Failure? ==>
      || r.error in {MSG_NO_TOKEN, MSG_BAD_STRUCTURE, MSG_EXPIRED, MSG_INVALID}
      || (verify(TokenOf(h)).OtherFailure? && r.error == MSG_FAILED_PREFIX + verify(TokenOf(h)).reason)
  {
    var token := TokenOf(h);
    if token == "" then Failure(MSG_NO_TOKEN)
    else match verify(token)
      case Verified(c) =>
        if !WellFormed(c) then Failure(MSG_BAD_STRUCTURE)
        else Success(SocketUser(c.user.value.id, c.role, c.user.value.email, c.sessionId))
      case Expired => Failure(MSG_EXPIRED)
      case Malformed => Failure(MSG_INVALID)
      case OtherFailure(reason) => Failure(MSG_FAILED_PREFIX + reason)
  }

  /** The rooms a connected socket joins: its personal room when it has an id, then its lower-cased role. */
  function RoomsOf(user: SocketUser): (rooms: seq<string>)
    ensures user.id != "" ==> |rooms| == 2 && rooms[0] == user.id
    ensures user.id == "" ==> |rooms| == 1
    ensures rooms[|rooms| - 1] == ToLower(user.role)
  {
    (if user.id != "" then [user.id] else []) + [ToLower(user.role)]
  }

  /** A connection attempt: the middleware, then the room joins of the connection handler. */
  function Connect(h: Handshake, verify: string -> Verification): (c: Connection)
    ensures c.Rejected? <==> Authenticate(h, verify).Failure?
    ensures c.Rejected? ==> c.message == Authenticate(h, verify).error
    ensures c.Connected? ==>
      && c.user == Authenticate(h, verify).value
      && c.rooms == [c.user.id, ToLower(c.user.role)]
  {
    match Authenticate(h, verify)
    case Failure(message) => Rejected(message)
    case Success(user) => Connected(user, RoomsOf(user))
  }

  /**
   * A conversation started with an organizer who is connected is announced in that
   * organizer's personal room: the `new_chat` notice targets the first room the
   * organizer's socket joined.
   */
  lemma NewChatReachesOrganizer(h: Handshake, verify: string -> Verification, store: ChatProtocol.Store,
                                caller: ChatProtocol.Caller, userId: string, initialMessage: string,
                                env: ChatProtocol.Env)
    requires Connect(h, verify).Connected?
    requires ChatProtocol.StartChatAllowed(caller, userId, Connect(h, verify).user.id, env)
    requires !ChatProtocol.HasActiveChat(store, userId, Connect(h, verify).user.id)
    requires !ChatProtocol.HasId(store, env.newId)
    ensures var c := Connect(h, verify);
            var o := ChatProtocol.HandleStartChat(store, caller, userId, c.user.id, initialMessage, env);
            && |o.effects| == 3
            && o.effects[2].Emit? && o.effects[2].event == ChatProtocol.NEW_CHAT
            && o.effects[2].target == ChatProtocol.ToRoom(c.rooms[0])
  {
  }

  /** The module-level server slot, empty until initialization. */
  datatype IoSlot<S> = Uninitialized | Initialized(server: S)

  function InitializeSocket<S>(server: S): (slot: IoSlot<S>)
    ensures slot.Initialized? && slot.server == server
    ensures GetIo(slot) == Success(server)
  {
    Initialized(server)
  }

  /** The server instance, or the error thrown before initialization. */
  function GetIo<S>(slot: IoSlot<S>): (r: Result<S, string>)
    ensures r.Failure? <==> slot.Uninitialized?
    ensures r.Failure? ==> r.error == MSG_NOT_INITIALIZED
  {
    match slot
    case Uninitialized => Failure(MSG_NOT_INITIALIZED)
    case Initialized(server) => Success(server)
  }
}
