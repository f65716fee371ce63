/**
 * The two client stores: the events slice (create and list events) and the
 * organizers slice (list organizers, plus three plain reducers). Each
 * asynchronous request is a pending action followed by a fulfilled or rejected
 * one; the request itself is a parameter saying what the server answered.
 */
module EventStore {
  import opened Wrappers

  const MSG_NETWORK_ERROR := "Network Error - Could not reach server"
  const MSG_FETCH_EVENTS_FAILED := "Error fetching events"

  /** A rejection payload: the server's response body, or a bare message when there was none. */
  datatype Rejection<B> = ResponseBody(body: B) | MessageOnly(message: string)

  /** What an HTTP request returned: a value, or an error with or without a response body. */
  datatype Reply<T, B> = Ok(value: T) | Failed(body: Option<B>)

  datatype EventsState<E, B> = EventsState(events: seq<E>, loading: bool, error: Option<Rejection<B>>)

  function InitialEvents<E, B>(): (s: EventsState<E, B>)
    ensures s.events == [] && !s.loading && s.error.None?
  {
    EventsState([], false, None)
  }

  datatype EventsAction<E, B> =
    | CreatePending
    | CreateFulfilled(event: E)
    | CreateRejected(rejection: Rejection<B>)
    | ListPending
    | ListFulfilled(all: seq<E>)
    | ListRejected(rejection: Rejection<B>)

  /** The rejection a failed request produces: its body when the server sent one, else the fixed message. */
  function RejectionOf<B>(body: Option<B>, fallback: string): (r: Rejection<B>)
    ensures body.Some? ==> r == ResponseBody(body.value)
    ensures body.None? ==> r == MessageOnly(fallback)
  {
    if body.Some? then ResponseBody(body.value) else MessageOnly(fallback)
  }

  /** The settling action of `createEvent`. */
  function CreateEventSettles<E, B>(reply: Reply<E, B>): (a: EventsAction<E, B>)
    ensures reply.Ok? <==> a.CreateFulfilled?
    ensures reply.Ok? ==> a == CreateFulfilled(reply.value)
    ensures reply.Failed? ==> a == CreateRejected(RejectionOf(reply.body, MSG_NETWORK_ERROR))
  {
    match reply
    case Ok(e) => CreateFulfilled(e)
    case Failed(body) => CreateRejected(RejectionOf(body, MSG_NETWORK_ERROR))
  }

  /** The settling action of `getAllEvents`. */
  function ListEventsSettles<E, B>(reply: Reply<seq<E>, B>): (a: EventsAction<E, B>)
    ensures reply.Ok? <==> a.ListFulfilled?
    ensures reply.Ok? ==> a == ListFulfilled(reply.value)
    ensures reply.Failed? ==> a == ListRejected(RejectionOf(reply.body, MSG_FETCH_EVENTS_FAILED))
  {
    match reply
    case Ok(es) => ListFulfilled(es)
    case Failed(body) => ListRejected(RejectionOf(body, MSG_FETCH_EVENTS_FAILED))
  }

  /** The slice reducer. */
  function ReduceEvents<E, B>(s: EventsState<E, B>, a: EventsAction<E, B>): (s': EventsState<E, B>)
    // pending: loading, error cleared, events kept
    ensures a.CreatePending? || a.ListPending? ==> s' == s.(loading := true, error := None)
    // a created event goes on the end and nothing else in the list changes
    ensures a.CreateFulfilled? ==> s'.events == s.events + [a.event] && !s'.loading && s'.error == s.error
    // a fetched list replaces the events
    ensures a.ListFulfilled? ==> s'.events == a.all && !s'.loading && s'.error == s.error
    // a rejection keeps the events and records the payload
    ensures a.CreateRejected? || a.ListRejected? ==>
      s'.events == s.events && !s'.loading && s'.error == Some(a.rejection)
  {
    match a
    case CreatePending => s.(loading := true, error := None)
    case CreateFulfilled(e) => s.(loading := false, events := s.events + [e])
    case CreateRejected(r) => s.(loading := false, error := Some(r))
    case ListPending => s.(loading := true, error := None)
    case ListFulfilled(es) => s.(loading := false, events := es)
    case ListRejected(r) => s.(loading := false, error := Some(r))
  }

  function ReduceAllEvents<E, B>(s: EventsState<E, B>, actions: seq<EventsAction<E, B>>): EventsState<E, B>
    decreases |actions|
  {
    if actions == [] then s else ReduceAllEvents(ReduceEvents(s, actions[0]), actions[1..])
  }

  /** The events created by a run of actions, in order. */
  function Created<E, B>(actions: seq<EventsAction<E, B>>): seq<E>
    decreases |actions|
  {
    if actions == [] then []
    else (if actions[0].CreateFulfilled? then [actions[0].event] else []) + Created(actions[1..])
  }

  /**
   * Without a list fetch in between, the store's events are the ones it had followed
   * by every created event in the order the creations settled.
   */
  lemma {:induction false} CreationsAppendInOrder<E, B>(s: EventsState<E, B>, actions: seq<EventsAction<E, B>>)
    requires forall i :: 0 <= i < |actions| ==> !actions[i].ListFulfilled?
    ensures ReduceAllEvents(s, actions).events == s.events + Created(actions)
    decreases |actions|
  {
    if actions != [] {
      var head := if actions[0].CreateFulfilled? then [actions[0].event] else [];
      var next := ReduceEvents(s, actions[0]);
      assert next.events == s.events + head;
      CreationsAppendInOrder(next, actions[1..]);
      assert Created(actions) == head + Created(actions[1..]);
      assert (s.events + head) + Created(actions[1..]) == s.events + (head + Created(actions[1..]));
    }
  }

  /** A request that reaches no server settles into a rejection with the fixed message, keeping the events. */
  lemma CreateWithoutServer<E, B>(s: EventsState<E, B>)
    ensures var s' := ReduceEvents(ReduceEvents(s, CreatePending), CreateEventSettles(Failed(None)));
      s'.events == s.events && !s'.loading && s'.error == Some(MessageOnly(MSG_NETWORK_ERROR))
  {
  }
}

module OrganizerStore {
  import opened Wrappers

  const MSG_NOT_AUTHENTICATED := "Admin is not authenticated."
  const MSG_FETCH_ORGANIZERS_FAILED := "Failed to fetch organizers."

  datatype OrganizersState<O> = OrganizersState(
    organizers: seq<O>, currentOrganizer: Option<O>, loading: bool, error: Option<string>)

  function InitialOrganizers<O>(): (s: OrganizersState<O>)
    ensures s.organizers == [] && s.currentOrganizer.None? && !s.loading && s.error.None?
  {
    OrganizersState([], None, false, None)
  }

  datatype OrganizersAction<O> =
    | SetOrganizers(list: seq<O>)
    | ClearCurrentOrganizer
    | ClearError
    | FetchPending
    | FetchFulfilled(fetched: seq<O>)
    | FetchRejected(message: string)

  /** What the server answered: the organizers, or an error carrying a message ("" when it has none). */
  datatype Answer<O> = Organizers(list: seq<O>) | ErrorAnswer(message: string)

  /**
   * `getOrganizers`: without a stored token it rejects at once and sends no request;
   * otherwise the answer decides. The second component says whether a request was sent.
   */
  function GetOrganizers<O>(token: string, answer: Answer<O>): (r: (OrganizersAction<O>, bool))
    ensures r.1 <==> token != ""
    ensures token == "" ==> r.0 == FetchRejected(MSG_NOT_AUTHENTICATED)
    ensures token != "" && answer.Organizers? ==> r.0 == FetchFulfilled(answer.list)
    ensures token != "" && answer.ErrorAnswer? ==>
      r.0.FetchRejected? && r.0.message == (if answer.message != "" then answer.message else MSG_FETCH_ORGANIZERS_FAILED)
    ensures r.0.FetchRejected? ==> r.0.message != ""
  {
    if token == "" then (FetchRejected(MSG_NOT_AUTHENTICATED), false)
    else match answer
      case Organizers(list) => (FetchFulfilled(list), true)
      case ErrorAnswer(m) => (FetchRejected(if m != "" then m else MSG_FETCH_ORGANIZERS_FAILED), true)
  }

  /** The slice reducer; each plain reducer changes only its own field. */
  function ReduceOrganizers<O>(s: OrganizersState<O>, a: OrganizersAction<O>): (s': OrganizersState<O>)
    ensures a.SetOrganizers? ==> s' == s.(organizers := a.list)
    ensures a.ClearCurrentOrganizer? ==> s' == s.(currentOrganizer := None)
    ensures a.ClearError? ==> s' == s.(error := None)
    ensures a.FetchPending? ==> s' == s.(loading := true, error := None)
    ensures a.FetchFulfilled? ==> s' == s.(loading := false, organizers := a.fetched)
    ensures a.FetchRejected? ==> s' == s.(loading := false, error := Some(a.message))
    ensures s'.currentOrganizer == s.currentOrganizer || a.ClearCurrentOrganizer?
  {
    match a
    case SetOrganizers(list) => s.(organizers := list)
    case ClearCurrentOrganizer => s.(currentOrganizer := None)
    case ClearError => s.(error := None)
    case FetchPending => s.(loading := true, error := None)
    case FetchFulfilled(list) => s.(loading := false, organizers := list)
    case FetchRejected(m) => s.(loading := false, error := Some(m))
  }

  /** Dispatching the request: pending, then the settling action. */
  function Dispatch<O>(s: OrganizersState<O>, token: string, answer: Answer<O>): OrganizersState<O> {
    ReduceOrganizers(ReduceOrganizers(s, FetchPending), GetOrganizers(token, answer).0)
  }

  /**
   * After a dispatch loading is over, and either the list was replaced by the
   * server's and no error is set, or the list is kept and an error is set.
   */
  lemma DispatchSettles<O>(s: OrganizersState<O>, token: string, answer: Answer<O>)
    ensures var s' := Dispatch(s, token, answer);
      && !s'.loading
      && s'.currentOrganizer == s.currentOrganizer
      && (token != "" && answer.Organizers? ==> s'.organizers == answer.list && s'.error.None?)
      && (token == "" || answer.ErrorAnswer? ==> s'.organizers == s.organizers && s'.error.Some?)
      && (token == "" ==> s'.error == Some(MSG_NOT_AUTHENTICATED))
  {
  }
}
