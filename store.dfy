/** Records exchanged with the event store, the user store and object storage,
    the replies those collaborators give, and the calls the dashboard and the
    login button issue to them.  The collaborators' own code is not modelled:
    a `Backend` value fixes, for every argument, the reply a call receives. */
module Store {

  datatype Option<T> = None | Some(value: T)

  /** A settled promise of a store helper: its value, or the exception it threw
      (identified by the error's `name`). */
  datatype Reply<T> = Returned(value: T) | Threw(name: string)

  /** A settled object-storage upload (the completion of an upload), which has no value. */
  datatype Settled = Resolved | Rejected(name: string)

  /** The role written into a user record; `NoRole` is JavaScript's `null`. */
  datatype Role = Organizer | NoRole

  /** An event record as stored and as returned by the three event queries. */
  datatype EventData = EventData(
    id: string,
    name: string,
    date: string,
    description: Option<string>,
    coverImage: string,
    photoCount: nat,
    videoCount: nat,
    guestCount: nat,
    userEmail: string,
    organizerId: string,
    userId: string,
    createdAt: string,
    updatedAt: string)

  /** The roll-up counters shown on the dashboard. */
  datatype Stats = Stats(eventCount: nat, photoCount: nat, videoCount: nat, guestCount: nat)

  const ZeroStats := Stats(0, 0, 0, 0)

  /** What a stored user record holds under `createdEvents`: nothing, a value
      that is not an array, or an array of event ids. */
  datatype CreatedEventsField = Missing | NotAnArray | IdList(ids: seq<string>)

  /** The fields of a stored user record that this code reads. */
  datatype UserRecord = UserRecord(mobile: Option<string>, createdEvents: CreatedEventsField)

  /** The argument of `storeUserCredentials`; `createdEvents` is `None` when
      the caller leaves the property out. */
  datatype UserWrite = UserWrite(
    userId: string,
    email: string,
    name: string,
    mobile: string,
    role: Role,
    createdEvents: Option<seq<string>>)

  /** One call to an external collaborator, in the order it is issued. */
  datatype Call =
    | GetUserEvents(email: string)
    | GetEventsByOrganizerId(organizerId: string)
    | GetEventsByUserId(userId: string)
    | GetEventStatistics(email: string)
    | GetUserByEmail(email: string)
    | QueryUserByEmail(email: string)
    | StoreUserCredentials(user: UserWrite)
    | Upload(key: string, contentType: string)
    | StoreEventData(event: EventData)
    | DeleteEvent(eventId: string, ownerEmail: string)

  /** The replies of every collaborator, as functions of the call's argument,
      and the configured bucket name. */
  datatype Backend = Backend(
    bucket: string,
    userEvents: string -> Reply<seq<EventData>>,
    eventsByOrganizerId: string -> Reply<seq<EventData>>,
    eventsByUserId: string -> Reply<seq<EventData>>,
    eventStatistics: string -> Reply<Stats>,
    userByEmail: string -> Reply<Option<UserRecord>>,
    queryUserByEmail: string -> Reply<Option<UserRecord>>,
    storeUser: UserWrite -> Reply<bool>,
    upload: string -> Settled,
    storeEvent: EventData -> Reply<bool>,
    deleteEvent: (string, string) -> Reply<bool>)

  /** Whether `call` throws (or, for an upload, rejects) under `backend`. */
  predicate Fails(call: Call, backend: Backend) {
    match call
    case GetUserEvents(e) => backend.userEvents(e).Threw?
    case GetEventsByOrganizerId(e) => backend.eventsByOrganizerId(e).Threw?
    case GetEventsByUserId(e) => backend.eventsByUserId(e).Threw?
    case GetEventStatistics(e) => backend.eventStatistics(e).Threw?
    case GetUserByEmail(e) => backend.userByEmail(e).Threw?
    case QueryUserByEmail(e) => backend.queryUserByEmail(e).Threw?
    case StoreUserCredentials(u) => backend.storeUser(u).Threw?
    case Upload(key, _) => backend.upload(key).Rejected?
    case StoreEventData(ev) => backend.storeEvent(ev).Threw?
    case DeleteEvent(id, owner) => backend.deleteEvent(id, owner).Threw?
  }

  /** A value read from browser storage counts as present when it is neither
      missing nor the empty string (both are falsy in JavaScript). */
  predicate Present(stored: Option<string>) {
    stored.Some? && stored.value != ""
  }
}
