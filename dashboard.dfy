/** The state of the event dashboard and its handlers: loading the
    aggregated events, refreshing the statistics, creating an event and
    confirming a deletion.  The identifier read from browser storage, the
    cached profile fields, the generated short id and the clock readings are
    parameters; the collaborators' replies come from a `Backend`. */
module Dashboard {
  import opened Store
  import opened EventMerge
  import opened Provisioning

  /** The deletion dialog: whether it is open and which event it is about. */
  datatype DeleteConfirmation = DeleteConfirmation(isOpen: bool, eventId: string, userEmail: string)

  const ClosedConfirmation := DeleteConfirmation(false, "", "")

  /** The form state before anything is typed, and after a successful creation. */
  const InitialDraft := Draft("", "", None, None)
  const ClearedDraft := Draft("", "", Some(""), None)

  /** How a click on the dialog's delete button ends. */
  datatype DeleteOutcome =
    | Ignored          // the dialog holds no event id or no owner: nothing happens
    | Deleted          // the store removed the event
    | DeleteRefused    // alert: failed to delete
    | DeleteErrored    // alert: an error occurred

  /** The three discovery queries, in the order they are awaited. */
  function QueryCalls(email: string): seq<Call> {
    [GetUserEvents(email), GetEventsByOrganizerId(email), GetEventsByUserId(email)]
  }

  predicate QueriesSucceed(email: string, backend: Backend) {
    backend.userEvents(email).Returned? &&
    backend.eventsByOrganizerId(email).Returned? &&
    backend.eventsByUserId(email).Returned?
  }

  /** The snapshot a statistics refresh leaves: the store's, or all zeros when
      the call throws. */
  function RefreshedStats(email: string, backend: Backend): Stats {
    match backend.eventStatistics(email)
    case Returned(s) => s
    case Threw(_) => ZeroStats
  }

  /** The event list after a reload that started from `current`: the merge
      when all three queries return, `current` otherwise. */
  function ReloadedEvents(email: string, backend: Backend, current: seq<EventData>): seq<EventData> {
    if QueriesSucceed(email, backend)
    then Merge(backend.userEvents(email).value, backend.eventsByOrganizerId(email).value, backend.eventsByUserId(email).value)
    else current
  }

  /** The calls of an events reload for an identifier: the three queries in
      turn up to and including the first that throws; when none throws, all
      three followed by the statistics query. */
  function LoadTrace(email: string, backend: Backend): seq<Call> {
    if backend.userEvents(email).Threw? then [GetUserEvents(email)]
    else if backend.eventsByOrganizerId(email).Threw? then [GetUserEvents(email), GetEventsByOrganizerId(email)]
    else if backend.eventsByUserId(email).Threw? then QueryCalls(email)
    else QueryCalls(email) + [GetEventStatistics(email)]
  }

  /** The calls after a stored event record: statistics, then events. */
  function RefreshTrace(email: string, backend: Backend): seq<Call> {
    [GetEventStatistics(email)] + LoadTrace(email, backend)
  }

  /** A call that only reads from the stores. */
  predicate IsRead(call: Call) {
    call.GetUserEvents? || call.GetEventsByOrganizerId? || call.GetEventsByUserId? || call.GetEventStatistics?
  }

  /** The reloads after a creation or a deletion only read: they write no
      event or user record, upload nothing and delete nothing. */
  lemma RefreshReadsOnly(email: string, backend: Backend)
    ensures 2 <= |RefreshTrace(email, backend)| <= 5
    ensures forall k :: 0 <= k < |RefreshTrace(email, backend)| ==> IsRead(RefreshTrace(email, backend)[k])
  {
  }

  /** A successful creation writes exactly one event record: the last call of
      the pipeline, since every later call is a reload. */
  lemma CreationWritesOneRecord(calls: seq<Call>, n: nat, outcome: CreateOutcome, email: string, draft: Draft,
                                name: string, mobile: string, eventId: string, createdAt: string,
                                updatedAt: string, backend: Backend)
    requires 0 < n <= |calls|
    requires ProvisionTrace(calls[..n], outcome, email, draft, name, mobile, eventId, createdAt, updatedAt, backend)
    requires calls[n..] == RefreshTrace(email, backend)
    ensures forall k :: 0 <= k < |calls| && calls[k].StoreEventData? ==> k == n - 1
  {
    var pipeline := calls[..n];
    RefreshReadsOnly(email, backend);
    if backend.userByEmail(email).Returned? {
      NoRecordWriteOnFailure(pipeline[2..], outcome, email, draft, eventId, createdAt, updatedAt, backend);
    }
    forall k | 0 <= k < |calls| && k != n - 1
      ensures !calls[k].StoreEventData?
    {
      if k >= n {
        assert calls[k] == RefreshTrace(email, backend)[k - n];
      } else if k >= 2 {
        assert calls[k] == pipeline[2..][k - 2];
      } else {
        assert calls[k] == pipeline[k];
      }
    }
  }

  class EventDashboard {
    var events: seq<EventData>
    var stats: Stats
    var deleteConfirmation: DeleteConfirmation
    var isModalOpen: bool
    var newEvent: Draft
    /** The role held in the shared user context. */
    var userRole: Role

    constructor (userRole: Role)
      ensures events == [] && stats == ZeroStats && deleteConfirmation == ClosedConfirmation
      ensures !isModalOpen && newEvent == InitialDraft && this.userRole == userRole
    {
      events := [];
      stats := ZeroStats;
      deleteConfirmation := ClosedConfirmation;
      isModalOpen := false;
      newEvent := InitialDraft;
      this.userRole := userRole;
    }

    /** The form's change handlers, which replace the draft. */
    method EditDraft(draft: Draft)
      modifies this
      ensures newEvent == draft
      ensures events == old(events) && stats == old(stats) && deleteConfirmation == old(deleteConfirmation)
      ensures isModalOpen == old(isModalOpen) && userRole == old(userRole)
    {
      newEvent := draft;
    }

    /** `loadEventStatistics`: no call without an identifier; otherwise the
        snapshot is the store's, or zero when the call throws. */
    method LoadEventStatistics(session: Option<string>, backend: Backend) returns (calls: seq<Call>)
      modifies this
      ensures !Present(session) ==> calls == [] && stats == old(stats)
      ensures Present(session) ==>
                calls == [GetEventStatistics(session.value)] &&
                stats == RefreshedStats(session.value, backend)
      ensures Present(session) && backend.eventStatistics(session.value).Threw? ==> stats == ZeroStats
      ensures events == old(events) && deleteConfirmation == old(deleteConfirmation)
      ensures isModalOpen == old(isModalOpen) && newEvent == old(newEvent) && userRole == old(userRole)
    {
      calls := [];
      if Present(session) {
        var email := session.value;
        calls := [GetEventStatistics(email)];
        var statistics := backend.eventStatistics(email);
        match statistics {
          case Returned(s) => stats := s;
          case Threw(_) => stats := ZeroStats;
        }
      }
    }

    /** `loadEvents`: without an identifier nothing is queried; the three
        queries are awaited in turn and the first throw ends the load with the
        list untouched; otherwise the list becomes the merge and the statistics
        are refreshed. */
    method LoadEvents(session: Option<string>, backend: Backend) returns (calls: seq<Call>)
      modifies this
      ensures !Present(session) ==> calls == [] && events == old(events) && stats == old(stats)
      ensures Present(session) ==> calls == LoadTrace(session.value, backend)
      ensures Present(session) && !QueriesSucceed(session.value, backend) ==>
                1 <= |calls| <= 3 && calls == QueryCalls(session.value)[..|calls|] &&
                Fails(calls[|calls| - 1], backend) &&
                (forall k :: 0 <= k < |calls| - 1 ==> !Fails(calls[k], backend)) &&
                events == old(events) && stats == old(stats)
      ensures Present(session) && QueriesSucceed(session.value, backend) ==>
                var email := session.value;
                calls == QueryCalls(email) + [GetEventStatistics(email)] &&
                events == Merge(backend.userEvents(email).value,
                                backend.eventsByOrganizerId(email).value,
                                backend.eventsByUserId(email).value) &&
                stats == RefreshedStats(email, backend)
      ensures deleteConfirmation == old(deleteConfirmation)
      ensures isModalOpen == old(isModalOpen) && newEvent == old(newEvent) && userRole == old(userRole)
    {
      calls := [];
      if !Present(session) {
        return;
      }
      var email := session.value;
      calls := [GetUserEvents(email)];
      var userEvents := backend.userEvents(email);
      if userEvents.Threw? {
        return;
      }
      calls := calls + [GetEventsByOrganizerId(email)];
      var organizerEvents := backend.eventsByOrganizerId(email);
      if organizerEvents.Threw? {
        return;
      }
      calls := calls + [GetEventsByUserId(email)];
      var userIdEvents := backend.eventsByUserId(email);
      if userIdEvents.Threw? {
        return;
      }
      var allEvents := MergeEvents(userEvents.value, organizerEvents.value, userIdEvents.value);
      events := allEvents;
      var statsCalls := LoadEventStatistics(session, backend);
      calls := calls + statsCalls;
    }

    /** `handleCreateEvent`.  Validation and the identifier check come first
        and change nothing; the provisioning steps follow; only a stored
        record refreshes the views, closes the form and clears the draft. */
    method CreateEvent(session: Option<string>, name: string, mobile: string, eventId: string,
                       createdAt: string, updatedAt: string, backend: Backend)
      returns (calls: seq<Call>, outcome: CreateOutcome)
      modifies this
      ensures old(newEvent).name == "" || old(newEvent).date == "" ==>
                outcome == MissingFields && calls == [] && unchanged(this)
      ensures old(newEvent).name != "" && old(newEvent).date != "" && !Present(session) ==>
                outcome == NotAuthenticated && calls == [] && unchanged(this)
      ensures old(newEvent).name != "" && old(newEvent).date != "" && Present(session) ==>
                |calls| >= 1 && calls[0] == GetUserByEmail(session.value) &&
                outcome != MissingFields && outcome != NotAuthenticated
      // the role in the context becomes organizer exactly when the user write returned true
      ensures userRole ==
                if old(newEvent).name != "" && old(newEvent).date != "" && Present(session) &&
                   WritePromotes(session.value, name, mobile, eventId, backend)
                then Organizer else old(userRole)
      ensures outcome.Created? <==>
                old(newEvent).name != "" && old(newEvent).date != "" && Present(session) &&
                RecordStored(session.value, old(newEvent), eventId, createdAt, updatedAt, backend)
      ensures old(newEvent).name != "" && old(newEvent).date != "" && Present(session) && !outcome.Created? ==>
                ProvisionTrace(calls, outcome, session.value, old(newEvent), name, mobile, eventId, createdAt, updatedAt, backend)
      ensures outcome.Created? ==>
                var email := session.value;
                outcome.eventId == eventId &&
                (exists n :: 0 < n < |calls| - 1 && calls[n - 1].StoreEventData? &&
                             ProvisionTrace(calls[..n], outcome, email, old(newEvent), name, mobile, eventId,
                                            createdAt, updatedAt, backend) &&
                             calls[n..] == RefreshTrace(email, backend)) &&
                !isModalOpen && newEvent == ClearedDraft &&
                stats == RefreshedStats(email, backend) &&
                events == ReloadedEvents(email, backend, old(events))
      ensures !outcome.Created? ==>
                events == old(events) && stats == old(stats) &&
                isModalOpen == old(isModalOpen) && newEvent == old(newEvent)
      ensures deleteConfirmation == old(deleteConfirmation)
    {
      calls := [];
      if newEvent.name == "" || newEvent.date == "" {
        return calls, MissingFields;
      }
      if !Present(session) {
        return calls, NotAuthenticated;
      }
      calls, outcome := RunCreation(session, name, mobile, eventId, createdAt, updatedAt, backend);
    }

    /** `handleCreateEvent` past validation and the identifier check. */
    method RunCreation(session: Option<string>, name: string, mobile: string, eventId: string,
                       createdAt: string, updatedAt: string, backend: Backend)
      returns (calls: seq<Call>, outcome: CreateOutcome)
      requires Present(session)
      modifies this
      ensures |calls| >= 1 && calls[0] == GetUserByEmail(session.value)
      ensures outcome != MissingFields && outcome != NotAuthenticated
      ensures userRole == if WritePromotes(session.value, name, mobile, eventId, backend) then Organizer else old(userRole)
      ensures outcome.Created? <==> RecordStored(session.value, old(newEvent), eventId, createdAt, updatedAt, backend)
      // short of success the calls are exactly those of the pipeline
      ensures !outcome.Created? ==>
                ProvisionTrace(calls, outcome, session.value, old(newEvent), name, mobile, eventId, createdAt, updatedAt, backend)
      // on success the pipeline's calls, ending with the record write, are followed by the reloads
      ensures outcome.Created? ==>
                var email := session.value;
                outcome.eventId == eventId &&
                (exists n :: 0 < n < |calls| - 1 && calls[n - 1].StoreEventData? &&
                             ProvisionTrace(calls[..n], outcome, email, old(newEvent), name, mobile, eventId,
                                            createdAt, updatedAt, backend) &&
                             calls[n..] == RefreshTrace(email, backend)) &&
                !isModalOpen && newEvent == ClearedDraft &&
                stats == RefreshedStats(email, backend) &&
                events == ReloadedEvents(email, backend, old(events))
      ensures !outcome.Created? ==>
                events == old(events) && stats == old(stats) &&
                isModalOpen == old(isModalOpen) && newEvent == old(newEvent)
      ensures deleteConfirmation == old(deleteConfirmation)
    {
      var email := session.value;
      var draft := newEvent;
      var promoted;
      calls, outcome, promoted := ProvisionEvent(email, draft, name, mobile, eventId, createdAt, updatedAt, backend);
      if promoted {
        userRole := Organizer;
      }
      if outcome.Created? {
        var refreshCalls := FinishCreation(session, backend);
        ghost var n := |calls|;
        ghost var provisionCalls := calls;
        calls := calls + refreshCalls;
        assert calls[..n] == provisionCalls && calls[n..] == refreshCalls;
        assert calls[n - 1].StoreEventData?;
      }
    }

    /** The success branch of `handleCreateEvent`: statistics, then events,
        are reloaded, the form is closed and the draft cleared. */
    method FinishCreation(session: Option<string>, backend: Backend) returns (calls: seq<Call>)
      requires Present(session)
      modifies this
      ensures calls == RefreshTrace(session.value, backend)
      ensures !isModalOpen && newEvent == ClearedDraft
      ensures stats == RefreshedStats(session.value, backend)
      ensures events == ReloadedEvents(session.value, backend, old(events))
      ensures deleteConfirmation == old(deleteConfirmation) && userRole == old(userRole)
    {
      var statsCalls := LoadEventStatistics(session, backend);
      var loadCalls := LoadEvents(session, backend);
      calls := statsCalls + loadCalls;
      isModalOpen := false;
      newEvent := ClearedDraft;
    }

    /** `handleDeleteClick`: the dialog opens for the given event and owner. */
    method DeleteClick(eventId: string, userEmail: string)
      modifies this
      ensures deleteConfirmation == DeleteConfirmation(true, eventId, userEmail)
      ensures events == old(events) && stats == old(stats) && isModalOpen == old(isModalOpen)
      ensures newEvent == old(newEvent) && userRole == old(userRole)
    {
      deleteConfirmation := DeleteConfirmation(true, eventId, userEmail);
    }

    /** `handleConfirmDelete`: the store is asked only when the dialog holds
        both an event id and an owner; the dialog is closed, and the views
        refreshed, only when the deletion returns true. */
    method ConfirmDelete(session: Option<string>, backend: Backend) returns (calls: seq<Call>, outcome: DeleteOutcome)
      modifies this
      ensures old(deleteConfirmation).eventId == "" || old(deleteConfirmation).userEmail == "" ==>
                outcome == Ignored && calls == [] && unchanged(this)
      ensures old(deleteConfirmation).eventId != "" && old(deleteConfirmation).userEmail != "" ==>
                |calls| >= 1 &&
                calls[0] == DeleteEvent(old(deleteConfirmation).eventId, old(deleteConfirmation).userEmail) &&
                outcome == match backend.deleteEvent(old(deleteConfirmation).eventId, old(deleteConfirmation).userEmail)
                           case Returned(true) => Deleted
                           case Returned(false) => DeleteRefused
                           case Threw(_) => DeleteErrored
      ensures outcome != Deleted ==> unchanged(this) && |calls| <= 1
      // after a deletion only the reloads follow: events, then statistics
      ensures outcome == Deleted ==>
                deleteConfirmation == ClosedConfirmation &&
                (Present(session) ==> calls[1..] == LoadTrace(session.value, backend) + [GetEventStatistics(session.value)] &&
                                      stats == RefreshedStats(session.value, backend)) &&
                (!Present(session) ==> calls == [calls[0]] && stats == old(stats)) &&
                events == (if Present(session) && QueriesSucceed(session.value, backend)
                           then Merge(backend.userEvents(session.value).value,
                                      backend.eventsByOrganizerId(session.value).value,
                                      backend.eventsByUserId(session.value).value)
                           else old(events)) &&
                isModalOpen == old(isModalOpen) && newEvent == old(newEvent) && userRole == old(userRole)
    {
      calls := [];
      outcome := Ignored;
      if deleteConfirmation.eventId != "" && deleteConfirmation.userEmail != "" {
        calls := [DeleteEvent(deleteConfirmation.eventId, deleteConfirmation.userEmail)];
        var reply := backend.deleteEvent(deleteConfirmation.eventId, deleteConfirmation.userEmail);
        match reply {
          case Threw(_) =>
            outcome := DeleteErrored;
          case Returned(success) =>
            if success {
              var loadCalls := LoadEvents(session, backend);
              var statsCalls := LoadEventStatistics(session, backend);
              calls := calls + loadCalls + statsCalls;
              deleteConfirmation := ClosedConfirmation;
              outcome := Deleted;
            } else {
              outcome := DeleteRefused;
            }
        }
      }
    }
  }
}
