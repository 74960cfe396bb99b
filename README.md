# Event dashboard and sign-in handler, modelled in Dafny

This project models two parts of a photo-sharing event web application.

The first is the organizer's **event dashboard**. It does four things:
- It builds the list of the user's events from three store queries: the legacy participant field, the organizer id and the creator id. The participant result is copied whole. The organizer and creator results are then appended, except for any event whose id is already in the list. So a later copy of an id is dropped in favour of the first, but duplicates within the participant result itself stay.
- It refreshes the roll-up statistics.
- It runs the event-creation workflow. That workflow promotes the creator to organizer and appends the new id to their `createdEvents`. It then uploads the optional cover image, writes the four folder placeholders under `events/shared/{id}/`, and stores the event record.
- It confirms the deletion of an event.

The second is the **Google sign-in success handler**. It looks the user up, first by key and then with a fallback query. It creates the user record, or promotes an existing user to organizer when a `createEvent` action was pending. It then calls `onSuccess`, or calls `onError` if any step threw.

Each external collaborator is modelled as a value of the `Backend` datatype (`store.dfy`): the event store, the user store and object storage. For every argument, a `Backend` fixes the reply a call gets: a value or a thrown error, and for an upload, resolved or rejected. Every operation returns the trace of calls it issued, in order, so contracts can state which calls happen, in what order, and where a run stops.

Several values from the browser and the runtime are taken as parameters:
- the identifier and the profile fields read from browser storage;
- the generated short id;
- the clock readings;
- the decoded identity token;
- the pending action.

Modules:
- `Store` (`store.dfy`): records, replies, calls, and the `Backend`.
- `EventMerge` (`merge.dfy`): the duplicate-dropping loops of `loadEvents`, and what they compute.
- `Provisioning` (`provisioning.dfy`): storage keys, the `createdEvents` append, the folder loop, and the steps of `handleCreateEvent` after validation.
- `Dashboard` (`dashboard.dfy`): the component's state as `class EventDashboard`, whose methods are its handlers.
- `GoogleLogin` (`login.dfy`): `handleSuccess`.

The merge is proved against two definitions:
- `AppendMissing`, which follows the loop one element at a time.
- `FirstsOf`, an independent reference definition: scan from the front, keep an element whose id is not yet seen, and add that id to the seen set.

Both definitions are shown to give the same list. The merge's properties are proved from the reference shape: which ids appear, that ids are distinct exactly when the participant result's ids are, that the first copy wins, and that the participant list comes first.

Where the code and the design description of this application disagree, the model follows the code:
- **Failed user read.** The design says a failure in the role-promotion step is logged and creation continues. In the code, only the user-record write is tolerated, whether it throws or returns false. A throw from the preceding user read reaches the catch around the whole pipeline. That catch only logs, so creation stops without a message (`Abandoned(ReadingUser)`).
- **Failed cover upload.** The design says this fails the creation with a storage-write error. In the code, the rejection reaches the same log-only catch, so it ends silently (`Abandoned(UploadingCover)`). A throw from the event-record write is treated the same way (`Abandoned(StoringRecord)`). Only a record write that *returns* false shows the "failed to store" message (`RecordNotStored`).
- **Id allocation order.** The design puts allocation of the event id after role promotion. The code generates the id first, because the user write already carries it.
- **Missing identifier.** The design says loading events without an identifier yields an empty result. The code returns and leaves the current list as it was. The statistics refresh does the same.
- **Duplicate participant ids.** The design says the aggregated view holds no two events with the same id, whatever the queries return. The code copies the participant result without any check, so duplicate ids in that result reach the list. `MergeDistinctExactly` states that the merge is duplicate-free exactly when the participant result is.
- **Duplicate `createdEvents` ids.** The design says `createdEvents` has no duplicates. The code never checks this. It only appends. `CreatedEventsStayDistinct` states that the written array is duplicate-free exactly when the stored one was and the new id is not already in it.

## Model

| member | source | states |
|---|---|---|
| EventMerge.ContainsId | src/components/EventDashboard.tsx:137 | the duplicate test answers true exactly when the id is among the list's ids |
| EventMerge.PushMissing | src/components/EventDashboard.tsx:136-140 | the `forEach` loop leaves the accumulated list followed by each element whose id was not yet present, checked against the list as it grows |
| EventMerge.MergeEvents | src/components/EventDashboard.tsx:133-147 | the combined list is `Merge` of the three query results; the participant list is its prefix; its ids are the union of the three lists' ids; distinct participant ids give distinct ids overall |
| EventMerge.AppendMissingIsFirsts | src/components/EventDashboard.tsx:136-140 | the loop's append-if-missing result equals the reference scan that keeps each element whose id is unseen |
| EventMerge.MergeShape | src/components/EventDashboard.tsx:133-147 | the merge is the participant list, then the organizer events with unseen ids, then the creator events with ids seen in neither |
| EventMerge.MergeIds | src/components/EventDashboard.tsx:133-147 | an id occurs in the merge exactly when it occurs in one of the three query results |
| EventMerge.MergeElements | src/components/EventDashboard.tsx:133-147 | every event in the merge is an event returned by one of the three queries |
| EventMerge.MergeDistinct | src/components/EventDashboard.tsx:133-147 | if the participant query returns distinct ids, the merged list has pairwise distinct ids |
| EventMerge.MergeDistinctExactly | src/components/EventDashboard.tsx:133-147 | the merge has pairwise distinct ids exactly when the participant result does, since that result is copied without a check |
| EventMerge.MergeFirstCopyWins | src/components/EventDashboard.tsx:133-147 | for every id, the merge holds the first copy found in participant, organizer, creator order |
| EventMerge.MergeIdempotent | src/components/EventDashboard.tsx:136-147 | running the organizer and creator passes again on the merge changes nothing |
| Provisioning.NamespaceShape | src/components/EventDashboard.tsx:314-352 | the four folder keys and the cover key are five distinct keys, each beginning with the event's folder key |
| Provisioning.NamespacesDisjoint | src/components/EventDashboard.tsx:314-352 | for ids without `/`, a key of one event's namespace equals a key of another's only for the same event and the same position |
| Provisioning.NextCreatedEvents | src/components/EventDashboard.tsx:272-285 | the new `createdEvents` is the stored array, or empty when the record or array is missing or not an array, with the new id appended; it is duplicate-free when the stored ids were and the new id is not among them |
| Provisioning.CreatedEventsStayDistinct | src/components/EventDashboard.tsx:272-298 | the array in the creator's record write keeps every stored id and holds the new one; it is duplicate-free exactly when the stored ids were and the new id is not among them |
| Provisioning.ScaffoldFolders | src/components/EventDashboard.tsx:355-380 | the four placeholders are uploaded in order with the directory content type, stopping at the first rejection, which is reported with its error name; no failure exactly when all four resolve |
| Provisioning.UploadAndStore | src/components/EventDashboard.tsx:312-394 | the cover upload, folder uploads and record write follow the case table; a record write is issued exactly when the cover and all folders upload; creation succeeds exactly when the record built for the id is stored |
| Provisioning.NoRecordWriteOnFailure | src/components/EventDashboard.tsx:312-382 | in any run following the table, every call but the last is an upload, and a failed cover or folder upload leaves no record write |
| Provisioning.RecordOnlyAfterFolders | src/components/EventDashboard.tsx:345-394 | in any run following the table, a record write is the last call, comes right after the four folder uploads, all resolved, and carries the record for the same id and creator |
| Provisioning.ProvisionStopsAtFailedUpload | src/components/EventDashboard.tsx:312-380 | once the user read returns, a rejected cover or folder upload leaves no record write among the calls; the run ends silently for the cover, or with the first rejected folder's path and error kind |
| Provisioning.ProvisionEvent | src/components/EventDashboard.tsx:250-398 | a failed user read stops everything silently; otherwise the creator record is rewritten as organizer with the id appended, and whatever that write replies the uploads and record write follow; success exactly when the record is stored |
| Dashboard.EventDashboard.constructor | src/components/EventDashboard.tsx:51-60 | the initial state: no events, zero statistics, a closed dialog, a closed form and an empty draft |
| Dashboard.EventDashboard.EditDraft | src/components/EventDashboard.tsx:520-540 | the form's change handlers replace the draft and nothing else |
| Dashboard.EventDashboard.LoadEventStatistics | src/components/EventDashboard.tsx:165-183 | no call without an identifier; otherwise the statistics become the store's snapshot, or all zeros when the call throws |
| Dashboard.EventDashboard.LoadEvents | src/components/EventDashboard.tsx:113-159 | no query without an identifier; the calls are exactly the queries up to the first that throws, which ends the load with list and statistics unchanged; otherwise all three queries and the statistics query, the list becomes the merge and the statistics are refreshed |
| Dashboard.EventDashboard.CreateEvent | src/components/EventDashboard.tsx:234-405 | missing name/date or identifier change nothing and call nothing; the role becomes organizer exactly when the user write returns true; success exactly when the record is stored, and then the pipeline's calls end with the record write and are followed by exactly the statistics and events reloads, the form closes and the draft clears; past validation any other outcome is the one the pipeline's case table gives, with exactly the pipeline's calls, and leaves the lists and form as they were |
| Dashboard.EventDashboard.RunCreation | src/components/EventDashboard.tsx:250-398 | the inner pipeline for an authenticated user: its calls and outcome follow the pipeline's case table (read throw, organizer write, uploads, record reply); the role becomes organizer exactly when the user write returns true; only on success are the views reloaded, and the calls after the record write are exactly the reloads' queries |
| Dashboard.EventDashboard.FinishCreation | src/components/EventDashboard.tsx:383-391 | the calls are exactly the statistics query and then the events reload's queries; the statistics and list are refreshed, the form is closed and the draft cleared |
| Dashboard.RefreshReadsOnly | src/components/EventDashboard.tsx:383-391 | the reloads after a creation issue two to five calls, all of them read queries |
| Dashboard.CreationWritesOneRecord | src/components/EventDashboard.tsx:382-391 | in a successful creation's calls, the only event-record write is the pipeline's last call; everything after it is a reload |
| Dashboard.EventDashboard.DeleteClick | src/components/EventDashboard.tsx:426-428 | the dialog opens for the given event and owner, nothing else changes |
| Dashboard.EventDashboard.ConfirmDelete | src/components/EventDashboard.tsx:407-424 | the store is asked only when the dialog holds an id and an owner; the outcome follows its reply; only a true reply reloads the views, with exactly the events reload's queries and then the statistics query after the deletion, and closes the dialog; otherwise nothing changes |
| GoogleLogin.HandleSuccess | src/components/GoogleLogin.tsx:19-62 | the calls are exactly the lookup, the fallback query when the lookup finds no user, and at most one user write, so never more than three; the fallback query runs exactly when the first lookup finds no user; the calls stop at the first throw, which leads to `onError`; a new user is created with organizer role exactly for a pending `createEvent`; an existing user is rewritten as organizer only for that action, keeping their mobile; otherwise no write and `onSuccess` |

## Left out

- Browser storage, the JSON parsing of the cached profile, the short-id generator, the clock and the decoding of the identity token are parameters. A profile that fails to parse is the same as an empty name. A token that fails to decode (which leads to `onError`) is not modelled.
- The collaborators' own code is not modelled: the event and user stores and the S3 `Upload` helper (part sizes, queueing, multipart behaviour). A `Backend` gives each call the same reply whenever it is made with the same argument.
- Concurrency is not modelled. Handlers run one at a time, and interleaved or overlapping runs are not covered.
- Dashboard.EventDashboard.ConfirmDelete: the source starts `loadEvents` and `loadEventStatistics` without awaiting them; the model runs them to completion in that order, so it does not capture their interleaving.
- GoogleLogin.HandleSuccess: a throw from the parent's `onSuccess` callback itself also leads to `onError` in the source; the callbacks are opaque to the model, which reports which one is invoked.
- Alerts, console logging, the loading flag, the navbar toggle, the cover preview and navigation to the new event are presentation; the alert a run would show is the `CreateOutcome` or `DeleteOutcome` tag.
- The `Array.isArray(allEvents)` test in `loadEvents` always holds for the array built just above it, so its else branch is not modelled.
- The mount effects, the `create=true` query-parameter effect, `handleOpenCreateModal`, the cover-file picker and the dialog's cancel button are not part of this model.
