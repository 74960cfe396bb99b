/** The provisioning steps of `handleCreateEvent`: linking the new event id to
    the creator's user record, the optional cover upload, the four folder
    placeholders and the event record write. */
module Provisioning {
  import opened Store

  const SharedPrefix := "events/shared/"
  const DirectoryContentType := "application/x-directory"
  /** The error name that the folder step reports as an authentication failure. */
  const SignatureMismatch := "SignatureDoesNotMatch"

  /** The cover file chosen in the form; only its MIME type reaches the model. */
  datatype CoverFile = CoverFile(contentType: string)

  /** The `newEvent` form state. */
  datatype Draft = Draft(name: string, date: string, description: Option<string>, coverImage: Option<CoverFile>)

  /** The pipeline step whose exception the inner handler of `handleCreateEvent`
      swallows: it only logs, so creation stops without a message. */
  datatype Step = ReadingUser | UploadingCover | StoringRecord

  /** How one run of `handleCreateEvent` ends. */
  datatype CreateOutcome =
    | MissingFields                                // alert: required fields
    | NotAuthenticated                             // alert: the thrown error's message
    | Abandoned(step: Step)                        // logged only
    | FolderFailed(path: string, authFailure: bool) // alert: credentials, or generic folder failure
    | RecordNotStored                              // alert: failed to store event data
    | Created(eventId: string)                     // navigation to the new event

  // ---------------------------------------------------------------------
  // Storage keys

  function EventFolderKey(eventId: string): string {
    SharedPrefix + eventId + "/"
  }

  /** The placeholder keys, in the order they are written. */
  function FolderPaths(eventId: string): seq<string> {
    var root := EventFolderKey(eventId);
    [root, root + "images/", root + "selfies/", root + "videos/"]
  }

  function CoverKey(eventId: string): string {
    EventFolderKey(eventId) + "cover.jpg"
  }

  function CoverUrl(bucket: string, key: string): string {
    "https://" + bucket + ".s3.amazonaws.com/" + key
  }

  /** Every folder placeholder upload resolves. */
  predicate FoldersOk(eventId: string, backend: Backend) {
    forall k :: 0 <= k < |FolderPaths(eventId)| ==> backend.upload(FolderPaths(eventId)[k]).Resolved?
  }

  /** No cover was chosen, or its upload resolves. */
  predicate CoverOk(draft: Draft, eventId: string, backend: Backend) {
    draft.coverImage.None? || backend.upload(CoverKey(eventId)).Resolved?
  }

  /** The namespace of an event: its four folders and its cover key. */
  function NamespaceKeys(eventId: string): seq<string> {
    FolderPaths(eventId) + [CoverKey(eventId)]
  }

  /** The four folders are distinct keys under the event's folder, and the
      cover key is none of them. */
  lemma NamespaceShape(eventId: string)
    ensures |NamespaceKeys(eventId)| == 5
    ensures forall i, j :: 0 <= i < j < 5 ==> NamespaceKeys(eventId)[i] != NamespaceKeys(eventId)[j]
    ensures forall i :: 0 <= i < 5 ==>
              var key := NamespaceKeys(eventId)[i];
              EventFolderKey(eventId) <= key
  {
    var root := EventFolderKey(eventId);
    var keys := NamespaceKeys(eventId);
    var n := |root|;
    assert keys[1][n] == 'i' && keys[2][n] == 's' && keys[3][n] == 'v' && keys[4][n] == 'c';
    assert |keys[0]| == n;
  }

  /** A key of an event's namespace determines the event and the position:
      keys of two different events never coincide, as long as neither id
      contains a `/` (the short-id alphabet has none). */
  lemma NamespacesDisjoint(a: string, b: string, i: nat, j: nat)
    requires '/' !in a && '/' !in b
    requires i < 5 && j < 5
    ensures NamespaceKeys(a)[i] == NamespaceKeys(b)[j] ==> a == b && i == j
  {
    var ka, kb := NamespaceKeys(a)[i], NamespaceKeys(b)[j];
    var p := |SharedPrefix|;
    assert ka[..p + |a| + 1] == SharedPrefix + a + "/";
    assert kb[..p + |b| + 1] == SharedPrefix + b + "/";
    if ka == kb {
      assert forall k :: p <= k < p + |a| ==> ka[k] == a[k - p];
      assert forall k :: p <= k < p + |b| ==> kb[k] == b[k - p];
      assert ka[p + |a|] == '/' && kb[p + |b|] == '/';
      assert forall k :: p <= k < p + |a| ==> ka[k] != '/';
      assert forall k :: p <= k < p + |b| ==> kb[k] != '/';
      assert |a| == |b|;
      assert a == ka[p..p + |a|];
      assert b == kb[p..p + |b|];
      NamespaceShape(a);
    }
  }

  // ---------------------------------------------------------------------
  // The creator's createdEvents

  /** No id occurs twice. */
  predicate DistinctStrings(ids: seq<string>) {
    forall i, j :: 0 <= i < j < |ids| ==> ids[i] != ids[j]
  }

  /** The array copied from the user record, or the empty start when the
      record, or its `createdEvents` array, is missing. */
  function PriorCreated(existing: Option<UserRecord>): seq<string> {
    if existing.Some? && existing.value.createdEvents.IdList? then existing.value.createdEvents.ids else []
  }

  /** The creator's new `createdEvents`: a copy of the stored array when the
      record holds one, an empty start otherwise, with the new id added at
      the end. */
  method NextCreatedEvents(existing: Option<UserRecord>, eventId: string) returns (eventIds: seq<string>)
    ensures |eventIds| == |PriorCreated(existing)| + 1
    ensures eventIds[..|eventIds| - 1] == PriorCreated(existing)
    ensures eventIds[|eventIds| - 1] == eventId
    ensures existing.None? || !existing.value.createdEvents.IdList? ==> eventIds == [eventId]
    ensures DistinctStrings(PriorCreated(existing)) && eventId !in PriorCreated(existing) ==> DistinctStrings(eventIds)
  {
    eventIds := [];
    if existing.Some? && existing.value.createdEvents.IdList? {
      eventIds := existing.value.createdEvents.ids;
    }
    eventIds := eventIds + [eventId];
  }

  /** The record write carries the creator's prior ids followed by the new
      id: it loses no prior id, and it is free of duplicates exactly when the
      prior ids were and the new id is not among them (nothing checks for an
      id that is already listed). */
  lemma CreatedEventsStayDistinct(email: string, name: string, mobile: string, existing: Option<UserRecord>,
                                  eventId: string)
    ensures var written := CreatorWrite(email, name, mobile, existing, eventId).createdEvents;
      written.Some? &&
      (forall x :: x in PriorCreated(existing) ==> x in written.value) && eventId in written.value &&
      (DistinctStrings(written.value) <==>
         DistinctStrings(PriorCreated(existing)) && eventId !in PriorCreated(existing))
  {
    var prior := PriorCreated(existing);
    var next := prior + [eventId];
    assert CreatorWrite(email, name, mobile, existing, eventId).createdEvents.value == next;
    if DistinctStrings(next) {
      forall i, j | 0 <= i < j < |prior| ensures prior[i] != prior[j] {
        assert prior[i] == next[i] && prior[j] == next[j];
      }
    }
    if eventId in prior {
      var i :| 0 <= i < |prior| && prior[i] == eventId;
      assert next[i] == next[|prior|];
    }
    if DistinctStrings(prior) && eventId !in prior {
      forall i, j | 0 <= i < j < |next| ensures next[i] != next[j] {
        if j == |prior| { assert next[i] == prior[i]; }
      }
    }
  }

  // ---------------------------------------------------------------------
  // The folder loop

  /** The folder loop: each placeholder is uploaded
      in turn and the loop stops at the first rejected upload. */
  method ScaffoldFolders(eventId: string, backend: Backend) returns (calls: seq<Call>, failure: Option<string>)
    ensures 1 <= |calls| <= 4
    ensures forall j :: 0 <= j < |calls| ==> calls[j] == Upload(FolderPaths(eventId)[j], DirectoryContentType)
    ensures forall j :: 0 <= j < |calls| - 1 ==> backend.upload(FolderPaths(eventId)[j]).Resolved?
    ensures failure.None? <==> FoldersOk(eventId, backend)
    ensures failure.None? ==> |calls| == 4
    ensures failure.Some? ==> backend.upload(FolderPaths(eventId)[|calls| - 1]) == Rejected(failure.value)
  {
    var paths := FolderPaths(eventId);
    calls := [];
    var i := 0;
    while i < |paths|
      invariant 0 <= i <= |paths| && |calls| == i
      invariant forall j :: 0 <= j < i ==> calls[j] == Upload(paths[j], DirectoryContentType)
      invariant forall j :: 0 <= j < i ==> backend.upload(paths[j]).Resolved?
    {
      calls := calls + [Upload(paths[i], DirectoryContentType)];
      var settled := backend.upload(paths[i]);
      if settled.Rejected? {
        return calls, Some(settled.name);
      }
      i := i + 1;
    }
    return calls, None;
  }

  // ---------------------------------------------------------------------
  // The steps after validation

  /** Whether the event record is reached: the user record is read, the
      cover (if any) uploads and all four folders upload.  The reply to the
      user-record write does not appear here. */
  predicate ReachesRecordWrite(email: string, draft: Draft, eventId: string, backend: Backend) {
    backend.userByEmail(email).Returned? && CoverOk(draft, eventId, backend) && FoldersOk(eventId, backend)
  }

  /** The event record that `handleCreateEvent` writes for `eventId`. */
  predicate IsNewEventRecord(record: EventData, eventId: string, draft: Draft, email: string, bucket: string,
                             createdAt: string, updatedAt: string)
  {
    record.id == eventId && record.name == draft.name && record.date == draft.date &&
    record.description == draft.description &&
    record.coverImage == (if draft.coverImage.Some? then CoverUrl(bucket, CoverKey(eventId)) else "") &&
    record.photoCount == 0 && record.videoCount == 0 && record.guestCount == 0 &&
    record.userEmail == email && record.organizerId == email && record.userId == email &&
    record.createdAt == createdAt && record.updatedAt == updatedAt
  }

  /** The user record written before the uploads: organizer role and the
      creator's `createdEvents` followed by the new id. */
  function CreatorWrite(email: string, name: string, mobile: string, existing: Option<UserRecord>, eventId: string): UserWrite {
    UserWrite(email, email, name, mobile, Organizer, Some(PriorCreated(existing) + [eventId]))
  }

  /** The creator's record is read and the write of `CreatorWrite` returns true. */
  predicate WritePromotes(email: string, name: string, mobile: string, eventId: string, backend: Backend) {
    backend.userByEmail(email).Returned? &&
    backend.storeUser(CreatorWrite(email, name, mobile, backend.userByEmail(email).value, eventId)) == Returned(true)
  }

  /** Everything before the record write goes through and the record write
      returns true. */
  ghost predicate RecordStored(email: string, draft: Draft, eventId: string, createdAt: string, updatedAt: string, backend: Backend) {
    ReachesRecordWrite(email, draft, eventId, backend) &&
    exists record :: IsNewEventRecord(record, eventId, draft, email, backend.bucket, createdAt, updatedAt) &&
                     backend.storeEvent(record) == Returned(true)
  }

  /** The folder at position `k` is the first one whose upload rejects. */
  predicate FirstRejectedFolder(eventId: string, k: nat, backend: Backend)
    requires k < 4
  {
    backend.upload(FolderPaths(eventId)[k]).Rejected? &&
    forall j :: 0 <= j < k ==> backend.upload(FolderPaths(eventId)[j]).Resolved?
  }

  /** The calls and the outcome of the steps after the user-record write, case
      by case: the cover upload when a cover was chosen (its rejection ends the
      run), then the folders in order up to the first rejection, then the
      event record, whose reply decides the outcome. */
  ghost predicate UploadsThenRecord(calls: seq<Call>, outcome: CreateOutcome, email: string, draft: Draft,
                                    eventId: string, createdAt: string, updatedAt: string, backend: Backend)
  {
    var base := if draft.coverImage.Some? then 1 else 0;
    var paths := FolderPaths(eventId);
    (draft.coverImage.Some? ==>
       |calls| >= 1 && calls[0] == Upload(CoverKey(eventId), draft.coverImage.value.contentType)) &&
    (!CoverOk(draft, eventId, backend) ==>
       |calls| == 1 && outcome == Abandoned(UploadingCover)) &&
    (CoverOk(draft, eventId, backend) ==>
       base < |calls| <= base + 5 &&
       forall j :: 0 <= j < 4 && base + j < |calls| ==> calls[base + j] == Upload(paths[j], DirectoryContentType)) &&
    (CoverOk(draft, eventId, backend) && !FoldersOk(eventId, backend) ==>
       exists k :: 0 <= k < 4 && |calls| == base + k + 1 && FirstRejectedFolder(eventId, k, backend) &&
                   outcome == FolderFailed(paths[k], backend.upload(paths[k]).name == SignatureMismatch)) &&
    (CoverOk(draft, eventId, backend) && FoldersOk(eventId, backend) ==>
       |calls| == base + 5 && calls[base + 4].StoreEventData? &&
       IsNewEventRecord(calls[base + 4].event, eventId, draft, email, backend.bucket, createdAt, updatedAt) &&
       outcome == match backend.storeEvent(calls[base + 4].event)
                  case Threw(_) => Abandoned(StoringRecord)
                  case Returned(true) => Created(eventId)
                  case Returned(false) => RecordNotStored)
  }

  /** In a run that follows the table, every call but the last is an upload,
      and a failed cover upload or folder upload leaves no event-record write
      among the calls. */
  lemma NoRecordWriteOnFailure(calls: seq<Call>, outcome: CreateOutcome, email: string, draft: Draft,
                               eventId: string, createdAt: string, updatedAt: string, backend: Backend)
    requires UploadsThenRecord(calls, outcome, email, draft, eventId, createdAt, updatedAt, backend)
    ensures !(CoverOk(draft, eventId, backend) && FoldersOk(eventId, backend)) ==>
              forall k :: 0 <= k < |calls| ==> !calls[k].StoreEventData?
    ensures forall k :: 0 <= k < |calls| - 1 ==> calls[k].Upload?
  {
    var base := if draft.coverImage.Some? then 1 else 0;
    forall k | 0 <= k < |calls| - 1
      ensures calls[k].Upload?
    {
      assert k < base || calls[k] == Upload(FolderPaths(eventId)[k - base], DirectoryContentType);
    }
    if CoverOk(draft, eventId, backend) && !FoldersOk(eventId, backend) {
      var m :| 0 <= m < 4 && |calls| == base + m + 1 && FirstRejectedFolder(eventId, m, backend);
      forall k | 0 <= k < |calls|
        ensures !calls[k].StoreEventData?
      {
        assert k < base || calls[k] == Upload(FolderPaths(eventId)[k - base], DirectoryContentType);
      }
    }
  }

  /** In any run that follows the table, an event-record write is the last
      call, comes right after the four folder uploads in order, all of which
      resolved, and writes the record built for the same event id. */
  lemma RecordOnlyAfterFolders(calls: seq<Call>, outcome: CreateOutcome, email: string, draft: Draft,
                               eventId: string, createdAt: string, updatedAt: string, backend: Backend, k: nat)
    requires UploadsThenRecord(calls, outcome, email, draft, eventId, createdAt, updatedAt, backend)
    requires k < |calls| && calls[k].StoreEventData?
    ensures k == |calls| - 1 && k >= 4
    ensures forall j :: 0 <= j < 4 ==>
              calls[k - 4 + j] == Upload(FolderPaths(eventId)[j], DirectoryContentType) &&
              backend.upload(FolderPaths(eventId)[j]).Resolved?
    ensures calls[k].event.id == eventId && calls[k].event.userEmail == email
    ensures outcome.Created? <==> backend.storeEvent(calls[k].event) == Returned(true)
  {
    NoRecordWriteOnFailure(calls, outcome, email, draft, eventId, createdAt, updatedAt, backend);
  }

  /** The cover upload, the folder loop and the record write. */
  method UploadAndStore(email: string, draft: Draft, eventId: string, createdAt: string, updatedAt: string,
                        backend: Backend)
    returns (calls: seq<Call>, outcome: CreateOutcome)
    ensures UploadsThenRecord(calls, outcome, email, draft, eventId, createdAt, updatedAt, backend)
    ensures (exists k :: 0 <= k < |calls| && calls[k].StoreEventData?) <==>
              CoverOk(draft, eventId, backend) && FoldersOk(eventId, backend)
    ensures outcome.Created? <==>
              CoverOk(draft, eventId, backend) && FoldersOk(eventId, backend) &&
              exists record :: IsNewEventRecord(record, eventId, draft, email, backend.bucket, createdAt, updatedAt) &&
                               backend.storeEvent(record) == Returned(true)
  {
    calls := [];
    var coverImageUrl := "";
    if draft.coverImage.Some? {
      var key := CoverKey(eventId);
      calls := [Upload(key, draft.coverImage.value.contentType)];
      if backend.upload(key).Rejected? {
        return calls, Abandoned(UploadingCover);
      }
      coverImageUrl := CoverUrl(backend.bucket, key);
    }
    var eventData := EventData(eventId, draft.name, draft.date, draft.description, coverImageUrl,
                               0, 0, 0, email, email, email, createdAt, updatedAt);

    ghost var base := |calls|;
    var folderCalls, failure := ScaffoldFolders(eventId, backend);
    calls := calls + folderCalls;
    if failure.Some? {
      var k := |folderCalls| - 1;
      var path := FolderPaths(eventId)[k];
      assert FirstRejectedFolder(eventId, k, backend);
      assert forall j :: 0 <= j < |calls| ==> !calls[j].StoreEventData?;
      return calls, FolderFailed(path, failure.value == SignatureMismatch);
    }
    calls := calls + [StoreEventData(eventData)];
    assert IsNewEventRecord(eventData, eventId, draft, email, backend.bucket, createdAt, updatedAt);
    forall other | IsNewEventRecord(other, eventId, draft, email, backend.bucket, createdAt, updatedAt)
      ensures other == eventData
    {
    }
    var stored := backend.storeEvent(eventData);
    match stored {
      case Threw(_) => outcome := Abandoned(StoringRecord);
      case Returned(success) => outcome := if success then Created(eventId) else RecordNotStored;
    }
  }

  /** The calls and the outcome of the inner `try` of `handleCreateEvent`: the
      user read comes first, and a throw from it is swallowed with nothing
      else issued; otherwise the user record is rewritten once, as organizer
      with the new id appended, and whatever that write replies, the uploads
      and the record write follow the case table. */
  ghost predicate ProvisionTrace(calls: seq<Call>, outcome: CreateOutcome, email: string, draft: Draft,
                                 name: string, mobile: string, eventId: string, createdAt: string,
                                 updatedAt: string, backend: Backend)
  {
    |calls| >= 1 && calls[0] == GetUserByEmail(email) &&
    (backend.userByEmail(email).Threw? ==>
       calls == [GetUserByEmail(email)] && outcome == Abandoned(ReadingUser)) &&
    (backend.userByEmail(email).Returned? ==>
       |calls| >= 2 &&
       calls[1] == StoreUserCredentials(CreatorWrite(email, name, mobile, backend.userByEmail(email).value, eventId)) &&
       UploadsThenRecord(calls[2..], outcome, email, draft, eventId, createdAt, updatedAt, backend))
  }

  /** A run of the pipeline in which the cover or a folder upload fails issues
      no event-record write and reports that upload's failure: silently for
      the cover, by the folder's path and error kind for a folder. */
  lemma ProvisionStopsAtFailedUpload(calls: seq<Call>, outcome: CreateOutcome, email: string, draft: Draft,
                                     name: string, mobile: string, eventId: string, createdAt: string,
                                     updatedAt: string, backend: Backend)
    requires ProvisionTrace(calls, outcome, email, draft, name, mobile, eventId, createdAt, updatedAt, backend)
    requires backend.userByEmail(email).Returned?
    requires !(CoverOk(draft, eventId, backend) && FoldersOk(eventId, backend))
    ensures forall k :: 0 <= k < |calls| ==> !calls[k].StoreEventData?
    ensures !CoverOk(draft, eventId, backend) ==> outcome == Abandoned(UploadingCover)
    ensures CoverOk(draft, eventId, backend) ==>
              exists m :: 0 <= m < 4 && FirstRejectedFolder(eventId, m, backend) &&
                          outcome == FolderFailed(FolderPaths(eventId)[m],
                                                  backend.upload(FolderPaths(eventId)[m]).name == SignatureMismatch)
  {
    var rest := calls[2..];
    NoRecordWriteOnFailure(rest, outcome, email, draft, eventId, createdAt, updatedAt, backend);
    forall k | 0 <= k < |calls| ensures !calls[k].StoreEventData? {
      if k >= 2 { assert calls[k] == rest[k - 2]; }
    }
  }

  /** The body of the inner `try` of `handleCreateEvent`, for an authenticated
      `email` and a draft with a name and a date.  `eventId` is the generated
      short id; `name` and `mobile` come from the cached profile; the two
      timestamps are the clock readings.  `promoted` is whether the user
      write returned true (the caller then sets the role in its context).
      Whatever the user write replies, the steps after it run the same way. */
  method ProvisionEvent(email: string, draft: Draft, name: string, mobile: string, eventId: string,
                        createdAt: string, updatedAt: string, backend: Backend)
    returns (calls: seq<Call>, outcome: CreateOutcome, promoted: bool)
    ensures ProvisionTrace(calls, outcome, email, draft, name, mobile, eventId, createdAt, updatedAt, backend)
    ensures promoted <==> WritePromotes(email, name, mobile, eventId, backend)
    ensures outcome.Created? <==> RecordStored(email, draft, eventId, createdAt, updatedAt, backend)
    ensures outcome.Created? ==> outcome.eventId == eventId && calls[|calls| - 1].StoreEventData?
    ensures outcome != MissingFields && outcome != NotAuthenticated
  {
    calls := [GetUserByEmail(email)];
    var existingUser := backend.userByEmail(email);
    if existingUser.Threw? {
      return calls, Abandoned(ReadingUser), false;
    }
    var eventIds := NextCreatedEvents(existingUser.value, eventId);
    assert eventIds == PriorCreated(existingUser.value) + [eventId];
    var write := UserWrite(email, email, name, mobile, Organizer, Some(eventIds));
    calls := calls + [StoreUserCredentials(write)];
    var userUpdate := backend.storeUser(write);
    promoted := userUpdate == Returned(true);

    var rest;
    rest, outcome := UploadAndStore(email, draft, eventId, createdAt, updatedAt, backend);
    calls := calls + rest;
    assert calls[2..] == rest;
    assert calls[1] == StoreUserCredentials(CreatorWrite(email, name, mobile, existingUser.value, eventId));
  }
}
