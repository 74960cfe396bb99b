/** The success handler of the Google sign-in button: it looks the user up,
    creates or promotes the user record, and then calls back.  The decoded
    credential and the pending action read from browser storage are
    parameters. */
module GoogleLogin {
  import opened Store

  /** The pending action that makes the signed-in user an organizer. */
  const CreateEventAction := "createEvent"

  /** The claims of the decoded identity token that the handler uses. */
  datatype Claims = Claims(email: string, name: string, sub: string)

  /** Which of the two callbacks of the component is invoked. */
  datatype Callback = OnSuccess | OnError

  /** `existingUser` after the lookup: `getUserByEmail`, and `queryUserByEmail`
      when the first finds no user. */
  function LookUp(email: string, backend: Backend): Reply<Option<UserRecord>> {
    match backend.userByEmail(email)
    case Threw(e) => Threw(e)
    case Returned(None) => backend.queryUserByEmail(email)
    case Returned(Some(user)) => Returned(Some(user))
  }

  /** The mobile number kept for an existing user: the stored one, or the
      empty string when the record has none. */
  function MobileOf(user: UserRecord): string {
    match user.mobile
    case Some(m) => m
    case None => ""
  }

  /** The user write for a settled lookup, if any: a user not found is created
      with an empty mobile and the organizer role only for a pending
      `createEvent`; a user found is rewritten, as organizer, only for that
      action. */
  function WriteFor(decoded: Claims, pendingAction: Option<string>, existing: Option<UserRecord>): Option<UserWrite> {
    if existing.None? then
      Some(UserWrite(decoded.sub, decoded.email, decoded.name, "",
                     if pendingAction == Some(CreateEventAction) then Organizer else NoRole, None))
    else if pendingAction == Some(CreateEventAction) then
      Some(UserWrite(decoded.sub, decoded.email, decoded.name, MobileOf(existing.value), Organizer, None))
    else None
  }

  /** Every call the handler issues: the lookup, the fallback query only when
      the lookup finds no user, then the user write, if any, once the lookup
      has settled without a throw. */
  function LoginTrace(decoded: Claims, pendingAction: Option<string>, backend: Backend): seq<Call> {
    var email := decoded.email;
    var lookups := [GetUserByEmail(email)] +
                   (if backend.userByEmail(email) == Returned(None) then [QueryUserByEmail(email)] else []);
    match LookUp(email, backend)
    case Threw(_) => lookups
    case Returned(existing) =>
      lookups + match WriteFor(decoded, pendingAction, existing)
                case None => []
                case Some(write) => [StoreUserCredentials(write)]
  }

  /** `handleSuccess`. */
  method HandleSuccess(decoded: Claims, pendingAction: Option<string>, backend: Backend)
    returns (calls: seq<Call>, callback: Callback)
    ensures |calls| >= 1 && calls[0] == GetUserByEmail(decoded.email)
    // the calls are exactly the lookups and at most one write: never more than three
    ensures calls == LoginTrace(decoded, pendingAction, backend) && |calls| <= 3
    // the second lookup is made only when the first finds no user
    ensures QueryUserByEmail(decoded.email) in calls <==>
              backend.userByEmail(decoded.email) == Returned(None)
    // the calls stop at the first throw, which leads to onError instead of onSuccess
    ensures forall k :: 0 <= k < |calls| - 1 ==> !Fails(calls[k], backend)
    ensures callback == OnError <==> Fails(calls[|calls| - 1], backend)
    // at most one user write, as the last call, and its role is organizer exactly for a pending createEvent
    ensures forall k :: 0 <= k < |calls| - 1 ==> !calls[k].StoreUserCredentials?
    ensures forall k :: 0 <= k < |calls| && calls[k].StoreUserCredentials? ==>
              (calls[k].user.role == Organizer <==> pendingAction == Some(CreateEventAction))
    // the decision table, once the lookup has settled
    ensures LookUp(decoded.email, backend).Threw? ==>
              callback == OnError && forall k :: 0 <= k < |calls| ==> !calls[k].StoreUserCredentials?
    ensures LookUp(decoded.email, backend) == Returned(None) ==>
              calls[|calls| - 1] == StoreUserCredentials(UserWrite(decoded.sub, decoded.email, decoded.name, "",
                                       if pendingAction == Some(CreateEventAction) then Organizer else NoRole, None))
    ensures (LookUp(decoded.email, backend).Returned? && LookUp(decoded.email, backend).value.Some? &&
             pendingAction == Some(CreateEventAction)) ==>
              calls[|calls| - 1] == StoreUserCredentials(UserWrite(decoded.sub, decoded.email, decoded.name,
                                       MobileOf(LookUp(decoded.email, backend).value.value), Organizer, None))
    ensures (LookUp(decoded.email, backend).Returned? && LookUp(decoded.email, backend).value.Some? &&
             pendingAction != Some(CreateEventAction)) ==>
              callback == OnSuccess && forall k :: 0 <= k < |calls| ==> !calls[k].StoreUserCredentials?
  {
    var email := decoded.email;
    calls := [GetUserByEmail(email)];
    var found := backend.userByEmail(email);
    if found.Threw? {
      return calls, OnError;
    }
    var existingUser := found.value;
    if existingUser.None? {
      calls := calls + [QueryUserByEmail(email)];
      var queried := backend.queryUserByEmail(email);
      if queried.Threw? {
        return calls, OnError;
      }
      existingUser := queried.value;
    }

    var role := if pendingAction == Some(CreateEventAction) then Organizer else NoRole;

    if existingUser.None? {
      var write := UserWrite(decoded.sub, email, decoded.name, "", role, None);
      calls := calls + [StoreUserCredentials(write)];
      if backend.storeUser(write).Threw? {
        return calls, OnError;
      }
    } else if pendingAction == Some(CreateEventAction) {
      var write := UserWrite(decoded.sub, email, decoded.name, MobileOf(existingUser.value), Organizer, None);
      calls := calls + [StoreUserCredentials(write)];
      if backend.storeUser(write).Threw? {
        return calls, OnError;
      }
    }
    callback := OnSuccess;
  }
}
