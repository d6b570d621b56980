/**
 * The API helpers: read-only check chains that resolve the caller and the
 * target records or throw `{ message, status }`. They take snapshots of the
 * collections and return values, so none of them can write a store.
 */
module ApiUtils {
  import opened Wrappers
  import opened Http
  import opened UserModel
  import opened UserService
  import opened FileService

  /**
   * `getUserFile`: 401 without a session, then the caller by subject id and
   * the file by id, 404 when either is missing: "User not found" only when
   * no caller record exists, "File not found" also for a caller record
   * without an `_id`. It returns both records and leaves the ownership
   * decision to the caller.
   */
  function GetUserFile(session: Option<Session>, fileId: string, users: seq<User>, files: seq<FileDoc>)
    : (r: Result<(User, FileDoc)>)
    ensures session.None? ==> r == RaiseStatus("Not authenticated", 401)
    ensures session.Some? && session.value.sub == "" ==> r == Raise("Missing authId")
    ensures session.Some? && session.value.sub != "" && fileId == "" ==> r == Raise("Missing fileId")
    ensures session.Some? && session.value.sub != "" && fileId != "" ==>
      && (GetUserByAuthId(users, session.value.sub).value.None? ==> r == RaiseStatus("User not found", 404))
      && (GetUserByAuthId(users, session.value.sub).value.Some? && GetFileById(files, fileId).value.None? ==>
            r == RaiseStatus("File not found", 404))
      && (GetUserByAuthId(users, session.value.sub).value.Some? && GetFileById(files, fileId).value.Some? ==>
            r == if GetUserByAuthId(users, session.value.sub).value.value.oid == "" then RaiseStatus("File not found", 404)
                 else Ok((GetUserByAuthId(users, session.value.sub).value.value, GetFileById(files, fileId).value.value)))
    ensures r.Ok? ==>
      && r.value.0 in users && r.value.0.oid != "" && r.value.0.authId == session.value.sub
      && r.value.1 in files && r.value.1.oid == fileId
  {
    if session.None? then RaiseStatus("Not authenticated", 401)
    else
      match GetUserByAuthId(users, session.value.sub)
      case Throw(e) => Throw(e)
      case Ok(user) =>
        match GetFileById(files, fileId)
        case Throw(e) => Throw(e)
        case Ok(file) =>
          if user.None? then RaiseStatus("User not found", 404)
          else if user.value.oid == "" || file.None? then RaiseStatus("File not found", 404)
          else Ok((user.value, file.value))
  }

  /** Whether the owner of the file is the caller plays no part in `getUserFile`. */
  lemma GetUserFileIgnoresOwnership(session: Option<Session>, fileId: string, users: seq<User>,
                                    files: seq<FileDoc>, k: nat, otherOwner: string)
    requires k < |files| && files[k].oid == fileId
    requires forall j :: 0 <= j < k ==> files[j].oid != fileId
    ensures var files' := files[k := files[k].(ownerId := otherOwner)];
      GetUserFile(session, fileId, users, files').Ok? == GetUserFile(session, fileId, users, files).Ok?
  {
    var files' := files[k := files[k].(ownerId := otherOwner)];
    if session.Some? && session.value.sub != "" && fileId != "" {
      assert files[k] in files && files'[k] in files';
    }
  }

  /**
   * `getUserFileRecipient`: 401, then 400 for a missing body field, then the
   * checks of `getUserFile`, then 404 when no user has the recipient email.
   */
  function GetUserFileRecipient(session: Option<Session>, body: Option<ShareBody>, users: seq<User>, files: seq<FileDoc>)
    : (r: Result<(User, FileDoc, User)>)
    ensures session.None? ==> r == RaiseStatus("Not authenticated", 401)
    ensures session.Some? && (body.None? || body.value.fileId == "" || body.value.recipientEmail == "") ==>
      r == RaiseStatus("Missing required fields", 400)
    ensures session.Some? && body.Some? && body.value.fileId != "" && body.value.recipientEmail != "" ==>
      match GetUserFile(session, body.value.fileId, users, files)
      case Throw(e) => r == Throw(e)
      case Ok(_) =>
        && (GetUserByEmail(users, body.value.recipientEmail).value.None? ==> r == RaiseStatus("Recipient not found", 404))
        && (r.Ok? <==> GetUserByEmail(users, body.value.recipientEmail).value.Some? &&
                       GetUserByEmail(users, body.value.recipientEmail).value.value.oid != "")
    ensures r.Ok? ==>
      && r.value.0 in users && r.value.0.authId == session.value.sub
      && r.value.1 in files && r.value.1.oid == body.value.fileId
      && r.value.2 in users && r.value.2.email == body.value.recipientEmail && r.value.2.oid != ""
  {
    if session.None? then RaiseStatus("Not authenticated", 401)
    else if body.None? || body.value.fileId == "" || body.value.recipientEmail == "" then
      RaiseStatus("Missing required fields", 400)
    else
      match GetUserFile(session, body.value.fileId, users, files)
      case Throw(e) => Throw(e)
      case Ok((user, file)) =>
        match GetUserByEmail(users, body.value.recipientEmail)
        case Throw(e) => Throw(e)
        case Ok(recipient) =>
          if recipient.None? || recipient.value.oid == "" then RaiseStatus("Recipient not found", 404)
          else Ok((user, file, recipient.value))
  }

  /**
   * `fileRetrievalValidation`: 401, then 404 when the caller has no user
   * record, then 403 unless the requested user id is the caller's own `_id`.
   */
  function FileRetrievalValidation(session: Option<Session>, userId: string, users: seq<User>): (r: Result<()>)
    ensures session.None? ==> r == RaiseStatus("Not authenticated", 401)
    ensures session.Some? && session.value.sub == "" ==> r == Raise("Missing authId")
    ensures session.Some? && session.value.sub != "" && GetUserByAuthId(users, session.value.sub).value.None? ==>
      r == RaiseStatus("User not found", 404)
    ensures r.Ok? <==>
      session.Some? && session.value.sub != "" && userId != "" &&
      GetUserByAuthId(users, session.value.sub).value.Some? &&
      GetUserByAuthId(users, session.value.sub).value.value.oid == userId
    ensures r.Throw? && r.failure.status == Some(403) ==>
      GetUserByAuthId(users, session.value.sub).value.Some? &&
      GetUserByAuthId(users, session.value.sub).value.value.oid != userId
  {
    if session.None? then RaiseStatus("Not authenticated", 401)
    else
      match GetUserByAuthId(users, session.value.sub)
      case Throw(e) => Throw(e)
      case Ok(user) =>
        if user.None? || user.value.oid == "" then RaiseStatus("User not found", 404)
        else if userId == "" || userId != user.value.oid then
          RaiseStatus("Unauthorized: requesting userId does not match provided userId", 403)
        else Ok(())
  }
}
