/**
 * GET /api/users/{userId}/files and GET /api/users/{userId}/shared: a user's
 * own files and the files shared with them. Both handlers are meant to let
 * only that user through, by `fileRetrievalValidation`.
 *
 * As written, both handlers call the asynchronous validation without
 * awaiting it. Its rejection never reaches the handler's `catch`, so the
 * listing is returned whatever the session. `FilesAsWritten` and
 * `SharedAsWritten` model that code; `Files` and `Shared` are the handlers
 * with the validation awaited, and the rest of the model uses those.
 */
module ListingRoutes {
  import opened Wrappers
  import opened Http
  import opened UserModel
  import opened UserService
  import opened FileService
  import opened ShareService
  import opened ApiUtils

  const ListingFallback := "Error getting user files"

  /**
   * The files handler as written: the validation's outcome is dropped, and
   * the answer is the service's listing, or its error with the `catch`'s
   * `error.status || 500`.
   */
  function FilesAsWritten(session: Option<Session>, userId: string, users: seq<User>, files: seq<FileDoc>)
    : (reply: Reply<seq<Listed>>)
    ensures userId == "" ==> reply == ErrorJson(500, "Missing userId")
    ensures userId != "" && UserByOid(users, userId).Some? ==> reply.Json?
    ensures reply.Json? ==> forall f :: f in FilesOf(reply.body) <==> f in files && f.ownerId == userId
  {
    match GetUserFiles(files, users, userId)
    case Ok(listing) => Json(listing)
    case Throw(e) => Caught(e, ListingFallback, true)
  }

  /** The shared-files handler as written: the validation's outcome is dropped. */
  function SharedAsWritten(session: Option<Session>, userId: string, grants: seq<Share>, users: seq<User>,
                           files: seq<FileDoc>)
    : (reply: Reply<seq<Listed>>)
    ensures userId == "" ==> reply == ErrorJson(500, "Missing userId")
    ensures userId != "" ==> (reply.Json? <==> forall g :: g in grants && g.userId == userId ==> Resolves(g, files, users))
    ensures reply.Json? ==> |reply.body| == |GrantsTo(grants, userId)| && forall i :: 0 <= i < |reply.body| ==>
      reply.body[i].file in files && reply.body[i].file.oid == GrantsTo(grants, userId)[i].fileId
  {
    match GetSharedFiles(grants, files, users, userId)
    case Ok(listing) => Json(listing)
    case Throw(e) => Caught(e, ListingFallback, true)
  }

  /**
   * As written, a request with no session at all lists a registered user's
   * files, and a listing that does not fail is returned for every session.
   */
  lemma AnyoneListsAnyUsersFiles(userId: string, users: seq<User>, files: seq<FileDoc>, f: FileDoc)
    requires userId != "" && UserByOid(users, userId).Some?
    requires f in files && f.ownerId == userId
    ensures FilesAsWritten(None, userId, users, files).Json?
    ensures f in FilesOf(FilesAsWritten(None, userId, users, files).body)
    ensures Files(None, userId, users, files) == ErrorJson(401, "Not authenticated")
  {
    var r := GetUserFiles(files, users, userId);
    assert r.Ok?;
  }

  /** As written, the files shared with any user are listed to a request with no session. */
  lemma AnyoneListsAnyUsersShares(userId: string, grants: seq<Share>, users: seq<User>, files: seq<FileDoc>)
    requires userId != "" && forall g :: g in grants && g.userId == userId ==> Resolves(g, files, users)
    ensures SharedAsWritten(None, userId, grants, users, files).Json?
    ensures |SharedAsWritten(None, userId, grants, users, files).body| == |GrantsTo(grants, userId)|
    ensures Shared(None, userId, grants, users, files) == ErrorJson(401, "Not authenticated")
  {
  }

  /** The caller whose record is `userId`: the only one the listing handlers should serve. */
  predicate IsCaller(session: Option<Session>, userId: string, users: seq<User>)
  {
    && session.Some? && session.value.sub != ""
    && GetUserByAuthId(users, session.value.sub).value.Some?
    && GetUserByAuthId(users, session.value.sub).value.value.oid == userId
  }

  /**
   * The files handler with the validation awaited: only the user `userId`
   * gets their listing; anyone else gets the validation's 401/403/404.
   */
  function Files(session: Option<Session>, userId: string, users: seq<User>, files: seq<FileDoc>)
    : (reply: Reply<seq<Listed>>)
    ensures reply.Json? ==> IsCaller(session, userId, users) && userId != ""
    ensures IsCaller(session, userId, users) && userId != "" ==>
      reply == FilesAsWritten(session, userId, users, files)
    ensures session.None? ==> reply == ErrorJson(401, "Not authenticated")
    ensures session.Some? && session.value.sub != "" && !IsCaller(session, userId, users) &&
            GetUserByAuthId(users, session.value.sub).value.Some? &&
            GetUserByAuthId(users, session.value.sub).value.value.oid != "" ==>
      reply == ErrorJson(403, "Unauthorized: requesting userId does not match provided userId")
    ensures reply.Json? ==> forall f :: f in FilesOf(reply.body) <==> f in files && f.ownerId == userId
  {
    match FileRetrievalValidation(session, userId, users)
    case Throw(e) => Caught(e, ListingFallback, true)
    case Ok(_) => FilesAsWritten(session, userId, users, files)
  }

  /**
   * The shared-files handler with the validation awaited: only the user
   * `userId` sees what is shared with them.
   */
  function Shared(session: Option<Session>, userId: string, grants: seq<Share>, users: seq<User>, files: seq<FileDoc>)
    : (reply: Reply<seq<Listed>>)
    ensures reply.Json? ==> IsCaller(session, userId, users) && userId != ""
    ensures IsCaller(session, userId, users) && userId != "" ==>
      reply == SharedAsWritten(session, userId, grants, users, files)
    ensures session.None? ==> reply == ErrorJson(401, "Not authenticated")
    ensures reply.Json? ==> |reply.body| == |GrantsTo(grants, userId)|
  {
    match FileRetrievalValidation(session, userId, users)
    case Throw(e) => Caught(e, ListingFallback, true)
    case Ok(_) => SharedAsWritten(session, userId, grants, users, files)
  }
}
