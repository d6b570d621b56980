/**
 * The browser-side request wrappers. Each one checks its arguments, sends one
 * request to an API route, and returns the JSON body on status 200 or throws
 * a message naming the operation, the server's error and the status.
 */
module ClientUtils {
  import opened Wrappers
  import opened Http
  import opened Strings
  import opened UserModel
  import opened FileService
  import opened ShareService
  import opened ScanRoute

  datatype Verb = Get | Post | Patch | Delete

  /** What a request carries: nothing, a multipart form with one file, or a JSON body. */
  datatype Payload = Empty | Form(file: Blob) | ShareJson(share: ShareBody) | NameJson(rename: NameBody)

  datatype Request = Request(verb: Verb, path: string, payload: Payload)

  /** The message a wrapper throws for a non-200 answer. */
  function Failed(what: string, status: int, error: string): string
  {
    what + " \n" + error + " \nStatus Code: " + IntToDecimal(status)
  }

  /**
   * What a wrapper returns for one request sent to `server`: the body of a
   * 200 answer, otherwise the failure naming `what`, the error and the status.
   */
  ghost predicate Answers<T>(r: Result<T>, req: Request, what: string, server: Request -> Reply<T>)
  {
    match server(req)
    case Json(body) => r == Ok(body)
    case ErrorJson(status, error) => r == Raise(Failed(what, status, error))
  }

  /**
   * Sends the planned request to `server` unless the argument checks threw.
   * Route handlers answer 200 only with a JSON body, so the status test is
   * the `Json?` test.
   */
  function Send<T>(plan: Result<Request>, what: string, server: Request -> Reply<T>): (r: Result<T>)
    ensures plan.Throw? ==> r == Throw(plan.failure)
    ensures plan.Ok? ==> Answers(r, plan.value, what, server)
  {
    match plan
    case Throw(e) => Throw(e)
    case Ok(req) =>
      match server(req)
      case Json(body) => Ok(body)
      case ErrorJson(status, error) => Raise(Failed(what, status, error))
  }

  /** `retrieveUserDetails`: POST /api/users. */
  function RetrieveUserDetails(server: Request -> Reply<User>): (r: Result<User>)
    ensures Answers(r, Request(Post, "/api/users", Empty), "Error fetching user details", server)
  {
    Send(Ok(Request(Post, "/api/users", Empty)), "Error fetching user details", server)
  }

  /** The listing a dashboard section reads: "files" for "my-files", "shared" for any other section. */
  function SectionRoute(section: string): string
  {
    if section == "my-files" then "files" else "shared"
  }

  /** The request `retrieveFiles` sends, or its argument error. */
  function FilesPlan(userId: string, section: string): (p: Result<Request>)
    ensures p.Throw? <==> userId == "" || section == ""
    ensures p.Throw? ==> p == Raise("Missing required parameters")
    ensures p.Ok? ==> p.value.verb == Get && p.value.payload == Empty
  {
    if userId == "" || section == "" then Raise("Missing required parameters")
    else Ok(Request(Get, "/api/users/" + userId + "/" + SectionRoute(section), Empty))
  }

  /**
   * The listing request reaches the route for `userId`: split at '/', its
   * path gives back the user id and the section's listing.
   */
  lemma FilesPlanRoutes(userId: string, section: string)
    requires userId != "" && section != "" && '/' !in userId
    ensures Split(FilesPlan(userId, section).value.path, '/') == ["", "api", "users", userId, SectionRoute(section)]
  {
    var parts := ["", "api", "users", userId, SectionRoute(section)];
    var tail := SectionRoute(section);
    assert Join(parts[4..], '/') == tail;
    assert Join(parts[3..], '/') == userId + "/" + tail;
    assert Join(parts[2..], '/') == "users/" + userId + "/" + tail;
    assert Join(parts[1..], '/') == "api/users/" + userId + "/" + tail;
    assert Join(parts, '/') == "/api/users/" + userId + "/" + tail;
    SplitJoin(parts, '/');
  }

  /** `retrieveFiles`. */
  function RetrieveFiles(userId: string, section: string, server: Request -> Reply<seq<Listed>>)
    : (r: Result<seq<Listed>>)
    ensures userId == "" || section == "" ==> r == Raise("Missing required parameters")
    ensures userId != "" && section != "" ==>
      Answers(r, Request(Get, "/api/users/" + userId + "/" + SectionRoute(section), Empty), "Error fetching user files", server)
  {
    Send(FilesPlan(userId, section), "Error fetching user files", server)
  }

  /** The request `uploadFile` sends, or its argument error. */
  function UploadPlan(file: Option<Blob>): (p: Result<Request>)
    ensures p.Throw? <==> file.None?
    ensures p.Throw? ==> p == Raise("Missing file")
    ensures p.Ok? ==> p.value == Request(Post, "/api/files", Form(file.value))
  {
    if file.None? then Raise("Missing file") else Ok(Request(Post, "/api/files", Form(file.value)))
  }

  /** `uploadFile`. */
  function UploadFile(file: Option<Blob>, server: Request -> Reply<FileDoc>): (r: Result<FileDoc>)
    ensures file.None? ==> r == Raise("Missing file")
    ensures file.Some? ==> Answers(r, Request(Post, "/api/files", Form(file.value)), "Error uploading file", server)
  {
    Send(UploadPlan(file), "Error uploading file", server)
  }

  /** `scanFile`: sends the file to /api/scan and refuses a report that is not complete. */
  function ScanFile(file: Option<Blob>, server: Request -> Reply<ScanBody>): (r: Result<ScanBody>)
    ensures file.None? ==> r == Raise("Missing file")
    ensures r.Ok? ==> r.value.complete
    ensures r.Ok? ==> server(Request(Post, "/api/scan", Form(file.value))) == Json(r.value)
    ensures file.Some? && server(Request(Post, "/api/scan", Form(file.value))).Json? &&
            !server(Request(Post, "/api/scan", Form(file.value))).body.complete ==>
      r == Raise("Scan report not complete")
    ensures file.Some? ==>
      var a := server(Request(Post, "/api/scan", Form(file.value)));
      && (a.Json? && a.body.complete ==> r == Ok(a.body))
      && (a.ErrorJson? ==> r == Raise(Failed("Error uploading file", a.status, a.error)))
  {
    var plan := if file.None? then Raise("Missing file") else Ok(Request(Post, "/api/scan", Form(file.value)));
    match Send(plan, "Error uploading file", server)
    case Throw(e) => Throw(e)
    case Ok(report) => if !report.complete then Raise("Scan report not complete") else Ok(report)
  }

  /** The request for one file by id (`deleteFile` and `retrievePresignedUrl`), or the argument error. */
  function FilePlan(verb: Verb, fileId: string): (p: Result<Request>)
    ensures p.Throw? <==> fileId == ""
    ensures p.Throw? ==> p == Raise("Missing fileId")
    ensures p.Ok? ==> p.value.verb == verb && p.value.payload == Empty
  {
    if fileId == "" then Raise("Missing fileId") else Ok(Request(verb, "/api/files/" + fileId, Empty))
  }

  /** The file request reaches the route for `fileId`. */
  lemma FilePlanRoutes(verb: Verb, fileId: string)
    requires fileId != "" && '/' !in fileId
    ensures Split(FilePlan(verb, fileId).value.path, '/') == ["", "api", "files", fileId]
  {
    var parts := ["", "api", "files", fileId];
    assert Join(parts[3..], '/') == fileId;
    assert Join(parts[2..], '/') == "files/" + fileId;
    assert Join(parts[1..], '/') == "api/files/" + fileId;
    assert Join(parts, '/') == "/api/files/" + fileId;
    SplitJoin(parts, '/');
  }

  /** `deleteFile`. */
  function DeleteFile(fileId: string, server: Request -> Reply<Option<FileDoc>>): (r: Result<Option<FileDoc>>)
    ensures fileId == "" ==> r == Raise("Missing fileId")
    ensures fileId != "" ==> Answers(r, Request(Delete, "/api/files/" + fileId, Empty), "Error deleting file", server)
  {
    Send(FilePlan(Delete, fileId), "Error deleting file", server)
  }

  /** `retrievePresignedUrl`. */
  function RetrievePresignedUrl(fileId: string, server: Request -> Reply<string>): (r: Result<string>)
    ensures fileId == "" ==> r == Raise("Missing fileId")
    ensures fileId != "" ==>
      Answers(r, Request(Get, "/api/files/" + fileId, Empty), "Error retrieving presigned URL", server)
  {
    Send(FilePlan(Get, fileId), "Error retrieving presigned URL", server)
  }

  /** The request `shareFile` (POST) or `unShareFile` (DELETE) sends, or the argument error. */
  function SharePlan(verb: Verb, fileId: string, recipientEmail: string): (p: Result<Request>)
    ensures p.Throw? <==> fileId == "" || recipientEmail == ""
    ensures p.Throw? ==> p == Raise("Missing required parameters")
    ensures p.Ok? ==> p.value == Request(verb, "/api/shares", ShareJson(ShareBody(fileId, recipientEmail)))
  {
    if fileId == "" || recipientEmail == "" then Raise("Missing required parameters")
    else Ok(Request(verb, "/api/shares", ShareJson(ShareBody(fileId, recipientEmail))))
  }

  /** `shareFile`. */
  function ShareFile(fileId: string, recipientEmail: string, server: Request -> Reply<Share>): (r: Result<Share>)
    ensures fileId == "" || recipientEmail == "" ==> r == Raise("Missing required parameters")
    ensures fileId != "" && recipientEmail != "" ==>
      Answers(r, Request(Post, "/api/shares", ShareJson(ShareBody(fileId, recipientEmail))), "Error sharing file", server)
  {
    Send(SharePlan(Post, fileId, recipientEmail), "Error sharing file", server)
  }

  /** `unShareFile`; its failure message is the same as `shareFile`'s. */
  function UnShareFile(fileId: string, recipientEmail: string, server: Request -> Reply<Option<Share>>)
    : (r: Result<Option<Share>>)
    ensures fileId == "" || recipientEmail == "" ==> r == Raise("Missing required parameters")
    ensures fileId != "" && recipientEmail != "" ==>
      Answers(r, Request(Delete, "/api/shares", ShareJson(ShareBody(fileId, recipientEmail))), "Error sharing file", server)
  {
    Send(SharePlan(Delete, fileId, recipientEmail), "Error sharing file", server)
  }

  /** The request `changeUserSettings` sends, or its argument error. */
  function RenamePlan(name: string): (p: Result<Request>)
    ensures p.Throw? <==> name == ""
    ensures p.Throw? ==> p == Raise("Missing name")
    ensures p.Ok? ==> p.value == Request(Patch, "/api/users", NameJson(NameBody(name)))
  {
    if name == "" then Raise("Missing name") else Ok(Request(Patch, "/api/users", NameJson(NameBody(name))))
  }

  /** `changeUserSettings`. */
  function ChangeUserSettings(name: string, server: Request -> Reply<Option<User>>): (r: Result<Option<User>>)
    ensures name == "" ==> r == Raise("Missing name")
    ensures name != "" ==> Answers(r, Request(Patch, "/api/users", NameJson(NameBody(name))), "Error changing user name", server)
  {
    Send(RenamePlan(name), "Error changing user name", server)
  }

  /**
   * Every wrapper throws on a missing argument whatever the server would
   * answer: the request is never sent.
   */
  lemma WrappersCheckArgumentsFirst(
    listing: Request -> Reply<seq<Listed>>, saving: Request -> Reply<FileDoc>, scanning: Request -> Reply<ScanBody>,
    deleting: Request -> Reply<Option<FileDoc>>, url: Request -> Reply<string>, sharing: Request -> Reply<Share>,
    unsharing: Request -> Reply<Option<Share>>, renaming: Request -> Reply<Option<User>>,
    id: string, other: string)
    ensures RetrieveFiles("", other, listing) == RetrieveFiles(id, "", listing) == Raise("Missing required parameters")
    ensures UploadFile(None, saving) == Raise("Missing file")
    ensures ScanFile(None, scanning) == Raise("Missing file")
    ensures DeleteFile("", deleting) == Raise("Missing fileId")
    ensures RetrievePresignedUrl("", url) == Raise("Missing fileId")
    ensures ShareFile("", other, sharing) == ShareFile(id, "", sharing) == Raise("Missing required parameters")
    ensures UnShareFile("", other, unsharing) == UnShareFile(id, "", unsharing) == Raise("Missing required parameters")
    ensures ChangeUserSettings("", renaming) == Raise("Missing name")
  {
  }

  /** The label the dashboard shows: the name unless it is empty or absent, then the email. */
  function DisplayName(u: User): (shown: string)
    ensures shown == u.email || (u.name == Some(shown) && shown != "")
    ensures u.name.Some? && u.name.value != "" ==> shown == u.name.value
  {
    if u.name.Some? && u.name.value != "" then u.name.value else u.email
  }

  /**
   * The dashboard and the services disagree exactly on a stored empty name:
   * the dashboard falls back to the email, the services keep "".
   */
  lemma DisplayNameAgainstOwnerLabel(u: User)
    ensures DisplayName(u) != OwnerLabel(u) <==> u.name == Some("") && u.email != ""
  {
  }
}
