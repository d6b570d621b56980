/**
 * POST and DELETE /api/shares: the owner of a file grants or revokes a
 * recipient's access. Both handlers run the same chain of checks before they
 * touch the grants; `Gate` is that chain.
 */
module SharesRoute {
  import opened Wrappers
  import opened Http
  import opened UserModel
  import opened UserService
  import opened FileService
  import opened ShareService
  import opened ApiUtils

  /** The status an error thrown by the API helpers would carry, 500 when it has none. */
  function StatusOf(f: Failure): int
  {
    if f.status.Some? then f.status.value else 500
  }

  const NotOwner := "Unauthorized: requesting userId does not match file ownerId"

  /**
   * The checks of both share handlers: the grant the request names, or the
   * handler's error answer. They agree with `getUserFileRecipient` followed
   * by an ownership test: the helper's 401/400/404 come out with the same
   * status and message, its status-less errors as the `catch` answers them,
   * and a caller who does not own the file gets 403.
   */
  function Gate(session: Option<Session>, body: ShareBody, users: seq<User>, files: seq<FileDoc>, fallback: string)
    : (v: Reply<Share>)
    ensures var h := GetUserFileRecipient(session, Some(body), users, files);
      && (h.Throw? && h.failure.status.Some? ==> v == ErrorJson(StatusOf(h.failure), h.failure.message))
      && (h.Throw? && h.failure.status.None? ==> v == Caught(h.failure, fallback, false))
      && (h.Ok? ==> v == if h.value.1.ownerId == h.value.0.oid then Json(Share(body.fileId, h.value.2.oid))
                          else ErrorJson(403, NotOwner))
    ensures v.Json? ==> v.body.fileId != "" && v.body.userId != ""
  {
    if session.None? then ErrorJson(401, "Not authenticated")
    else if body.fileId == "" || body.recipientEmail == "" then ErrorJson(400, "Missing required fields")
    else
      match GetUserByAuthId(users, session.value.sub)
      case Throw(e) => Caught(e, fallback, false)
      case Ok(user) =>
        match GetFileById(files, body.fileId)
        case Throw(e) => Caught(e, fallback, false)
        case Ok(file) =>
          if user.None? then ErrorJson(404, "User not found")
          else if user.value.oid == "" || file.None? then ErrorJson(404, "File not found")
          else
            match GetUserByEmail(users, body.recipientEmail)
            case Throw(e) => Caught(e, fallback, false)
            case Ok(recipient) =>
              if recipient.None? || recipient.value.oid == "" then ErrorJson(404, "Recipient not found")
              else if file.value.ownerId != user.value.oid then ErrorJson(403, NotOwner)
              else Json(Share(file.value.oid, recipient.value.oid))
  }

  /** Only the owner of an existing file gets past the checks, and only towards a registered recipient. */
  lemma OnlyOwnerProceeds(session: Option<Session>, body: ShareBody, users: seq<User>, files: seq<FileDoc>, fallback: string)
    requires Gate(session, body, users, files, fallback).Json?
    ensures session.Some?
    ensures exists u, f, r ::
      && u in users && f in files && r in users
      && u.authId == session.value.sub && f.oid == body.fileId && f.ownerId == u.oid
      && r.email == body.recipientEmail && r.oid == Gate(session, body, users, files, fallback).body.userId
  {
    var h := GetUserFileRecipient(session, Some(body), users, files);
    assert h.Ok?;
    var (u, f, r) := h.value;
    assert u in users && f in files && r in users;
  }

  /**
   * The recipient is looked up before ownership is checked: a caller who does
   * not own the file still learns whether an email is registered (404 against
   * 403).
   */
  lemma RecipientCheckedBeforeOwnership(session: Session, body: ShareBody, users: seq<User>, files: seq<FileDoc>,
                                        fallback: string, u: User, f: FileDoc)
    requires SchemaHolds(users) && u in users && u.authId == session.sub
    requires body.fileId != "" && GetFileById(files, body.fileId) == Ok(Some(f)) && f.ownerId != u.oid
    requires body.recipientEmail != ""
    ensures (forall r :: r in users ==> r.email != body.recipientEmail) ==>
      Gate(Some(session), body, users, files, fallback) == ErrorJson(404, "Recipient not found")
    ensures (exists r :: r in users && r.email == body.recipientEmail) ==>
      Gate(Some(session), body, users, files, fallback) == ErrorJson(403, NotOwner)
  {
    UniqueLookup(users, u);
    assert WellFormed(u);
    if r :| r in users && r.email == body.recipientEmail {
      UniqueLookup(users, r);
    }
  }

  /** POST: on success the recipient holds a grant for the file (created once, kept if present). */
  method Post(session: Option<Session>, body: ShareBody, users: seq<User>, files: seq<FileDoc>, shares: ShareCollection)
    returns (reply: Reply<Share>)
    requires shares.Valid()
    modifies shares
    ensures shares.Valid()
    ensures var v := Gate(session, body, users, files, "Error creating share");
      && (v.ErrorJson? ==> reply == v && shares.grants == old(shares.grants))
      && (v.Json? ==>
            var g := v.body;
            && reply == v
            && shares.grants == (if g in old(shares.grants) then old(shares.grants) else old(shares.grants) + [g])
            && IsShared(shares.grants, g.userId, g.fileId) == Ok(true))
  {
    var v := Gate(session, body, users, files, "Error creating share");
    match v
    case ErrorJson(status, error) =>
      reply := ErrorJson(status, error);
    case Json(g) =>
      var created := shares.CreateShare(g.fileId, g.userId);
      match created
      case Ok(grant) => reply := Json(grant);
      case Throw(e) => reply := Caught(e, "Error creating share", false);
  }

  /** DELETE: on success the grant is gone and returned, or null when there was none. */
  method Delete(session: Option<Session>, body: ShareBody, users: seq<User>, files: seq<FileDoc>, shares: ShareCollection)
    returns (reply: Reply<Option<Share>>)
    requires shares.Valid()
    modifies shares
    ensures shares.Valid()
    ensures var v := Gate(session, body, users, files, "Error deleting share");
      && (v.ErrorJson? ==> reply == ErrorJson(v.status, v.error) && shares.grants == old(shares.grants))
      && (v.Json? ==>
            var g := v.body;
            && reply == Json(if g in old(shares.grants) then Some(g) else None)
            && g !in shares.grants
            && (forall other :: other != g ==> (other in shares.grants <==> other in old(shares.grants)))
            && IsShared(shares.grants, g.userId, g.fileId) == Ok(false))
  {
    var v := Gate(session, body, users, files, "Error deleting share");
    match v
    case ErrorJson(status, error) =>
      reply := ErrorJson(status, error);
    case Json(g) =>
      var removed := shares.DeleteShare(g.fileId, g.userId);
      match removed
      case Ok(revoked) => reply := Json(revoked);
      case Throw(e) => reply := Caught(e, "Error deleting share", false);
  }
}
