/**
 * POST and PATCH /api/users: sign-in registration and renaming, both keyed
 * by the session's subject id.
 */
module UsersRoute {
  import opened Wrappers
  import opened Http
  import opened UserModel
  import opened UserService

  /**
   * POST: the caller's stored record, created on first sign-in. A session
   * without a subject id or email gets 422; an email already held by another
   * record surfaces as a 500 with the service's message.
   */
  method Post(session: Option<Session>, users: UserCollection) returns (reply: Reply<User>)
    requires users.Valid()
    modifies users
    ensures users.Valid()
    ensures session.None? ==> reply == ErrorJson(401, "Not authenticated") && users.docs == old(users.docs)
    ensures session.Some? && (session.value.sub == "" || session.value.email == "") ==>
      reply == ErrorJson(422, "Invalid user details") && users.docs == old(users.docs)
    ensures session.Some? && session.value.sub != "" && session.value.email != "" ==>
      var known := GetUserByAuthId(old(users.docs), session.value.sub).value;
      if known.Some? then
        reply == Json(known.value) && users.docs == old(users.docs)
      else if GetUserByEmail(old(users.docs), session.value.email).value.Some? then
        reply == ErrorJson(500, "Error creating new user") && users.docs == old(users.docs)
      else
        && reply.Json?
        && reply.body.authId == session.value.sub && reply.body.email == session.value.email
        && reply.body.name.None?
        && users.docs == old(users.docs) + [reply.body]
  {
    if session.None? {
      return ErrorJson(401, "Not authenticated");
    }
    if session.value.sub == "" || session.value.email == "" {
      return ErrorJson(422, "Invalid user details");
    }
    var account := users.CreateIfNewUser(session.value.sub, session.value.email);
    match account
    case Ok(u) => reply := Json(u);
    case Throw(e) => reply := Caught(e, "Error creating user", false);
  }

  /** Signing in twice returns the same record and stores it once. */
  method SignInTwice(session: Session, users: UserCollection) returns (first: Reply<User>, second: Reply<User>)
    requires users.Valid()
    modifies users
    ensures first.Json? ==> second == first
    ensures first.Json? ==>
      && session.sub != ""
      && users.docs == (if GetUserByAuthId(old(users.docs), session.sub).value.Some?
                        then old(users.docs) else old(users.docs) + [first.body])
  {
    first := Post(Some(session), users);
    if first.Json? {
      UniqueLookup(users.docs, first.body);
    }
    second := Post(Some(session), users);
  }

  /**
   * PATCH: renames the caller's record and returns it, or null when the
   * caller has none. The name is checked before the session's subject id.
   */
  method Patch(session: Option<Session>, body: NameBody, users: UserCollection) returns (reply: Reply<Option<User>>)
    requires users.Valid()
    modifies users
    ensures users.Valid()
    ensures session.None? ==> reply == ErrorJson(401, "Not authenticated") && users.docs == old(users.docs)
    ensures session.Some? && body.name == "" ==> reply == ErrorJson(400, "Name missing") && users.docs == old(users.docs)
    ensures session.Some? && body.name != "" && session.value.sub == "" ==>
      reply == ErrorJson(422, "Invalid user details") && users.docs == old(users.docs)
    ensures session.Some? && body.name != "" && session.value.sub != "" ==>
      && |users.docs| == |old(users.docs)|
      && (forall i :: 0 <= i < |users.docs| ==>
            users.docs[i] == if old(users.docs)[i].authId == session.value.sub
                             then old(users.docs)[i].(name := Some(body.name)) else old(users.docs)[i])
      && reply == Json(match GetUserByAuthId(old(users.docs), session.value.sub).value
                       case None => None
                       case Some(u) => Some(u.(name := Some(body.name))))
  {
    if session.None? {
      return ErrorJson(401, "Not authenticated");
    }
    if body.name == "" {
      return ErrorJson(400, "Name missing");
    }
    if session.value.sub == "" {
      return ErrorJson(422, "Invalid user details");
    }
    var account := users.ChangeUserName(session.value.sub, body.name);
    match account
    case Ok(u) => reply := Json(u);
    case Throw(e) => reply := Caught(e, "Error updating user", false);
  }
}
