/** The user service: lookups over the users collection and the two writes to it. */
module UserService {
  import opened Wrappers
  import opened Seqs
  import opened ObjectIds
  import opened UserModel

  /** `getUserByAuthId`: the user whose `id` is `authId`, or null; throws on an empty argument. */
  function GetUserByAuthId(docs: seq<User>, authId: string): (r: Result<Option<User>>)
    ensures authId == "" ==> r == Raise("Missing authId")
    ensures authId != "" ==> r.Ok?
    ensures r.Ok? && r.value.Some? ==> r.value.value in docs && r.value.value.authId == authId
    ensures r.Ok? && r.value.None? ==> forall u :: u in docs ==> u.authId != authId
  {
    if authId == "" then Raise("Missing authId")
    else Ok(Find(docs, (u: User) => u.authId == authId))
  }

  /** `getUserByEmail`: the user whose email is `email`, or null; throws on an empty argument. */
  function GetUserByEmail(docs: seq<User>, email: string): (r: Result<Option<User>>)
    ensures email == "" ==> r == Raise("Missing email")
    ensures email != "" ==> r.Ok?
    ensures r.Ok? && r.value.Some? ==> r.value.value in docs && r.value.value.email == email
    ensures r.Ok? && r.value.None? ==> forall u :: u in docs ==> u.email != email
  {
    if email == "" then Raise("Missing email")
    else Ok(Find(docs, (u: User) => u.email == email))
  }

  /** The user whose `_id` is `oid` (what `populate` resolves an owner reference to), or none. */
  function UserByOid(docs: seq<User>, oid: string): (r: Option<User>)
    ensures r.Some? ==> r.value in docs && r.value.oid == oid
    ensures r.None? ==> forall u :: u in docs ==> u.oid != oid
  {
    Find(docs, (u: User) => u.oid == oid)
  }

  /** Under the schema a lookup by a unique field finds the one document that has it. */
  lemma {:induction false} UniqueLookup(docs: seq<User>, u: User)
    requires SchemaHolds(docs) && u in docs
    ensures GetUserByAuthId(docs, u.authId) == Ok(Some(u))
    ensures GetUserByEmail(docs, u.email) == Ok(Some(u))
    ensures UserByOid(docs, u.oid) == Some(u)
  {
    var k :| 0 <= k < |docs| && docs[k] == u;
    var a := GetUserByAuthId(docs, u.authId).value.value;
    var e := GetUserByEmail(docs, u.email).value.value;
    var o := UserByOid(docs, u.oid).value;
    var ia :| 0 <= ia < |docs| && docs[ia] == a;
    var ie :| 0 <= ie < |docs| && docs[ie] == e;
    var io :| 0 <= io < |docs| && docs[io] == o;
    assert ia == k && ie == k && io == k;
  }

  /** The users collection. */
  class UserCollection {
    var docs: seq<User>
    /** How many `_id`s have been issued; every stored `_id` is one of them. */
    var issued: nat

    ghost predicate Valid()
      reads this
    {
      SchemaHolds(docs) && forall u :: u in docs ==> |u.oid| <= issued
    }

    constructor ()
      ensures Valid() && docs == []
    {
      docs := [];
      issued := 0;
    }

    /**
     * `createIfNewUser`: the stored user with this `id` if there is one
     * (the email argument is then ignored); otherwise a new user with this
     * `id`, this email and no name, which the unique email index may refuse.
     */
    method CreateIfNewUser(authId: string, email: string) returns (r: Result<User>)
      requires Valid()
      modifies this
      ensures Valid()
      ensures email == "" || authId == "" ==> r == Raise("Missing required parameters") && docs == old(docs)
      ensures email != "" && authId != "" && GetUserByAuthId(old(docs), authId).value.Some? ==>
        r == Ok(GetUserByAuthId(old(docs), authId).value.value) && docs == old(docs)
      ensures email != "" && authId != "" && GetUserByAuthId(old(docs), authId).value.None? ==>
        if GetUserByEmail(old(docs), email).value.Some? then
          r == Raise("Error creating new user") && docs == old(docs)
        else
          && r.Ok? && r.value.authId == authId && r.value.email == email && r.value.name == None
          && r.value.oid !in (set u | u in old(docs) :: u.oid)
          && docs == old(docs) + [r.value]
    {
      if email == "" || authId == "" {
        return Raise("Missing required parameters");
      }
      var existing := GetUserByAuthId(docs, authId).value;
      if existing.Some? {
        return Ok(existing.value);
      }
      var newUser := User(ObjectId(issued), authId, email, None);
      issued := issued + 1;
      var saved := Save(docs, newUser);
      match saved {
        case Ok(updated) =>
          docs := updated;
          r := Ok(newUser);
        case Throw(_) =>
          r := Raise("Error creating new user");
      }
    }

    /**
     * `changeUserName`: sets the name of the user whose `id` is `authId`
     * and returns the updated document, or null when there is none.
     */
    method ChangeUserName(authId: string, name: string) returns (r: Result<Option<User>>)
      requires Valid()
      modifies this
      ensures Valid() && issued == old(issued)
      ensures authId == "" || name == "" ==> r == Raise("Missing required parameters") && docs == old(docs)
      ensures authId != "" && name != "" ==>
        && |docs| == |old(docs)|
        && (forall i :: 0 <= i < |docs| ==>
              docs[i] == if old(docs)[i].authId == authId then old(docs)[i].(name := Some(name)) else old(docs)[i])
        && r == match GetUserByAuthId(old(docs), authId).value
                case None => Ok(None)
                case Some(u) => Ok(Some(u.(name := Some(name))))
    {
      if authId == "" || name == "" {
        return Raise("Missing required parameters");
      }
      var i := FirstIndex(docs, (u: User) => u.authId == authId);
      if i < |docs| {
        RenameKeepsSchema(docs, i, name);
        docs := docs[i := docs[i].(name := Some(name))];
        r := Ok(Some(docs[i]));
      } else {
        r := Ok(None);
      }
    }
  }
}
