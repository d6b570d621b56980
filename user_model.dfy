/** The user schema: what the users collection accepts and keeps. */
module UserModel {
  import opened Wrappers
  import opened Seqs

  /**
   * A user document: the store's own `_id`, the identity provider's subject
   * id (`id`), the email and the optional display name.
   */
  datatype User = User(oid: string, authId: string, email: string, name: Option<string>)

  /** The per-document rules: `id` and `email` are required (an empty string fails `required`), `name` is not. */
  predicate WellFormed(u: User)
  {
    u.oid != "" && u.authId != "" && u.email != ""
  }

  /** Every document well formed, and `_id`, `id` and `email` each unique across the collection. */
  ghost predicate SchemaHolds(docs: seq<User>)
  {
    && (forall i :: 0 <= i < |docs| ==> WellFormed(docs[i]))
    && (forall i, j :: 0 <= i < j < |docs| ==>
          docs[i].oid != docs[j].oid && docs[i].authId != docs[j].authId && docs[i].email != docs[j].email)
  }

  /** `u` shares no unique field with a stored document. */
  predicate Unclaimed(docs: seq<User>, u: User)
  {
    forall v :: v in docs ==> v.oid != u.oid && v.authId != u.authId && v.email != u.email
  }

  /**
   * `save()` of a new user document: the required validators run first,
   * then the unique indexes; either refusal throws and stores nothing.
   */
  function Save(docs: seq<User>, u: User): (r: Result<seq<User>>)
    ensures r.Ok? <==> WellFormed(u) && Unclaimed(docs, u)
    ensures r.Ok? ==> r.value == docs + [u]
    ensures SchemaHolds(docs) && r.Ok? ==> SchemaHolds(r.value)
  {
    if !WellFormed(u) then Raise("User validation failed")
    else if !Unclaimed(docs, u) then Raise("E11000 duplicate key error")
    else
      assert forall i :: 0 <= i < |docs| ==> docs[i] in docs;
      Ok(docs + [u])
  }

  /** Setting the optional name of one document keeps the schema. */
  lemma RenameKeepsSchema(docs: seq<User>, i: nat, name: string)
    requires SchemaHolds(docs) && i < |docs|
    ensures SchemaHolds(docs[i := docs[i].(name := Some(name))])
  {
  }

  /** `name !== undefined ? name : email`: the owner label the services attach to listed files. */
  function OwnerLabel(u: User): string
  {
    match u.name
    case Some(n) => n
    case None => u.email
  }
}
