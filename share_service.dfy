/** The share service: grants of read access to a file, one per (file, recipient) pair. */
module ShareService {
  import opened Wrappers
  import opened Seqs
  import opened UserModel
  import opened UserService
  import opened FileService

  /** A grant: the file's `_id` and the recipient's `_id`. */
  datatype Share = Share(fileId: string, userId: string)

  /** `isShared(userId, fileId)` (note the argument order): whether a grant for the pair exists. */
  function IsShared(grants: seq<Share>, userId: string, fileId: string): (r: Result<bool>)
    ensures userId == "" || fileId == "" ==> r == Raise("Missing required parameters")
    ensures userId != "" && fileId != "" ==> r == Ok(Share(fileId, userId) in grants)
  {
    if userId == "" || fileId == "" then Raise("Missing required parameters")
    else
      var found := Find(grants, (g: Share) => g.fileId == fileId && g.userId == userId);
      assert found.Some? ==> found.value == Share(fileId, userId);
      Ok(found.Some?)
  }

  /** The grants whose recipient is `userId`, in stored order (`Share.find({ userId })`). */
  function GrantsTo(grants: seq<Share>, userId: string): (mine: seq<Share>)
    ensures forall g :: g in mine <==> g in grants && g.userId == userId
    ensures forall g :: multiset(mine)[g] == if g.userId == userId then multiset(grants)[g] else 0
    ensures IsSubsequence(mine, grants)
  {
    KeepIsSubsequence(grants, (g: Share) => g.userId == userId);
    Keep(grants, (g: Share) => g.userId == userId)
  }

  /** A grant whose file and whose file's owner both still exist, so `populate` fills both in. */
  predicate Resolves(g: Share, files: seq<FileDoc>, users: seq<User>)
  {
    var f := Find(files, (d: FileDoc) => d.oid == g.fileId);
    f.Some? && UserByOid(users, f.value.ownerId).Some?
  }

  /** One populated entry per grant, in order; a grant that does not resolve makes the whole listing fail. */
  function Populate(mine: seq<Share>, files: seq<FileDoc>, users: seq<User>): (r: Result<seq<Listed>>)
    ensures r.Ok? <==> forall i :: 0 <= i < |mine| ==> Resolves(mine[i], files, users)
    ensures r.Throw? ==> r == Raise("Failed to get shared files")
    ensures r.Ok? ==> |r.value| == |mine| && forall i :: 0 <= i < |mine| ==>
      && r.value[i].file in files && r.value[i].file.oid == mine[i].fileId
      && UserByOid(users, r.value[i].file.ownerId).Some?
      && r.value[i].owner == OwnerLabel(UserByOid(users, r.value[i].file.ownerId).value)
  {
    if mine == [] then Ok([])
    else if !Resolves(mine[0], files, users) then Raise("Failed to get shared files")
    else
      var f := Find(files, (d: FileDoc) => d.oid == mine[0].fileId).value;
      var head := Listed(f, OwnerLabel(UserByOid(users, f.ownerId).value));
      match Populate(mine[1..], files, users)
      case Throw(e) => Throw(e)
      case Ok(tail) => Ok([head] + tail)
  }

  /**
   * `getSharedFiles`: one entry per grant to `userId`, each the granted file
   * labelled with its owner's name if set, else email. It fails as a whole
   * when some grant to `userId` names a file (or owner) that no longer exists.
   */
  function GetSharedFiles(grants: seq<Share>, files: seq<FileDoc>, users: seq<User>, userId: string): (r: Result<seq<Listed>>)
    ensures userId == "" ==> r == Raise("Missing userId")
    ensures userId != "" ==> (r.Ok? <==> forall g :: g in grants && g.userId == userId ==> Resolves(g, files, users))
    ensures r.Ok? ==> |r.value| == |GrantsTo(grants, userId)| && forall i :: 0 <= i < |r.value| ==>
      && r.value[i].file in files && r.value[i].file.oid == GrantsTo(grants, userId)[i].fileId
      && UserByOid(users, r.value[i].file.ownerId).Some?
      && r.value[i].owner == OwnerLabel(UserByOid(users, r.value[i].file.ownerId).value)
  {
    if userId == "" then Raise("Missing userId")
    else
      var mine := GrantsTo(grants, userId);
      assert forall i :: 0 <= i < |mine| ==> mine[i] in mine;
      Populate(mine, files, users)
  }

  /**
   * Deleting a file leaves its grants behind: the grant still answers
   * `isShared`, while the recipient's shared listing now fails.
   */
  lemma OrphanedGrant(grants: seq<Share>, files: seq<FileDoc>, users: seq<User>, fileId: string, userId: string)
    requires fileId != "" && userId != "" && Share(fileId, userId) in grants
    requires GetFileById(files, fileId) == Ok(None)
    ensures IsShared(grants, userId, fileId) == Ok(true)
    ensures GetSharedFiles(grants, files, users, userId) == Raise("Failed to get shared files")
  {
    assert !Resolves(Share(fileId, userId), files, users);
  }

  /** The shares collection. */
  class ShareCollection {
    var grants: seq<Share>

    /** No pair is granted twice, and every grant names both ids. */
    ghost predicate Valid()
      reads this
    {
      NoDuplicates(grants) && forall g :: g in grants ==> g.fileId != "" && g.userId != ""
    }

    constructor ()
      ensures Valid() && grants == []
    {
      grants := [];
    }

    /**
     * `createShare`: returns the existing grant for the pair unchanged, or
     * inserts one; either way the recipient then has the file shared.
     */
    method CreateShare(fileId: string, recipientId: string) returns (r: Result<Share>)
      requires Valid()
      modifies this
      ensures Valid()
      ensures fileId == "" || recipientId == "" ==> r == Raise("Missing required parameters") && grants == old(grants)
      ensures fileId != "" && recipientId != "" ==>
        && r == Ok(Share(fileId, recipientId))
        && grants == (if Share(fileId, recipientId) in old(grants) then old(grants)
                      else old(grants) + [Share(fileId, recipientId)])
        && IsShared(grants, recipientId, fileId) == Ok(true)
    {
      if fileId == "" || recipientId == "" {
        return Raise("Missing required parameters");
      }
      var existing := Find(grants, (g: Share) => g.fileId == fileId && g.userId == recipientId);
      if existing.Some? {
        return Ok(existing.value);
      }
      var grant := Share(fileId, recipientId);
      assert grant !in grants;
      grants := grants + [grant];
      r := Ok(grant);
    }

    /**
     * `deleteShare`: removes the grant for the pair and returns it, or returns
     * null and changes nothing. Grants for other pairs stay, in their order.
     */
    method DeleteShare(fileId: string, recipientId: string) returns (r: Result<Option<Share>>)
      requires Valid()
      modifies this
      ensures Valid()
      ensures fileId == "" || recipientId == "" ==> r == Raise("Missing required parameters") && grants == old(grants)
      ensures fileId != "" && recipientId != "" ==>
        && r == (if Share(fileId, recipientId) in old(grants) then Ok(Some(Share(fileId, recipientId))) else Ok(None))
        && Share(fileId, recipientId) !in grants
        && (forall g :: g != Share(fileId, recipientId) ==> (g in grants <==> g in old(grants)))
        && |grants| == |old(grants)| - (if r.value.Some? then 1 else 0)
        && IsSubsequence(grants, old(grants))
    {
      SubsequenceReflexive(grants);
      if fileId == "" || recipientId == "" {
        return Raise("Missing required parameters");
      }
      var i := FirstIndex(grants, (g: Share) => g.fileId == fileId && g.userId == recipientId);
      if i < |grants| {
        r := Ok(Some(grants[i]));
        RemoveAtMembers(grants, i);
        RemoveAtIsSubsequence(grants, i);
        grants := RemoveAt(grants, i);
      } else {
        r := Ok(None);
      }
    }
  }

  /**
   * `deleteFile` writes only the files collection, so the grants to the
   * deleted file remain and the recipient's listing breaks.
   */
  method DeleteSharedFile(files: FileCollection, shares: ShareCollection, users: seq<User>, fileId: string, userId: string)
    returns (deleted: Result<Option<FileDoc>>)
    requires files.Valid() && shares.Valid() && Share(fileId, userId) in shares.grants
    modifies files
    ensures deleted.Ok? && files.Valid()
    ensures GetFileById(files.docs, fileId) == Ok(None)
    ensures IsShared(shares.grants, userId, fileId) == Ok(true)
    ensures GetSharedFiles(shares.grants, files.docs, users, userId) == Raise("Failed to get shared files")
  {
    deleted := files.DeleteFile(fileId);
    OrphanedGrant(shares.grants, files.docs, users, fileId, userId);
  }
}
