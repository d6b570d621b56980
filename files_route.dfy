/**
 * POST /api/files: records an uploaded file's metadata, then stores its
 * bytes in the object bucket under the new record's `_id`.
 */
module FilesRoute {
  import opened Wrappers
  import opened Http
  import opened UserModel
  import opened UserService
  import opened FileService

  /** The object bucket: one object per key. */
  class Bucket {
    var objects: map<string, Blob>

    constructor ()
      ensures objects == map[]
    {
      objects := map[];
    }
  }

  /** Every file record has its object in the bucket and every object belongs to a record. */
  ghost predicate Mirrored(docs: seq<FileDoc>, objects: map<string, Blob>)
  {
    objects.Keys == set f | f in docs :: f.oid
  }

  /**
   * The handler. `s3Accepts` is the outcome of the bucket upload. The
   * metadata record is written first and stays when the upload fails, so a
   * failed upload leaves a record with no object.
   */
  method Post(session: Option<Session>, form: FormField, s3Accepts: bool, users: seq<User>,
              files: FileCollection, bucket: Bucket)
    returns (reply: Reply<FileDoc>)
    requires files.Valid()
    modifies files, bucket
    ensures files.Valid()
    ensures session.None? ==>
      reply == ErrorJson(401, "Not authenticated") && files.docs == old(files.docs) && bucket.objects == old(bucket.objects)
    ensures session.Some? && form.NotAFile? ==>
      reply == ErrorJson(400, "File missing") && files.docs == old(files.docs) && bucket.objects == old(bucket.objects)
    ensures session.Some? && form.FileField? && session.value.sub == "" ==>
      reply == ErrorJson(500, "Missing authId") && files.docs == old(files.docs) && bucket.objects == old(bucket.objects)
    ensures session.Some? && form.FileField? && session.value.sub != "" ==>
      var owner := GetUserByAuthId(users, session.value.sub).value;
      var b := form.file;
      if owner.None? || owner.value.oid == "" then
        reply == ErrorJson(404, "User not found") && files.docs == old(files.docs) && bucket.objects == old(bucket.objects)
      else if b.name == "" || b.mediaType == "" || b.size <= 0 then
        && reply == ErrorJson(500, "Invalid or missing required parameters")
        && files.docs == old(files.docs) && bucket.objects == old(bucket.objects)
      else
        && |files.docs| == |old(files.docs)| + 1
        && var doc := files.docs[|old(files.docs)|];
        && files.docs == old(files.docs) + [doc]
        && doc.name == StoredName(b.name) && doc.extension == StoredExtension(b.mediaType)
        && doc.size == b.size && doc.ownerId == owner.value.oid
        && (forall f :: f in old(files.docs) ==> f.oid != doc.oid)
        && if s3Accepts then reply == Json(doc) && bucket.objects == old(bucket.objects)[doc.oid := b]
           else reply == ErrorJson(500, "Failed to upload file to S3") && bucket.objects == old(bucket.objects)
    ensures Mirrored(old(files.docs), old(bucket.objects)) ==>
      (Mirrored(files.docs, bucket.objects) <==> s3Accepts || files.docs == old(files.docs))
  {
    if session.None? {
      return ErrorJson(401, "Not authenticated");
    }
    if form.NotAFile? {
      return ErrorJson(400, "File missing");
    }
    var found := GetUserByAuthId(users, session.value.sub);
    if found.Throw? {
      return Caught(found.failure, "Error creating file", false);
    }
    var owner := found.value;
    if owner.None? || owner.value.oid == "" {
      return ErrorJson(404, "User not found");
    }
    var b := form.file;
    var created := files.CreateFile(b.name, b.mediaType, b.size, owner.value.oid);
    if created.Throw? {
      return Caught(created.failure, "Error creating file", false);
    }
    var doc := created.value;
    ghost var before := old(files.docs);
    assert (set f | f in files.docs :: f.oid) == (set f | f in before :: f.oid) + {doc.oid} by {
      assert forall f :: f in files.docs <==> f in before || f == doc;
    }
    assert doc.oid !in (set f | f in before :: f.oid);
    if !s3Accepts {
      return ErrorJson(500, "Failed to upload file to S3");
    }
    bucket.objects := bucket.objects[doc.oid := b];
    reply := Json(doc);
  }
}
