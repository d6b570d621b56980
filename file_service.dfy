/** The file service: metadata records of uploaded files. */
module FileService {
  import opened Wrappers
  import opened Seqs
  import opened Strings
  import opened ObjectIds
  import opened UserModel
  import opened UserService

  /** A file record: its `_id`, name without extension, extension (absent when underivable), size and owner's `_id`. */
  datatype FileDoc = FileDoc(oid: string, name: string, extension: Option<string>, size: int, ownerId: string)

  /** A record as the listing endpoints return it: the record plus its owner's label. */
  datatype Listed = Listed(file: FileDoc, owner: string)

  /** `name.split('.')[0]`: the longest dot-free prefix of the uploaded name. */
  function StoredName(original: string): (n: string)
    ensures |n| <= |original| && original[..|n|] == n && '.' !in n
    ensures |n| < |original| ==> original[|n|] == '.'
  {
    FirstPiece(original, '.');
    Split(original, '.')[0]
  }

  /**
   * `type.split('/')[1]`: absent exactly when the media type has no '/';
   * otherwise the text after the first '/' up to the next '/' or the end.
   */
  function StoredExtension(mediaType: string): (e: Option<string>)
    ensures e.None? <==> '/' !in mediaType
    ensures e.Some? ==> '/' !in e.value && exists i ::
      && 0 <= i && i + 1 + |e.value| <= |mediaType| && mediaType[i] == '/' && '/' !in mediaType[..i]
      && mediaType[i + 1..][..|e.value|] == e.value
      && (i + 1 + |e.value| < |mediaType| ==> mediaType[i + 1 + |e.value|] == '/')
  {
    SecondPiece(mediaType, '/');
    var parts := Split(mediaType, '/');
    if |parts| > 1 then Some(parts[1]) else None
  }

  /** `report.pdf` is stored under the name `report`; `a.tar.gz` under `a`. */
  lemma StoredNameExamples()
    ensures StoredName("report.pdf") == "report"
    ensures StoredName("a.tar.gz") == "a"
  {
    assert "report.pdf" == "report" + ['.'] + "pdf";
    SplitAtSeparator("report", '.', "pdf");
    assert "a.tar.gz" == "a" + ['.'] + "tar.gz";
    SplitAtSeparator("a", '.', "tar.gz");
  }

  /** A leading dot leaves an empty stored name. */
  lemma DotFileName()
    ensures StoredName(".env") == ""
  {
    assert ".env" == "" + ['.'] + "env";
    SplitAtSeparator("", '.', "env");
  }

  /** `application/pdf` yields the extension `pdf`. */
  lemma PdfExtension()
    ensures StoredExtension("application/pdf") == Some("pdf")
  {
    assert "application/pdf" == "application" + ['/'] + "pdf";
    SplitAtSeparator("application", '/', "pdf");
    SplitWithoutSeparator("pdf", '/');
  }

  /** `getFileById`: the record with this `_id`, or null; throws on an empty argument. */
  function GetFileById(docs: seq<FileDoc>, fileId: string): (r: Result<Option<FileDoc>>)
    ensures fileId == "" ==> r == Raise("Missing fileId")
    ensures fileId != "" ==> r.Ok?
    ensures r.Ok? && r.value.Some? ==> r.value.value in docs && r.value.value.oid == fileId
    ensures r.Ok? && r.value.None? ==> forall f :: f in docs ==> f.oid != fileId
  {
    if fileId == "" then Raise("Missing fileId")
    else Ok(Find(docs, (f: FileDoc) => f.oid == fileId))
  }

  function FilesOf(listed: seq<Listed>): (files: seq<FileDoc>)
    ensures |files| == |listed|
    ensures forall i :: 0 <= i < |listed| ==> files[i] == listed[i].file
  {
    seq(|listed|, i requires 0 <= i < |listed| => listed[i].file)
  }

  /**
   * `getUserFiles`: the records whose owner is `userId`, in stored order, each
   * labelled with the owner's name if set, else email. Populating a missing
   * owner reads a property of null, which the service reports as a failure.
   */
  function GetUserFiles(docs: seq<FileDoc>, users: seq<User>, userId: string): (r: Result<seq<Listed>>)
    ensures userId == "" ==> r == Raise("Missing userId")
    ensures r.Throw? ==> userId == "" || (UserByOid(users, userId).None? && exists f :: f in docs && f.ownerId == userId)
    ensures r.Ok? ==>
      && (forall f :: f in FilesOf(r.value) <==> f in docs && f.ownerId == userId)
      && (forall f :: multiset(FilesOf(r.value))[f] == if f.ownerId == userId then multiset(docs)[f] else 0)
      && IsSubsequence(FilesOf(r.value), docs)
      && forall i :: 0 <= i < |r.value| ==>
           UserByOid(users, userId).Some? && r.value[i].owner == OwnerLabel(UserByOid(users, userId).value)
  {
    if userId == "" then Raise("Missing userId")
    else
      var owned := Keep(docs, (f: FileDoc) => f.ownerId == userId);
      var owner := UserByOid(users, userId);
      if owned == [] then
        Ok([])
      else if owner.None? then
        assert owned[0] in owned;
        Raise("Failed to get user files")
      else
        var listed := seq(|owned|, i requires 0 <= i < |owned| => Listed(owned[i], OwnerLabel(owner.value)));
        assert FilesOf(listed) == owned;
        KeepIsSubsequence(docs, (f: FileDoc) => f.ownerId == userId);
        Ok(listed)
  }

  /**
   * Removing the record at `i` from records with distinct `_id`s leaves
   * exactly the records with other `_id`s, still distinct and in order.
   */
  lemma RemoveRecord(docs: seq<FileDoc>, i: nat)
    requires i < |docs|
    requires forall a, b :: 0 <= a < b < |docs| ==> docs[a].oid != docs[b].oid
    ensures forall f :: f in RemoveAt(docs, i) <==> f in docs && f.oid != docs[i].oid
    ensures forall a, b :: 0 <= a < b < |RemoveAt(docs, i)| ==> RemoveAt(docs, i)[a].oid != RemoveAt(docs, i)[b].oid
    ensures IsSubsequence(RemoveAt(docs, i), docs)
  {
    var r := RemoveAt(docs, i);
    assert forall a :: 0 <= a < |r| ==> r[a] == if a < i then docs[a] else docs[a + 1];
    forall f | f in docs && f.oid != docs[i].oid ensures f in r {
      var k :| 0 <= k < |docs| && docs[k] == f;
      assert k != i;
      assert r[if k < i then k else k - 1] == f;
    }
    RemoveAtIsSubsequence(docs, i);
  }

  /** The files collection. */
  class FileCollection {
    var docs: seq<FileDoc>
    var issued: nat

    ghost predicate Valid()
      reads this
    {
      && (forall i, j :: 0 <= i < j < |docs| ==> docs[i].oid != docs[j].oid)
      && (forall f :: f in docs ==> f.oid != "" && |f.oid| <= issued)
    }

    constructor ()
      ensures Valid() && docs == []
    {
      docs := [];
      issued := 0;
    }

    /**
     * `createFile`: refuses an empty name, an empty media type, a zero or
     * negative size and an empty owner; otherwise appends one record with a
     * fresh `_id`, the derived name and extension, and the given size and owner.
     */
    method CreateFile(name: string, mediaType: string, size: int, ownerId: string) returns (r: Result<FileDoc>)
      requires Valid()
      modifies this
      ensures Valid()
      ensures r.Ok? <==> name != "" && mediaType != "" && size > 0 && ownerId != ""
      ensures r.Throw? ==> r == Raise("Invalid or missing required parameters") && docs == old(docs)
      ensures r.Ok? ==>
        && r.value.name == StoredName(name) && r.value.extension == StoredExtension(mediaType)
        && r.value.size == size && r.value.ownerId == ownerId
        && r.value.oid != "" && (forall f :: f in old(docs) ==> f.oid != r.value.oid)
        && docs == old(docs) + [r.value]
    {
      if name == "" || mediaType == "" || size == 0 || size < 0 || ownerId == "" {
        return Raise("Invalid or missing required parameters");
      }
      var doc := FileDoc(ObjectId(issued), StoredName(name), StoredExtension(mediaType), size, ownerId);
      issued := issued + 1;
      docs := docs + [doc];
      r := Ok(doc);
    }

    /**
     * `deleteFile`: removes the record with this `_id` and returns it, or
     * returns null and changes nothing. Share grants live in another
     * collection and are not touched.
     */
    method DeleteFile(fileId: string) returns (r: Result<Option<FileDoc>>)
      requires Valid()
      modifies this
      ensures Valid() && issued == old(issued)
      ensures fileId == "" ==> r == Raise("Missing fileId") && docs == old(docs)
      ensures fileId != "" ==> r == GetFileById(old(docs), fileId)
      ensures forall f :: f in docs <==> f in old(docs) && f.oid != fileId
      ensures |docs| == |old(docs)| - (if r.Ok? && r.value.Some? then 1 else 0)
      ensures IsSubsequence(docs, old(docs))
    {
      SubsequenceReflexive(docs);
      if fileId == "" {
        return Raise("Missing fileId");
      }
      var i := FirstIndex(docs, (f: FileDoc) => f.oid == fileId);
      if i < |docs| {
        r := Ok(Some(docs[i]));
        RemoveRecord(docs, i);
        docs := RemoveAt(docs, i);
      } else {
        r := Ok(None);
      }
    }
  }
}
