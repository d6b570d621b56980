/**
 * The dashboard: the signed-in user's details, the listing of the active
 * section, the search and type filters over it, and the selection of files
 * for bulk deletion.
 */
module HomePage {
  import opened Wrappers
  import opened Http
  import opened Seqs
  import opened Strings
  import opened UserModel
  import opened FileService
  import opened ClientUtils

  /** A listed file's extension as text; a missing extension counts as "". */
  function ExtensionText(f: Listed): string
  {
    if f.file.extension.Some? then f.file.extension.value else ""
  }

  /** Where the listing first shows a file with extension `t` (`|files|` when none does). */
  function FirstWith(files: seq<Listed>, t: string): nat
  {
    FirstIndex(files, (f: Listed) => f.file.extension == Some(t))
  }

  /** The extension text of each listed file, in listing order. */
  function ExtensionTexts(files: seq<Listed>): (all: seq<string>)
    ensures |all| == |files| && forall i :: 0 <= i < |files| ==> all[i] == ExtensionText(files[i])
  {
    seq(|files|, i requires 0 <= i < |files| => ExtensionText(files[i]))
  }

  /** JavaScript truthiness of a string. */
  predicate NonEmpty(t: string)
  {
    t != ""
  }

  /** A non-empty text first occurs among the extension texts where the listing first shows that extension. */
  lemma FirstText(files: seq<Listed>, t: string)
    requires t in ExtensionTexts(files) && t != ""
    ensures IndexOf(ExtensionTexts(files), t) == FirstWith(files, t)
  {
    var all := ExtensionTexts(files);
    var k, first := IndexOf(all, t), FirstWith(files, t);
    assert files[k].file.extension == Some(t);
  }

  /** The membership and the order of the kept extension texts. */
  lemma KeptTexts(files: seq<Listed>)
    ensures var exts := Keep(ExtensionTexts(files), NonEmpty);
      && (forall t :: t in exts <==> t != "" && exists f :: f in files && f.file.extension == Some(t))
      && (forall x, y :: x in exts && y in exts && IndexOf(exts, x) < IndexOf(exts, y) ==>
            FirstWith(files, x) < FirstWith(files, y))
  {
    var all := ExtensionTexts(files);
    var exts := Keep(all, NonEmpty);
    forall t | t in all ensures exists f :: f in files && ExtensionText(f) == t {
      var i :| 0 <= i < |all| && all[i] == t;
      assert files[i] in files;
    }
    forall f | f in files ensures ExtensionText(f) in all {
      var i :| 0 <= i < |files| && files[i] == f;
      assert all[i] == ExtensionText(f);
    }
    forall x, y | x in exts && y in exts && IndexOf(exts, x) < IndexOf(exts, y)
      ensures FirstWith(files, x) < FirstWith(files, y)
    {
      KeepKeepsFirstOrder(all, NonEmpty, x, y);
      FirstText(files, x);
      FirstText(files, y);
    }
  }

  /**
   * `files.map(file => file.extension).filter(Boolean)`: the non-empty
   * extensions, where two of them come in the order the listing first shows
   * them.
   */
  function Extensions(files: seq<Listed>): (exts: seq<string>)
    ensures forall t :: t in exts <==> t != "" && exists f :: f in files && f.file.extension == Some(t)
    ensures forall x, y :: x in exts && y in exts && IndexOf(exts, x) < IndexOf(exts, y) ==>
      FirstWith(files, x) < FirstWith(files, y)
  {
    KeptTexts(files);
    Keep(ExtensionTexts(files), NonEmpty)
  }

  /** The type filter's options: "all", then each extension once, in order of first appearance. */
  function FileTypes(files: seq<Listed>): (types: seq<string>)
    ensures |types| >= 1 && types[0] == "all"
    ensures forall t :: t in types[1..] <==> t in Extensions(files)
  {
    ["all"] + Dedup(Extensions(files))
  }

  /**
   * The options list "all" first, then exactly the non-empty extensions of
   * the listing, each once, ordered by where the listing first shows them.
   */
  lemma FileTypesSpec(files: seq<Listed>)
    ensures var types := FileTypes(files);
      && |types| >= 1 && types[0] == "all"
      && (forall t :: t in types[1..] <==> t != "" && exists f :: f in files && f.file.extension == Some(t))
      && NoDuplicates(types[1..])
      && (forall i, j :: 1 <= i < j < |types| ==> FirstWith(files, types[i]) < FirstWith(files, types[j]))
  {
    var types := FileTypes(files);
    var exts := Extensions(files);
    assert types[1..] == Dedup(exts);
    DedupFirstAppearance(exts);
    forall i, j | 1 <= i < j < |types|
      ensures FirstWith(files, types[i]) < FirstWith(files, types[j])
    {
      assert types[i] == types[1..][i - 1] && types[j] == types[1..][j - 1];
      assert types[i] in Dedup(exts) && types[j] in Dedup(exts);
      assert IndexOf(exts, types[i]) < IndexOf(exts, types[j]);
    }
  }

  /**
   * The visible files. `matches` stands for "the case-insensitive regular
   * expression `term` finds the name, the extension or the owner" and
   * `regexValid` for "`term` compiles"; a term that does not compile filters
   * nothing.
   */
  function FilterFiles(files: seq<Listed>, term: string, fileType: string, matches: Listed -> bool, regexValid: bool)
    : (visible: seq<Listed>)
    ensures forall f :: f in visible <==>
      && f in files
      && (term == "" || !regexValid || matches(f))
      && (fileType == "all" || f.file.extension == Some(fileType))
  {
    var byTerm := if term != "" && regexValid then Keep(files, matches) else files;
    if fileType != "all" then Keep(byTerm, (f: Listed) => f.file.extension == Some(fileType)) else byTerm
  }

  /** Filtering keeps the listing's order, and with no term and type "all" it shows everything. */
  lemma FilterKeepsOrder(files: seq<Listed>, term: string, fileType: string, matches: Listed -> bool, regexValid: bool)
    ensures IsSubsequence(FilterFiles(files, term, fileType, matches, regexValid), files)
    ensures (term == "" || !regexValid) && fileType == "all" ==> FilterFiles(files, term, fileType, matches, regexValid) == files
  {
    var byTerm := if term != "" && regexValid then Keep(files, matches) else files;
    if term != "" && regexValid {
      KeepIsSubsequence(files, matches);
    } else {
      SubsequenceReflexive(files);
    }
    if fileType != "all" {
      var ofType := (f: Listed) => f.file.extension == Some(fileType);
      KeepIsSubsequence(byTerm, ofType);
      SubsequenceTransitive(Keep(byTerm, ofType), byTerm, files);
    }
  }

  /**
   * `handleSelectFile`'s result: `Array.from(new Set(s))` with `id` deleted if
   * present, added otherwise. It flips `id`'s membership, keeps every other
   * id's, and holds no duplicates.
   */
  function Toggle(s: seq<string>, id: string): (t: seq<string>)
    ensures NoDuplicates(t)
    ensures forall x :: x in t <==> if x == id then id !in s else x in s
  {
    var d := Dedup(s);
    if id in d then
      RemoveAtMembers(d, IndexOf(d, id));
      RemoveAt(d, IndexOf(d, id))
    else d + [id]
  }

  /** On a selection without duplicates, removal keeps the others' order and addition appends. */
  lemma ToggleKeepsOrder(s: seq<string>, id: string)
    requires NoDuplicates(s)
    ensures id in s ==> IsSubsequence(Toggle(s, id), s)
    ensures id !in s ==> Toggle(s, id) == s + [id]
  {
    DedupOfDistinct(s);
    if id in s {
      RemoveAtIsSubsequence(s, IndexOf(s, id));
    }
  }

  /** Toggling twice restores the selection as a set, and exactly when `id` was not selected. */
  lemma ToggleTwice(s: seq<string>, id: string)
    ensures forall x :: x in Toggle(Toggle(s, id), id) <==> x in s
    ensures NoDuplicates(s) && id !in s ==> Toggle(Toggle(s, id), id) == s
  {
    if NoDuplicates(s) && id !in s {
      ToggleKeepsOrder(s, id);
      var t := s + [id];
      assert NoDuplicates(t);
      DedupOfDistinct(t);
      assert IndexOf(t, id) == |s|;
      assert RemoveAt(t, |s|) == s;
    }
  }

  /** The toast shown when bulk deletion is refused. */
  function RefusedDeletion(selectedCount: nat, userMongoId: string): string
  {
    "Error deleting files \n" + NatToDecimal(selectedCount) + " files selected \nuserMongoId: " + userMongoId
  }

  /** The first failed deletion, if any. */
  function FirstFailure(results: seq<Result<Option<FileDoc>>>): (r: Option<Failure>)
    ensures r.None? <==> forall i :: 0 <= i < |results| ==> results[i].Ok?
    ensures r.Some? ==> exists i :: 0 <= i < |results| && results[i] == Throw(r.value)
  {
    if results == [] then None
    else if results[0].Throw? then Some(results[0].failure)
    else
      var rest := FirstFailure(results[1..]);
      assert forall i :: 1 <= i < |results| ==> results[i] == results[1..][i - 1];
      rest
  }

  /** The dashboard's state cells. */
  class Dashboard {
    var userMongoId: string
    var name: string
    var email: string
    var files: seq<Listed>
    var selected: seq<string>
    var section: string

    constructor ()
      ensures userMongoId == "" && name == "" && email == "" && files == [] && selected == [] && section == "my-files"
    {
      userMongoId, name, email := "", "", "";
      files, selected := [], [];
      section := "my-files";
    }

    /**
     * `initializeUserDetails`: no details throws; otherwise the id, the
     * displayed name (falling back to the email) and the email are set.
     */
    method InitializeUserDetails(details: Option<User>) returns (r: Result<()>)
      modifies this`userMongoId, this`name, this`email
      ensures details.None? ==>
        r == Raise("Missing user details") && userMongoId == old(userMongoId) && name == old(name) && email == old(email)
      ensures details.Some? ==>
        && r == Ok(())
        && userMongoId == details.value.oid && name == DisplayName(details.value) && email == details.value.email
    {
      if details.None? {
        return Raise("Missing user details");
      }
      userMongoId := details.value.oid;
      name := DisplayName(details.value);
      email := details.value.email;
      r := Ok(());
    }

    /**
     * The start-up effect once the identity provider has a user: fetch the
     * caller's record, show its details, then load the active section's
     * listing. The first failure is what the toast reports.
     */
    method Init(account: Request -> Reply<User>, listing: Request -> Reply<seq<Listed>>) returns (r: Result<()>)
      modifies this`userMongoId, this`name, this`email, this`files, this`selected
      ensures var details := RetrieveUserDetails(account);
        && (details.Throw? ==> r == Throw(details.failure) && unchanged(this))
        && (details.Ok? ==>
              && userMongoId == details.value.oid && name == DisplayName(details.value)
              && email == details.value.email
              && var loaded := RetrieveFiles(details.value.oid, section, listing);
              && (loaded.Ok? ==> r == Ok(()) && files == loaded.value && selected == [])
              && (loaded.Throw? ==> r == Throw(loaded.failure) && files == old(files) && selected == old(selected)))
    {
      var details := RetrieveUserDetails(account);
      if details.Throw? {
        return Throw(details.failure);
      }
      var shown := InitializeUserDetails(Some(details.value));
      r := UpdateFiles(details.value.oid, section, listing);
    }

    /**
     * `updateFiles`: on a listing, shows it and clears the selection; a
     * failed listing throws before either cell is set.
     */
    method UpdateFiles(id: string, sec: string, server: Request -> Reply<seq<Listed>>) returns (r: Result<()>)
      modifies this`files, this`selected
      ensures var listing := RetrieveFiles(id, sec, server);
        && (listing.Ok? ==> r == Ok(()) && files == listing.value && selected == [])
        && (listing.Throw? ==> r == Throw(listing.failure) && files == old(files) && selected == old(selected))
    {
      var listing := RetrieveFiles(id, sec, server);
      if listing.Throw? {
        return Throw(listing.failure);
      }
      files := listing.value;
      selected := [];
      r := Ok(());
    }

    /** `handleSelectFile`. */
    method HandleSelectFile(id: string)
      modifies this`selected
      ensures selected == Toggle(old(selected), id)
      ensures forall x :: x in selected <==> if x == id then id !in old(selected) else x in old(selected)
    {
      var chosen := Dedup(selected);
      if id in chosen {
        chosen := RemoveAt(chosen, IndexOf(chosen, id));
      } else {
        chosen := chosen + [id];
      }
      selected := chosen;
    }

    /**
     * `handleDeleteSelected`: with a known user and a non-empty selection,
     * asks for every selected file's deletion and then reloads the listing;
     * otherwise deletes nothing. `requested` lists the deletion requests;
     * `r` is what the toast reports (Ok for none).
     */
    method HandleDeleteSelected(deleting: Request -> Reply<Option<FileDoc>>, listing: Request -> Reply<seq<Listed>>)
      returns (requested: seq<string>, r: Result<()>)
      modifies this`files, this`selected
      ensures userMongoId == "" || |old(selected)| == 0 ==>
        && requested == [] && r == Raise(RefusedDeletion(|old(selected)|, userMongoId))
        && files == old(files) && selected == old(selected)
      ensures userMongoId != "" && |old(selected)| > 0 ==> requested == old(selected)
      ensures userMongoId != "" && |old(selected)| > 0 ==>
        var results := seq(|requested|, i requires 0 <= i < |requested| => ClientUtils.DeleteFile(requested[i], deleting));
        if FirstFailure(results).Some? then
          r == Throw(FirstFailure(results).value) && files == old(files) && selected == old(selected)
        else
          var reloaded := RetrieveFiles(userMongoId, section, listing);
          && (reloaded.Ok? ==> r == Ok(()) && files == reloaded.value && selected == [])
          && (reloaded.Throw? ==> r == Throw(reloaded.failure) && files == old(files) && selected == old(selected))
    {
      if userMongoId == "" || |selected| == 0 {
        return [], Raise(RefusedDeletion(|selected|, userMongoId));
      }
      requested := selected;
      var results := seq(|requested|, i requires 0 <= i < |requested| => ClientUtils.DeleteFile(requested[i], deleting));
      var failed := FirstFailure(results);
      if failed.Some? {
        return requested, Throw(failed.value);
      }
      r := UpdateFiles(userMongoId, section, listing);
    }

    /** `handleSectionChange`: switches the section, then reloads its listing. */
    method HandleSectionChange(sec: string, listing: Request -> Reply<seq<Listed>>) returns (r: Result<()>)
      modifies this`section, this`files, this`selected
      ensures section == sec
      ensures var reloaded := RetrieveFiles(userMongoId, sec, listing);
        && (reloaded.Ok? ==> r == Ok(()) && files == reloaded.value && selected == [])
        && (reloaded.Throw? ==> r == Throw(reloaded.failure) && files == old(files) && selected == old(selected))
    {
      section := sec;
      r := UpdateFiles(userMongoId, sec, listing);
    }
  }
}
