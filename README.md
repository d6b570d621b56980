# FileBox in Dafny

FileBox is a file-sharing web application. Signed-in users upload files, and
each upload is recorded as a metadata record in a database while its bytes
go to an object bucket. Users can list their own files and the files
shared with them, share or unshare a file with another registered user by
email, rename themselves, and have a file scanned for viruses by an
external scanner. The scan route polls the scanner's report with a linear
back-off.

This project models the core of that system, in the same form as the code:

- **Services and stores.** The user, file and share services work on
  in-memory collections. Each collection is a class whose fields the
  inserting and deleting methods update, with the collection's uniqueness
  rules as a class invariant.
- **Server-side helpers.** The API helpers are pure check chains over
  snapshots of the collections.
- **Route handlers.**
  - Users, files and shares are methods that answer with a status and a
    body and write the stores.
  - The scan route is a method with the retry loop.
  - The two listing routes are functions.
- **Browser side.** The request wrappers send a request to an abstract
  server function. The dashboard and the upload dialog are classes holding
  their state cells.

Conventions:

- An `Option` models null and undefined.
- A missing or falsy string is `""`.
- `_id`s are strings drawn from a per-collection counter.
- A thrown error is a `Result.Throw` carrying the message and, for the API
  helpers, an HTTP status.

## Model

| member | source | states |
|---|---|---|
| UserModel.Save | src/models/User.ts:4-22 | Storing a user succeeds exactly when `_id`, `id` and `email` are present and none of them is already taken. The result is the collection plus that user, and the unique-index schema still holds. |
| UserModel.RenameKeepsSchema | src/models/User.ts:16-19 | Changing the optional name of a stored user keeps the schema. |
| UserService.GetUserByAuthId | src/services/userService.ts:80-97 | An empty `authId` throws "Missing authId". Otherwise the result is a stored user with that `id`, or null exactly when no stored user has it. |
| UserService.GetUserByEmail | src/services/userService.ts:105-122 | An empty email throws "Missing email". Otherwise the result is a stored user with that email, or null exactly when none has it. |
| UserService.UniqueLookup | src/models/User.ts:6-15 | Under the schema, a lookup by `id`, by email or by `_id` finds the one user that has it. |
| UserService.UserCollection.CreateIfNewUser | src/services/userService.ts:12-38 | Empty arguments throw "Missing required parameters". A stored user with this `id` is returned unchanged. Otherwise, an email held by another user throws "Error creating new user" and nothing is stored. In every other case one new user with a fresh `_id`, this `id`, this email and no name is appended. |
| UserService.UserCollection.ChangeUserName | src/services/userService.ts:47-72 | Empty arguments throw. Otherwise exactly the records with this `id` get the new name. Every other record and the collection's length are unchanged. The updated user is returned, or null when there is none. |
| FileService.StoredName | src/services/fileService.ts:28 | The stored name is the longest dot-free prefix of the uploaded name. |
| FileService.StoredExtension | src/services/fileService.ts:29 | The stored extension is absent exactly when the media type has no '/'. Otherwise it is the text between the first '/' and the next '/' or the end. |
| FileService.StoredNameExamples | src/services/fileService.ts:28 | "report.pdf" is stored as "report" and "a.tar.gz" as "a". |
| FileService.DotFileName | src/services/fileService.ts:28 | ".env" is stored with the empty name. |
| FileService.PdfExtension | src/services/fileService.ts:29 | "application/pdf" gives the extension "pdf". |
| FileService.GetFileById | src/services/fileService.ts:105-120 | An empty id throws "Missing fileId". Otherwise the result is the record with that `_id`, or null exactly when there is none. |
| FileService.GetUserFiles | src/services/fileService.ts:71-97 | An empty `userId` throws "Missing userId". A result lists the records owned by `userId`, each as many times as it is stored, in stored order, each labelled with the owner's name if set, else the owner's email. It throws only when some file's owner record is missing. |
| FileService.FileCollection.CreateFile | src/services/fileService.ts:14-40 | Succeeds exactly when the name, media type and owner are non-empty and the size is positive; otherwise it throws "Invalid or missing required parameters" and stores nothing. On success it appends one record with a fresh `_id`, the derived name and extension, and the given size and owner. |
| FileService.FileCollection.DeleteFile | src/services/fileService.ts:48-63 | An empty id throws. Otherwise it returns what `getFileById` would. Afterwards exactly the records with other `_id`s remain, in order, and the length drops by one exactly when a record was removed. |
| ShareService.IsShared | src/services/shareService.ts:116-131 | Empty arguments throw "Missing required parameters". Otherwise the result is true exactly when a grant of this file to this user exists. |
| ShareService.GrantsTo | src/services/shareService.ts:83 | The grants to a user, each as many times as it is stored, in stored order. |
| ShareService.Populate | src/services/shareService.ts:83-102 | Resolves each grant to its file and the file's owner label, keeping order. It fails with "Failed to get shared files" exactly when some grant's file or owner is missing. |
| ShareService.GetSharedFiles | src/services/shareService.ts:75-107 | An empty `userId` throws. Otherwise it succeeds exactly when every grant to the user resolves, and then lists one entry per grant, in order, with the granted file and its owner label. |
| ShareService.OrphanedGrant | src/services/shareService.ts:75-107 | Once a shared file's record is gone, the grant still reports the file as shared, but the recipient's shared listing fails. |
| ShareService.ShareCollection.CreateShare | src/services/shareService.ts:13-40 | Empty arguments throw. Otherwise the pair's grant is returned. It is inserted only if absent, so no grant is duplicated, and afterwards the file is shared with the recipient. |
| ShareService.ShareCollection.DeleteShare | src/services/shareService.ts:49-67 | Empty arguments throw. Otherwise the pair's grant is removed and returned, or null is returned and nothing changes. All other grants stay, in order. |
| ShareService.DeleteSharedFile | src/services/fileService.ts:48-63 | Deleting a shared file's record writes only the files collection. The grant remains and the recipient's shared listing fails. |
| ApiUtils.GetUserFile | src/lib/apiUtils.ts:14-29 | No session gives 401, then the lookup errors. A missing caller gives 404 "User not found". A missing file, or a caller record without `_id`, gives 404 "File not found". Otherwise it returns both records, with no ownership test. |
| ApiUtils.GetUserFileIgnoresOwnership | src/lib/apiUtils.ts:28 | Changing the file's owner never changes whether `getUserFile` succeeds. |
| ApiUtils.GetUserFileRecipient | src/lib/apiUtils.ts:38-58 | Checks in order: 401, then 400 for a missing `fileId` or `recipientEmail`, then `getUserFile`'s errors, then 404 "Recipient not found". On success all three records are the ones named by the session and the body. |
| ApiUtils.FileRetrievalValidation | src/lib/apiUtils.ts:66-79 | Returns normally exactly when there is a session whose user record exists and whose `_id` equals `userId`. No session gives 401 and a missing user gives 404. A mismatched id gives 403 "Unauthorized: requesting userId does not match provided userId". |
| SharesRoute.Gate | src/app/api/shares/route.ts:14-43 | The share handlers' checks yield the grant to act on or the error answer. They agree with `getUserFileRecipient` followed by an ownership test. The helper's statused errors come out unchanged and its other errors as the `catch` answers them. A non-owner gets 403. Only the owner proceeds, with the body's file and the recipient's `_id`. |
| SharesRoute.OnlyOwnerProceeds | src/app/api/shares/route.ts:35-45 | When the checks pass, the caller, the file and the recipient exist and the caller owns the file. |
| SharesRoute.RecipientCheckedBeforeOwnership | src/app/api/shares/route.ts:30-43 | A caller who does not own the file gets 404 for an unregistered email and 403 for a registered one. |
| SharesRoute.Post | src/app/api/shares/route.ts:12-52 | Every refusal leaves the grants unchanged. A pass returns the pair's grant, inserted if absent, and afterwards the file is shared. |
| SharesRoute.Delete | src/app/api/shares/route.ts:59-99 | Every refusal leaves the grants unchanged. A pass removes the pair's grant and returns it, or returns null when there was none. Other grants are kept. |
| UsersRoute.Post | src/app/api/users/route.ts:10-29 | 401, then 422 for a missing `sub` or email, then `createIfNewUser`. An existing user is returned unchanged, an email clash is a 500, and otherwise exactly one new record is added. |
| UsersRoute.SignInTwice | src/app/api/users/route.ts:22-24 | Signing in again returns the same user and stores nothing more: the collection gains the caller's record only if it was not stored before the first call. |
| UsersRoute.Patch | src/app/api/users/route.ts:36-60 | 401, then 400 "Name missing", then 422. Then only the caller's record is renamed and returned, or null is returned when the caller has none. |
| FilesRoute.Post | src/app/api/files/route.ts:12-46 | The checks are 401, 400 "File missing", the lookup's 500 and 404 "User not found", then `createFile`'s refusal; each leaves both stores unchanged. Otherwise one record owned by the caller is created first. Its object is stored under its `_id` only when the upload is accepted. A failed upload gives 500 and keeps the record. A bucket that mirrored the records stays mirrored exactly when nothing was created or the upload was accepted. |
| ScanRoute.Backoff | src/app/api/scan/route.ts:70-77 | The k-th sleep is 4000·(k+1) ms. |
| ScanRoute.BackoffTotal | src/app/api/scan/route.ts:70-77 | The first n sleeps total 2000·n·(n+1) ms. |
| ScanRoute.Post | src/app/api/scan/route.ts:13-97 | 401 and 400 happen before any upstream request. A non-200 upload gives 500 with the upstream error and fetches no report. Otherwise there are 1 to 10 report fetches, all but the last not ready, and the last decides the answer. A non-200 report gives 500. A completed report gives `complete: true` with its stats after the sleeps before it. A tenth unready report gives `complete: false` with zero stats after ten sleeps. |
| ScanRoute.CompletesOnThirdFetch | src/app/api/scan/route.ts:46-69 | A report complete on the third fetch takes three fetches and sleeps of 4 s and 8 s. |
| ScanRoute.NeverCompletes | src/app/api/scan/route.ts:46-92 | A report that never completes takes ten fetches and 220 s of sleep and answers incomplete with zero stats. |
| ScanRoute.ReportErrorStops | src/app/api/scan/route.ts:78-81 | A failing first report fetch stops the loop: one fetch, no sleep, a 500. |
| Http.Caught | src/app/api/users/route.ts:25-28 | A route's `catch` always answers with an error. The message is the error's own, or the fallback when it has none. The status is 500, except in the listing handlers, which pass on a non-zero `error.status`. |
| ListingRoutes.FilesAsWritten | src/lib/apiUtils.ts:66-79 | The files handler (`src/app/api/users/[userId]/files/route.ts`, lines 11-30) as written, with this validation's outcome dropped. An empty `userId` gives 500 "Missing userId". A registered `userId` always gets a listing, and the listing holds exactly that user's files, whatever the session. |
| ListingRoutes.SharedAsWritten | src/lib/apiUtils.ts:66-79 | The shared-files handler (`src/app/api/users/[userId]/shared/route.ts`, lines 11-30) as written, with this validation's outcome dropped. An empty `userId` gives 500. Otherwise a listing is returned exactly when every grant to `userId` resolves, with one entry per grant holding the granted file, whatever the session. |
| ListingRoutes.AnyoneListsAnyUsersFiles | src/lib/apiUtils.ts:66-79 | The files handler (`src/app/api/users/[userId]/files/route.ts`, line 18) calls this validation without awaiting it. As written, a request without a session gets any registered user's files. With the validation awaited it gets 401. |
| ListingRoutes.AnyoneListsAnyUsersShares | src/lib/apiUtils.ts:66-79 | The shared-files handler (`src/app/api/users/[userId]/shared/route.ts`, line 18) calls this validation without awaiting it. As written, a request without a session gets the files shared with any user. With the validation awaited it gets 401. |
| ListingRoutes.Files | src/lib/apiUtils.ts:66-79 | The files handler (`src/app/api/users/[userId]/files/route.ts`, lines 11-30) with this validation awaited: a listing is returned only to the user `userId`, and it holds exactly that user's files. A caller with an `_id` asking for someone else's listing gets 403, and no session gets 401. |
| ListingRoutes.Shared | src/lib/apiUtils.ts:66-79 | The shared-files handler (`src/app/api/users/[userId]/shared/route.ts`, lines 11-30) with this validation awaited: the shared listing is returned only to the user `userId`, with one entry per grant. No session gets 401. |
| ClientUtils.Send | src/lib/clientUtils.ts:81-88 | An argument error is thrown without a request. Otherwise a 200 answer's body is returned as is. Any other answer throws the operation's label, the server's error and the status. |
| ClientUtils.RetrieveUserDetails | src/lib/clientUtils.ts:20-33 | One POST to /api/users. A 200 answer's body is the user; any other answer throws "Error fetching user details" with the server's error and status. |
| ClientUtils.RetrieveFiles | src/lib/clientUtils.ts:69-89 | An empty user id or section throws "Missing required parameters". Otherwise one GET to /api/users/{userId}/files for "my-files" or .../shared for any other section, answered as `retrieveUserDetails` is, with "Error fetching user files". |
| ClientUtils.FilesPlan | src/lib/clientUtils.ts:69-79 | `retrieveFiles` throws "Missing required parameters" exactly when an argument is empty. Otherwise it sends a GET with no body. |
| ClientUtils.FilesPlanRoutes | src/lib/clientUtils.ts:77 | The listing path splits back into the user id and "files" for "my-files", or "shared" for any other section. |
| ClientUtils.UploadPlan | src/lib/clientUtils.ts:97-108 | `uploadFile` throws "Missing file" exactly when there is no file. Otherwise it POSTs the file as a form to /api/files. |
| ClientUtils.UploadFile | src/lib/clientUtils.ts:97-118 | No file throws "Missing file". Otherwise one POST of the file as a form to /api/files, returning the saved record on 200 and throwing "Error uploading file" with the server's error and status otherwise. |
| ClientUtils.ScanFile | src/lib/clientUtils.ts:126-152 | No file throws "Missing file". Otherwise one POST of the file to /api/scan. A complete 200 report is returned as is, and a returned report is always that one. A 200 body that is not complete throws "Scan report not complete". Any other answer throws "Error uploading file" with the server's error and status. |
| ClientUtils.FilePlan | src/lib/clientUtils.ts:160-167 | `deleteFile` and `retrievePresignedUrl` throw "Missing fileId" exactly for an empty id. Otherwise they send one request with no body. |
| ClientUtils.FilePlanRoutes | src/lib/clientUtils.ts:165 | The per-file path splits back into the file id. |
| ClientUtils.DeleteFile | src/lib/clientUtils.ts:160-177 | An empty id throws "Missing fileId". Otherwise one DELETE to /api/files/{fileId}, returning the body on 200 and throwing "Error deleting file" with the server's error and status otherwise. |
| ClientUtils.RetrievePresignedUrl | src/lib/clientUtils.ts:273-290 | An empty id throws "Missing fileId". Otherwise one GET to /api/files/{fileId}, returning the URL on 200 and throwing "Error retrieving presigned URL" with the server's error and status otherwise. |
| ClientUtils.SharePlan | src/lib/clientUtils.ts:186-197 | `shareFile` and `unShareFile` throw "Missing required parameters" exactly when an argument is empty. Otherwise they send the pair as the JSON body to /api/shares. |
| ClientUtils.ShareFile | src/lib/clientUtils.ts:186-207 | An empty file id or email throws "Missing required parameters". Otherwise one POST of the pair to /api/shares, returning the grant on 200 and throwing "Error sharing file" with the server's error and status otherwise. |
| ClientUtils.UnShareFile | src/lib/clientUtils.ts:216-237 | An empty file id or email throws "Missing required parameters". Otherwise one DELETE of the pair to /api/shares, returning the body on 200 and throwing "Error sharing file", the same label as sharing, otherwise. |
| ClientUtils.RenamePlan | src/lib/clientUtils.ts:245-255 | `changeUserSettings` throws "Missing name" exactly for an empty name. Otherwise it PATCHes /api/users with the name. |
| ClientUtils.ChangeUserSettings | src/lib/clientUtils.ts:245-265 | An empty name throws "Missing name". Otherwise one PATCH of the name to /api/users, returning the updated user on 200 and throwing "Error changing user name" with the server's error and status otherwise. |
| ClientUtils.WrappersCheckArgumentsFirst | src/lib/clientUtils.ts:98-100 | Every wrapper throws its argument error whatever the server would answer, so no request is made. |
| ClientUtils.DisplayName | src/lib/clientUtils.ts:55 | The shown name is the stored name when it is non-empty, and the email otherwise. |
| ClientUtils.DisplayNameAgainstOwnerLabel | src/lib/clientUtils.ts:55 | The dashboard's displayed name differs from the services' owner label exactly when the stored name is empty and the email is not. |
| HomePage.Extensions | src/components/HomePage.tsx:49 | Exactly the non-empty extensions of the listed files. Of two of them, the one the listing shows first comes first. |
| HomePage.FileTypes | src/components/HomePage.tsx:48-51 | The options start with "all", and the rest are exactly the listing's non-empty extensions. |
| HomePage.FileTypesSpec | src/components/HomePage.tsx:48-51 | The type options are "all", then each non-empty extension exactly once, ordered by the position of the first listed file with that extension. |
| HomePage.FilterFiles | src/components/HomePage.tsx:85-104 | A file is visible exactly when it is listed, the term is empty, invalid or matches it, and the type is "all" or equals its extension. |
| HomePage.FilterKeepsOrder | src/components/HomePage.tsx:85-104 | The visible files are an order-preserving subsequence of the listing. With no usable term and type "all", they are the whole listing. |
| HomePage.Toggle | src/components/HomePage.tsx:114-124 | Selecting flips the id's membership, keeps every other id's, and leaves no duplicates. |
| HomePage.ToggleKeepsOrder | src/components/HomePage.tsx:114-124 | On a duplicate-free selection, removal keeps the others in order and addition appends. |
| HomePage.ToggleTwice | src/components/HomePage.tsx:114-124 | Toggling the same id twice restores the selection as a set. It restores the exact sequence when the id was not selected. |
| HomePage.FirstFailure | src/components/HomePage.tsx:132 | No failure exactly when every deletion succeeded. Otherwise it returns the error of a deletion that failed. |
| HomePage.Dashboard.InitializeUserDetails | src/lib/clientUtils.ts:43-60 | Missing details throw "Missing user details" and set nothing. Otherwise the id, the displayed name and the email are set. |
| HomePage.Dashboard.Init | src/components/HomePage.tsx:66-81 | A failed `retrieveUserDetails` is reported and changes nothing. Otherwise the caller's details are shown, then the active section's listing for the caller's `_id` is loaded as `updateFiles` does. |
| HomePage.Dashboard.UpdateFiles | src/components/HomePage.tsx:59-63 | A successful listing replaces the files and empties the selection. A failed one throws and changes neither. |
| HomePage.Dashboard.HandleSelectFile | src/components/HomePage.tsx:114-124 | The selection becomes the toggled selection. |
| HomePage.Dashboard.HandleDeleteSelected | src/components/HomePage.tsx:129-143 | Without a user id or a selection, nothing is requested and the refusal is reported. Otherwise every selected id is requested for deletion. If all succeed the listing is reloaded; else the failure is reported and nothing changes. |
| HomePage.Dashboard.HandleSectionChange | src/components/HomePage.tsx:150-153 | The section is switched, then its listing is reloaded. |
| UploadDialog.Dialog.HandleFileChange | src/components/UploadDialog.tsx:25-32 | A selection is taken exactly when it exists and is between 0 and 10 MiB, both exclusive. Otherwise the alert is shown and the earlier file is kept. |
| UploadDialog.Dialog.HandleUpload | src/components/UploadDialog.tsx:35-49 | Without a file nothing is sent. Otherwise the file is uploaded, and `onSuccess` runs exactly when the upload returned a record. |
| UploadDialog.RefusedFileIsNotSent | src/components/UploadDialog.tsx:25-49 | After a refused selection, the upload sends the earlier accepted file. |
| Seqs.Keep | src/components/HomePage.tsx:91-100 | `filter`: the elements satisfying the predicate, each as many times as in the input, none other, and no duplicates introduced. |
| Seqs.KeepKeepsFirstOrder | src/components/HomePage.tsx:49 | `filter` keeps the order in which two kept values first appear. |
| Seqs.Dedup | src/components/HomePage.tsx:49-50 | `Array.from(new Set(s))`: the same elements, each once. |
| Seqs.DedupFirstAppearance | src/components/HomePage.tsx:49-50 | The deduplicated elements come in the order of their first appearance. |
| Strings.Split | src/services/fileService.ts:28-29 | `split` on one character yields at least one piece, and no piece contains the separator. |
| Strings.JoinSplit | src/services/fileService.ts:28-29 | Joining the pieces of a split gives back the string. |
| Strings.SplitJoin | src/services/fileService.ts:28-29 | Splitting the join of separator-free pieces gives back the pieces. |
| Strings.FirstPiece | src/services/fileService.ts:28 | The first piece is the longest separator-free prefix. |
| Strings.SecondPiece | src/services/fileService.ts:29 | There is a second piece exactly when the separator occurs. It is the text after the first separator, up to the next one or the end. |

## Left out

- Database connections and query failures are not modelled. These are the services' `catch` blocks: "Failed to save file to database", "Error changing user name", "Error getting user", "Failed to delete file from database", "Failed to get file", "Failed to get user files", and the share service's own catch messages. The one exception is `populate` on a deleted record, which `GetUserFiles` and `Populate` model as a failure.
- The file and share schemas (src/models/File.ts, src/models/Share.ts) are not part of this model. A record such as the empty name derived from ".env" is stored as is, although the file schema might refuse it.
- Mongo `_id`s are 24 hexadecimal characters. Here they are distinct strings from a counter, and every id a request names is assumed to be a well-formed ObjectId. Mongoose casts `_id` and `ownerId` to ObjectId, and a string that is not one throws a CastError inside the services' `try` blocks. The model does not have that error, so two answers differ:
  - `FileService.GetFileById` on a malformed id returns null. The service throws "Failed to get file" (src/services/fileService.ts:112-118), so the share handlers answer 500 with that message where `SharesRoute.Gate` and `ApiUtils.GetUserFile` give 404 "File not found".
  - `FileService.GetUserFiles` on a malformed `userId` returns an empty listing. The service throws "Failed to get user files" (src/services/fileService.ts:78-96), so the files listing answers 500 where the model answers 200 with `[]`.
- The listing handlers' un-awaited `fileRetrievalValidation` (see "## Findings") leaves its rejection unhandled at process level. Node's unhandled-rejection handling, a warning or a crash depending on its settings, is not modelled; `ListingRoutes.FilesAsWritten` and `ListingRoutes.SharedAsWritten` model only the answer the handler sends.
- Concurrency is not modelled. This covers races between `findOne` and `save`, and the order in which `Promise.all` settles. `HomePage.FirstFailure` reports the first failure in selection order, where the browser reports the first to settle.
- Session retrieval is a parameter. A session without its `user` object is not modelled.
- Parsing request bodies, form data and JSON, and its failures, is not modelled. Bodies arrive already parsed, with missing fields as `""`.
- Network errors thrown by `fetch` in the browser wrappers are not modelled. A route answer with an error body and status 200 is not either, because no handler produces one.
- The object bucket's own code (src/services/s3Service.ts) is not modelled. The upload's outcome is the boolean `s3Accepts`.
- The regular expression engine is not modelled. `HomePage.FilterFiles` takes "the term matches name, extension or owner" as a predicate, and "the term compiles" as a flag.
- Clocks and sleeping are not modelled. The scan route logs each requested sleep in the ghost `waits`, and the scanner's answers are the parameters `upload` and `report`.
- The per-file route src/app/api/files/[fileId]/route.ts, which returns a presigned URL or deletes, is not part of this model. The browser wrappers that call it are modelled against an abstract server.
- FilesRoute.Post does not model the "Failed to create file in database" branch. `createFile` in this model always returns a record with an `_id`, so that branch cannot be taken.
- The dashboard's rendering, its toasts and dialogs, `handleDownload` (which opens a window), `triggerShare` and `handleLogout` are UI wiring and are not modelled. So are the React hooks that recompute the type options and the visible files; those are the functions `HomePage.FileTypes` and `HomePage.FilterFiles`.
- HomePage.Dashboard.UpdateFiles clears the selection only after a successful listing. When `retrieveFiles` fails, the code throws before `setSelectedFiles([])`, and the selection stays as it was.
- File sizes are unbounded integers. JavaScript numbers, such as a NaN size, are not modelled.
- `HomePage.FileTypes` repeats "all" when a file's extension is itself "all". `FileTypesSpec` states the list after the leading "all" and does not hide that case.
- HomePage.Dashboard.Init does not model the guard that skips start-up while the identity provider is loading, has failed or has no user. That state belongs to the provider's hook, which is not part of this model.

## Findings

| source | as written | input that shows it | evidently intended | confidence | as-written member | corrected member |
|---|---|---|---|---|---|---|
| src/app/api/users/[userId]/files/route.ts:18 | `fileRetrievalValidation(session, userId)` is called without `await`, so its rejection never reaches the handler's `catch` and the listing is always returned; the rejection is then unhandled at process level, which is not modelled | no session, and `userId` the `_id` of a registered user who owns a file | await the validation: 401/404/403 unless the caller is `userId` | not executed | ListingRoutes.FilesAsWritten (exhibited by ListingRoutes.AnyoneListsAnyUsersFiles) | ListingRoutes.Files |
| src/app/api/users/[userId]/shared/route.ts:18 | the same un-awaited validation in the shared-files handler | no session, and `userId` any user whose grants resolve | await the validation: only the user `userId` sees what is shared with them | not executed | ListingRoutes.SharedAsWritten (exhibited by ListingRoutes.AnyoneListsAnyUsersShares) | ListingRoutes.Shared |
