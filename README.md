# Thumbnail generation on upload, modelled in Dafny

This project models `generateThumbnail` in `functions/index.js`. It is a
Cloud Storage `onFinalize` handler. When an object lands in the bucket, the
handler checks that it is an image and not already a thumbnail. It then
downloads the image into the temporary directory, resizes it with sharp,
uploads the JPEG thumbnail to `thumbnails/thumb_<name>` and requests signed
URLs for the original and the thumbnail. Next it appends a document to the
Firestore collection `imagenes` and deletes both temporary files. If anything
throws, the handler deletes whichever temporary files exist and tries to add a
document to `errores`, swallowing failures of both. It then rethrows the
original error.

The model has six modules:

- `Wrappers` (`wrappers.dfy`) holds the `Option` type used for results that
  may be absent.

- `StoragePaths` (`paths.dfy`) holds the string operations the handler uses.
  These are `startsWith` and `includes`, Node's `basename` and `dirname`, and
  the derivation of the two scratch paths and the remote destination.
  `StartsWith`, `Contains`, `BaseName` and `DirName` have contracts that
  characterise their results by positions in the string. `Join` and
  `Destination` are plain definitions; `JoinSplits`, `DestinationSplits` and
  `ScratchPathsSplit` state what `basename` and `dirname` give on the paths
  they build.
- `Eligibility` (`eligibility.dfy`) holds the three-step guard as a pure
  function returning a `Verdict`. It also holds the anti-recursion lemma: the
  guard rejects the handler's own output.
- `ThumbnailSpec` (`pipeline.dfy`) describes the world the handler acts on:
  - the blob store, as a map from path to bytes;
  - the scratch files in the temporary directory, as a map;
  - the `imagenes` and `errores` collections, as sequences;
  - a trace of effects.

  `Env` holds one oracle per external call, and each one succeeds or fails.
  `Handle` is the handler as a function from the world before an invocation to
  the world after it and the outcome (`Skipped` for `return null`, `Processed`
  for the success object, `Threw` for a rethrow). `ExpectedOutcome` and
  `FirstFault` are independent reference definitions of the outcome.
- `ThumbnailHandler` (`handler.dfy`) is the step-by-step program. It is a
  class `Backend` whose fields are that world, with one method per external
  call, the `try` block, the cleanup, and `GenerateThumbnail` itself. Each
  method is proved to change the fields exactly as the matching function of
  `ThumbnailSpec` says.
- `ThumbnailProperties` (`properties.dfy`) proves what an invocation
  guarantees:
  - rejected uploads have no effect;
  - the handler's own thumbnails are rejected;
  - the outcome is the first failure of the `try` block;
  - cleanup and ledger failures never replace the original error;
  - the complete effect of a success;
  - a thumbnail is stored before it is recorded;
  - the effect of a failure;
  - the scenarios of a cat picture, its thumbnail, a PDF and a failed download.

`Guard` and `Destination` are functions, so evaluating them twice on the same
input gives the same result.

Some consequences of the code worth knowing:

- The status written to `imagenes` is `"PROCESADO"` (functions/index.js:212).
- The destination is always `thumbnails/thumb_<basename>`, whatever folder
  the original is in (functions/index.js:122-128). Two uploads with the same
  file name in different folders therefore share one thumbnail path
  (`DestinationIgnoresFolder`).
- Cleanup is best effort, as written at functions/index.js:263-272. The two
  unlinks share one `try`, so a failing first unlink skips the second. A
  scratch file can therefore survive a failed invocation.
- A failure of a success-path unlink happens after the `imagenes` document was
  written. The invocation then throws with that record in place, and an
  `errores` record is added as well (`InputUnlinkFailureKeepsRecord`,
  `ThumbUnlinkFailureKeepsRecord`, `FailedInvocation`).
- The `imagenes` document's `contentType` is the original's content type, not
  the thumbnail's `image/jpeg`.

## Model

| member | source | states |
|---|---|---|
| `StoragePaths.StartsWith` | functions/index.js:89 | `s.startsWith(prefix)` holds exactly when `s` begins with the characters of `prefix`, in order |
| `StoragePaths.Contains` | functions/index.js:95 | `s.includes(part)` holds exactly when `part` occurs in `s` at some position |
| `StoragePaths.BaseName` | functions/index.js:77 | the base name has no slash, is a suffix of the path, and is preceded by a slash when it is shorter than the path |
| `StoragePaths.DirName` | functions/index.js:78 | the directory is `"."` for a path without a slash; for a root-level path `"/" + name` it is `"/"`; otherwise the path is the directory, a slash and the base name |
| `StoragePaths.JoinSplits` | functions/index.js:119-128 | joining a non-empty folder and a slash-free name gives a path whose base name is the name and whose directory is the folder |
| `StoragePaths.DestinationSplits` | functions/index.js:122-128 | the destination's directory is `thumbnails` and its base name is `thumb_` followed by the original's base name |
| `StoragePaths.DerivePaths` | functions/index.js:119-128 | the scratch copy of the original is `tmpDir/<name>` and the scratch thumbnail `tmpDir/thumb_<name>`, two distinct paths; the thumbnail name is `thumb_` + base name; the remote path is the destination |
| `StoragePaths.ScratchPathsSplit` | functions/index.js:119-125 | for a non-empty temporary directory, both scratch paths have that directory as `dirname`, and their base names are the original's name and `thumb_` followed by it |
| `StoragePaths.DestinationIgnoresFolder` | functions/index.js:122-128 | paths with the same base name get the same destination |
| `Eligibility.Guard` | functions/index.js:89-104 | `NotAnImage` exactly when the content type is missing or does not begin with `image/`; otherwise `InThumbnailFolder` exactly when the directory contains `thumbnails`; otherwise `HasThumbnailPrefix` exactly when the base name begins with `thumb_`; otherwise `Eligible` |
| `Eligibility.DestinationRejected` | functions/index.js:95-128 | for any content type the guard rejects the destination, and both the folder check and the prefix check fire on it |
| `ThumbnailHandler.Backend.Download` | functions/index.js:140 | copies the original blob into the scratch file and logs it; on an injected fault or a missing object it changes nothing and returns the error |
| `ThumbnailHandler.Backend.Transform` | functions/index.js:148-154 | writes sharp's output to the thumbnail scratch file, or returns sharp's error and changes nothing |
| `ThumbnailHandler.Backend.Upload` | functions/index.js:163-172 | stores the thumbnail scratch file at the destination, tagged `image/jpeg`, or returns the error and changes nothing |
| `ThumbnailHandler.Backend.AddImage` | functions/index.js:222 | appends the record to `imagenes`, or returns the error and changes nothing |
| `ThumbnailHandler.Backend.Unlink` | functions/index.js:233-236 | removes an existing scratch file, or returns the error and changes nothing |
| `ThumbnailHandler.Backend.AddError` | functions/index.js:276-285 | appends the record to `errores` unless the write fails; a failure is swallowed |
| `ThumbnailHandler.Backend.TryBlockSteps` | functions/index.js:133-252 | runs download, transform, upload, both signed URLs, the `imagenes` add and both unlinks, stopping at the first error, with exactly the effect of `TryBlock` |
| `ThumbnailHandler.Backend.CleanupSteps` | functions/index.js:263-272 | unlinks each scratch file that exists, a failed first unlink ending the cleanup, with exactly the effect of `Cleanup` |
| `ThumbnailHandler.Backend.GenerateThumbnail` | functions/index.js:66-290 | the handler's new state and outcome are those of `Handle`; a skip changes nothing; a success reports the destination |
| `ThumbnailProperties.TryBlockFault` | functions/index.js:133-252 | the `try` block throws exactly the error of its first failing call, in program order |
| `ThumbnailProperties.TryBlockFrame` | functions/index.js:133-252 | the `try` block does not write `errores` and touches no scratch file but its own two |
| `ThumbnailProperties.TryBlockSuccess` | functions/index.js:140-236 | a completed `try` block stores sharp's output at the destination, appends one record, removes both scratch files and logs its six effects in order |
| `ThumbnailProperties.TryBlockRecord` | functions/index.js:140-222 | the `try` block appends an `imagenes` record only after download, transform, upload and both URLs succeeded, with the upload immediately before it |
| `ThumbnailProperties.CleanupEffect` | functions/index.js:263-272 | cleanup touches only the two scratch files and removes both when its unlinks succeed; a failed first unlink leaves everything as it was; the trace is only extended |
| `ThumbnailProperties.CatchBlockFrame` | functions/index.js:254-289 | the catch block leaves the blob store and `imagenes` alone and only extends the trace |
| `ThumbnailProperties.RefusedUploadHasNoEffect` | functions/index.js:89-104 | an upload the guard rejects returns `null` with the world unchanged: no download, scratch file, upload or ledger write |
| `ThumbnailProperties.ThumbnailUploadIsSkipped` | functions/index.js:94-128 | anti-recursion: the upload event of a thumbnail the handler wrote is a no-op for any content type and any oracles |
| `ThumbnailProperties.OutcomeIsFirstFailure` | functions/index.js:133-289 | the outcome equals the reference `ExpectedOutcome`: skipped, the first failing call's error, or success with the destination |
| `ThumbnailProperties.OriginalErrorWins` | functions/index.js:254-289 | changing the outcome of the cleanup unlinks or of the `errores` write never changes what the invocation returns or throws |
| `ThumbnailProperties.SuccessfulInvocation` | functions/index.js:140-252 | the complete effect of a success: result object, blob at the destination, one `imagenes` record with file name, paths, `PROCESADO` and 200x200, no `errores`, both scratch files gone, effects in order |
| `ThumbnailProperties.RecordedOnlyAfterStored` | functions/index.js:140-222 | at most one `imagenes` record is appended, only when every earlier call succeeded; it follows the `image/jpeg` upload to its path, and that blob holds the thumbnail at the end |
| `ThumbnailProperties.FailedInvocation` | functions/index.js:254-289 | on a throw: exactly one `errores` record naming the file, path and message unless that write fails; both scratch files gone when the cleanup unlinks succeed; other scratch files untouched |
| `ThumbnailProperties.LedgerFailureKeepsThumbnail` | functions/index.js:163-222 | when only the `imagenes` add fails, its error is thrown, the thumbnail stays stored and no record is listed |
| `ThumbnailProperties.InputUnlinkFailureKeepsRecord` | functions/index.js:222-288 | when every call up to the `imagenes` add succeeds and the unlink of the scratch original fails, that error is thrown, the record and the stored thumbnail stay, and an `errores` record names the error unless that write fails |
| `ThumbnailProperties.ThumbUnlinkFailureKeepsRecord` | functions/index.js:222-288 | likewise when the original's unlink succeeds and the unlink of the scratch thumbnail fails |
| `ThumbnailProperties.CatPathSplits` | functions/index.js:77-78 | `uploads/42_cat.png` has base name `42_cat.png` and directory `uploads` |
| `ThumbnailProperties.CatIsEligible` | functions/index.js:89-104 | the guard accepts `uploads/42_cat.png` of type `image/png` |
| `ThumbnailProperties.CatDestination` | functions/index.js:122-128 | the thumbnail of `uploads/42_cat.png` goes to `thumbnails/thumb_42_cat.png` |
| `ThumbnailProperties.CatScenario` | functions/index.js:140-252 | with every call succeeding, the cat upload stores `thumbnails/thumb_42_cat.png` and records `42_cat.png` as `PROCESADO` |
| `ThumbnailProperties.CatThumbnailScenario` | functions/index.js:94-104 | the upload event of `thumbnails/thumb_42_cat.png` is a no-op |
| `ThumbnailProperties.PdfScenario` | functions/index.js:89-92 | an `application/pdf` upload is a no-op |
| `ThumbnailProperties.FetchFailsScenario` | functions/index.js:254-289 | a failed download propagates its error, leaves neither scratch file, appends one `errores` record with the original path and nothing else |

## Left out

- The image work of sharp is left out: decoding, the 200x200 `cover` resize, centring, JPEG encoding at quality 80 (functions/index.js:148-154). It is an oracle from the original's bytes to the thumbnail's bytes or an error.
- Firebase initialisation and the client objects are left out (functions/index.js:16-28). The model has one bucket. The event's `bucket` field is not modelled.
- `getSignedUrl` and its expiry date are oracles returning a URL or an error (functions/index.js:181-193).
- Timestamps are left out because they are clock values: `processedAt`, `serverTimestamp()` in both documents (functions/index.js:169, 211, 280). The same goes for `error.stack` (functions/index.js:281) and all `console` output.
- `os.tmpdir()` is a parameter of the invocation.
- The message of the storage client's "object not found" error is a stand-in that names the path.
- Node `path` edge cases are left out: trailing slashes, `.`/`..` normalisation inside `path.join`, and the `"//"` result of `dirname` for paths starting with two slashes. Paths are slash-separated without a trailing slash. `join` is concatenation with a slash.
- A download or transform that fails is modelled as leaving no partial file behind. Scratch files that exist before the invocation are modelled, and the catch block's existence checks handle them.
- The trace records only calls that succeeded. Calls that threw appear only through their error.
- Platform concerns are left out: concurrent invocations, at-least-once redelivery, and timeouts that cut the cleanup short. Each invocation is a single sequential run on its own world.
- public/app.js is not part of this model. It is browser code: DOM listeners, the upload form and a live Firestore listener on a different collection (`images`).
