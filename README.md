# Video ingestion: upload card and upload endpoint

This project models the two parts of the video ingestion path that have behaviour:

- **The upload card.** This is the browser component in `components/VideoUploadCard.tsx`. It checks a chosen video against an allow-list of four MIME types and a 500 MiB ceiling (`MAX_FILE_SIZE`, `ACCEPTED_VIDEO_TYPES`, lines 10-16, and `validateFile`). It keeps six pieces of state: `file`, `error`, `isUploading`, `isUploaded`, `videoId` and `uploadProgress`. Its handlers move that state: file selection by drop or by the file input, removal, submission, and the "Generate Clips" hand-off to `onProcess`.
- **The endpoint.** This is `POST /api/videos/upload` in `app/api/videos/upload/route.ts`. It reads the multipart form and answers 400 when there is no `file` entry. It creates the `uploads` directory, writes the bytes to `uploads/<declared name>`, then creates a video record holding the name and the path. It answers 200 with the record's id. Any exception gives 500 with a fixed message.

Files:

- `media.dfy` (module `Media`): bytes, `Option`, and `File` (declared name, declared MIME type, bytes; `Size()` is `File.size`).
- `upload_card.dfy` (module `UploadCard`): the card.
  - `ValidateFile`.
  - The state machine as a specification on values. `UiState` holds the six fields. `HandleFileSpec`, `SelectFirstSpec`, `RemoveFileSpec`, `BeginSubmitSpec` and `SettleSubmitSpec` give the handlers, and `Step` and `Run` apply them.
  - The page's guards: `Enabled`, `CanSubmit`, `CanGenerateClips` and `GuardedRun`.
  - The invariants `Inv` and `GuardedInv`.
  - The class `UploadController`. Its methods update the fields in place.
    - `HandleFile` promises `State() == HandleFileSpec(old(State()), selected)` together with the field-by-field effect.
    - `HandleRemoveFile`, `BeginSubmit` and `SettleSubmit` each promise `State() == Step(old(State()), event)` together with the field-by-field effect.
    - `HandleDrop` and `HandleInputChange` promise the `Step` equation and that an empty list changes nothing; for the first file they defer to `HandleFileSpec`.
    - `HandleSubmit` promises that the new state is `SettleSubmitSpec` applied after `BeginSubmitSpec`.
    - `GenerateClips` changes no state and returns `ProcessCall` of the current state.
- `upload_card_properties.dfy` (module `UploadCardProperties`): lemmas about single steps and about whole runs of events.
- `upload_route.dfy` (module `UploadRoute`): the endpoint.
  - `FormGet` models `FormData.get`.
  - The store is `Store`: a set of directories, a map from paths to bytes, and the sequence of records.
  - `PostSpec` specifies the handler.
  - The class `IngestionEndpoint` runs the same steps imperatively, with early returns, through `Mkdir`, `WriteFile` and `CreateRecord`.
- `upload_route_properties.dfy` (module `UploadRouteProperties`): lemmas about `PostSpec`.
- `end_to_end.dfy` (module `EndToEnd`): the card's request fed to the endpoint, and the endpoint's response fed back to the card.

How outside effects are modelled:

- **The network.** The settled `fetch` is a `FetchOutcome` parameter. It is a rejected promise, or a status with a JSON body that may fail to parse and may lack `videoId`. `res.ok` is a status in 200..299.
- **The endpoint's awaited calls.** Success or failure of each call is an `Effects` parameter. The calls are `file.arrayBuffer()`, `fs.mkdir`, `fs.writeFile` and `prisma.video.create`; the last one supplies the new id. `process.cwd()` is the endpoint's `cwd` constant.
- **`handleSubmit`.** It is split at its `await` into `BeginSubmit` and `SettleSubmit`, because the page can be used while a transfer is in flight. `HandleSubmit` runs both halves as one step. Every other handler is one atomic step.
- **`onProcess`.** It is optional, and `app/upload/page.tsx` passes none. The controller records whether it was given one (`hasOnProcess`). A click on "Generate Clips" returns the id `onProcess` would be called with.

Behaviours of the code that a reader might not expect, each stated by a lemma:

- **No server-side check.** The endpoint does not re-check the type or the size. Lemma `AnyTypeAndSizeStored` shows this.
- **Same-name overwrite.** Storage is keyed by the declared file name, so a later upload under the same name overwrites the earlier bytes. Lemma `SameNameOverwrites` shows this.
- **No cleanup.** A failed record creation leaves the written file in place (lemma `CreateFailureKeepsWrite`). When no file was at that path before, the bytes are orphaned (lemma `OrphanOnCreateFailure`). When an earlier upload under the same name has a record, that record now points at the failed upload's bytes, although the request was answered 500 (lemma `CreateFailureReplacesRecordedVideo`).
- **A refused file drops the selection.** It does not reset the earlier upload's id, flag or progress. Lemma `RejectedSelectionKeepsUpload` shows this.
- **The drop zone has no guard in the code.** Only the file input is disabled during and after an upload (components/VideoUploadCard.tsx:173). The input covers the whole drop zone (`absolute inset-0`, lines 169-175), so whether a browser delivers a drop on a disabled input to the zone's `onDrop` depends on the browser. The model takes the handler as written: if the drop reaches it during a transfer, it replaces the candidate, and the late success then marks that new file as uploaded. Lemma `DropDuringTransfer` shows this.

## Model

| member | source | states |
|---|---|---|
| `UploadCard.ValidateFile` | components/VideoUploadCard.tsx:43-52 | No error exactly when the type is one of the four allowed strings and the size is at most 524,288,000 (the ceiling itself passes). The type message is returned exactly for a type outside the list, whatever the size. The size message is returned exactly for an allowed type over the ceiling. |
| `UploadCard.UploadController.constructor` | components/VideoUploadCard.tsx:23-29 | The initial state: no file, no error, not uploading, not uploaded, no id, progress 0. |
| `UploadCard.UploadController.HandleFile` | components/VideoUploadCard.tsx:55-68 | A refused file sets `error` to the message and clears `file`, leaving `isUploading`, `isUploaded`, `videoId` and `uploadProgress` unchanged. An accepted file clears `error`, sets `file`, and resets `isUploaded`, `videoId` and progress to false, null and 0, leaving `isUploading` alone. |
| `UploadCard.UploadController.HandleDrop` | components/VideoUploadCard.tsx:70-78 | Only element 0 of the dropped list is handled; an empty list changes nothing. |
| `UploadCard.UploadController.HandleInputChange` | components/VideoUploadCard.tsx:80-86 | Only element 0 of the input's list is handled; an empty list changes nothing. |
| `UploadCard.UploadController.HandleRemoveFile` | components/VideoUploadCard.tsx:88-94 | Resets `file`, `error`, `isUploaded`, `videoId` and progress to their initial values and leaves `isUploading` unchanged. |
| `UploadCard.UploadController.BeginSubmit` | components/VideoUploadCard.tsx:96-100 | With no file held nothing is sent and nothing changes. Otherwise the held file is sent, `isUploading` becomes true and progress 0. |
| `UploadCard.UploadController.SettleSubmit` | components/VideoUploadCard.tsx:102-133 | Always ends with `isUploading` false, and `file` and `error` unchanged. On an ok response with a parseable body, `videoId` is the body's id, progress is 100 and `isUploaded` is true. Otherwise `videoId`, progress and `isUploaded` are unchanged. |
| `UploadCard.UploadController.HandleSubmit` | components/VideoUploadCard.tsx:96-134 | Does nothing without a file. With a file, the state afterwards is the settled half applied after the starting half, for the given network outcome. |
| `UploadCard.UploadController.GenerateClips` | components/VideoUploadCard.tsx:256 | Changes no state. `onProcess` is called exactly when the card has one and holds a non-empty `videoId`, and it is called with that id: the result is `ProcessCall` of the current state. |
| `UploadCard.ProcessCall` | components/VideoUploadCard.tsx:256 | `videoId && onProcess?.(videoId)` yields an id exactly when an `onProcess` was given and the held id is non-empty, and then it is the held id. |
| `UploadCard.CanSubmit` | components/VideoUploadCard.tsx:245-248 | An enabled upload button means no transfer is running, and clicking it starts one at progress 0. |
| `UploadCard.CanGenerateClips` | components/VideoUploadCard.tsx:245-263 | In any state meeting the invariant, holding an id means "Generate Clips" is shown. |
| `UploadCard.Enabled` | components/VideoUploadCard.tsx:169-256 | While uploading, only a drop or the response can happen: the input is disabled, the remove button is hidden and the upload button is disabled. Once uploaded, neither the input nor the upload button can be used. |
| `UploadCardProperties.StepPreservesInv` | components/VideoUploadCard.tsx:55-133 | Every handler keeps the invariant: progress is 0 or 100; 100 only when uploaded; 0 while uploading; an id only when uploaded; an error only when no file is held; a held file passes validation. |
| `UploadCardProperties.RunPreservesInv` | components/VideoUploadCard.tsx:55-133 | Any sequence of handlers keeps that invariant. |
| `UploadCardProperties.ReachableStates` | components/VideoUploadCard.tsx:43-68 | From the initial state, under any events, progress is 0 or 100. Any file held, and so any file that can be sent, has an accepted type and is within the ceiling. |
| `UploadCardProperties.StepReachesHundred` | components/VideoUploadCard.tsx:111-118 | One step moves progress to 100 only by a response that is ok and parses. |
| `UploadCardProperties.HundredOnlyAfterOk` | components/VideoUploadCard.tsx:111-118 | A run that starts below 100 and ends at 100 contains an ok, parseable response. |
| `UploadCardProperties.VideoIdOnlyFromResponse` | components/VideoUploadCard.tsx:115-117 | A run that ends holding an id it did not start with contains a successful response carrying exactly that id. |
| `UploadCardProperties.ProcessCallFromResponse` | components/VideoUploadCard.tsx:256 | The id handed to `onProcess` is non-empty, an `onProcess` was given, and a successful response delivered exactly that id. |
| `UploadCardProperties.StepPreservesGuardedInv` | components/VideoUploadCard.tsx:173-248 | Each event the page allows keeps the invariant and also keeps "not uploaded while uploading". |
| `UploadCardProperties.GuardedRunPreservesGuardedInv` | components/VideoUploadCard.tsx:173-248 | Any run of allowed events keeps that invariant. |
| `UploadCardProperties.SubmitOnlyValidFile` | components/VideoUploadCard.tsx:245-248 | In any allowed run from the start, an enabled upload button means no transfer is running and a file passing validation is held. While uploading, the card is not in the uploaded state and shows progress 0. |
| `UploadCardProperties.RetryAfterFailure` | components/VideoUploadCard.tsx:125-133 | A failed transfer keeps the file, leaves progress at 0, leaves the uploaded flag and id unchanged, ends the upload, and leaves the upload button enabled for a retry. |
| `UploadCardProperties.SuccessLocksSelection` | components/VideoUploadCard.tsx:245-263 | After a successful response, the file input is disabled, the upload button is gone and "Generate Clips" is offered. Progress is 100 and the id is the response's. |
| `UploadCardProperties.HandleSubmitOutcome` | components/VideoUploadCard.tsx:97-133 | A whole submission with a file ends not uploading, with file and error kept. On success: progress 100, uploaded, and the response's id. On failure: progress 0, and the uploaded flag and id as before. |
| `UploadCardProperties.ReselectionResets` | components/VideoUploadCard.tsx:63-83 | Dropping and choosing through the input act the same. An accepted first file becomes the candidate and clears the error, the id, the uploaded flag and the progress. |
| `UploadCardProperties.RejectedSelectionKeepsUpload` | components/VideoUploadCard.tsx:56-60 | A refused file clears the candidate and shows its message. The uploaded flag, the id, the progress and `isUploading` stay as they were. |
| `UploadCardProperties.DropDuringTransfer` | components/VideoUploadCard.tsx:70-78 | Dropping is allowed during a transfer and replaces the candidate. The transfer's later success marks the new file as uploaded under the id the server gave the earlier one. |
| `UploadRoute.FormGet` | app/api/videos/upload/route.ts:9-10 | The result is absent exactly when no entry has the name. |
| `UploadRoute.FormGetIsFirst` | app/api/videos/upload/route.ts:9-10 | A found value is that of the first entry with the name. |
| `UploadRoute.Falsy` | app/api/videos/upload/route.ts:12 | `!file` holds exactly for a missing entry or an empty text value; a file entry is never falsy. |
| `UploadRoute.IngestionEndpoint.Mkdir` | app/api/videos/upload/route.ts:19-20 | Creating the upload directory adds it to the directories. The call fails, changing nothing, on an outside failure or when a file occupies the path. |
| `UploadRoute.IngestionEndpoint.WriteFile` | app/api/videos/upload/route.ts:22-23 | Writing puts the bytes at the path, replacing any earlier file there. The call fails, changing nothing, on an outside failure or when the path is a directory. |
| `UploadRoute.IngestionEndpoint.CreateRecord` | app/api/videos/upload/route.ts:25-30 | Record creation appends exactly one record, or fails and appends none. Directories and files are never touched. |
| `UploadRoute.IngestionEndpoint.Post` | app/api/videos/upload/route.ts:6-37 | The new store and the response are those of `PostSpec`. The store invariant (every record points at stored bytes) is kept. |
| `UploadRouteProperties.PostPreservesValid` | app/api/videos/upload/route.ts:20-30 | No path becomes both a file and a directory. Every record, old or new, points at stored bytes: a record is never made for bytes that were not written. |
| `UploadRouteProperties.ResponseShapes` | app/api/videos/upload/route.ts:12-35 | Every response is one of three: 400 `{error: "No file uploaded"}`, 500 `{error: "Failed to upload video"}`, or 200 carrying the id that record creation returned. No path or detail leaks. |
| `UploadRouteProperties.MissingFileRejected` | app/api/videos/upload/route.ts:12-14 | With no `file` entry, the answer is 400 "No file uploaded" and the store is unchanged: no directory, no file, no record. |
| `UploadRouteProperties.SuccessExactly` | app/api/videos/upload/route.ts:16-32 | For a `file` entry holding a file, the answer is 200 exactly when every step succeeds, and that condition never looks at type or size. On 200, the bytes are at `uploads/<name>` and exactly one record `(id, name, path)` is appended. The returned id is that record's id. |
| `UploadRouteProperties.WriteFailureAddsNoRecord` | app/api/videos/upload/route.ts:23-35 | When the write fails, no record is added, no file is changed and the answer is not 200. With a file entry present, the answer is the catch block's fixed 500. |
| `UploadRouteProperties.BadRequestExactly` | app/api/videos/upload/route.ts:12-14 | The answer is 400 exactly when the form parses and `!file` holds for its `file` entry. |
| `UploadRouteProperties.FailureWithFileIs500` | app/api/videos/upload/route.ts:16-35 | With a file in the `file` entry, every answer other than 200 is the fixed 500 "Failed to upload video". |
| `UploadRouteProperties.UnparsableIs500` | app/api/videos/upload/route.ts:8-9 | A body that `req.formData()` cannot parse is answered with the fixed 500, and the store is unchanged. |
| `UploadRouteProperties.TextEntryIs500` | app/api/videos/upload/route.ts:12-16 | A non-empty text `file` entry passes the `!file` check, throws at `arrayBuffer()`, and is answered with the fixed 500; the store is unchanged. |
| `UploadRouteProperties.CreateFailureKeepsWrite` | app/api/videos/upload/route.ts:23-35 | For any store, with a non-empty name, no file at the upload directory and no directory at the target path: when record creation fails after a successful write, the answer is 500 and no record is added, but the files are the old files with the new bytes at `uploads/<name>`: the write is not undone. |
| `UploadRouteProperties.CreateFailureReplacesRecordedVideo` | app/api/videos/upload/route.ts:22-35 | When an earlier record already points at `uploads/<name>`, a failing record creation still replaces those bytes: the answer is 500, yet that record now points at the failed upload's content. |
| `UploadRouteProperties.OrphanOnCreateFailure` | app/api/videos/upload/route.ts:23-35 | When no file was at `uploads/<name>` before and record creation fails after a successful write, the answer is 500 and no record is added. The written bytes stay in storage with no record pointing at them. |
| `UploadRouteProperties.SameNameOverwrites` | app/api/videos/upload/route.ts:19-30 | After two successful uploads under one name, the two new records point at the same path, and that path holds the second upload's bytes. |
| `UploadRouteProperties.MkdirIdempotent` | app/api/videos/upload/route.ts:20 | A successful recursive directory creation on an existing directory leaves the store unchanged. |
| `UploadRouteProperties.AnyTypeAndSizeStored` | app/api/videos/upload/route.ts:10-23 | For any valid store, when the steps succeed, no file blocks the upload directory and the target path is not a directory: a file of any declared type and any size is answered 200 with the new id. The files become the old files with the bytes at `uploads/<name>`, and exactly one record is appended. |
| `UploadRouteProperties.RecordsFollowSuccesses` | app/api/videos/upload/route.ts:8-36 | Over any sequence of requests, with any mix of failures: records are only appended, exactly one per 200 response, and every record points at stored bytes. |
| `EndToEnd.SubmissionRoundTrip` | components/VideoUploadCard.tsx:102-133 | A submission the page allows ends one of two ways. On 200, the endpoint created exactly one record and the card holds that record's id unchanged, with progress 100. Otherwise no record was created and the card keeps the file at progress 0, ready to submit again. |
| `EndToEnd.ServerStoresWhatCardRefuses` | app/api/videos/upload/route.ts:12-23 | For any valid store, when the steps succeed and the paths are free, a file that the card's validation refuses is still answered 200, and the files become the old files with its bytes at `uploads/<name>`. |

## Left out

- JSX rendering, the `isDragActive` highlight, the toasts and `console.error`: they have no effect on the modelled state. The guards read from the JSX are kept as `Enabled`, `CanSubmit` and `CanGenerateClips`.
- Preview object URLs (`URL.createObjectURL` and `revokeObjectURL`): browser resource handling tied to render and effect timing.
- `formatFileSize`: floating-point division and `toFixed` formatting.
- React's batched state updates and any interleaving other than at `handleSubmit`'s `await`: each handler is one atomic step.
- `handleSubmit` closes over the `file` of the render that created it. The model does not capture this; it affects only the toast text.
- `fetch`, `FormData`, `req.formData()` and JSON parsing internals: each is reduced to its outcome. A `videoId` of another JSON type than string is not modelled; an absent one is.
- UploadRoute.JoinPath: `path.join` normalisation is not modelled. It resolves `..` and `.` segments, removes repeated separators and handles absolute names. The model joins with one separator, and joining an empty name gives the directory itself. So a declared name with separators or `..` (which `path.join` could resolve outside `uploads`) is not captured.
- UploadRoute.MkdirSpec: the parent directories that `recursive: true` may create are not tracked. A failed call is assumed to change nothing.
- UploadRoute.WriteFileSpec: a write that fails is assumed to leave the file system unchanged. A partly written or truncated file is not modelled.
- Record ids come from the metadata store through `Effects`. Their uniqueness is the database's and is not modelled. The record's creation time is not modelled either.
- Concurrent requests to the endpoint, and the storage and database back ends themselves.
- The clip-generation collaborator behind `onProcess`: modelled only as the id it would be called with.
- The presentational components and pages (`ClipCard`, `ClipGrid`, `Navbar`, `EmptyState`, `UploadProgress`, `VideoPreview`, the dashboard and upload pages): they have no logic.
