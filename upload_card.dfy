/** The upload controller of the video upload card: the browser-side
    acceptance rule for a candidate file and the six pieces of state that
    the card's handlers move (the selected file, the error shown, whether a
    transfer is running, whether it succeeded, the identifier the server
    returned and the progress shown).

    The state machine is given twice, as is usual: as a specification on
    values (`UiState`, `Step`, `Run`), about which the lemmas speak, and as
    the class `UploadController`, whose methods update the fields in place
    and promise to do what `Step` says. */
module UploadCard {
  import opened Media

  /** `MAX_FILE_SIZE`: 500 MiB. */
  const MaxFileSize: nat := 500 * 1024 * 1024

  /** `ACCEPTED_VIDEO_TYPES`, compared by exact string equality. */
  const AcceptedVideoTypes: seq<string> :=
    ["video/mp4", "video/webm", "video/quicktime", "video/x-msvideo"]

  const InvalidTypeMessage: string :=
    "Invalid file type. Please upload MP4, WebM, MOV, or AVI files."

  /** The card builds this text from MAX_FILE_SIZE / (1024 * 1024), which is 500. */
  const TooLargeMessage: string := "File too large. Maximum size is 500MB."

  /** `validateFile`: the type check comes first, so a file of a refused
      type gets the type message whatever its size; the ceiling itself is
      accepted. */
  function ValidateFile(f: File): (r: Option<string>)
    ensures r == None <==>
              (|| f.mimeType == "video/mp4" || f.mimeType == "video/webm"
               || f.mimeType == "video/quicktime" || f.mimeType == "video/x-msvideo")
              && f.Size() <= 524288000
    ensures r == Some(InvalidTypeMessage) <==> f.mimeType !in AcceptedVideoTypes
    ensures r == Some(TooLargeMessage) <==>
              f.mimeType in AcceptedVideoTypes && f.Size() > MaxFileSize
  {
    if f.mimeType !in AcceptedVideoTypes then Some(InvalidTypeMessage)
    else if f.Size() > MaxFileSize then Some(TooLargeMessage)
    else None
  }

  // ---------------------------------------------------------------------
  // The transfer's result, as the card sees it
  // ---------------------------------------------------------------------

  /** What `res.json()` yields: a body that does not parse (the call
      throws) or an object whose `videoId` member may be absent. */
  datatype JsonBody = Unparsable | JsonObject(videoId: Option<string>)

  /** How the `fetch` of the upload request settles: the promise rejects
      (network failure), or a response arrives with a status and a body. */
  datatype FetchOutcome = NetworkError | HttpResponse(status: int, json: JsonBody)

  /** `res.ok`: a status in 200..299. */
  predicate ResponseOk(o: FetchOutcome) {
    o.HttpResponse? && 200 <= o.status <= 299
  }

  /** The try block runs to its end: the response is ok and its body
      parses. Every other outcome ends in the catch block. */
  predicate Succeeds(o: FetchOutcome) {
    ResponseOk(o) && o.json.JsonObject?
  }

  // ---------------------------------------------------------------------
  // The state machine, on values
  // ---------------------------------------------------------------------

  datatype UiState = UiState(
    file: Option<File>,
    error: Option<string>,
    isUploading: bool,
    isUploaded: bool,
    videoId: Option<string>,
    uploadProgress: int)

  /** The initial values of the six `useState` hooks. */
  const Initial: UiState := UiState(None, None, false, false, None, 0)

  /** `handleFile`: a refused file clears the selection and shows the
      message; an accepted one replaces the selection and resets the
      outcome of any earlier transfer. Neither touches `isUploading`. */
  function HandleFileSpec(s: UiState, f: File): UiState {
    match ValidateFile(f)
    case Some(message) => s.(error := Some(message), file := None)
    case None =>
      s.(error := None, file := Some(f), isUploaded := false, videoId := None, uploadProgress := 0)
  }

  /** `handleDrop` and `handleInputChange`: only the first file of the
      list is considered, and an empty list changes nothing. */
  function SelectFirstSpec(s: UiState, files: seq<File>): UiState {
    if |files| == 0 then s else HandleFileSpec(s, files[0])
  }

  /** `handleRemoveFile`. */
  function RemoveFileSpec(s: UiState): UiState {
    s.(file := None, error := None, isUploaded := false, videoId := None, uploadProgress := 0)
  }

  /** `handleSubmit` up to its `await fetch(...)`. */
  function BeginSubmitSpec(s: UiState): UiState {
    if s.file.None? then s else s.(isUploading := true, uploadProgress := 0)
  }

  /** `handleSubmit` from the settled `fetch` to the end of its `finally`. */
  function SettleSubmitSpec(s: UiState, o: FetchOutcome): UiState {
    var t := if Succeeds(o) then s.(videoId := o.json.videoId, uploadProgress := 100, isUploaded := true)
             else s;
    t.(isUploading := false)
  }

  /** What the user or the network can do to the card. `handleSubmit` is
      split at its `await`, since the card can be used while the transfer
      is in flight. */
  datatype Event =
    | Drop(files: seq<File>)
    | InputChange(files: seq<File>)
    | RemoveFile
    | SubmitClicked
    | ResponseSettled(outcome: FetchOutcome)

  function Step(s: UiState, e: Event): UiState {
    match e
    case Drop(files) => SelectFirstSpec(s, files)
    case InputChange(files) => SelectFirstSpec(s, files)
    case RemoveFile => RemoveFileSpec(s)
    case SubmitClicked => BeginSubmitSpec(s)
    case ResponseSettled(o) => SettleSubmitSpec(s, o)
  }

  function Run(s: UiState, es: seq<Event>): UiState
    decreases |es|
  {
    if es == [] then s else Run(Step(s, es[0]), es[1..])
  }

  /** The upload button: rendered only while nothing is uploaded, and
      disabled when `!file || isUploading || !!error`. */
  predicate CanSubmit(s: UiState): (r: bool)
    ensures r ==> !s.isUploading && BeginSubmitSpec(s).isUploading && BeginSubmitSpec(s).uploadProgress == 0
  {
    !s.isUploaded && !(s.file.None? || s.isUploading || s.error.Some?)
  }

  /** The "Generate Clips" button: rendered only once uploaded. */
  predicate CanGenerateClips(s: UiState): (r: bool)
    ensures Inv(s) && s.videoId.Some? ==> r
  {
    s.isUploaded
  }

  /** When the page lets an event happen. The file input is disabled while
      uploading or uploaded; the drop zone around it has no guard; the
      remove button is shown with the file details (a file and no error)
      and hidden while uploading; a response settles only a transfer in
      flight. */
  predicate Enabled(s: UiState, e: Event): (r: bool)
    ensures r && s.isUploading ==> e.Drop? || e.ResponseSettled?
    ensures r && s.isUploaded ==> !e.InputChange? && !e.SubmitClicked?
  {
    match e
    case Drop(_) => true
    case InputChange(_) => !(s.isUploading || s.isUploaded)
    case RemoveFile => s.file.Some? && s.error.None? && !s.isUploading
    case SubmitClicked => CanSubmit(s)
    case ResponseSettled(_) => s.isUploading
  }

  /** A run in which every event was allowed by the page when it happened. */
  predicate GuardedRun(s: UiState, es: seq<Event>)
    decreases |es|
  {
    es == [] || (Enabled(s, es[0]) && GuardedRun(Step(s, es[0]), es[1..]))
  }

  /** The id handed to `onProcess` by "Generate Clips":
      `videoId && onProcess?.(videoId)` calls it only with a non-empty id,
      and only when the card was given an `onProcess`. */
  function ProcessCall(s: UiState, hasOnProcess: bool): (r: Option<string>)
    ensures r.Some? <==> hasOnProcess && s.videoId.Some? && s.videoId.value != ""
    ensures r.Some? ==> s.videoId == r
  {
    if hasOnProcess && s.videoId.Some? && s.videoId.value != "" then s.videoId else None
  }

  /** What holds of the card's state after any sequence of handlers. */
  predicate Inv(s: UiState) {
    && (s.uploadProgress == 0 || s.uploadProgress == 100)
    && (s.uploadProgress == 100 ==> s.isUploaded)
    && (s.isUploading ==> s.uploadProgress == 0)
    && (s.videoId.Some? ==> s.isUploaded)
    && (s.error.Some? ==> s.file.None?)
    && (s.file.Some? ==> ValidateFile(s.file.value).None?)
  }

  /** What holds in addition when the page's guards are respected. */
  predicate GuardedInv(s: UiState) {
    Inv(s) && (s.isUploading ==> !s.isUploaded)
  }

  // ---------------------------------------------------------------------
  // The card as a class whose handlers update its fields
  // ---------------------------------------------------------------------

  class UploadController {
    var file: Option<File>
    var error: Option<string>
    var isUploading: bool
    var isUploaded: bool
    var videoId: Option<string>
    var uploadProgress: int
    /** Whether the page passed an `onProcess` callback. */
    const hasOnProcess: bool

    function State(): UiState
      reads this
    {
      UiState(file, error, isUploading, isUploaded, videoId, uploadProgress)
    }

    constructor (hasOnProcess: bool)
      ensures State() == Initial && this.hasOnProcess == hasOnProcess
    {
      file, error, isUploading, isUploaded, videoId, uploadProgress := None, None, false, false, None, 0;
      this.hasOnProcess := hasOnProcess;
    }

    method HandleFile(selected: File)
      modifies this
      ensures State() == HandleFileSpec(old(State()), selected)
      ensures ValidateFile(selected).Some? ==>
                && error == ValidateFile(selected) && file == None
                && isUploading == old(isUploading) && isUploaded == old(isUploaded)
                && videoId == old(videoId) && uploadProgress == old(uploadProgress)
      ensures ValidateFile(selected).None? ==>
                && error == None && file == Some(selected)
                && !isUploaded && videoId == None && uploadProgress == 0
                && isUploading == old(isUploading)
    {
      var validationError := ValidateFile(selected);
      if validationError.Some? {
        error := validationError;
        file := None;
        return;
      }
      error := None;
      file := Some(selected);
      isUploaded := false;
      videoId := None;
      uploadProgress := 0;
    }

    method HandleDrop(files: seq<File>)
      modifies this
      ensures State() == Step(old(State()), Drop(files))
      ensures |files| == 0 ==> State() == old(State())
    {
      if |files| > 0 {
        HandleFile(files[0]);
      }
    }

    method HandleInputChange(files: seq<File>)
      modifies this
      ensures State() == Step(old(State()), InputChange(files))
      ensures |files| == 0 ==> State() == old(State())
    {
      if |files| > 0 {
        HandleFile(files[0]);
      }
    }

    method HandleRemoveFile()
      modifies this
      ensures State() == Step(old(State()), RemoveFile)
      ensures file == None && error == None && !isUploaded && videoId == None && uploadProgress == 0
      ensures isUploading == old(isUploading)
    {
      file := None;
      error := None;
      isUploaded := false;
      videoId := None;
      uploadProgress := 0;
    }

    /** The first half of `handleSubmit`: returns the file put in the
        request, or None when no file is held and nothing is sent. */
    method BeginSubmit() returns (request: Option<File>)
      modifies this
      ensures request == old(file)
      ensures State() == Step(old(State()), SubmitClicked)
      ensures request.Some? ==> isUploading && uploadProgress == 0
    {
      if file.None? {
        return None;
      }
      request := file;
      isUploading := true;
      uploadProgress := 0;
    }

    /** The second half of `handleSubmit`: the try block after the fetch,
        the catch block (toasts only) and the finally block. */
    method SettleSubmit(outcome: FetchOutcome)
      modifies this
      ensures State() == Step(old(State()), ResponseSettled(outcome))
      ensures !isUploading && file == old(file) && error == old(error)
      ensures Succeeds(outcome) ==>
                videoId == outcome.json.videoId && uploadProgress == 100 && isUploaded
      ensures !Succeeds(outcome) ==>
                videoId == old(videoId) && uploadProgress == old(uploadProgress) && isUploaded == old(isUploaded)
    {
      if Succeeds(outcome) {
        videoId := outcome.json.videoId;
        uploadProgress := 100;
        isUploaded := true;
      }
      isUploading := false;
    }

    /** `handleSubmit` as one step, the network's answer given. */
    method HandleSubmit(outcome: FetchOutcome) returns (request: Option<File>)
      modifies this
      ensures request == old(file)
      ensures State() == if request.None? then old(State())
                         else SettleSubmitSpec(BeginSubmitSpec(old(State())), outcome)
    {
      request := BeginSubmit();
      if request.None? {
        return;
      }
      SettleSubmit(outcome);
    }

    /** The "Generate Clips" click: returns the id `onProcess` is called
        with, or None when it is not called. */
    method GenerateClips() returns (called: Option<string>)
      ensures called == ProcessCall(State(), hasOnProcess)
      ensures called.Some? <==> hasOnProcess && videoId.Some? && videoId.value != ""
      ensures called.Some? ==> videoId == Some(called.value)
    {
      called := None;
      if videoId.Some? && videoId.value != "" && hasOnProcess {
        called := videoId;
      }
    }
  }
}
