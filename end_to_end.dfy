/** The card and the endpoint together: the request the card sends is the
    one the endpoint reads, and the endpoint's response is what the card's
    `fetch` settles with. */
module EndToEnd {
  import opened Media
  import opened UploadCard
  import opened UploadRoute

  /** The request `handleSubmit` sends: a form with the single entry
      `file` holding the selected file. */
  function ClientRequest(f: File): Request {
    Multipart([(FileField, Blob(f))])
  }

  /** The endpoint's response as the card's `fetch` sees it: the status,
      and a JSON object that carries `videoId` only on success. */
  function AsFetchOutcome(resp: Response): FetchOutcome {
    HttpResponse(resp.status,
                 match resp.body
                 case VideoIdBody(id) => JsonObject(Some(id))
                 case ErrorBody(_) => JsonObject(None))
  }

  /** A submission the page allows ends one of two ways. Either the
      endpoint created exactly one record, and the card now holds that
      record's id unchanged with progress 100; or it created none, and the
      card still holds the file with progress 0 and can submit it again. */
  lemma SubmissionRoundTrip(s: UiState, cwd: string, st: Store, fx: Effects)
    requires GuardedInv(s) && CanSubmit(s)
    ensures var (st', resp) := PostSpec(cwd, st, ClientRequest(s.file.value), fx);
      var t := SettleSubmitSpec(BeginSubmitSpec(s), AsFetchOutcome(resp));
      && (resp.status == 200 ==>
            && |st'.records| == |st.records| + 1
            && t.videoId == Some(st'.records[|st.records|].id)
            && t.uploadProgress == 100 && t.isUploaded && !t.isUploading)
      && (resp.status != 200 ==>
            && st'.records == st.records
            && t.file == s.file && t.uploadProgress == 0 && !t.isUploading && CanSubmit(t))
  {
  }

  /** Validation lives only in the card: a file the card refuses, sent to
      the endpoint by another client, is stored and answered 200 whenever
      the endpoint's steps succeed, whatever the store already holds. */
  lemma ServerStoresWhatCardRefuses(f: File, cwd: string, st: Store, fx: Effects)
    requires ValidateFile(f).Some?
    requires StoreValid(st)
    requires fx.bytesRead && fx.mkdirOk && fx.writeOk && fx.createdId.Some?
    requires f.name != "" && UploadDir(cwd) !in st.files && JoinPath(UploadDir(cwd), f.name) !in st.dirs
    ensures var (st', resp) := PostSpec(cwd, st, ClientRequest(f), fx);
      && resp.status == 200
      && st'.files == st.files[JoinPath(UploadDir(cwd), f.name) := f.content]
  {
  }
}
