/** What the upload card's handlers guarantee, over one step and over any
    sequence of steps. */
module UploadCardProperties {
  import opened Media
  import opened UploadCard

  /** Every handler keeps `Inv`: progress is 0 or 100, 100 only once
      uploaded, an error shown means no file held, and a held file passed
      validation. */
  lemma StepPreservesInv(s: UiState, e: Event)
    requires Inv(s)
    ensures Inv(Step(s, e))
  {
  }

  lemma {:induction false} RunPreservesInv(s: UiState, es: seq<Event>)
    requires Inv(s)
    ensures Inv(Run(s, es))
    decreases |es|
  {
    if es != [] {
      StepPreservesInv(s, es[0]);
      RunPreservesInv(Step(s, es[0]), es[1..]);
    }
  }

  /** From the initial state, whatever the user and the network do, the
      progress shown is 0 or 100, and a file the card holds (so the only
      file it can submit) is of an accepted type and within the ceiling. */
  lemma ReachableStates(es: seq<Event>)
    ensures var s := Run(Initial, es);
      && (s.uploadProgress == 0 || s.uploadProgress == 100)
      && (s.file.Some? ==>
            s.file.value.mimeType in AcceptedVideoTypes && s.file.value.Size() <= MaxFileSize)
  {
    RunPreservesInv(Initial, es);
  }

  /** One step reaches progress 100 only by a response that succeeded. */
  lemma StepReachesHundred(s: UiState, e: Event)
    requires s.uploadProgress != 100 && Step(s, e).uploadProgress == 100
    ensures e.ResponseSettled? && Succeeds(e.outcome)
  {
  }

  /** Progress 100 is reached only after an ok response with a parseable
      body: starting below 100, any run that ends at 100 contains one. */
  lemma {:induction false} HundredOnlyAfterOk(s: UiState, es: seq<Event>)
    requires s.uploadProgress != 100
    ensures Run(s, es).uploadProgress == 100 ==>
              exists i :: 0 <= i < |es| && es[i].ResponseSettled? && Succeeds(es[i].outcome)
    decreases |es|
  {
    if es != [] && Run(s, es).uploadProgress == 100 {
      var t := Step(s, es[0]);
      if t.uploadProgress == 100 {
        StepReachesHundred(s, es[0]);
      } else {
        HundredOnlyAfterOk(t, es[1..]);
        var i :| 0 <= i < |es[1..]| && es[1..][i].ResponseSettled? && Succeeds(es[1..][i].outcome);
        assert es[i + 1] == es[1..][i];
      }
    }
  }

  /** The card learns a video id only from a successful response that
      carried it: any run that ends holding an id it did not start with
      contains that response. */
  lemma {:induction false} VideoIdOnlyFromResponse(s: UiState, es: seq<Event>, id: string)
    requires s.videoId != Some(id)
    ensures Run(s, es).videoId == Some(id) ==>
              exists i :: 0 <= i < |es| && es[i].ResponseSettled? && Succeeds(es[i].outcome)
                                       && es[i].outcome.json.videoId == Some(id)
    decreases |es|
  {
    if es != [] && Run(s, es).videoId == Some(id) {
      var t := Step(s, es[0]);
      if t.videoId == Some(id) {
        assert es[0].ResponseSettled?;
      } else {
        VideoIdOnlyFromResponse(t, es[1..], id);
        var i :| 0 <= i < |es[1..]| && es[1..][i].ResponseSettled? && Succeeds(es[1..][i].outcome)
                 && es[1..][i].outcome.json.videoId == Some(id);
        assert es[i + 1] == es[1..][i];
      }
    }
  }

  /** "Generate Clips" hands over exactly an id that a successful response
      delivered, and never an empty one, starting from any state without
      an id (the initial state among them). */
  lemma ProcessCallFromResponse(s: UiState, es: seq<Event>, hasOnProcess: bool, id: string)
    requires s.videoId == None
    requires ProcessCall(Run(s, es), hasOnProcess) == Some(id)
    ensures id != "" && hasOnProcess
    ensures exists i :: 0 <= i < |es| && es[i].ResponseSettled? && Succeeds(es[i].outcome)
                     && es[i].outcome.json.videoId == Some(id)
  {
    VideoIdOnlyFromResponse(s, es, id);
  }

  lemma StepPreservesGuardedInv(s: UiState, e: Event)
    requires GuardedInv(s) && Enabled(s, e)
    ensures GuardedInv(Step(s, e))
  {
  }

  /** When the page's guards are respected, a transfer in flight never
      coexists with the uploaded state. */
  lemma {:induction false} GuardedRunPreservesGuardedInv(s: UiState, es: seq<Event>)
    requires GuardedInv(s) && GuardedRun(s, es)
    ensures GuardedInv(Run(s, es))
    decreases |es|
  {
    if es != [] {
      StepPreservesGuardedInv(s, es[0]);
      GuardedRunPreservesGuardedInv(Step(s, es[0]), es[1..]);
    }
  }

  /** A reachable state in which the upload button is enabled holds a
      valid file and no transfer is running, so at most one transfer is in
      flight and only an accepted file is ever sent. */
  lemma SubmitOnlyValidFile(es: seq<Event>)
    requires GuardedRun(Initial, es)
    ensures var s := Run(Initial, es);
      CanSubmit(s) ==> !s.isUploading && s.file.Some? && ValidateFile(s.file.value).None?
    ensures var s := Run(Initial, es);
      s.isUploading ==> !s.isUploaded && s.uploadProgress == 0
  {
    GuardedRunPreservesGuardedInv(Initial, es);
  }

  /** A failed transfer keeps the candidate and leaves progress at 0; the
      user can retry without choosing the file again. */
  lemma RetryAfterFailure(s: UiState, o: FetchOutcome)
    requires GuardedInv(s) && s.isUploading && s.file.Some? && !Succeeds(o)
    ensures var t := Step(s, ResponseSettled(o));
      && t.file == s.file && t.uploadProgress == 0 && !t.isUploading
      && t.isUploaded == s.isUploaded && t.videoId == s.videoId
      && CanSubmit(t)
  {
  }

  /** After a successful response the file input is disabled, the upload
      button is gone and "Generate Clips" is offered. */
  lemma SuccessLocksSelection(s: UiState, o: FetchOutcome, files: seq<File>)
    requires Succeeds(o)
    ensures var t := Step(s, ResponseSettled(o));
      && !Enabled(t, InputChange(files)) && !CanSubmit(t) && CanGenerateClips(t)
      && t.uploadProgress == 100 && t.videoId == o.json.videoId && !t.isUploading
  {
  }

  /** `handleSubmit` as a whole, with a file held: it ends not uploading;
      on success it records the response's id with progress 100, and on
      failure it keeps the file, the earlier upload state and progress 0. */
  lemma HandleSubmitOutcome(s: UiState, o: FetchOutcome)
    requires s.file.Some?
    ensures var t := SettleSubmitSpec(BeginSubmitSpec(s), o);
      && !t.isUploading && t.file == s.file && t.error == s.error
      && (Succeeds(o) ==> t.uploadProgress == 100 && t.isUploaded && t.videoId == o.json.videoId)
      && (!Succeeds(o) ==>
            t.uploadProgress == 0 && t.isUploaded == s.isUploaded && t.videoId == s.videoId)
  {
  }

  /** Choosing another file, by either route, clears the error, the id,
      the uploaded flag and the progress when the file is accepted. */
  lemma ReselectionResets(s: UiState, files: seq<File>)
    requires |files| > 0 && ValidateFile(files[0]).None?
    ensures var t := Step(s, Drop(files));
      && t == Step(s, InputChange(files))
      && t.file == Some(files[0]) && t.error == None && t.videoId == None
      && !t.isUploaded && t.uploadProgress == 0 && t.isUploading == s.isUploading
  {
  }

  /** A refused file clears the selection and shows its message, leaving
      the outcome of an earlier upload as it was. */
  lemma RejectedSelectionKeepsUpload(s: UiState, f: File)
    requires ValidateFile(f).Some?
    ensures var t := Step(s, Drop([f]));
      && t.file == None && t.error == ValidateFile(f)
      && t.isUploaded == s.isUploaded && t.videoId == s.videoId
      && t.uploadProgress == s.uploadProgress && t.isUploading == s.isUploading
  {
  }

  /** The drop zone has no guard: a file dropped while a transfer is in
      flight replaces the candidate, and when the earlier transfer then
      succeeds the card shows the new file as uploaded under the id the
      server gave the old one. */
  lemma DropDuringTransfer(s: UiState, f: File, o: FetchOutcome)
    requires GuardedInv(s) && s.isUploading && ValidateFile(f).None? && Succeeds(o)
    ensures Enabled(s, Drop([f]))
    ensures var t := Step(s, Drop([f]));
      && t.isUploading && Enabled(t, ResponseSettled(o))
      && Step(t, ResponseSettled(o)).file == Some(f)
      && Step(t, ResponseSettled(o)).isUploaded
      && Step(t, ResponseSettled(o)).videoId == o.json.videoId
  {
  }
}
