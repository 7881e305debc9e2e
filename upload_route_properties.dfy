/** What the ingestion endpoint does to the store and answers, including
    the behaviours it has as written: a same-name upload overwrites the
    earlier bytes, a failed record creation leaves the written file behind,
    and neither the type nor the size of the file is checked. */
module UploadRouteProperties {
  import opened Media
  import opened UploadRoute

  /** The handler keeps the store's invariant: every record points at
      stored bytes, so no record is ever created for bytes not written. */
  lemma PostPreservesValid(cwd: string, st: Store, req: Request, fx: Effects)
    requires StoreValid(st)
    ensures StoreValid(PostSpec(cwd, st, req, fx).0)
  {
  }

  /** Only three responses exist: 200 with the new id, 400 with the fixed
      "No file uploaded", and 500 with the fixed "Failed to upload video";
      no path or internal detail ever reaches the client. */
  lemma ResponseShapes(cwd: string, st: Store, req: Request, fx: Effects)
    ensures var resp := PostSpec(cwd, st, req, fx).1;
      || resp == Response(400, ErrorBody("No file uploaded"))
      || resp == Response(500, ErrorBody("Failed to upload video"))
      || (resp.status == 200 && resp.body.VideoIdBody? && Some(resp.body.videoId) == fx.createdId)
  {
  }

  /** A request without a `file` entry (or with an empty text one) is
      answered 400 before any directory, file or record is made. */
  lemma MissingFileRejected(cwd: string, st: Store, entries: seq<(string, FormValue)>, fx: Effects)
    requires Falsy(FormGet(entries, "file"))
    ensures PostSpec(cwd, st, Multipart(entries), fx) == (st, Response(400, ErrorBody("No file uploaded")))
  {
  }

  /** The 200 answer happens exactly when every awaited step succeeded;
      nothing in that condition looks at the file's type or size. On it,
      the bytes are at `uploads/<name>` and exactly one record is appended,
      naming that file and that path, whose id is the one returned. */
  lemma SuccessExactly(cwd: string, st: Store, f: File, entries: seq<(string, FormValue)>, fx: Effects)
    requires FormGet(entries, "file") == Some(Blob(f))
    ensures var (st', resp) := PostSpec(cwd, st, Multipart(entries), fx);
      var path := JoinPath(UploadDir(cwd), f.name);
      && (resp.status == 200 <==>
            && fx.bytesRead && fx.mkdirOk && fx.writeOk && fx.createdId.Some?
            && UploadDir(cwd) !in st.files && path !in st.dirs + {UploadDir(cwd)})
      && (resp.status == 200 ==>
            && path in st'.files && st'.files[path] == f.content
            && st'.records == st.records + [VideoRecord(fx.createdId.value, f.name, path)]
            && resp.body == VideoIdBody(st'.records[|st'.records| - 1].id))
  {
  }

  /** The record is created only after the write: when the write fails
      no record is added and nothing is written; with a file entry present
      the answer is the catch block's 500. */
  lemma WriteFailureAddsNoRecord(cwd: string, st: Store, req: Request, fx: Effects)
    requires !fx.writeOk
    ensures var (st', resp) := PostSpec(cwd, st, req, fx);
      && st'.records == st.records && st'.files == st.files && resp.status != 200
      && (req.Multipart? && FormGet(req.entries, "file").Some? && FormGet(req.entries, "file").value.Blob? ==>
            resp == Response(500, ErrorBody("Failed to upload video")))
  {
  }

  /** 400 is answered exactly when `!file` holds: no `file` entry, or an
      empty text one. */
  lemma BadRequestExactly(cwd: string, st: Store, req: Request, fx: Effects)
    ensures PostSpec(cwd, st, req, fx).1.status == 400 <==>
              req.Multipart? && Falsy(FormGet(req.entries, "file"))
  {
  }

  /** With a file entry present, every answer but 200 is the fixed 500:
      any step that throws lands in the catch block. */
  lemma FailureWithFileIs500(cwd: string, st: Store, entries: seq<(string, FormValue)>, f: File, fx: Effects)
    requires FormGet(entries, "file") == Some(Blob(f))
    ensures var resp := PostSpec(cwd, st, Multipart(entries), fx).1;
      resp.status != 200 ==> resp == Response(500, ErrorBody("Failed to upload video"))
  {
  }

  /** A body that `req.formData()` cannot parse throws before anything is
      done: 500 and an unchanged store. */
  lemma UnparsableIs500(cwd: string, st: Store, fx: Effects)
    ensures PostSpec(cwd, st, Unparsable, fx) == (st, Response(500, ErrorBody("Failed to upload video")))
  {
  }

  /** A non-empty text `file` entry passes `!file` and then throws at
      `file.arrayBuffer()`: 500 and an unchanged store. */
  lemma TextEntryIs500(cwd: string, st: Store, entries: seq<(string, FormValue)>, t: string, fx: Effects)
    requires FormGet(entries, "file") == Some(Text(t)) && t != ""
    ensures PostSpec(cwd, st, Multipart(entries), fx) == (st, Response(500, ErrorBody("Failed to upload video")))
  {
  }

  /** A failing record creation after a successful write is answered 500
      and adds no record, but the write is not undone: whatever the store
      held, the file now has the new bytes at `uploads/<name>`. */
  lemma CreateFailureKeepsWrite(cwd: string, st: Store, f: File, fx: Effects)
    requires fx.bytesRead && fx.mkdirOk && fx.writeOk && fx.createdId.None?
    requires f.name != "" && UploadDir(cwd) !in st.files && JoinPath(UploadDir(cwd), f.name) !in st.dirs
    ensures var (st', resp) := PostSpec(cwd, st, Multipart([("file", Blob(f))]), fx);
      && resp == Response(500, ErrorBody("Failed to upload video"))
      && st'.records == st.records
      && st'.files == st.files[JoinPath(UploadDir(cwd), f.name) := f.content]
  {
  }

  /** When an earlier upload under the same name already has a record, a
      failing record creation still replaces that upload's bytes: the
      request is answered 500, yet the earlier record now points at the
      failed upload's content. */
  lemma CreateFailureReplacesRecordedVideo(cwd: string, st: Store, f: File, fx: Effects, k: nat)
    requires StoreValid(st)
    requires fx.bytesRead && fx.mkdirOk && fx.writeOk && fx.createdId.None?
    requires f.name != "" && UploadDir(cwd) !in st.files
    requires k < |st.records| && st.records[k].originalPath == UploadDir(cwd) + "/" + f.name
    ensures var (st', resp) := PostSpec(cwd, st, Multipart([("file", Blob(f))]), fx);
      && resp == Response(500, ErrorBody("Failed to upload video"))
      && st'.records[k] == st.records[k]
      && st'.files[st.records[k].originalPath] == f.content
  {
    assert st.records[k].originalPath in st.files;
  }

  /** When no file was at `uploads/<name>` before, a failing record
      creation after a successful write leaves the file in storage with no
      record pointing at it: there is no cleanup. */
  lemma OrphanOnCreateFailure(cwd: string, st: Store, f: File, fx: Effects)
    requires StoreValid(st)
    requires fx.bytesRead && fx.mkdirOk && fx.writeOk && fx.createdId.None?
    requires UploadDir(cwd) !in st.files
    requires f.name != "" && UploadDir(cwd) + "/" + f.name !in st.files
    requires UploadDir(cwd) + "/" + f.name !in st.dirs
    ensures var (st', resp) := PostSpec(cwd, st, Multipart([("file", Blob(f))]), fx);
      var path := UploadDir(cwd) + "/" + f.name;
      && resp == Response(500, ErrorBody("Failed to upload video"))
      && st'.records == st.records
      && path in st'.files && st'.files[path] == f.content
      && forall k :: 0 <= k < |st'.records| ==> st'.records[k].originalPath != path
  {
    var path := UploadDir(cwd) + "/" + f.name;
    forall k | 0 <= k < |st.records| ensures st.records[k].originalPath != path {
      assert st.records[k].originalPath in st.files;
    }
  }

  /** Two successful uploads under the same name write the same path:
      the second's bytes replace the first's, and both records point at
      that one path. */
  lemma SameNameOverwrites(cwd: string, st: Store, f: File, g: File, fx: Effects, gx: Effects)
    requires f.name == g.name && f.name != ""
    requires var (st1, r1) := PostSpec(cwd, st, Multipart([("file", Blob(f))]), fx);
      r1.status == 200 && PostSpec(cwd, st1, Multipart([("file", Blob(g))]), gx).1.status == 200
    ensures var st1 := PostSpec(cwd, st, Multipart([("file", Blob(f))]), fx).0;
      var st2 := PostSpec(cwd, st1, Multipart([("file", Blob(g))]), gx).0;
      var path := UploadDir(cwd) + "/" + f.name;
      && |st2.records| == |st.records| + 2
      && st2.records[|st.records|].originalPath == path
      && st2.records[|st.records| + 1].originalPath == path
      && st2.files[path] == g.content
  {
  }

  /** `mkdir` with `recursive: true` on an existing directory succeeds and
      changes nothing. */
  lemma MkdirIdempotent(st: Store, dir: string)
    requires StoreValid(st) && dir in st.dirs
    ensures MkdirSpec(st, dir, true) == (st, true)
  {
    assert st.dirs + {dir} == st.dirs;
  }

  /** No server-side re-validation: whatever the store already holds, a
      file of any declared type and any size is written and recorded when
      the steps succeed, the upload directory is not blocked by a file and
      the target path is not a directory. */
  lemma AnyTypeAndSizeStored(cwd: string, st: Store, f: File, fx: Effects)
    requires StoreValid(st)
    requires fx.bytesRead && fx.mkdirOk && fx.writeOk && fx.createdId.Some?
    requires f.name != "" && UploadDir(cwd) !in st.files && UploadDir(cwd) + "/" + f.name !in st.dirs
    ensures var (st', resp) := PostSpec(cwd, st, Multipart([("file", Blob(f))]), fx);
      var path := UploadDir(cwd) + "/" + f.name;
      && resp == Response(200, VideoIdBody(fx.createdId.value))
      && st'.files == st.files[path := f.content]
      && st'.records == st.records + [VideoRecord(fx.createdId.value, f.name, path)]
  {
  }

  /** The responses and final store of a sequence of requests handled one
      after the other. */
  function PostAll(cwd: string, st: Store, reqs: seq<(Request, Effects)>): (Store, seq<Response>)
    decreases |reqs|
  {
    if reqs == [] then (st, [])
    else
      var (st1, resp) := PostSpec(cwd, st, reqs[0].0, reqs[0].1);
      var (st2, resps) := PostAll(cwd, st1, reqs[1..]);
      (st2, [resp] + resps)
  }

  /** How many of the responses are 200. */
  function CountOk(resps: seq<Response>): nat
    decreases |resps|
  {
    if resps == [] then 0 else (if resps[0].status == 200 then 1 else 0) + CountOk(resps[1..])
  }

  /** Over any sequence of requests, whatever fails: records are only ever
      appended, exactly one per 200 response, and every record points at
      stored bytes (though not necessarily its own, after an overwrite). */
  lemma {:induction false} RecordsFollowSuccesses(cwd: string, st: Store, reqs: seq<(Request, Effects)>)
    requires StoreValid(st)
    ensures var (st', resps) := PostAll(cwd, st, reqs);
      && StoreValid(st')
      && |resps| == |reqs|
      && st.records <= st'.records
      && |st'.records| == |st.records| + CountOk(resps)
    decreases |reqs|
  {
    if reqs != [] {
      var (st1, resp) := PostSpec(cwd, st, reqs[0].0, reqs[0].1);
      PostPreservesValid(cwd, st, reqs[0].0, reqs[0].1);
      RecordsFollowSuccesses(cwd, st1, reqs[1..]);
    }
  }
}
