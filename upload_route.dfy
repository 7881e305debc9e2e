/** The ingestion endpoint, `POST /api/videos/upload`: it reads the
    multipart form, takes its `file` entry, makes sure the `uploads`
    directory exists, writes the bytes under the declared file name and
    then creates a video record pointing at the written path.

    Each awaited call is a step that may fail; whether it does is given by
    `Effects`, and a failure goes to the single catch block. The file
    system is a set of directories and a map from paths to bytes; the
    metadata store is the sequence of records created so far. */
module UploadRoute {
  import opened Media

  /** The value of one multipart form entry: a text value or a file. */
  datatype FormValue = Text(text: string) | Blob(file: File)

  /** The request body as `req.formData()` sees it: not a parseable form
      (the call throws), or the form's entries in order. */
  datatype Request = Unparsable | Multipart(entries: seq<(string, FormValue)>)

  /** `FormData.get`: the value of the first entry with the given name
      (lemma `FormGetIsFirst`). */
  function FormGet(entries: seq<(string, FormValue)>, key: string): (r: Option<FormValue>)
    ensures r.None? <==> forall i :: 0 <= i < |entries| ==> entries[i].0 != key
    decreases |entries|
  {
    if |entries| == 0 then None
    else if entries[0].0 == key then Some(entries[0].1)
    else FormGet(entries[1..], key)
  }

  /** A value `FormGet` finds is that of the first entry with the name. */
  lemma {:induction false} FormGetIsFirst(entries: seq<(string, FormValue)>, key: string)
    ensures var r := FormGet(entries, key);
      r.Some? ==>
        exists i :: 0 <= i < |entries| && entries[i] == (key, r.value)
                    && forall j :: 0 <= j < i ==> entries[j].0 != key
    decreases |entries|
  {
    if |entries| > 0 && entries[0].0 != key && FormGet(entries, key).Some? {
      var r := FormGet(entries[1..], key);
      FormGetIsFirst(entries[1..], key);
      var i :| 0 <= i < |entries[1..]| && entries[1..][i] == (key, r.value)
               && forall j :: 0 <= j < i ==> entries[1..][j].0 != key;
      assert entries[i + 1] == entries[1..][i];
    }
  }

  const FileField: string := "file"

  /** `!file`: true for a missing entry and for an empty text value. */
  predicate Falsy(v: Option<FormValue>): (r: bool)
    ensures r <==> v == None || v == Some(Text(""))
    ensures v.Some? && v.value.Blob? ==> !r
  {
    v.None? || (v.value.Text? && v.value.text == "")
  }

  /** A row of the `video` table as this endpoint fills it. */
  datatype VideoRecord = VideoRecord(id: string, filename: string, originalPath: string)

  /** The JSON body of a response: `{videoId}` or `{error}`. */
  datatype Body = VideoIdBody(videoId: string) | ErrorBody(error: string)

  datatype Response = Response(status: int, body: Body)

  const NoFileMessage: string := "No file uploaded"
  const FailureMessage: string := "Failed to upload video"

  /** The early return for a missing `file` entry. */
  const BadRequest: Response := Response(400, ErrorBody(NoFileMessage))

  /** What the catch block returns, whatever was thrown. */
  const ServerError: Response := Response(500, ErrorBody(FailureMessage))

  /** Whether each awaited call that can fail for reasons outside this
      model succeeds: `file.arrayBuffer()`, `fs.mkdir`, `fs.writeFile`,
      and `prisma.video.create`, which on success gives the new id. */
  datatype Effects = Effects(bytesRead: bool, mkdirOk: bool, writeOk: bool, createdId: Option<string>)

  /** The server's durable state. */
  datatype Store = Store(dirs: set<string>, files: map<string, seq<byte>>, records: seq<VideoRecord>)

  /** No path is both a directory and a file, and every record points at
      stored bytes. */
  predicate StoreValid(st: Store) {
    && st.dirs !! st.files.Keys
    && forall k :: 0 <= k < |st.records| ==> st.records[k].originalPath in st.files
  }

  /** `path.join` of a directory and one name; joining the empty name
      gives the directory itself. */
  function JoinPath(dir: string, name: string): string {
    if name == "" then dir else dir + "/" + name
  }

  /** `path.join(process.cwd(), "uploads")`. */
  function UploadDir(cwd: string): string {
    JoinPath(cwd, "uploads")
  }

  /** `fs.mkdir(dir, { recursive: true })`: an existing directory is
      fine, an existing file at that path is an error. Returns the new
      store and whether the call succeeded. */
  function MkdirSpec(st: Store, dir: string, ok: bool): (Store, bool) {
    if !ok || dir in st.files then (st, false)
    else (st.(dirs := st.dirs + {dir}), true)
  }

  /** `fs.writeFile(path, data)`: replaces whatever file is at `path`;
      fails when `path` is a directory. */
  function WriteFileSpec(st: Store, path: string, data: seq<byte>, ok: bool): (Store, bool) {
    if !ok || path in st.dirs then (st, false)
    else (st.(files := st.files[path := data]), true)
  }

  /** The whole handler: the new store and the response. */
  function PostSpec(cwd: string, st: Store, req: Request, fx: Effects): (Store, Response) {
    match req
    case Unparsable => (st, ServerError)
    case Multipart(entries) =>
      var field := FormGet(entries, FileField);
      if Falsy(field) then (st, BadRequest)
      else if field.value.Text? || !fx.bytesRead then (st, ServerError)
      else
        var f := field.value.file;
        var dir := UploadDir(cwd);
        var (st1, made) := MkdirSpec(st, dir, fx.mkdirOk);
        if !made then (st1, ServerError)
        else
          var path := JoinPath(dir, f.name);
          var (st2, written) := WriteFileSpec(st1, path, f.content, fx.writeOk);
          if !written then (st2, ServerError)
          else
            match fx.createdId
            case None => (st2, ServerError)
            case Some(id) =>
              (st2.(records := st2.records + [VideoRecord(id, f.name, path)]),
               Response(200, VideoIdBody(id)))
  }

  /** The endpoint with its file system and metadata store. */
  class IngestionEndpoint {
    /** `process.cwd()`. */
    const cwd: string
    var dirs: set<string>
    var files: map<string, seq<byte>>
    var records: seq<VideoRecord>

    function State(): Store
      reads this
    {
      Store(dirs, files, records)
    }

    ghost predicate Valid()
      reads this
    {
      StoreValid(State())
    }

    constructor (cwd: string, dirs: set<string>, files: map<string, seq<byte>>)
      requires dirs !! files.Keys
      ensures Valid()
      ensures this.cwd == cwd && State() == Store(dirs, files, [])
    {
      this.cwd := cwd;
      this.dirs := dirs;
      this.files := files;
      this.records := [];
    }

    method Mkdir(dir: string, ok: bool) returns (made: bool)
      modifies this
      ensures (State(), made) == MkdirSpec(old(State()), dir, ok)
    {
      if !ok || dir in files {
        return false;
      }
      dirs := dirs + {dir};
      made := true;
    }

    method WriteFile(path: string, data: seq<byte>, ok: bool) returns (written: bool)
      modifies this
      ensures (State(), written) == WriteFileSpec(old(State()), path, data, ok)
    {
      if !ok || path in dirs {
        return false;
      }
      files := files[path := data];
      written := true;
    }

    /** `prisma.video.create`: appends one record, or fails and appends
        nothing. */
    method CreateRecord(id: Option<string>, filename: string, path: string) returns (created: bool)
      modifies this
      ensures created == id.Some?
      ensures dirs == old(dirs) && files == old(files)
      ensures records == if created then old(records) + [VideoRecord(id.value, filename, path)]
                         else old(records)
    {
      if id.None? {
        return false;
      }
      records := records + [VideoRecord(id.value, filename, path)];
      created := true;
    }

    /** `POST`: the steps in order, each failure leaving by the catch
        block with what the earlier steps did left in place. */
    method Post(req: Request, fx: Effects) returns (resp: Response)
      requires Valid()
      modifies this
      ensures Valid()
      ensures (State(), resp) == PostSpec(cwd, old(State()), req, fx)
    {
      if req.Unparsable? {
        return ServerError;
      }
      var field := FormGet(req.entries, FileField);
      if Falsy(field) {
        return BadRequest;
      }
      if field.value.Text? || !fx.bytesRead {
        return ServerError;
      }
      var f := field.value.file;
      var dir := UploadDir(cwd);
      var made := Mkdir(dir, fx.mkdirOk);
      if !made {
        return ServerError;
      }
      var path := JoinPath(dir, f.name);
      var written := WriteFile(path, f.content, fx.writeOk);
      if !written {
        return ServerError;
      }
      var created := CreateRecord(fx.createdId, f.name, path);
      if !created {
        return ServerError;
      }
      resp := Response(200, VideoIdBody(fx.createdId.value));
    }
  }
}
