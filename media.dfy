/** Values shared by the upload controller (browser side) and the ingestion
    endpoint (server side): bytes, an optional value, and a file as the
    browser's File object presents it. */
module Media {

  /** One byte of a file's payload. */
  newtype byte = x: int | 0 <= x < 256

  /** `null`/`undefined` in the source become None. */
  datatype Option<+T> = None | Some(value: T)

  /** A file as the browser hands it over: its declared name, its declared
      MIME type (`File.type`, taken from the file's extension or the drag
      source, never from its bytes) and its bytes. */
  datatype File = File(name: string, mimeType: string, content: seq<byte>)
  {
    /** `File.size`: the number of bytes. */
    function Size(): nat { |content| }
  }
}
