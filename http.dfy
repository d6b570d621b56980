/** What the route handlers receive and answer. */
module Http {
  import opened Wrappers

  /** An authenticated session: the identity provider's subject id and email ("" when missing). */
  datatype Session = Session(sub: string, email: string)

  /** A file as the browser hands it over: name, media type and size in bytes. */
  datatype Blob = Blob(name: string, mediaType: string, size: int)

  /** The `file` field of a multipart form: a File, or anything else (text or nothing). */
  datatype FormField = FileField(file: Blob) | NotAFile

  /** The JSON body of the share endpoints ("" for a missing field). */
  datatype ShareBody = ShareBody(fileId: string, recipientEmail: string)

  /** The JSON body of the rename endpoint ("" for a missing field). */
  datatype NameBody = NameBody(name: string)

  /** `NextResponse.json(body, { status: 200 })` or `NextResponse.json({ error }, { status })`. */
  datatype Reply<+T> = Json(body: T) | ErrorJson(status: int, error: string)

  /**
   * The `catch` block of a route: the error's message, or the fallback when
   * it has none, with status 500; a route that passes the status on answers
   * with `error.status || 500` instead.
   */
  function Caught<T>(f: Failure, fallback: string, passStatus: bool): (reply: Reply<T>)
    ensures reply.ErrorJson? && reply.status != 0
    ensures reply.status == 500 || (passStatus && f.status == Some(reply.status))
    ensures f.message != "" ==> reply.error == f.message
    ensures f.message == "" ==> reply.error == fallback
    ensures passStatus && f.status.Some? && f.status.value != 0 ==> reply.status == f.status.value
  {
    ErrorJson(if passStatus && f.status.Some? && f.status.value != 0 then f.status.value else 500,
              if f.message != "" then f.message else fallback)
  }
}
