/** Failed requests as the pages and services see them. */
module Http {
  import opened Wrappers

  /** The `error` property of a failed response: absent, a plain text body,
      a JSON body (with or without `message`), or a client-side ErrorEvent. */
  datatype ErrorBody = NoBody | TextBody(text: string) | JsonBody(message: Option<string>) | ClientEvent(eventMessage: string)

  /** A failed response: status (0 when the server was unreachable), message, body. */
  datatype HttpError = HttpError(status: int, message: string, body: ErrorBody)

  /** `error.error?.message`. */
  function BodyMessage(b: ErrorBody): Option<string> {
    match b
    case JsonBody(m) => m
    case ClientEvent(m) => Some(m)
    case _ => None
  }
}
