/** Errors and failure-carrying values shared by the REST client model. */
module Results {

  /** The errors the REST client can return. The exact message text is not modelled,
      only which path produced the error and the name it mentions. */
  datatype Error =
    | Transport(detail: string)      // http.DefaultClient.Do or reading the body failed
    | Status(status: string)         // the server answered with a status other than 200
    | Decode(detail: string)         // the body is not the JSON the caller expects
    | GroupInfo(name: string)        // the cached lookup of a room name failed
    | ChannelId(name: string)        // ThreadReply could not resolve its channel argument
    | ThreadNotFound                 // no thread of the room has the original text
    | OriginalNotFound               // the same, as reported by SendReply

  datatype Option<+T> = None | Some(value: T)

  /** A value or the error that prevented it (Go's `(T, error)` pair). */
  datatype Result<+T> = Ok(value: T) | Err(error: Error)

  /** An operation that returns only an error (Go's `error`, nil on success). */
  datatype Outcome = Pass | Fail(error: Error)
}
