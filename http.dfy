/** What an HTTP call hands back to the services' pipelines: a response with a
    body that may be empty, or an error. The error is Angular's
    `HttpErrorResponse`, or a plain `Error` thrown inside the pipeline, which
    has no status and no body. */
module Http {
  import opened Common

  /** `error.error`: the parsed body of a failed response. */
  datatype Body =
    | Absent                          // undefined: a plain Error has no `error` field
    | Null                            // the response had no body
    | TextBody(text: string)          // a body that is not JSON
    | ObjectBody(message: string, text: string, json: string)
      // a JSON object: its `message` and `text` fields ("" when missing) and
      // its `JSON.stringify` text

  datatype HttpError = HttpError(status: Option<int>, ok: bool, body: Body, message: string)

  /** A plain `new Error(message)` thrown inside a pipeline. */
  function PlainError(message: string): HttpError {
    HttpError(None, false, Absent, message)
  }

  /** The result of a call: a response (its body, if any) or an error. */
  datatype Outcome<T> = Received(body: Option<T>) | Failed(error: HttpError)

  /** `error.error?.message`, with undefined as "". */
  function BodyMessage(b: Body): string {
    if b.ObjectBody? then b.message else ""
  }

  /** `error.error?.text`, with undefined as "". */
  function BodyText(b: Body): string {
    if b.ObjectBody? then b.text else ""
  }

  /** `JSON.stringify(error.error)`: undefined for an absent body, `null` for a
      null one. String escapes inside a text body are not modelled. */
  function Stringify(b: Body): Option<string> {
    match b
    case Absent => None
    case Null => Some("null")
    case TextBody(t) => Some("\"" + t + "\"")
    case ObjectBody(_, _, json) => Some(json)
  }

  /** `a || JSON.stringify(body) || fallback`. */
  function DetailOr(a: string, b: Body, fallback: string): (r: string)
    ensures r != "" <== fallback != ""
    ensures a != "" ==> r == a
    ensures a == "" && b.Null? ==> r == "null"
    ensures a == "" && b.Absent? ==> r == fallback
  {
    if a != "" then a
    else match Stringify(b)
      case Some(s) => OrElse(s, fallback)
      case None => fallback
  }

  /** `${error.error}` inside a template string; "" stands for a falsy body. */
  function BodyInterpolated(b: Body): string {
    match b
    case TextBody(t) => t
    case ObjectBody(_, _, _) => "[object Object]"
    case _ => ""
  }

  /** A `map` step that throws `new Error(emptyMessage)` on an empty body,
      followed by `catchError(handle)`: the thrown error goes through `handle`
      like any other. */
  function ReceiveAsWritten<T>(o: Outcome<T>, handle: HttpError -> string, emptyMessage: string): Result<T> {
    match o
    case Failed(e) => Err(handle(e))
    case Received(None) => Err(handle(PlainError(emptyMessage)))
    case Received(Some(b)) => Ok(b)
  }

  /** The same pipeline with the empty-body error reaching the caller unchanged. */
  function Receive<T>(o: Outcome<T>, handle: HttpError -> string, emptyMessage: string): Result<T> {
    match o
    case Failed(e) => Err(handle(e))
    case Received(None) => Err(emptyMessage)
    case Received(Some(b)) => Ok(b)
  }
}
