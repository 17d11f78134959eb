/** The older, value-typed `Error` of the errors package, its rendering and
    its mapping to an HTTP status. */
module LegacyErrors {
  import opened Wrappers
  import opened Values

  const ECONFLICT: string := "conflict"
  const EINVALID: string := "invalid"
  const ENOTFOUND: string := "not_found"
  const EINTERNAL: string := "internal"
  const EFORBIDDEN: string := "unauthorized"
  const ENOTMODIFIED: string := "not_modified"

  /** `CodeMap`: error codes to HTTP status codes. */
  const CodeMap: map<string, int> := map[
    ECONFLICT := 409,
    EINVALID := 400,
    ENOTFOUND := 404,
    EINTERNAL := 500,
    EFORBIDDEN := 403,
    ENOTMODIFIED := 304
  ]

  /** The value-typed `Error` record. */
  datatype LegacyError = LegacyError(code: string, message: string, op: string, err: Option<ErrValue>, data: Option<Value>)

  /** A value of Go's `error` interface: an `Error` stored by value, a pointer
      to an `Error` (whose dynamic type is `*Error`), or any other error. */
  datatype ErrValue =
    | ByValue(e: LegacyError)
    | ByPointer(e: LegacyError)
    | OtherError(msg: string)

  /** `Error()`: `"Op: "` when there is an operation, then the cause's message
      if there is a cause, otherwise `"<Code> "` (for a non-empty code) and
      the message. */
  function Render(e: LegacyError): string
    decreases e
  {
    (if e.op != "" then e.op + ": " else "")
    + (if e.err.Some? then RenderErr(e.err.value)
       else (if e.code != "" then "<" + e.code + "> " else "") + e.message)
  }

  function RenderErr(v: ErrValue): string
    decreases v
  {
    match v
    case ByValue(e) => Render(e)
    case ByPointer(e) => Render(e)
    case OtherError(msg) => msg
  }

  /** `Unwrap` returns the stored cause itself: this package adds no layer. */
  function Unwrap(e: LegacyError): (r: Option<ErrValue>)
    ensures r == e.err
  {
    e.err
  }

  /** The status of a code: its `CodeMap` entry, or the map's zero value. */
  function CodeStatus(code: string): int
  {
    if code in CodeMap then CodeMap[code] else 0
  }

  /** `ErrorStatus`: only a value-typed `Error` is looked at; a non-empty code
      decides, an empty code defers to the cause, and everything else is 500. */
  function ErrorStatus(err: Option<ErrValue>): int
    decreases err
  {
    match err
    case None => 500
    case Some(v) =>
      match v
      case ByValue(e) =>
        if e.code != "" then CodeStatus(e.code)
        else if e.err.Some? then ErrorStatus(e.err)
        else 500
      case ByPointer(_) => 500
      case OtherError(_) => 500
  }

  // Properties of rendering

  lemma RenderCases(e: LegacyError)
    ensures e.op != "" ==> Render(e)[..|e.op| + 2] == e.op + ": "
    ensures e.err.Some? ==> Render(e) == (if e.op != "" then e.op + ": " else "") + RenderErr(e.err.value)
    ensures e.err.None? && e.code != "" ==> Render(e) == (if e.op != "" then e.op + ": " else "") + "<" + e.code + "> " + e.message
    ensures e.op == "" && e.code == "" && e.err.None? ==> Render(e) == e.message
  {
  }

  /** With a cause, the code and the message are not shown. */
  lemma RenderIgnoresCodeWhenWrapping(e: LegacyError, code: string, message: string)
    requires e.err.Some?
    ensures Render(e.(code := code, message := message)) == Render(e)
  {
  }

  // Properties of the status mapping

  /** The table of `CodeMap`. */
  lemma CodeTable()
    ensures CodeStatus(ECONFLICT) == 409 && CodeStatus(EINVALID) == 400
    ensures CodeStatus(ENOTFOUND) == 404 && CodeStatus(EINTERNAL) == 500
    ensures CodeStatus(EFORBIDDEN) == 403 && CodeStatus(ENOTMODIFIED) == 304
  {
  }

  /** Every status is one of the table's, or the zero value of an unknown code. */
  lemma {:induction false} StatusRange(err: Option<ErrValue>)
    ensures ErrorStatus(err) in {0, 304, 400, 403, 404, 409, 500}
    decreases err
  {
    if err.Some? && err.value.ByValue? && err.value.e.code == "" && err.value.e.err.Some? {
      StatusRange(err.value.e.err);
    }
  }

  /** A non-empty code decides at once: the causes are never consulted, and
      an unknown code gives 0 rather than 500. */
  lemma StatusOfCodedValue(e: LegacyError)
    requires e.code != ""
    ensures ErrorStatus(Some(ByValue(e))) == CodeStatus(e.code)
    ensures e.code !in CodeMap ==> ErrorStatus(Some(ByValue(e))) == 0
  {
  }

  /** An empty code defers to the cause; with no cause the status is 500. */
  lemma StatusOfUncodedValue(e: LegacyError)
    requires e.code == ""
    ensures e.err.Some? ==> ErrorStatus(Some(ByValue(e))) == ErrorStatus(e.err)
    ensures e.err.None? ==> ErrorStatus(Some(ByValue(e))) == 500
  {
  }

  /** A pointer to an `Error` is not matched by the type assertion on the
      value type, so even a coded `*Error` maps to 500. */
  lemma StatusOfPointerIs500(e: LegacyError)
    ensures ErrorStatus(Some(ByPointer(e))) == 500
    ensures ErrorStatus(Some(ByValue(LegacyError("", "", "", Some(ByPointer(e)), None)))) == 500
  {
  }
}
