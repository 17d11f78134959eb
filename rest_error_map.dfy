/** The REST router's mapping from a core error to an HTTP status
    (protocol/rest/router/error_map.go). */
module RestErrorMap {
  import opened Wrappers
  import opened CoreErrors

  /** `CodeMapHTTP`. */
  const CodeMapHTTP: map<string, int> := map[
    ECONFLICT := 409,
    EINVALID := 400,
    ENOTFOUND := 404,
    EINTERNAL := 500,
    EFORBIDDEN := 403,
    ENOTMODIFIED := 304
  ]

  function CodeStatus(code: string): int
  {
    if code in CodeMapHTTP then CodeMapHTTP[code] else 0
  }

  /** `ErrorStatus` as written: only an `*Error` link is looked at; a
      non-empty code decides, an empty code recurses into `Err`, anything else
      (a stack-trace layer included) is 500. */
  function ErrorStatus(err: Option<Chain>): int
    decreases err
  {
    match err
    case None => 500
    case Some(c) =>
      match c
      case AppError(code, _, _, _, inner) =>
        if code != "" then CodeStatus(code)
        else if inner.Some? then ErrorStatus(inner)
        else 500
      case StackWrap(_) => 500
      case Foreign(_) => 500
  }

  lemma {:induction false} StatusRange(err: Option<Chain>)
    ensures ErrorStatus(err) in {0, 304, 400, 403, 404, 409, 500}
    decreases err
  {
    if err.Some? && err.value.AppError? && err.value.code == "" && err.value.err.Some? {
      StatusRange(err.value.err);
    }
  }

  /** The outermost non-empty code decides; an unknown code gives 0. */
  lemma OutermostCodeDecides(code: string, message: string, op: string, data: Option<Values.Value>, inner: Option<Chain>)
    requires code != ""
    ensures ErrorStatus(Some(AppError(code, message, op, data, inner))) == CodeStatus(code)
    ensures code == ENOTFOUND ==> ErrorStatus(Some(AppError(code, message, op, data, inner))) == 404
    ensures code !in CodeMapHTTP ==> ErrorStatus(Some(AppError(code, message, op, data, inner))) == 0
  {
  }

  /** An `*Error` with an empty code directly holding another `*Error`
      takes that error's status. */
  lemma EmptyCodeRecurses(message: string, op: string, data: Option<Values.Value>, inner: Chain)
    ensures ErrorStatus(Some(AppError("", message, op, data, Some(inner)))) == ErrorStatus(Some(inner))
  {
  }

  /** Every error built by `NewError` with an empty code maps to 500, whatever
      its cause: the cause sits behind a stack-trace layer. */
  lemma UncodedNewErrorIs500(message: string, op: string, cause: Option<Chain>)
    ensures ErrorStatus(Some(MakeError("", message, op, cause))) == 500
  {
  }

  /** The concrete case: a not-found error wrapped by `NewError("", …)`. */
  lemma WrappedNotFoundIs500()
    ensures ErrorStatus(Some(MakeError("", "wrapper", "Handler", Some(MakeError(ENOTFOUND, "user not found", "Repo", None))))) == 500
    ensures ErrorStatus(Some(MakeError(ENOTFOUND, "user not found", "Repo", None))) == 404
  {
  }

  /** The evidently intended mapping: like `ErrorStatus`, but a stack-trace
      layer is looked through, as `errors.As` does. */
  function ErrorStatusThroughStack(err: Option<Chain>): int
  {
    if err.None? then 500 else StatusThroughStackOf(err.value)
  }

  function StatusThroughStackOf(c: Chain): int
    decreases c
  {
    match c
    case AppError(code, _, _, _, inner) =>
      if code != "" then CodeStatus(code)
      else if inner.Some? then StatusThroughStackOf(inner.value)
      else 500
    case StackWrap(inner) => StatusThroughStackOf(inner)
    case Foreign(_) => 500
  }

  /** The code nearest the top, looking through every `*Error` with an empty
      code and every stack-trace layer. */
  function NearestCode(c: Chain): Option<string>
    decreases c
  {
    match c
    case AppError(code, _, _, _, inner) =>
      if code != "" then Some(code) else if inner.Some? then NearestCode(inner.value) else None
    case StackWrap(inner) => NearestCode(inner)
    case Foreign(_) => None
  }

  /** The intended mapping gives the status of the nearest code, and 500
      when no code is set anywhere along the way. */
  lemma {:induction false} ThroughStackUsesNearestCode(c: Chain)
    ensures NearestCode(c).Some? ==> ErrorStatusThroughStack(Some(c)) == CodeStatus(NearestCode(c).value)
    ensures NearestCode(c).None? ==> ErrorStatusThroughStack(Some(c)) == 500
    decreases c
  {
    match c
    case AppError(code, _, _, _, inner) =>
      if code == "" && inner.Some? {
        ThroughStackUsesNearestCode(inner.value);
      }
    case StackWrap(inner) =>
      ThroughStackUsesNearestCode(inner);
    case Foreign(_) =>
  }

  /** With the intended mapping, a coded cause wrapped by `NewError("", …)`
      keeps its status. */
  lemma ThroughStackFindsWrappedCode(message: string, op: string, cause: Chain)
    ensures ErrorStatusThroughStack(Some(MakeError("", message, op, Some(cause)))) == ErrorStatusThroughStack(Some(cause))
  {
    var e := MakeError("", message, op, Some(cause));
    assert e == AppError("", message, op, None, Some(StackWrap(cause)));
    assert StatusThroughStackOf(e) == StatusThroughStackOf(StackWrap(cause));
  }
}
