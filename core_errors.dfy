/** The structured error of core/errors: a record with a code, a message,
    an operation, an optional cause and optional attached data, plus the
    queries that walk the chain of causes. */
module CoreErrors {
  import opened Wrappers
  import opened Values

  // The six error codes
  const ECONFLICT: string := "conflict"
  const EINVALID: string := "invalid"
  const ENOTFOUND: string := "not_found"
  const EINTERNAL: string := "internal"
  const EFORBIDDEN: string := "unauthorized"
  const ENOTMODIFIED: string := "not_modified"

  /** A chain of errors as `Unwrap` sees it.
      `AppError` is an `*Error`; `StackWrap` is the stack-trace layer that
      `errors.WithStack` puts around a cause (its message and its `Unwrap` are
      those of the cause); `Foreign` is any other error without a cause, such
      as one made by the standard `errors.New`. */
  datatype Chain =
    | AppError(code: string, message: string, op: string, data: Option<Value>, err: Option<Chain>)
    | StackWrap(inner: Chain)
    | Foreign(msg: string)

  /** One step down the chain, as the `Unwrap` methods do. */
  function Unwrap(c: Chain): (r: Option<Chain>)
    ensures r.Some? ==> r.value < c
  {
    match c
    case AppError(_, _, _, _, err) => err
    case StackWrap(inner) => Some(inner)
    case Foreign(_) => None
  }

  /** The message `Error()` returns for each kind of link. */
  function Render(c: Chain): string
  {
    match c
    case AppError(code, message, op, _, err) =>
      (if op != "" then op + ": " else "")
      + (if err.Some? then Render(err.value)
         else (if code != "" then "<" + code + "> " else "") + message)
    case StackWrap(inner) => Render(inner)
    case Foreign(msg) => msg
  }

  /** The value `NewError(code, message, op, cause)` builds: a cause is kept
      behind a stack-trace layer, and no data is attached. */
  function MakeError(code: string, message: string, op: string, cause: Option<Chain>): (e: Chain)
    ensures e.AppError? && e.code == code && e.message == message && e.op == op
    ensures e.data.None?
    ensures e.err.None? <==> cause.None?
    ensures cause.Some? ==> e.err == Some(StackWrap(cause.value))
  {
    AppError(code, message, op, None, if cause.Some? then Some(StackWrap(cause.value)) else None)
  }

  /** The mutable `*Error`. Its fluent setters change one field in place and
      return the same object. */
  class Error {
    var code: string
    var message: string
    var op: string
    var err: Option<Chain>
    var data: Option<Value>

    /** The error's current value as a link of a chain. */
    function Snapshot(): Chain
      reads this
    {
      AppError(code, message, op, data, err)
    }

    /** `NewError`. */
    constructor NewError(code: string, message: string, op: string, cause: Option<Chain>)
      ensures Snapshot() == MakeError(code, message, op, cause)
    {
      this.code := code;
      this.message := message;
      this.op := op;
      this.data := None;
      if cause.Some? {
        this.err := Some(StackWrap(cause.value));
      } else {
        this.err := None;
      }
    }

    method WithCode(code: string) returns (self: Error)
      modifies this
      ensures self == this
      ensures this.code == code
      ensures message == old(message) && op == old(op) && err == old(err) && data == old(data)
    {
      this.code := code;
      self := this;
    }

    method WithMessage(message: string) returns (self: Error)
      modifies this
      ensures self == this
      ensures this.message == message
      ensures code == old(code) && op == old(op) && err == old(err) && data == old(data)
    {
      this.message := message;
      self := this;
    }

    method WithOperation(op: string) returns (self: Error)
      modifies this
      ensures self == this
      ensures this.op == op
      ensures code == old(code) && message == old(message) && err == old(err) && data == old(data)
    {
      this.op := op;
      self := this;
    }

    /** `WrapErr`: a nil cause leaves the error as it is; any other cause
        replaces `Err`, behind a stack-trace layer. */
    method WrapErr(cause: Option<Chain>) returns (self: Error)
      modifies this
      ensures self == this
      ensures cause.None? ==> err == old(err)
      ensures cause.Some? ==> err == Some(StackWrap(cause.value))
      ensures code == old(code) && message == old(message) && op == old(op) && data == old(data)
    {
      if cause.Some? {
        err := Some(StackWrap(cause.value));
      }
      self := this;
    }

    method SetData(data: Option<Value>) returns (self: Error)
      modifies this
      ensures self == this
      ensures this.data == data
      ensures code == old(code) && message == old(message) && op == old(op) && err == old(err)
    {
      this.data := data;
      self := this;
    }

    /** `WithData`, an alias of `SetData`. */
    method WithData(data: Option<Value>) returns (self: Error)
      modifies this
      ensures self == this
      ensures this.data == data
      ensures code == old(code) && message == old(message) && op == old(op) && err == old(err)
    {
      self := SetData(data);
    }

    /** `Error()`: the rendering, built in a buffer piece by piece. */
    method Error() returns (s: string)
      ensures s == Render(Snapshot())
      ensures op != "" ==> s[..|op| + 2] == op + ": "
      ensures err.Some? ==> s == (if op != "" then op + ": " else "") + Render(err.value)
      ensures err.None? && op == "" && code == "" ==> s == message
    {
      var buf := "";
      if op != "" {
        buf := buf + op + ": ";
      }
      if err.Some? {
        buf := buf + Render(err.value);
      } else {
        if code != "" {
          buf := buf + "<" + code + "> ";
        }
        buf := buf + message;
      }
      s := buf;
    }

    method Unwrap() returns (r: Option<Chain>)
      ensures r == err
    {
      r := err;
    }
  }

  /** The typed constructors: `NewError` with a fixed code. */
  method NewInvalidError(op: string, message: string, cause: Option<Chain>) returns (e: Error)
    ensures fresh(e) && e.Snapshot() == MakeError(EINVALID, message, op, cause)
  {
    e := new Error.NewError(EINVALID, message, op, cause);
  }

  method NewNotFoundError(op: string, message: string, cause: Option<Chain>) returns (e: Error)
    ensures fresh(e) && e.Snapshot() == MakeError(ENOTFOUND, message, op, cause)
  {
    e := new Error.NewError(ENOTFOUND, message, op, cause);
  }

  method NewConflictError(op: string, message: string, cause: Option<Chain>) returns (e: Error)
    ensures fresh(e) && e.Snapshot() == MakeError(ECONFLICT, message, op, cause)
  {
    e := new Error.NewError(ECONFLICT, message, op, cause);
  }

  method NewForbiddenError(op: string, message: string, cause: Option<Chain>) returns (e: Error)
    ensures fresh(e) && e.Snapshot() == MakeError(EFORBIDDEN, message, op, cause)
  {
    e := new Error.NewError(EFORBIDDEN, message, op, cause);
  }

  method NewInternalError(op: string, message: string, cause: Option<Chain>) returns (e: Error)
    ensures fresh(e) && e.Snapshot() == MakeError(EINTERNAL, message, op, cause)
  {
    e := new Error.NewError(EINTERNAL, message, op, cause);
  }

  method NewNotModifiedError(op: string, message: string, cause: Option<Chain>) returns (e: Error)
    ensures fresh(e) && e.Snapshot() == MakeError(ENOTMODIFIED, message, op, cause)
  {
    e := new Error.NewError(ENOTMODIFIED, message, op, cause);
  }

  /** `Wrap(err, message, op)`: an internal error around `err`; `err` stays
      reachable by `Is`. */
  method Wrap(cause: Option<Chain>, message: string, op: string) returns (e: Error)
    ensures fresh(e) && e.Snapshot() == MakeError(EINTERNAL, message, op, cause)
    ensures cause.Some? ==> Is(Some(e.Snapshot()), cause.value)
  {
    e := NewInternalError(op, message, cause);
    if cause.Some? {
      assert Reaches(StackWrap(cause.value), cause.value);
    }
  }

  // Chain queries

  /** `t` is `c` or lies below it on the chain. */
  predicate Reaches(c: Chain, t: Chain)
    decreases c
  {
    c == t || (Unwrap(c).Some? && Reaches(Unwrap(c).value, t))
  }

  /** The standard `errors.Is`, with `==` on errors read as equality of values. */
  predicate Is(err: Option<Chain>, target: Chain)
  {
    err.Some? && Reaches(err.value, target)
  }

  /** `t` is `c` or lies below it with only stack-trace layers in between. */
  predicate OnlyStacksAbove(c: Chain, t: Chain)
    decreases c
  {
    c == t || (c.StackWrap? && OnlyStacksAbove(c.inner, t))
  }

  /** The first `*Error` on the chain, as `errors.As(err, &e)` finds it: an
      `*Error` with nothing but stack-trace layers above it. */
  function FirstAppError(err: Option<Chain>): (r: Option<Chain>)
    ensures r.Some? ==> r.value.AppError? && Is(err, r.value)
    ensures r.Some? ==> OnlyStacksAbove(err.value, r.value)
  {
    if err.None? then None else FirstAppErrorOf(err.value)
  }

  function FirstAppErrorOf(c: Chain): (r: Option<Chain>)
    ensures r.Some? ==> r.value.AppError? && Reaches(c, r.value) && OnlyStacksAbove(c, r.value)
    decreases c
  {
    match c
    case AppError(_, _, _, _, _) => Some(c)
    case StackWrap(inner) => FirstAppErrorOf(inner)
    case Foreign(_) => None
  }

  function HasCode(err: Option<Chain>, code: string): bool
  {
    match FirstAppError(err)
    case Some(e) => e.code == code
    case None => false
  }

  function GetCode(err: Option<Chain>): string
  {
    match FirstAppError(err)
    case Some(e) => e.code
    case None => ""
  }

  function GetData(err: Option<Chain>): Option<Value>
  {
    match FirstAppError(err)
    case Some(e) => e.data
    case None => None
  }

  /** `ErrorData` of core/errors/error_data.go: follows `Err` only from one
      `*Error` directly to another; anything else ends the search with `""`. */
  function ErrorData(err: Option<Chain>): Value
    decreases err
  {
    match err
    case None => VStr("")
    case Some(c) =>
      match c
      case AppError(_, _, _, data, inner) =>
        if data.Some? then data.value
        else if inner.None? then VStr("")
        else ErrorData(inner)
      case StackWrap(_) => VStr("")
      case Foreign(_) => VStr("")
  }

  // Properties of rendering

  /** The renderings pinned by the package's tests and examples. */
  lemma RenderPinnedWithCause()
    ensures Render(MakeError("ERR001", "Something went wrong", "TestOperation", Some(Foreign("underlying error"))))
            == "TestOperation: underlying error"
  {
    var e := MakeError("ERR001", "Something went wrong", "TestOperation", Some(Foreign("underlying error")));
    assert Render(e) == "TestOperation" + ": " + "underlying error";
  }

  lemma RenderPinnedWithoutCause()
    ensures Render(MakeError("ERR002", "Another error", "TestOperation2", None))
            == "TestOperation2: <ERR002> Another error"
  {
    var e := MakeError("ERR002", "Another error", "TestOperation2", None);
    assert Render(e) == "TestOperation2" + ": " + ("<" + "ERR002" + "> " + "Another error");
  }

  /** With a cause present, the code and the message of the outer error
      never reach the rendering. */
  lemma RenderIgnoresCodeAndMessageWhenWrapping(code1: string, msg1: string, code2: string, msg2: string,
                                                op: string, d1: Option<Value>, d2: Option<Value>, cause: Chain)
    ensures Render(AppError(code1, msg1, op, d1, Some(cause))) == Render(AppError(code2, msg2, op, d2, Some(cause)))
    ensures Render(AppError(code1, msg1, op, d1, Some(cause))) == (if op != "" then op + ": " else "") + Render(cause)
  {
  }

  /** Without a cause: `"<Code> "` only for a non-empty code, then the message. */
  lemma RenderWithoutCause(code: string, message: string, op: string, d: Option<Value>)
    ensures op == "" && code == "" ==> Render(AppError(code, message, op, d, None)) == message
    ensures op == "" && code != "" ==> Render(AppError(code, message, op, d, None)) == "<" + code + "> " + message
    ensures op != "" ==> Render(AppError(code, message, op, d, None)) == op + ": " + Render(AppError(code, message, "", d, None))
  {
  }

  /** The errors one layer builds around another: each `(op, message)` pair of
      `layers`, outermost first, becomes `NewInternalError(op, message, …)`. */
  function Nest(layers: seq<(string, string)>, root: Chain): Chain
  {
    if layers == [] then root
    else MakeError(EINTERNAL, layers[0].1, layers[0].0, Some(Nest(layers[1..], root)))
  }

  /** The operations of the layers, each followed by `": "`. */
  function OpsPrefix(layers: seq<(string, string)>): string
  {
    if layers == [] then "" else layers[0].0 + ": " + OpsPrefix(layers[1..])
  }

  /** Nested wrapping renders as the operations joined by `": "`, ending with
      the innermost foreign message; the messages of the layers never show. */
  lemma {:induction false} RenderNested(layers: seq<(string, string)>, msg: string)
    requires forall i | 0 <= i < |layers| :: layers[i].0 != ""
    ensures Render(Nest(layers, Foreign(msg))) == OpsPrefix(layers) + msg
  {
    if layers != [] {
      var tail := layers[1..];
      forall i | 0 <= i < |tail| ensures tail[i].0 != "" {
        assert tail[i] == layers[i + 1];
      }
      var inner := Nest(tail, Foreign(msg));
      RenderNested(tail, msg);
      RenderOneLayer(layers[0].1, layers[0].0, inner);
      var op, rest := layers[0].0, OpsPrefix(tail);
      assert OpsPrefix(layers) == op + ": " + rest;
      assert op + ": " + (rest + msg) == op + ": " + rest + msg;
    }
  }

  /** One layer of nesting puts its operation in front. */
  lemma RenderOneLayer(message: string, op: string, inner: Chain)
    requires op != ""
    ensures Render(MakeError(EINTERNAL, message, op, Some(inner))) == op + ": " + Render(inner)
  {
    assert Render(StackWrap(inner)) == Render(inner);
  }

  // Properties of the chain queries

  /** The cause handed to `NewError` stays reachable by `Is`, but it is not
      the value `Unwrap` returns: a stack-trace layer sits in between. */
  lemma NewErrorKeepsCauseReachable(code: string, message: string, op: string, cause: Chain)
    ensures Is(Some(MakeError(code, message, op, Some(cause))), cause)
    ensures Unwrap(MakeError(code, message, op, Some(cause))) == Some(StackWrap(cause))
    ensures Unwrap(MakeError(code, message, op, Some(cause))) != Some(cause)
  {
    assert Reaches(StackWrap(cause), cause);
  }

  /** `FirstAppError` finds nothing exactly when no `*Error` is reachable. */
  lemma {:induction false} FirstAppErrorNoneIff(c: Chain)
    ensures FirstAppError(Some(c)).None? <==> !exists e :: Reaches(c, e) && e.AppError?
    decreases c
  {
    match c
    case AppError(_, _, _, _, _) =>
      assert Reaches(c, c);
    case StackWrap(inner) =>
      FirstAppErrorNoneIff(inner);
      forall e | Reaches(c, e) && e.AppError?
        ensures Reaches(inner, e)
      {
      }
      forall e | Reaches(inner, e)
        ensures Reaches(c, e)
      {
      }
    case Foreign(_) =>
      forall e | Reaches(c, e)
        ensures e == c
      {
      }
  }

  /** With no `*Error` on the chain, `HasCode`, `GetCode` and `GetData` give
      false, `""` and nil. */
  lemma QueriesWithoutAppError(err: Option<Chain>, code: string)
    requires err.None? || !exists e :: Reaches(err.value, e) && e.AppError?
    ensures !HasCode(err, code) && GetCode(err) == "" && GetData(err).None?
  {
    if err.Some? {
      FirstAppErrorNoneIff(err.value);
    }
  }

  /** The outermost `*Error` answers the queries; codes and data further down
      the chain are never consulted. */
  lemma QueriesUseOutermost(code: string, message: string, op: string, data: Option<Value>, inner: Option<Chain>, c: string)
    ensures HasCode(Some(AppError(code, message, op, data, inner)), c) <==> code == c
    ensures GetCode(Some(AppError(code, message, op, data, inner))) == code
    ensures GetData(Some(AppError(code, message, op, data, inner))) == data
  {
  }

  /** As written, `HasCode` asks only the first `*Error`: an internal error
      wrapping a not-found error does not have the not-found code, although
      an `*Error` with that code is on its chain. */
  lemma HasCodeMissesInnerCode()
    ensures var inner := AppError(ENOTFOUND, "no such user", "Repo.Find", None, None);
      var outer := AppError(EINTERNAL, "lookup failed", "Handler", None, Some(inner));
      Reaches(outer, inner) && !HasCode(Some(outer), ENOTFOUND)
  {
    var inner := AppError(ENOTFOUND, "no such user", "Repo.Find", None, None);
    var outer := AppError(EINTERNAL, "lookup failed", "Handler", None, Some(inner));
    assert Reaches(outer, inner);
  }

  /** `HasCode` as its documentation describes it: some `*Error` anywhere on
      the chain has the code. */
  function HasCodeOnChain(c: Chain, code: string): bool
    decreases c
  {
    (c.AppError? && c.code == code) || (Unwrap(c).Some? && HasCodeOnChain(Unwrap(c).value, code))
  }

  /** The documented reading holds exactly when an `*Error` with the code is
      reachable, and it agrees with `HasCode` whenever `HasCode` answers
      true. */
  lemma {:induction false} HasCodeOnChainIff(c: Chain, code: string)
    ensures HasCodeOnChain(c, code) <==> exists e :: Reaches(c, e) && e.AppError? && e.code == code
    ensures HasCode(Some(c), code) ==> HasCodeOnChain(c, code)
    decreases c
  {
    assert Reaches(c, c);
    if Unwrap(c).Some? {
      var inner := Unwrap(c).value;
      HasCodeOnChainIff(inner, code);
      forall e | Reaches(inner, e)
        ensures Reaches(c, e)
      {
      }
      if c.StackWrap? {
        assert FirstAppError(Some(c)) == FirstAppError(Some(inner));
      }
    } else {
      forall e | Reaches(c, e)
        ensures e == c
      {
      }
    }
  }

  /** Stack-trace layers are transparent to the queries. */
  lemma QueriesSeeThroughStack(c: Chain, code: string)
    ensures HasCode(Some(StackWrap(c)), code) == HasCode(Some(c), code)
    ensures GetCode(Some(StackWrap(c))) == GetCode(Some(c))
    ensures GetData(Some(StackWrap(c))) == GetData(Some(c))
  {
  }

  /** `Wrap` yields an internal error whose cause is still found by `Is`. */
  lemma WrapIsInternal(cause: Chain, message: string, op: string)
    ensures HasCode(Some(MakeError(EINTERNAL, message, op, Some(cause))), EINTERNAL)
    ensures GetCode(Some(MakeError(EINTERNAL, message, op, Some(cause)))) == EINTERNAL
    ensures Is(Some(MakeError(EINTERNAL, message, op, Some(cause))), cause)
  {
    NewErrorKeepsCauseReachable(EINTERNAL, message, op, cause);
  }

  // Properties of ErrorData

  /** All data attached anywhere on the chain, through every kind of link. */
  function DataOnChain(c: Chain): set<Value>
  {
    match c
    case AppError(_, _, _, data, err) =>
      (if data.Some? then {data.value} else {}) + (if err.Some? then DataOnChain(err.value) else {})
    case StackWrap(inner) => DataOnChain(inner)
    case Foreign(_) => {}
  }

  /** `ErrorData` returns either `""` or data attached somewhere on the chain. */
  lemma {:induction false} ErrorDataSound(err: Option<Chain>)
    ensures ErrorData(err) == VStr("") || (err.Some? && ErrorData(err) in DataOnChain(err.value))
    decreases err
  {
    if err.Some? && err.value.AppError? && err.value.data.None? && err.value.err.Some? {
      ErrorDataSound(err.value.err);
    }
  }

  /** Data on an `*Error` is returned without looking deeper. */
  lemma ErrorDataOutermost(code: string, message: string, op: string, d: Value, inner: Option<Chain>)
    ensures ErrorData(Some(AppError(code, message, op, Some(d), inner))) == d
  {
  }

  /** Data directly on a nested `*Error` is found. */
  lemma ErrorDataDirectNesting(outer: Chain, inner: Chain)
    requires outer.AppError? && outer.data.None? && outer.err == Some(inner)
    ensures ErrorData(Some(outer)) == ErrorData(Some(inner))
  {
  }

  /** A cause handed to `NewError` or `WrapErr` sits behind a stack-trace
      layer, so its data is never found. */
  lemma ErrorDataHiddenByStack(code: string, message: string, op: string, cause: Chain)
    ensures ErrorData(Some(MakeError(code, message, op, Some(cause)))) == VStr("")
  {
  }
}
