/** Result and optional types shared by every layer of the client.

    The application uses one failure-carrying result type for all remote calls
    (`Return<T>` in utils/Return.kt, also spelled `ApiResult` in part of the code);
    both spellings are the same type here.
 */
module Wrappers {

  /** Kotlin's nullable `T?`. */
  datatype Option<+T> = None | Some(value: T) {

    /** Kotlin's elvis operator `x ?: default`. */
    function GetOr(default: T): T {
      match this
      case Some(v) => v
      case None => default
    }
  }

  /** The status attached to every result. */
  datatype ReturnCode = Ok | NetworkError | ServerError | BadRequest | Unspecified

  /** String resources named by the code; their translations are opaque. */
  datatype StringRes =
    | ConnectionError
    | UnknownError
    | ErrEnterEmail
    | ErrEnterUsername
    | ErrEnterPassword

  /** Text shown to the user: either a string resource or a literal string. */
  datatype UiText = Res(id: StringRes) | Hardcoded(str: string)

  /** The empty literal used wherever the code writes `UiText.Empty()` or
      a default `StringResource()`. */
  const EmptyText: UiText := Hardcoded("")

  /** `Return.Ok(value)` or `Return.Fail(message, code)`; a failure built without an
      explicit code carries `Unspecified`. */
  datatype Return<+T> = Ok(value: T) | Fail(message: UiText, failCode: ReturnCode) {

    /** The `code` property: `Ok` for a success, the stored code for a failure. */
    function Code(): ReturnCode {
      match this
      case Ok(_) => ReturnCode.Ok
      case Fail(_, c) => c
    }

    /** `convert<Unit> { }`: forget the value, keep the failure as it is. */
    function Convert(): (r: Return<()>)
      ensures r.Ok? <==> Ok?
      ensures Fail? ==> r == Fail(message, failCode)
    {
      match this
      case Ok(_) => Return.Ok(())
      case Fail(m, c) => Fail(m, c)
    }
  }
}
