/**
 * Classification of caught errors: the message to show, whether the value is
 * an `ApiError`, its status, and the status predicates built on it.
 */
module ErrorHandler {
  import opened Wrappers
  import opened Js
  import ApiClient

  const DefaultFallback := "Có lỗi xảy ra. Vui lòng thử lại"

  /** `getApiErrorMessage(error, fallbackMessage)`; an undefined fallback
      takes the default.  The result is whatever `message` holds. */
  function GetApiErrorMessage(error: JsValue, fallbackMessage: Option<string>): (r: JsValue)
    ensures !Truthy(error) ==> r == Str(fallbackMessage.GetOr(DefaultFallback))
    ensures Truthy(error) && Truthy(Prop(error, "message")) ==> r == Prop(error, "message")
    ensures Truthy(error) && !Truthy(Prop(error, "message")) && error.Obj? && error.isError ==> r == Prop(error, "message")
    ensures Truthy(error) && !Truthy(Prop(error, "message")) && !(error.Obj? && error.isError) ==>
      r == Str(fallbackMessage.GetOr(DefaultFallback))
  {
    var fallback := fallbackMessage.GetOr(DefaultFallback);
    if !Truthy(error) then Str(fallback)
    else if Truthy(Prop(error, "message")) then Prop(error, "message")
    else if error.Obj? && error.isError then Prop(error, "message")
    else Str(fallback)
  }

  /** An `Error` with an empty message yields the empty string rather than
      the fallback; a thrown string yields the fallback. */
  lemma EmptyErrorMessageWins(fallback: Option<string>, s: string)
    ensures GetApiErrorMessage(Obj(map[], true), fallback) == Str("")
    ensures GetApiErrorMessage(Str(s), fallback) == Str(fallback.GetOr(DefaultFallback))
  {
  }

  /** `isApiError(error)`: a non-null object with `message` and `status`. */
  function IsApiError(error: JsValue): (b: bool)
    ensures b ==> error.Obj?
    ensures b <==> IsObjectType(error) && !error.Null? && HasKey(error, "message") && HasKey(error, "status")
  {
    error.Obj? && HasKey(error, "message") && HasKey(error, "status")
  }

  /** `getErrorStatus(error)`. */
  function GetErrorStatus(error: JsValue): (r: JsValue)
    ensures IsApiError(error) ==> r == Prop(error, "status")
    ensures !IsApiError(error) ==> r == Undefined
  {
    if IsApiError(error) then Prop(error, "status") else Undefined
  }

  /** The status test shared by the five predicates (`=== code`). */
  predicate HasStatus(error: JsValue, code: int) {
    GetErrorStatus(error) == Num(code)
  }

  function IsValidationError(error: JsValue): (b: bool)
    ensures b <==> IsApiError(error) && Prop(error, "status") == Num(400)
  {
    HasStatus(error, 400)
  }

  function IsUnauthorizedError(error: JsValue): (b: bool)
    ensures b <==> IsApiError(error) && Prop(error, "status") == Num(401)
  {
    HasStatus(error, 401)
  }

  function IsForbiddenError(error: JsValue): (b: bool)
    ensures b <==> IsApiError(error) && Prop(error, "status") == Num(403)
  {
    HasStatus(error, 403)
  }

  function IsNotFoundError(error: JsValue): (b: bool)
    ensures b <==> IsApiError(error) && Prop(error, "status") == Num(404)
  {
    HasStatus(error, 404)
  }

  function IsConflictError(error: JsValue): (b: bool)
    ensures b <==> IsApiError(error) && Prop(error, "status") == Num(409)
  {
    HasStatus(error, 409)
  }

  /** At most one of the status predicates holds for any value. */
  lemma AtMostOneStatus(error: JsValue)
    ensures (if IsValidationError(error) then 1 else 0) + (if IsUnauthorizedError(error) then 1 else 0) +
            (if IsForbiddenError(error) then 1 else 0) + (if IsNotFoundError(error) then 1 else 0) +
            (if IsConflictError(error) then 1 else 0) <= 1
  {
  }

  /** The object the client throws, as a JavaScript value (`code` and
      `data` appear when set). */
  function ThrownValue(e: ApiClient.ApiError): (v: JsValue)
    ensures v.Obj? && !v.isError
  {
    var base := map["message" := e.message, "status" := Num(e.status), "code" := Str(e.code)];
    Obj(if e.data.Some? then base["data" := e.data.value] else base, false)
  }

  /** Errors thrown by the client are recognised, report the HTTP status of
      the response (0 without one) and classify by it: a 401 response is an
      unauthorised error and a network failure is none of the five. */
  lemma ClientErrorsClassified(error: ApiClient.AxiosError)
    ensures var v := ThrownValue(ApiClient.HandleError(error));
            IsApiError(v) &&
            GetErrorStatus(v) == Num(if error.response.Some? then error.response.value.0 else 0) &&
            (IsUnauthorizedError(v) <==> error.response.Some? && error.response.value.0 == 401) &&
            (error.response.None? ==> !IsValidationError(v) && !IsUnauthorizedError(v) && !IsForbiddenError(v) &&
                                      !IsNotFoundError(v) && !IsConflictError(v))
  {
  }

  /** The message shown for a client error is its own message when that is
      a non-empty string. */
  lemma ClientErrorMessageShown(e: ApiClient.ApiError, fallback: Option<string>)
    requires e.message.Str? && e.message.s != ""
    ensures GetApiErrorMessage(ThrownValue(e), fallback) == e.message
  {
  }
}
