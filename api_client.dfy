/**
 * The HTTP client wrapper: how a raw response becomes the `{code, message,
 * data}` envelope, how a failed request becomes an `ApiError`, and how
 * request headers are adjusted.  The transport itself is an input: a request
 * either produced a response (any status that axios accepts as success) or
 * failed with an axios error.
 */
module ApiClient {
  import opened Wrappers
  import opened Js

  const GenericError := "Có lỗi xảy ra"
  const NetworkErrorMessage := "Không thể kết nối đến server"

  /** The error object every failed call rejects with. */
  datatype ApiError = ApiError(message: JsValue, status: int, code: string, data: Option<JsValue>)

  /** An axios error: the server's response (status and body) if one came
      back, whether a request went out, and the error's own message. */
  datatype AxiosError = AxiosError(response: Option<(int, JsValue)>, requestSent: bool, message: string)

  /** What the transport delivered for one call. */
  datatype Transport =
    | Responded(status: int, statusText: string, body: JsValue)
    | Failed(error: AxiosError)

  /** How a call settles: the promise resolves with an envelope or rejects
      with an `ApiError`. */
  datatype Outcome = Resolved(value: JsValue) | Rejected(error: ApiError)

  /** The body already has the envelope shape: a numeric `code` and a
      string `message`. */
  predicate IsEnvelope(data: JsValue) {
    Prop(data, "code").Num? && Prop(data, "message").Str?
  }

  /** `transformResponse(response)` for a body that is not `null` or
      `undefined` (reading `code` off those throws). */
  function TransformResponse(status: int, statusText: string, data: JsValue): (r: JsValue)
    requires !Nullish(data)
    ensures IsEnvelope(data) ==> r == data
    ensures !IsEnvelope(data) ==>
      r.Obj? && !r.isError && r.props.Keys == {"code", "message", "data"} &&
      r.props["code"] == Num(status) && r.props["data"] == data &&
      r.props["message"] == Str(if statusText != "" then statusText else "Success")
    ensures IsEnvelope(r)
  {
    if IsEnvelope(data) then data
    else Obj(map["code" := Num(status), "message" := Str(if statusText != "" then statusText else "Success"), "data" := data], false)
  }

  /** Transforming an envelope again changes nothing. */
  lemma TransformIdempotent(status: int, statusText: string, data: JsValue, status': int, statusText': string)
    requires !Nullish(data)
    ensures var r := TransformResponse(status, statusText, data);
            !Nullish(r) && TransformResponse(status', statusText', r) == r
  {
  }

  /** `(data?.code as number)?.toString() || status.toString()`. */
  function ErrorCode(data: JsValue, status: int): (code: string)
    ensures code != ""
    ensures Nullish(Prop(data, "code")) ==> code == IntToString(status)
    ensures Prop(data, "code").Num? ==> code == IntToString(Prop(data, "code").n)
  {
    var c := Prop(data, "code");
    if Nullish(c) then IntToString(status)
    else
      var s := ToJsString(c);
      if s != "" then s else IntToString(status)
  }

  /** `handleError(error)`: always throws; this is the thrown value. */
  function HandleError(error: AxiosError): (e: ApiError)
    ensures error.response.Some? ==>
      e.status == error.response.value.0 && e.data == Some(error.response.value.1) &&
      e.message == Or(Prop(error.response.value.1, "message"), Or(Str(error.message), Str(GenericError)))
    ensures error.response.None? ==> e.status == 0 && e.data == None
    ensures error.response.None? && error.requestSent ==>
      e.code == "NETWORK_ERROR" && e.message == Str(NetworkErrorMessage)
    ensures error.response.None? && !error.requestSent ==>
      e.code == "UNKNOWN_ERROR" && e.message == Str(if error.message != "" then error.message else GenericError)
    ensures e.code != ""
  {
    match error.response
    case Some((status, data)) =>
      ApiError(Or(Prop(data, "message"), Or(Str(error.message), Str(GenericError))), status, ErrorCode(data, status), Some(data))
    case None =>
      if error.requestSent then ApiError(Str(NetworkErrorMessage), 0, "NETWORK_ERROR", None)
      else ApiError(Str(if error.message != "" then error.message else GenericError), 0, "UNKNOWN_ERROR", None)
  }

  /** The shared `try { transformResponse } catch { handleError }` of every
      verb.  A `null` or `undefined` body makes `transformResponse` throw a
      `TypeError` (with the engine's text `typeErrorMessage`), which lands in
      `handleError` as an error without response or request. */
  function Settle(t: Transport, typeErrorMessage: string): (o: Outcome)
    ensures t.Failed? ==> o == Rejected(HandleError(t.error))
    ensures t.Responded? && !Nullish(t.body) ==> o == Resolved(TransformResponse(t.status, t.statusText, t.body))
    ensures t.Responded? && Nullish(t.body) ==> o == Rejected(HandleError(AxiosError(None, false, typeErrorMessage)))
  {
    match t
    case Failed(err) => Rejected(HandleError(err))
    case Responded(status, statusText, body) =>
      if Nullish(body) then Rejected(HandleError(AxiosError(None, false, typeErrorMessage)))
      else Resolved(TransformResponse(status, statusText, body))
  }

  /** Every call either resolves with an envelope or rejects with an error
      whose code is set; status 0 is reported exactly when no response
      came back (for responses whose status is a real HTTP status). */
  lemma SettleShape(t: Transport, typeErrorMessage: string)
    requires t.Failed? && t.error.response.Some? ==> t.error.response.value.0 >= 100
    ensures var o := Settle(t, typeErrorMessage);
            (o.Resolved? ==> IsEnvelope(o.value)) &&
            (o.Rejected? ==> o.error.code != "" &&
                             (o.error.status == 0 <==> !(t.Failed? && t.error.response.Some?)))
  {
  }

  /** A server error without a body message takes the axios message; the
      code falls back to the status when the body has none, and a numeric
      body code is printed. */
  lemma ServerErrorFallbacks(axiosMessage: string)
    requires axiosMessage != ""
    ensures HandleError(AxiosError(Some((500, Null)), true, axiosMessage)).message == Str(axiosMessage)
    ensures HandleError(AxiosError(Some((500, Null)), true, axiosMessage)).code == "500"
    ensures HandleError(AxiosError(Some((409, Obj(map["code" := Num(7)], false))), true, axiosMessage)).code == "7"
  {
    assert IntToString(500) == "500" by {
      assert NatToString(50) == "50" by { assert NatToString(5) == "5"; }
    }
  }

  /** A request's configuration as the request interceptor sees it. */
  class RequestConfig {
    var headers: map<string, string>
    /** The body is a `FormData` instance. */
    const isFormData: bool

    constructor (headers: map<string, string>, isFormData: bool)
      ensures this.headers == headers && this.isFormData == isFormData
    {
      this.headers := headers;
      this.isFormData := isFormData;
    }

    /** The request interceptor: a stored non-empty token becomes a bearer
        `Authorization` header, and a form-data body loses its
        `Content-Type` so that the boundary is filled in by the platform. */
    method Intercept(token: Option<string>)
      modifies this`headers
      ensures token.Some? && token.value != "" ==> "Authorization" in headers && headers["Authorization"] == "Bearer " + token.value
      ensures !(token.Some? && token.value != "") && "Authorization" in old(headers) ==>
        "Authorization" in headers && headers["Authorization"] == old(headers)["Authorization"]
      ensures !(token.Some? && token.value != "") ==> ("Authorization" in headers <==> "Authorization" in old(headers))
      ensures "Content-Type" in headers <==> "Content-Type" in old(headers) && !isFormData
      ensures forall k :: k != "Authorization" && k != "Content-Type" ==>
        (k in headers <==> k in old(headers)) && (k in headers ==> headers[k] == old(headers)[k])
      ensures "Content-Type" in headers ==> headers["Content-Type"] == old(headers)["Content-Type"]
    {
      if token.Some? && token.value != "" {
        headers := headers["Authorization" := "Bearer " + token.value];
      }
      if isFormData {
        headers := headers - {"Content-Type"};
      }
    }
  }

  /** The client's default headers. */
  class Client {
    /** Headers given at creation. */
    var instanceHeaders: map<string, string>
    /** `defaults.headers.common`. */
    var commonHeaders: map<string, string>

    constructor ()
      ensures instanceHeaders == map["Content-Type" := "application/json"]
      ensures commonHeaders == map[]
    {
      instanceHeaders := map["Content-Type" := "application/json"];
      commonHeaders := map[];
    }

    /** `setAuthToken(token)`. */
    method SetAuthToken(token: string)
      modifies this`commonHeaders
      ensures commonHeaders == old(commonHeaders)["Authorization" := "Bearer " + token]
    {
      commonHeaders := commonHeaders["Authorization" := "Bearer " + token];
    }

    /** `removeAuthToken()`. */
    method RemoveAuthToken()
      modifies this`commonHeaders
      ensures commonHeaders == old(commonHeaders) - {"Authorization"}
    {
      commonHeaders := commonHeaders - {"Authorization"};
    }
  }

  /** Removing the token after setting it leaves exactly the headers that
      were there without any token. */
  lemma SetThenRemove(common: map<string, string>, token: string)
    ensures common["Authorization" := "Bearer " + token] - {"Authorization"} == common - {"Authorization"}
  {
  }
}
