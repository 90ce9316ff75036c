/**
 * The error normaliser of frontend/src/utils/errorHandler.ts: whatever a failed request threw
 * becomes an `ApiError` with a message, the HTTP status and the response body when there is one.
 */
module ErrorHandler {
  import opened Wrappers

  /** The response body of a failed request; only its `detail` field is read. */
  datatype ResponseData = ResponseData(detail: Option<string>)

  /** The HTTP response attached to an Axios error, when the server answered. */
  datatype AxiosResponse = AxiosResponse(status: int, data: Option<ResponseData>)

  /**
   * What the failed call threw: an Axios error (itself an `Error`), any other `Error`, or a value
   * that is not an `Error` at all.
   */
  datatype Thrown =
    | AxiosFailure(message: string, response: Option<AxiosResponse>)
    | PlainError(message: string)
    | OtherValue

  datatype ApiError = ApiError(message: string, status: Option<int>, details: Option<ResponseData>)

  const DefaultAxiosMessage := "An error occurred"
  const UnexpectedMessage := "An unexpected error occurred"

  /** `error.response?.data?.detail`, as an optional value. */
  function Detail(response: Option<AxiosResponse>): Option<string>
  {
    if response.Some? && response.value.data.Some? then response.value.data.value.detail else None
  }

  /**
   * `handleApiError(error)`. The Axios test comes first, since an Axios error is also an `Error`.
   * Its message is the first truthy one of the detail, the error's own message and the default,
   * so empty strings fall through; status and body are copied from the response.
   */
  function HandleApiError(error: Thrown): (r: ApiError)
    ensures error.AxiosFailure? ==>
              && r.message != ""
              && (Detail(error.response).Some? && Detail(error.response).value != "" ==>
                    r.message == Detail(error.response).value)
              && (!(Detail(error.response).Some? && Detail(error.response).value != "") ==>
                    r.message == if error.message != "" then error.message else DefaultAxiosMessage)
              && r.status == (if error.response.Some? then Some(error.response.value.status) else None)
              && r.details == (if error.response.Some? then error.response.value.data else None)
    ensures error.PlainError? ==> r == ApiError(error.message, None, None)
    ensures error.OtherValue? ==> r == ApiError(UnexpectedMessage, None, None)
  {
    match error
    case AxiosFailure(message, response) =>
      var detail := Detail(response);
      ApiError(
        if detail.Some? && detail.value != "" then detail.value
        else if message != "" then message
        else DefaultAxiosMessage,
        if response.Some? then Some(response.value.status) else None,
        if response.Some? then response.value.data else None)
    case PlainError(message) => ApiError(message, None, None)
    case OtherValue => ApiError(UnexpectedMessage, None, None)
  }

  /**
   * `formatError(error)`: the message of the normalised error. It is empty only for a plain
   * `Error` whose own message is empty: Axios errors always fall back to a default and other
   * values get a fixed text.
   */
  function FormatError(error: Thrown): (s: string)
    ensures s == "" <==> error.PlainError? && error.message == ""
    ensures error.OtherValue? ==> s == UnexpectedMessage
    ensures error.PlainError? ==> s == error.message
    ensures error.AxiosFailure? ==> s != ""
  {
    HandleApiError(error).message
  }

  /** Only an Axios error that carries a response reports a status or a body. */
  lemma StatusOnlyFromResponses(error: Thrown)
    ensures HandleApiError(error).status.Some? <==> error.AxiosFailure? && error.response.Some?
    ensures HandleApiError(error).details.Some? ==> error.AxiosFailure? && error.response.Some?
  {
  }
}
