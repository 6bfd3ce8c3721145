/**
 * The error type of backend/src/error.rs: its display text and the response
 * it turns into (a status with a plain-text body).
 */
module ApiErrors {
  import Api

  datatype ApiError = NotFound | InternalServerError | BadRequest(detail: string) | Unauthorized

  /** The `Display` text derived by `thiserror`. */
  function Display(e: ApiError): (s: string)
    ensures e.BadRequest? ==> s == "Bad request: " + e.detail
  {
    match e
    case NotFound => "Not found"
    case InternalServerError => "Internal server error"
    case BadRequest(d) => "Bad request: " + d
    case Unauthorized => "Unauthorized"
  }

  /** `into_response`: the status for the variant and a plain-text body. */
  function IntoResponse(e: ApiError): (r: (Api.StatusCode, string))
    ensures e.NotFound? <==> r.0 == Api.NotFound404
    ensures e.InternalServerError? <==> r.0 == Api.InternalServerError500
    ensures e.BadRequest? <==> r.0 == Api.BadRequest400
    ensures e.Unauthorized? <==> r.0 == Api.Unauthorized401
  {
    match e
    case NotFound => (Api.NotFound404, "Not found")
    case InternalServerError => (Api.InternalServerError500, "Internal server error")
    case BadRequest(msg) => (Api.BadRequest400, msg)
    case Unauthorized => (Api.Unauthorized401, "Unauthorized")
  }

  /** The response body is the display text, except that a bad request sends
      its detail without the "Bad request: " prefix; so the response alone
      determines the error. */
  lemma ResponseBodyAgreesWithDisplay(e: ApiError, e': ApiError)
    ensures !e.BadRequest? ==> IntoResponse(e).1 == Display(e)
    ensures e.BadRequest? ==> Display(e) == "Bad request: " + IntoResponse(e).1
    ensures IntoResponse(e) == IntoResponse(e') ==> e == e'
  {
  }
}
