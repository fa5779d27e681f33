/**
 * The server's error value (server/utils/ApiError.js): a message, an HTTP
 * status, an optional map of field errors and `success: false`, with one
 * factory per status the routes use. Values are set once and never change.
 */
module ApiErrors {
  import opened Basics

  /** An `ApiError`; `errors` is `None` for `null`. Its `name` stays `Error`. */
  datatype ApiError = ApiError(
    message: string,
    statusCode: int,
    errors: Option<map<string, string>>,
    success: bool,
    name: string)

  /** `new ApiError(message, statusCode, errors = null)`. */
  function NewApiError(message: string, statusCode: int, errors: Option<map<string, string>> := None): (e: ApiError)
    ensures e.message == message && e.statusCode == statusCode && e.errors == errors
    ensures !e.success && e.name == "Error"
  {
    ApiError(message, statusCode, errors, false, "Error")
  }

  /** `ApiError.badRequest`: 400, the only factory that carries field errors. */
  function BadRequest(message: string := "Bad Request", errors: Option<map<string, string>> := None): (e: ApiError)
    ensures e.statusCode == 400 && e.message == message && e.errors == errors && !e.success
  {
    NewApiError(message, 400, errors)
  }

  /** `ApiError.unauthorized`: 401. */
  function Unauthorized(message: string := "Unauthorized access"): (e: ApiError)
    ensures e.statusCode == 401 && e.message == message && e.errors == None && !e.success
  {
    NewApiError(message, 401)
  }

  /** `ApiError.forbidden`: 403. */
  function Forbidden(message: string := "Forbidden"): (e: ApiError)
    ensures e.statusCode == 403 && e.message == message && e.errors == None && !e.success
  {
    NewApiError(message, 403)
  }

  /** `ApiError.notFound`: 404. */
  function NotFound(message: string := "Resource not found"): (e: ApiError)
    ensures e.statusCode == 404 && e.message == message && e.errors == None && !e.success
  {
    NewApiError(message, 404)
  }

  /** `ApiError.conflict`: 409. */
  function Conflict(message: string := "Conflict"): (e: ApiError)
    ensures e.statusCode == 409 && e.message == message && e.errors == None && !e.success
  {
    NewApiError(message, 409)
  }

  /** `ApiError.internal`: 500. */
  function Internal(message: string := "Internal Server Error"): (e: ApiError)
    ensures e.statusCode == 500 && e.message == message && e.errors == None && !e.success
  {
    NewApiError(message, 500)
  }

  /** Called without arguments, each factory gives its own status and default message, and no field errors. */
  lemma FactoryDefaults()
    ensures BadRequest() == ApiError("Bad Request", 400, None, false, "Error")
    ensures Unauthorized() == ApiError("Unauthorized access", 401, None, false, "Error")
    ensures Forbidden() == ApiError("Forbidden", 403, None, false, "Error")
    ensures NotFound() == ApiError("Resource not found", 404, None, false, "Error")
    ensures Conflict() == ApiError("Conflict", 409, None, false, "Error")
    ensures Internal() == ApiError("Internal Server Error", 500, None, false, "Error")
  {
  }

  /** Only `badRequest` can carry field errors; every factory sets `success` to false. */
  lemma OnlyBadRequestCarriesErrors(message: string, errors: Option<map<string, string>>)
    ensures BadRequest(message, errors).errors == errors
    ensures Unauthorized(message).errors == None && Forbidden(message).errors == None
    ensures NotFound(message).errors == None && Conflict(message).errors == None
    ensures Internal(message).errors == None
    ensures !BadRequest(message, errors).success && !Unauthorized(message).success
    ensures !Forbidden(message).success && !NotFound(message).success
    ensures !Conflict(message).success && !Internal(message).success
  {
  }
}
