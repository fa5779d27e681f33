/**
 * The server's last middleware (server/middleware/errorMiddleware.js): the
 * catch-all that turns an unknown route into a 404 `ApiError`, and the
 * handler that turns whatever was thrown into a JSON error reply. The
 * handler starts from the error's own status, message and field errors and
 * lets four checks overwrite them in turn; `HandleError` follows those steps
 * and `ErrorResponseFor` states the outcome case by case.
 */
module ErrorMiddleware {
  import opened Basics
  import opened ApiErrors

  /** A value found under a key of `err.errors`. */
  datatype Value =
    /** A plain string. */
    | Text(s: string)
    /** An object with a `message`, as Mongoose's validator errors are. */
    | WithMessage(message: string)
    /** `undefined`: JSON leaves the key out. */
    | Undefined

  /** `value.message`: only an object with a message has one. */
  function MessageOf(v: Value): Value
  {
    match v
    case WithMessage(m) => Text(m)
    case _ => Undefined
  }

  /**
   * What the handler reads from a thrown error. `None` stands for an absent
   * field; `keyValue` holds the keys of Mongoose's `keyValue` object in order.
   */
  datatype ThrownError = ThrownError(
    name: string,
    message: string,
    statusCode: Option<int>,
    errors: Option<map<string, Value>>,
    code: Option<int>,
    keyValue: Option<seq<string>>,
    stack: Option<string>)

  /** The JSON reply; `errors` is `None` for `null`, `stack` is `None` for `undefined`. */
  datatype ErrorResponse = ErrorResponse(
    status: int,
    success: bool,
    message: string,
    errors: Option<map<string, Value>>,
    stack: Option<string>)

  /** A reply, or the `TypeError` `Object.keys` throws on `null` or `undefined`. */
  datatype HandlerResult = Responds(response: ErrorResponse) | Crashes

  const DuplicateCode := 11000

  /** Some entry of `err.errors` is `undefined`, so reading its `message` throws a `TypeError`. */
  predicate HasUndefinedEntry(src: map<string, Value>)
  {
    exists k | k in src :: src[k] == Undefined
  }

  /**
   * The field errors of a validation error: each key with its entry's
   * `message`, or `None` for the `TypeError` an `undefined` entry raises.
   */
  function ValidationMessages(src: map<string, Value>): (r: Option<map<string, Value>>)
    ensures r.None? <==> HasUndefinedEntry(src)
    ensures r.Some? ==> r.value.Keys == src.Keys
    ensures r.Some? ==> forall k | k in r.value :: r.value[k] == MessageOf(src[k])
  {
    if HasUndefinedEntry(src) then None
    else Some(map k | k in src :: MessageOf(src[k]))
  }

  /** `${field}` of a key that may be missing: `Object.keys({})[0]` is `undefined`. */
  function FirstKey(keys: seq<string>): string
  {
    if keys == [] then "undefined" else keys[0]
  }

  /**
   * The reply case by case. The token checks come last in the handler, so
   * they decide the status and message over every other rule; a duplicate
   * key decides the field errors over validation.
   */
  function ErrorResponseFor(err: ThrownError, nodeEnv: Option<string>): HandlerResult
  {
    var isValidation := err.name == "ValidationError";
    var isDuplicate := err.code == Some(DuplicateCode);
    if (isValidation && (err.errors.None? || HasUndefinedEntry(err.errors.value)))
       || (isDuplicate && err.keyValue.None?) then Crashes
    else
      var status :=
        if err.name == "TokenExpiredError" || err.name == "JsonWebTokenError" then 401
        else if isDuplicate then 409
        else if isValidation then 400
        else if err.statusCode.Some? && err.statusCode.value != 0 then err.statusCode.value
        else 500;
      var message :=
        if err.name == "TokenExpiredError" then "Token expired"
        else if err.name == "JsonWebTokenError" then "Invalid token"
        else if isDuplicate then "Duplicate field value entered"
        else if isValidation then "Validation Error"
        else if err.message != "" then err.message
        else "Something went wrong";
      var errors :=
        if isDuplicate then
          var field := FirstKey(err.keyValue.value);
          Some(map[field := Text(field + " already exists")])
        else if isValidation then ValidationMessages(err.errors.value)
        else err.errors;
      Responds(ErrorResponse(status, false, message, errors,
                             if nodeEnv == Some("production") then None else err.stack))
  }

  /**
   * `errorHandler`: the defaults, then the validation, duplicate-key,
   * invalid-token and expired-token checks, each overwriting what it sets.
   */
  method HandleError(err: ThrownError, nodeEnv: Option<string>) returns (r: HandlerResult)
    ensures r == ErrorResponseFor(err, nodeEnv)
  {
    var statusCode := if err.statusCode.Some? && err.statusCode.value != 0 then err.statusCode.value else 500;
    var message := if err.message != "" then err.message else "Something went wrong";
    var errors := err.errors;

    if err.name == "ValidationError" {
      statusCode := 400;
      message := "Validation Error";
      if err.errors.None? {
        return Crashes;
      }
      var src := err.errors.value;
      var out: map<string, Value> := map[];
      var remaining := src.Keys;
      while remaining != {}
        invariant remaining <= src.Keys
        invariant out.Keys == src.Keys - remaining
        invariant forall k | k in out :: out[k] == MessageOf(src[k]) && src[k] != Undefined
        decreases |remaining|
      {
        var key :| key in remaining;
        if src[key] == Undefined {
          return Crashes;
        }
        out := out[key := MessageOf(src[key])];
        remaining := remaining - {key};
      }
      assert !HasUndefinedEntry(src);
      assert out == map k | k in src :: MessageOf(src[k]);
      errors := Some(out);
    }

    if err.code == Some(DuplicateCode) {
      statusCode := 409;
      message := "Duplicate field value entered";
      if err.keyValue.None? {
        return Crashes;
      }
      var field := FirstKey(err.keyValue.value);
      errors := Some(map[field := Text(field + " already exists")]);
    }

    if err.name == "JsonWebTokenError" {
      statusCode := 401;
      message := "Invalid token";
    }

    if err.name == "TokenExpiredError" {
      statusCode := 401;
      message := "Token expired";
    }

    var stack := if nodeEnv == Some("production") then None else err.stack;
    r := Responds(ErrorResponse(statusCode, false, message, errors, stack));
  }

  // ------------------------------------------------------ what the handler promises

  /** Every reply says `success: false`, and the stack is shown exactly outside production. */
  lemma RepliesNeverSucceed(err: ThrownError, nodeEnv: Option<string>)
    requires ErrorResponseFor(err, nodeEnv).Responds?
    ensures !ErrorResponseFor(err, nodeEnv).response.success
    ensures ErrorResponseFor(err, nodeEnv).response.stack ==
      if nodeEnv == Some("production") then None else err.stack
  {
  }

  /** With no special name or code, the error's own status (or 500) and message (or the fallback) go out. */
  lemma PlainErrorDefaults(err: ThrownError, nodeEnv: Option<string>)
    requires err.name !in {"ValidationError", "JsonWebTokenError", "TokenExpiredError"}
    requires err.code != Some(DuplicateCode)
    ensures ErrorResponseFor(err, nodeEnv).Responds?
    ensures var resp := ErrorResponseFor(err, nodeEnv).response;
      && resp.status == (if err.statusCode.Some? && err.statusCode.value != 0 then err.statusCode.value else 500)
      && resp.message == (if err.message != "" then err.message else "Something went wrong")
      && resp.errors == err.errors
  {
  }

  /** A validation error whose entries are all defined: 400, and one message per field it names. */
  lemma ValidationIsBadRequest(err: ThrownError, nodeEnv: Option<string>)
    requires err.name == "ValidationError" && err.code != Some(DuplicateCode)
    requires err.errors.Some? && !HasUndefinedEntry(err.errors.value)
    ensures ErrorResponseFor(err, nodeEnv).Responds?
    ensures var resp := ErrorResponseFor(err, nodeEnv).response;
      && resp.status == 400 && resp.message == "Validation Error"
      && resp.errors.Some? && resp.errors.value.Keys == err.errors.value.Keys
      && forall k | k in resp.errors.value :: resp.errors.value[k] == MessageOf(err.errors.value[k])
  {
  }

  /** A duplicate key: 409, and one error under the first duplicated field, overriding validation. */
  lemma DuplicateKeyIsConflict(err: ThrownError, nodeEnv: Option<string>)
    requires err.code == Some(DuplicateCode) && err.keyValue.Some?
    requires err.name !in {"JsonWebTokenError", "TokenExpiredError"}
    requires err.name == "ValidationError" ==> err.errors.Some? && !HasUndefinedEntry(err.errors.value)
    ensures ErrorResponseFor(err, nodeEnv).Responds?
    ensures var resp := ErrorResponseFor(err, nodeEnv).response;
      var field := FirstKey(err.keyValue.value);
      && resp.status == 409 && resp.message == "Duplicate field value entered"
      && resp.errors == Some(map[field := Text(field + " already exists")])
  {
  }

  /** Token errors answer 401 whatever else the error carries. */
  lemma TokenErrorsAreUnauthorized(err: ThrownError, nodeEnv: Option<string>)
    requires err.name in {"JsonWebTokenError", "TokenExpiredError"}
    requires err.code == Some(DuplicateCode) ==> err.keyValue.Some?
    ensures ErrorResponseFor(err, nodeEnv).Responds?
    ensures var resp := ErrorResponseFor(err, nodeEnv).response;
      && resp.status == 401
      && resp.message == (if err.name == "TokenExpiredError" then "Token expired" else "Invalid token")
  {
  }

  /** The handler throws exactly when a rule reads a missing object or a missing entry's `message`. */
  lemma CrashesExactly(err: ThrownError, nodeEnv: Option<string>)
    ensures ErrorResponseFor(err, nodeEnv).Crashes? <==>
      (err.name == "ValidationError" && (err.errors.None? || HasUndefinedEntry(err.errors.value))) ||
      (err.code == Some(DuplicateCode) && err.keyValue.None?)
  {
  }

  /** An `undefined` entry in a validation error's `errors` makes the handler throw. */
  lemma UndefinedEntryCrashes(nodeEnv: Option<string>)
    ensures ErrorResponseFor(ThrownError("ValidationError", "", None, Some(map["clientName" := Undefined]),
                                         None, None, None), nodeEnv) == Crashes
  {
    var src := map["clientName" := Undefined];
    assert src["clientName"] == Undefined;
  }

  // ------------------------------------------------------ ApiError meets the handler

  /** An `ApiError` as the handler sees it once thrown. */
  function Thrown(e: ApiError, stack: Option<string>): ThrownError
  {
    var errors := if e.errors.Some? then Some(map k | k in e.errors.value :: Text(e.errors.value[k])) else None;
    ThrownError(e.name, e.message, Some(e.statusCode), errors, None, None, stack)
  }

  /** A thrown `ApiError` with a status and a message comes back out as it went in. */
  lemma ApiErrorRoundTrip(e: ApiError, stack: Option<string>, nodeEnv: Option<string>)
    requires e.name == "Error" && e.statusCode != 0 && e.message != ""
    ensures ErrorResponseFor(Thrown(e, stack), nodeEnv).Responds?
    ensures var resp := ErrorResponseFor(Thrown(e, stack), nodeEnv).response;
      && resp.status == e.statusCode && resp.message == e.message && !resp.success
      && (resp.errors.Some? <==> e.errors.Some?)
      && (e.errors.Some? ==>
            && resp.errors.value.Keys == e.errors.value.Keys
            && forall k | k in e.errors.value :: resp.errors.value[k] == Text(e.errors.value[k]))
  {
  }

  /** Each factory's error leaves the handler with the factory's status. */
  lemma FactoryStatuses(message: string, stack: Option<string>, nodeEnv: Option<string>)
    requires message != ""
    ensures ErrorResponseFor(Thrown(BadRequest(message), stack), nodeEnv) ==
      Responds(ErrorResponse(400, false, message, None, if nodeEnv == Some("production") then None else stack))
    ensures ErrorResponseFor(Thrown(Unauthorized(message), stack), nodeEnv).response.status == 401
    ensures ErrorResponseFor(Thrown(Forbidden(message), stack), nodeEnv).response.status == 403
    ensures ErrorResponseFor(Thrown(NotFound(message), stack), nodeEnv).response.status == 404
    ensures ErrorResponseFor(Thrown(Conflict(message), stack), nodeEnv).response.status == 409
    ensures ErrorResponseFor(Thrown(Internal(message), stack), nodeEnv).response.status == 500
  {
  }

  /** `notFound`: the error it passes on names the URL that missed. */
  function NotFoundError(originalUrl: string): (e: ApiError)
    ensures e.statusCode == 404 && e.message == "Not found - " + originalUrl && e.errors == None
  {
    NewApiError("Not found - " + originalUrl, 404)
  }

  /** An unknown route is answered 404 with its URL in the message. */
  lemma UnknownRouteReply(originalUrl: string, stack: Option<string>, nodeEnv: Option<string>)
    ensures ErrorResponseFor(Thrown(NotFoundError(originalUrl), stack), nodeEnv) ==
      Responds(ErrorResponse(404, false, "Not found - " + originalUrl, None,
                             if nodeEnv == Some("production") then None else stack))
  {
    assert "Not found - " + originalUrl != "";
  }
}
