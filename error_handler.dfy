/** The error-handling middleware (`middleware/errorHandler.ts`): turns a
    thrown error into a status code and a JSON body, and `notFound`, which
    builds the 404 error for an unmatched URL. */
module ErrorHandler {
  import opened Wrappers
  import Text
  import Store

  /** One entry of the `errors` list: `{field, message}`; either may be
      missing on the object it was read from. */
  datatype FieldError = FieldError(field: Option<string>, message: Option<string>)

  /** The error as the handler receives it. `statusCode` and `errors` are
      optional properties; `ownValues` are the error's own enumerable
      property values as `Object.values` lists them, each read as a field
      error. */
  datatype ApiError = ApiError(
    name: string, message: string, statusCode: Option<int>, errors: Option<seq<FieldError>>,
    stack: Option<string>, ownValues: seq<FieldError>)

  /** The JSON body: `error`, then `errors` only when non-empty, then
      `stack` only in development. */
  datatype ErrorBody = ErrorBody(error: string, errors: Option<seq<FieldError>>, stack: Option<string>)

  datatype ErrorResponse = ErrorResponse(status: int, body: ErrorBody)

  const UniqueFailure: string := "UNIQUE constraint failed"
  const Development: string := "development"

  /** The rules by priority, most binding first: a UNIQUE-constraint
      message, then an expired token, then a bad token, then a validation
      error, then the error's own status and message (falsy values replaced
      by 500 and "Internal Server Error"). The `errors` list is replaced
      only by a validation error, whatever rule decides status and
      message. */
  function Classify(err: ApiError, env: string): (res: ErrorResponse)
    ensures res.status in {400, 401, 409} || res.status == (if err.statusCode.GetOr(0) != 0 then err.statusCode.value else 500)
    ensures res.body.errors.Some? ==> |res.body.errors.value| > 0
  {
    var status :=
      if Text.Contains(err.message, UniqueFailure) then 409
      else if err.name == "TokenExpiredError" || err.name == "JsonWebTokenError" then 401
      else if err.name == "ValidationError" then 400
      else if err.statusCode.GetOr(0) != 0 then err.statusCode.value
      else 500;
    var message :=
      if Text.Contains(err.message, UniqueFailure) then "Resource already exists"
      else if err.name == "TokenExpiredError" then "Token expired"
      else if err.name == "JsonWebTokenError" then "Invalid token"
      else if err.name == "ValidationError" then "Validation Error"
      else if err.message != [] then err.message
      else "Internal Server Error";
    var errors := if err.name == "ValidationError" then err.ownValues else err.errors.GetOr([]);
    ErrorResponse(status, ErrorBody(message,
                                   if |errors| > 0 then Some(errors) else None,
                                   if env == Development then err.stack else None))
  }

  /** `errorHandler`: starts from the error's own status, message and
      errors and lets each matching rule overwrite them in turn, so the
      last matching rule decides. */
  method HandleError(err: ApiError, env: string) returns (res: ErrorResponse)
    ensures res == Classify(err, env)
  {
    var statusCode := if err.statusCode.GetOr(0) != 0 then err.statusCode.value else 500;
    var message := if err.message != [] then err.message else "Internal Server Error";
    var errors := err.errors.GetOr([]);
    if err.name == "ValidationError" {
      statusCode, message := 400, "Validation Error";
      errors := err.ownValues;
    }
    if err.name == "JsonWebTokenError" {
      statusCode, message := 401, "Invalid token";
    }
    if err.name == "TokenExpiredError" {
      statusCode, message := 401, "Token expired";
    }
    if Text.Contains(err.message, UniqueFailure) {
      statusCode, message := 409, "Resource already exists";
    }
    res := ErrorResponse(statusCode, ErrorBody(message,
                                              if |errors| > 0 then Some(errors) else None,
                                              if env == Development then err.stack else None));
  }

  /** An error no rule matches keeps its own status and message, with the
      defaults for falsy values. */
  lemma UnmatchedKeepsOwnFields(err: ApiError, env: string)
    requires !Text.Contains(err.message, UniqueFailure)
    requires err.name !in {"ValidationError", "JsonWebTokenError", "TokenExpiredError"}
    ensures Classify(err, env).status == if err.statusCode.GetOr(0) != 0 then err.statusCode.value else 500
    ensures Classify(err, env).body.error == if err.message != [] then err.message else "Internal Server Error"
    ensures Classify(err, env).body.errors == if err.errors.GetOr([]) != [] then err.errors else None
  {
  }

  /** The UNIQUE rule overrides every name rule, but a validation error
      keeps its field list under the 409. */
  lemma UniqueOverridesNames(err: ApiError, env: string)
    requires Text.Contains(err.message, UniqueFailure)
    ensures Classify(err, env).status == 409 && Classify(err, env).body.error == "Resource already exists"
    ensures err.name == "ValidationError" && err.ownValues != [] ==> Classify(err, env).body.errors == Some(err.ownValues)
  {
  }

  /** The stack is exposed exactly in development, and only if the error
      has one. */
  lemma StackOnlyInDevelopment(err: ApiError, env: string)
    ensures Classify(err, env).body.stack.Some? <==> env == Development && err.stack.Some?
  {
  }

  /** A store insert refused by the UNIQUE constraint reaches the client as
      409 "Resource already exists". */
  lemma UniqueViolationIsConflict(column: string, name: string, stack: Option<string>, env: string)
    ensures var err := ApiError(name, Store.ErrorMessage(Store.UniqueViolation(column)), None, None, stack, []);
            Classify(err, env).status == 409
  {
    UniqueMessageNamesFailure(column);
  }

  /** The store's UNIQUE message holds "UNIQUE constraint failed". */
  lemma UniqueMessageNamesFailure(column: string)
    ensures Text.Contains(Store.ErrorMessage(Store.UniqueViolation(column)), UniqueFailure)
  {
    assert Store.ErrorMessage(Store.UniqueViolation(column)) == "SQLITE_CONSTRAINT: " + UniqueFailure + (": " + column);
    Text.ContainsInside("SQLITE_CONSTRAINT: ", UniqueFailure, ": " + column);
  }

  const NotFoundPrefix: string := "Not Found - "

  /** `notFound`: the error it passes on for the requested URL. */
  function NotFound(url: string, stack: Option<string>): (err: ApiError)
    ensures err.statusCode == Some(404) && err.message == NotFoundPrefix + url
  {
    ApiError("Error", NotFoundPrefix + url, Some(404), None, stack, [])
  }

  /** An unmatched URL answers 404 with its "Not Found" message, except
      that a URL containing "UNIQUE constraint failed" answers 409: the
      UNIQUE rule reads the message, which embeds the URL. */
  lemma NotFoundStatus(url: string, stack: Option<string>, env: string)
    ensures Classify(NotFound(url, stack), env).status == if Text.Contains(url, UniqueFailure) then 409 else 404
    ensures !Text.Contains(url, UniqueFailure) ==> Classify(NotFound(url, stack), env).body.error == NotFoundPrefix + url
  {
    Text.ContainsAfterPrefix(NotFoundPrefix, url, UniqueFailure);
  }
}
