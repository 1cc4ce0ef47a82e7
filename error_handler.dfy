/** lib/errorHandler.js: the classification of a thrown error into a status
    and a JSON body, and the helpers that build `ApiError`s. */
module ErrorHandler {
  import opened Http
  import opened Fields

  /** One entry of a validation error's `errors` object. */
  datatype FieldError = FieldError(path: string, message: string)

  /** A thrown value. `ApiError` is the system's own error class; `Raised` is
      any other error, described by the properties the handler inspects:
      `fieldErrors` is `Object.values(error.errors)`, `keyPattern` the keys of
      `error.keyPattern` in order, `keyValue` the key values already rendered. */
  datatype Thrown =
    | ApiError(message: string, statusCode: int, errors: Option<map<string, string>>)
    | Raised(
        name: string,
        message: string,
        code: Option<int>,
        fieldErrors: seq<FieldError>,
        keyPattern: seq<string>,
        keyValue: map<string, string>,
        stack: string)

  /** The (path, message) pairs of `Object.values(error.errors)`, in order. */
  function FieldPairs(errors: seq<FieldError>): seq<(string, string)>
  {
    seq(|errors|, i requires 0 <= i < |errors| => (errors[i].path, errors[i].message))
  }

  /** The field of a duplicate-key error: the first key of `keyPattern`
      (`undefined` when it has none, which renders as that word). */
  function DuplicateField(keyPattern: seq<string>): string {
    if |keyPattern| > 0 then keyPattern[0] else "undefined"
  }

  function DuplicateMessage(e: Thrown): string
    requires e.Raised?
  {
    var field := DuplicateField(e.keyPattern);
    var value := if field in e.keyValue then e.keyValue[field] else "undefined";
    "Duplicate value: " + value + " for field: " + field
  }

  /** `handleApiError(error)`, with `isDev` standing for
      `NODE_ENV === 'development'`. The kinds are tested in order and the
      first that matches decides. */
  function HandleApiError(e: Thrown, isDev: bool): (r: Response)
    ensures r.body.success == Some(false)
    ensures r.headers == NoHeaders
  {
    if e.ApiError? then
      Response(e.statusCode, Body(e.message, e.errors, None, Some(false)), NoHeaders)
    else if e.name == "ValidationError" then
      Response(400, Body("Validation failed", Some(Collect(FieldPairs(e.fieldErrors))), None, Some(false)), NoHeaders)
    else if e.code == Some(11000) then
      Response(409, Body(DuplicateMessage(e), None, None, Some(false)), NoHeaders)
    else
      Response(500, Body(if isDev then e.message else "Internal server error",
                         None, if isDev then Some(e.stack) else None, Some(false)), NoHeaders)
  }

  /** An `ApiError` keeps its own status and message; its field errors are
      reported only when it has some. */
  lemma ApiErrorResponse(e: Thrown, isDev: bool)
    requires e.ApiError?
    ensures HandleApiError(e, isDev).status == e.statusCode
    ensures HandleApiError(e, isDev).body == Body(e.message, e.errors, None, Some(false))
  {
  }

  /** A validation error is a 400 whose field map has exactly the sub-errors'
      paths, each with the message of the last sub-error on that path. */
  lemma ValidationErrorResponse(e: Thrown, isDev: bool)
    requires e.Raised? && e.name == "ValidationError"
    ensures var r := HandleApiError(e, isDev);
      && r.status == 400
      && r.body.error == "Validation failed"
      && r.body.validationErrors.Some?
      && r.body.validationErrors.value.Keys == (set i | 0 <= i < |e.fieldErrors| :: e.fieldErrors[i].path)
      && (forall i :: 0 <= i < |e.fieldErrors| && LastOnPath(FieldPairs(e.fieldErrors), i) ==>
            r.body.validationErrors.value[e.fieldErrors[i].path] == e.fieldErrors[i].message)
  {
    var pairs := FieldPairs(e.fieldErrors);
    var m := Collect(pairs);
    assert (set i | 0 <= i < |pairs| :: pairs[i].0) == (set i | 0 <= i < |e.fieldErrors| :: e.fieldErrors[i].path) by {
      forall i | 0 <= i < |e.fieldErrors| ensures pairs[i].0 == e.fieldErrors[i].path { }
    }
    forall i | 0 <= i < |e.fieldErrors| && LastOnPath(pairs, i)
      ensures m[e.fieldErrors[i].path] == e.fieldErrors[i].message
    {
      CollectLastWins(pairs, i);
    }
  }

  /** A duplicate-key error that is not a validation error is a 409 naming the
      first key of the pattern and its value. */
  lemma DuplicateKeyResponse(e: Thrown, isDev: bool, field: string, value: string)
    requires e.Raised? && e.name != "ValidationError" && e.code == Some(11000)
    requires |e.keyPattern| > 0 && e.keyPattern[0] == field
    requires field in e.keyValue && e.keyValue[field] == value
    ensures HandleApiError(e, isDev).status == 409
    ensures HandleApiError(e, isDev).body ==
      Body("Duplicate value: " + value + " for field: " + field, None, None, Some(false))
  {
  }

  /** Any other error is a 500 that shows its message and stack only in
      development. */
  lemma UnhandledErrorResponse(e: Thrown, isDev: bool)
    requires e.Raised? && e.name != "ValidationError" && e.code != Some(11000)
    ensures HandleApiError(e, isDev).status == 500
    ensures isDev ==> HandleApiError(e, isDev).body == Body(e.message, None, Some(e.stack), Some(false))
    ensures !isDev ==> HandleApiError(e, isDev).body == Body("Internal server error", None, None, Some(false))
  {
  }

  /** The name test comes before the code test: an error that is both a
      validation error and a duplicate-key error is answered as the former. */
  lemma ValidationBeatsDuplicateKey(e: Thrown, isDev: bool)
    requires e.Raised? && e.name == "ValidationError" && e.code == Some(11000)
    ensures HandleApiError(e, isDev).status == 400
  {
  }

  // ---------------------------------------------------------------------
  // Helpers

  /** `createNotFoundError(entity = 'Resource')`; the other helpers take an
      optional message with their own default. */
  function CreateNotFoundError(entity: Option<string>): Thrown
  {
    ApiError(entity.GetOr("Resource") + " not found", 404, None)
  }

  function CreateBadRequestError(message: Option<string>, errors: Option<map<string, string>>): Thrown
  {
    ApiError(message.GetOr("Bad request"), 400, errors)
  }

  function CreateUnauthorizedError(message: Option<string>): Thrown
  {
    ApiError(message.GetOr("Authentication required"), 401, None)
  }

  function CreateForbiddenError(message: Option<string>): Thrown
  {
    ApiError(message.GetOr("Access denied"), 403, None)
  }

  function CreateConflictError(message: Option<string>): Thrown
  {
    ApiError(message.GetOr("Resource conflict"), 409, None)
  }

  /** `createNotFoundError`, once handled: 404 and `<entity> not found`,
      `Resource not found` when no entity is named. */
  lemma NotFoundErrorResponse(isDev: bool, entity: Option<string>)
    ensures HandleApiError(CreateNotFoundError(entity), isDev) ==
      Response(404, Body(entity.GetOr("Resource") + " not found", None, None, Some(false)), NoHeaders)
    ensures HandleApiError(CreateNotFoundError(None), isDev).body.error == "Resource not found"
  {
  }

  /** `createBadRequestError`, once handled: 400, the message (`Bad request`
      by default) and the given field errors. */
  lemma BadRequestErrorResponse(isDev: bool, message: Option<string>, errors: Option<map<string, string>>)
    ensures HandleApiError(CreateBadRequestError(message, errors), isDev) ==
      Response(400, Body(message.GetOr("Bad request"), errors, None, Some(false)), NoHeaders)
  {
  }

  /** `createUnauthorizedError`, once handled: 401 and the message,
      `Authentication required` by default. */
  lemma UnauthorizedErrorResponse(isDev: bool, message: Option<string>)
    ensures HandleApiError(CreateUnauthorizedError(message), isDev) ==
      Response(401, Body(message.GetOr("Authentication required"), None, None, Some(false)), NoHeaders)
  {
  }

  /** `createForbiddenError`, once handled: 403 and the message,
      `Access denied` by default. */
  lemma ForbiddenErrorResponse(isDev: bool, message: Option<string>)
    ensures HandleApiError(CreateForbiddenError(message), isDev) ==
      Response(403, Body(message.GetOr("Access denied"), None, None, Some(false)), NoHeaders)
  {
  }

  /** `createConflictError`, once handled: 409 and the message,
      `Resource conflict` by default. */
  lemma ConflictErrorResponse(isDev: bool, message: Option<string>)
    ensures HandleApiError(CreateConflictError(message), isDev) ==
      Response(409, Body(message.GetOr("Resource conflict"), None, None, Some(false)), NoHeaders)
  {
  }
}
