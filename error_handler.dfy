/** The server's last-resort error middleware: turn any error reaching it
    into one HTTP status and JSON body. */
module ErrorHandler {
  import opened Common

  /** The properties of a thrown error the handler looks at. `code`, `detail`,
      `status` and `statusCode` are absent when the error has no such
      property; `isSyntaxError` is `err instanceof SyntaxError` and
      `hasBody` is `'body' in err`. */
  datatype Error = Error(
    name: string,
    message: string,
    code: Option<string>,
    detail: Option<string>,
    data: JsValue,
    isSyntaxError: bool,
    status: Option<int>,
    hasBody: bool,
    statusCode: Option<int>,
    stack: string)

  /** The JSON body: `message` always, the other keys only when present. */
  datatype Body = Body(message: string, errors: Option<JsValue>, error: Option<string>, stack: Option<string>)

  datatype Response = Response(status: int, body: Body)

  /** Which branch of the handler an error takes, in the order they are tried. */
  datatype Kind = Validation | Database | NotFound | UniqueViolation | Auth | MalformedJson | Other

  const UniqueViolationCode := "23505"

  function KindOf(err: Error): Kind {
    if err.name == "ValidationError" then Validation
    else if err.name == "DBError" then Database
    else if err.name == "NotFoundError" then NotFound
    else if err.code == Some(UniqueViolationCode) then UniqueViolation
    else if err.name == "UnauthorizedError" || err.name == "JsonWebTokenError" then Auth
    else if err.isSyntaxError && err.status == Some(400) && err.hasBody then MalformedJson
    else Other
  }

  /** `err.statusCode || 500`. */
  function FallbackStatus(err: Error): int {
    if err.statusCode.Some? && err.statusCode.value != 0 then err.statusCode.value else 500
  }

  /** `errorHandler`; `production` says whether `NODE_ENV` is 'production'. */
  function HandleError(err: Error, production: bool): (r: Response)
    ensures KindOf(err) == Validation ==>
              r == Response(400, Body("Validation error", Some(err.data), None, None))
    ensures KindOf(err) == Database ==> r.status == 400 && r.body.error == Some(err.message)
    ensures KindOf(err) == NotFound ==> r.status == 404 && r.body.error == Some(err.message)
    ensures KindOf(err) == UniqueViolation ==>
              && r.status == 409
              && r.body.error == Some(if err.detail.Some? && err.detail.value != "" then err.detail.value else err.message)
    ensures KindOf(err) == Auth ==> r.status == 401
    ensures KindOf(err) == MalformedJson ==> r == Response(400, Body("Invalid request body", None, Some("Malformed JSON"), None))
    ensures KindOf(err) == Other ==> r.status == FallbackStatus(err)
    ensures r.body.stack.Some? <==> KindOf(err) == Other && !production && r.status == 500
    ensures r.body.errors.Some? <==> KindOf(err) == Validation
  {
    match KindOf(err)
    case Validation => Response(400, Body("Validation error", Some(err.data), None, None))
    case Database => Response(400, Body("Database error", None, Some(err.message), None))
    case NotFound => Response(404, Body("Resource not found", None, Some(err.message), None))
    case UniqueViolation =>
      Response(409, Body("Conflict with existing data", None,
                         Some(if err.detail.Some? && err.detail.value != "" then err.detail.value else err.message), None))
    case Auth => Response(401, Body("Authentication error", None, Some(err.message), None))
    case MalformedJson => Response(400, Body("Invalid request body", None, Some("Malformed JSON"), None))
    case Other =>
      var statusCode := FallbackStatus(err);
      var message := if production && statusCode == 500 then "Internal server error" else err.message;
      Response(statusCode, Body(message, None, None, if !production && statusCode == 500 then Some(err.stack) else None))
  }

  /** In production a 500 from the default branch shows neither the error's
      message nor its stack. */
  lemma ProductionHidesInternals(err: Error)
    requires KindOf(err) == Other && FallbackStatus(err) == 500
    ensures HandleError(err, true).body == Body("Internal server error", None, None, None)
  {
  }

  /** The name checks come first: a validation error that also carries the
      unique-violation code is still a 400. */
  lemma NameBeatsCode(err: Error)
    requires err.name == "ValidationError" && err.code == Some(UniqueViolationCode)
    ensures HandleError(err, false).status == 400
  {
  }

  /** An error without a status code, or with status code 0, is a 500. */
  lemma DefaultIsServerError(err: Error, production: bool)
    requires KindOf(err) == Other && (err.statusCode.None? || err.statusCode == Some(0))
    ensures HandleError(err, production).status == 500
  {
  }

  /** The handler answers with one of its fixed statuses or with the error's
      own non-zero status code. */
  lemma StatusComesFromError(err: Error, production: bool)
    ensures var s := HandleError(err, production).status;
            s in {400, 401, 404, 409, 500} || (err.statusCode.Some? && s == err.statusCode.value)
  {
  }
}
