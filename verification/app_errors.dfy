/**
 * The VTN's error type: how library errors become `AppError`s, and how an
 * `AppError` becomes an RFC 7807 problem-details response.
 */
module AppErrors {
  import opened Wrappers
  import Identifiers

  /** The parts of a database error the classification inspects. */
  datatype DatabaseError = DatabaseError(uniqueViolation: bool, foreignKeyViolation: bool, message: string)

  /** `sqlx::Error`, reduced to the cases the classification tells apart. */
  datatype SqlxError = RowNotFound | Database(db: DatabaseError) | OtherSqlx(message: string)

  /** Rejections of a JSON or form body, each with its display text. */
  datatype JsonRejection = MissingJsonContentType(text: string) | OtherJsonRejection(text: string)
  datatype FormRejection = InvalidFormContentType(text: string) | OtherFormRejection(text: string)

  /** Every error a handler can fail with; payloads that are library errors keep only their display text. */
  datatype AppError =
    | Validation(message: string)
    | Json(json: JsonRejection)
    | Form(form: FormRejection)
    | QueryParams(message: string)
    | NotFound
    | BadRequest(message: string)
    | Forbidden(message: string)
    | NotImplemented(message: string)
    | Conflict(message: string, db: Option<DatabaseError>)
    | ForeignKeyConstraintViolated(message: string, db: Option<DatabaseError>)
    | Auth(message: string)
    | Sql(sql: SqlxError)
    | SerdeJsonInternalServerError(message: string)
    | SerdeJsonBadRequest(message: string)
    | Identifier(identifier: Identifiers.IdentifierError)
    | MethodNotAllowed
    | PasswordHashError(message: string)
    | UnsupportedMediaType(message: string)

  /** `From<sqlx::Error>`: a uniqueness violation is recognised before a foreign-key one. */
  function FromSqlx(e: SqlxError): (r: AppError)
    ensures r.NotFound? <==> e.RowNotFound?
    ensures r.Conflict? <==> e.Database? && e.db.uniqueViolation
    ensures r.ForeignKeyConstraintViolated? <==> e.Database? && !e.db.uniqueViolation && e.db.foreignKeyViolation
    ensures r.Sql? <==> e.OtherSqlx? || (e.Database? && !e.db.uniqueViolation && !e.db.foreignKeyViolation)
    ensures r.Conflict? ==> r == Conflict("Conflict", Some(e.db))
    ensures r.ForeignKeyConstraintViolated? ==> r == ForeignKeyConstraintViolated("A foreign key constraint is violated", Some(e.db))
    ensures r.Sql? ==> r.sql == e
  {
    match e
    case RowNotFound => NotFound
    case Database(db) =>
      if db.uniqueViolation then Conflict("Conflict", Some(db))
      else if db.foreignKeyViolation then ForeignKeyConstraintViolated("A foreign key constraint is violated", Some(db))
      else Sql(e)
    case OtherSqlx(_) => Sql(e)
  }

  /** `From<JsonRejection>`: only a missing content type is singled out. */
  function FromJsonRejection(j: JsonRejection): (r: AppError)
    ensures r.UnsupportedMediaType? <==> j.MissingJsonContentType?
    ensures r.UnsupportedMediaType? ==> r.message == j.text
    ensures !r.UnsupportedMediaType? ==> r == Json(j)
  {
    match j
    case MissingJsonContentType(text) => UnsupportedMediaType(text)
    case OtherJsonRejection(_) => Json(j)
  }

  /** `From<FormRejection>`: only a wrong content type is singled out. */
  function FromFormRejection(f: FormRejection): (r: AppError)
    ensures r.UnsupportedMediaType? <==> f.InvalidFormContentType?
    ensures r.UnsupportedMediaType? ==> r.message == f.text
    ensures !r.UnsupportedMediaType? ==> r == Form(f)
  {
    match f
    case InvalidFormContentType(text) => UnsupportedMediaType(text)
    case OtherFormRejection(_) => Form(f)
  }

  /** `ProblemUri::default()`: the "about:blank" type of section 4.2 of RFC 7807. */
  const DefaultProblemUri: string := "about:blank"

  const DatabaseErrorDetail: string := "A database error occurred"
  const InternalErrorDetail: string := "An internal error occurred"
  const AllowHeadersDetail: string := "See allow headers for allowed methods"

  /** The canonical text of the status codes the VTN uses, as `StatusCode`'s `Display` renders it. */
  function StatusTitle(status: int): string
  {
    match status
    case 400 => "400 Bad Request"
    case 401 => "401 Unauthorized"
    case 403 => "403 Forbidden"
    case 404 => "404 Not Found"
    case 405 => "405 Method Not Allowed"
    case 409 => "409 Conflict"
    case 415 => "415 Unsupported Media Type"
    case 500 => "500 Internal Server Error"
    case 501 => "501 Not Implemented"
    case _ => ""
  }

  /** An RFC 7807 problem-details object. */
  datatype Problem = Problem(problemType: string, title: Option<string>, status: int, detail: Option<string>, instance: Option<string>)

  function MakeProblem(status: int, detail: Option<string>, reference: string): Problem
  {
    Problem(DefaultProblemUri, Some(StatusTitle(status)), status, detail, Some(reference))
  }

  /** The errors that are the server's fault. */
  predicate ServerFault(e: AppError)
  {
    e.Sql? || e.SerdeJsonInternalServerError? || e.PasswordHashError?
  }

  /** The errors reported as a plain bad request. */
  predicate PlainBadRequest(e: AppError)
  {
    || e.Validation? || e.Json? || e.Form? || e.QueryParams? || e.BadRequest?
    || e.SerdeJsonBadRequest? || e.Identifier? || e.ForeignKeyConstraintViolated?
  }

  /** The status `into_problem` gives each kind of error. */
  function StatusOf(e: AppError): (s: int)
    ensures s == 400 <==> PlainBadRequest(e)
    ensures s == 401 <==> e.Auth?
    ensures s == 403 <==> e.Forbidden?
    ensures s == 404 <==> e.NotFound?
    ensures s == 405 <==> e.MethodNotAllowed?
    ensures s == 409 <==> e.Conflict?
    ensures s == 415 <==> e.UnsupportedMediaType?
    ensures s == 500 <==> ServerFault(e)
    ensures s == 501 <==> e.NotImplemented?
  {
    match e
    case Validation(_) => 400
    case Json(_) => 400
    case Form(_) => 400
    case QueryParams(_) => 400
    case NotFound => 404
    case BadRequest(_) => 400
    case Forbidden(_) => 403
    case NotImplemented(_) => 501
    case Conflict(_, _) => 409
    case Auth(_) => 401
    case Sql(_) => 500
    case SerdeJsonInternalServerError(_) => 500
    case SerdeJsonBadRequest(_) => 400
    case Identifier(_) => 400
    case ForeignKeyConstraintViolated(_, _) => 400
    case MethodNotAllowed => 405
    case PasswordHashError(_) => 500
    case UnsupportedMediaType(_) => 415
  }

  /** The errors whose detail is their own message. */
  predicate DetailIsMessage(e: AppError)
  {
    || e.Validation? || e.QueryParams? || e.BadRequest? || e.Forbidden? || e.NotImplemented? || e.Auth?
    || e.Conflict? || e.ForeignKeyConstraintViolated? || e.SerdeJsonBadRequest? || e.UnsupportedMediaType?
  }

  /**
   * The detail `into_problem` gives each kind of error: the message of a
   * client error, and a fixed text (or nothing) in place of a server fault's
   * internals.
   */
  function DetailOf(e: AppError): (d: Option<string>)
    ensures d.None? <==> e.NotFound? || e.SerdeJsonInternalServerError?
    ensures e.Sql? ==> d == Some(DatabaseErrorDetail)
    ensures e.PasswordHashError? ==> d == Some(InternalErrorDetail)
    ensures e.MethodNotAllowed? ==> d == Some(AllowHeadersDetail)
    ensures e.Identifier? ==> d == Some(Identifiers.Message(e.identifier))
    ensures e.Json? ==> d == Some(e.json.text)
    ensures e.Form? ==> d == Some(e.form.text)
    ensures DetailIsMessage(e) ==> d == Some(e.message)
  {
    match e
    case Json(j) => Some(j.text)
    case Form(f) => Some(f.text)
    case NotFound => None
    case Sql(_) => Some(DatabaseErrorDetail)
    case SerdeJsonInternalServerError(_) => None
    case Identifier(ie) => Some(Identifiers.Message(ie))
    case MethodNotAllowed => Some(AllowHeadersDetail)
    case PasswordHashError(_) => Some(InternalErrorDetail)
    case _ => Some(e.message)
  }

  /**
   * `into_problem`: the status for each kind of error, the status text as
   * title, the fresh `reference` as instance, and the detail chosen above.
   */
  function IntoProblem(e: AppError, reference: string): (p: Problem)
    ensures p.problemType == DefaultProblemUri && p.instance == Some(reference)
    ensures p.title == Some(StatusTitle(p.status))
    ensures p.status == StatusOf(e) && p.detail == DetailOf(e)
  {
    MakeProblem(StatusOf(e), DetailOf(e), reference)
  }

  /** An HTTP response carrying a problem as its JSON body. */
  datatype ProblemResponse = ProblemResponse(status: int, body: Problem)

  /** `into_response`: the response status is the problem's status. */
  function IntoResponse(e: AppError, reference: string): (r: ProblemResponse)
    ensures r.status == r.body.status
    ensures r.body == IntoProblem(e, reference)
  {
    var p := IntoProblem(e, reference);
    ProblemResponse(p.status, p)
  }

  /**
   * Every error maps to one of the nine statuses, and the statuses split the
   * errors into disjoint classes: client errors are 4xx, server faults and
   * missing features 5xx.
   */
  lemma StatusClasses(e: AppError, reference: string)
    ensures var s := IntoProblem(e, reference).status;
      s in {400, 401, 403, 404, 405, 409, 415, 500, 501}
    ensures IntoProblem(e, reference).status >= 500 <==> ServerFault(e) || e.NotImplemented?
  {
  }

  /** A database error that is both a uniqueness and a foreign-key violation counts as a conflict. */
  lemma UniqueBeforeForeignKey(db: DatabaseError)
    requires db.uniqueViolation && db.foreignKeyViolation
    ensures FromSqlx(Database(db)).Conflict?
    ensures IntoProblem(FromSqlx(Database(db)), "").status == 409
  {
  }

  /** A database error surfaces as 404, 409, 400 or a 500 that hides its message. */
  lemma SqlxStatuses(e: SqlxError, reference: string)
    ensures var p := IntoProblem(FromSqlx(e), reference);
      && (p.status == 404 <==> e.RowNotFound?)
      && (p.status == 500 ==> p.detail == Some(DatabaseErrorDetail))
      && p.status in {400, 404, 409, 500}
  {
  }
}
