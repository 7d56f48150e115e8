/**
 * The global exception handler: it turns any exception that escaped a controller into
 * the uniform error envelope and writes the envelope's status code. The arms are tried
 * in order, so `ArgumentNull`, a kind of argument exception, never reaches the general
 * argument arm. Stack traces are an input (`stackTrace`); the environment is `isDevelopment`.
 */
module ExceptionHandling {
  import opened Wrappers
  import opened Text
  import opened Entities
  import opened Exceptions
  import opened Requests
  import opened Handlers

  const AccessDeniedMessage := "Access denied. You do not have permission to perform this action."
  const UnexpectedErrorMessage := "An unexpected error occurred. Please try again later."
  const DatabaseProcessingMessage := "A database error occurred while processing your request."
  const DatabaseSavingMessage := "A database error occurred while saving your changes."

  const ForeignKeyMessage := "One or more referenced items do not exist. Please verify that all related data (colours, product types, etc.) exist before creating this record."
  const UniqueMessage := "A record with this information already exists. Please use unique values."
  const NotNullMessage := "Required field is missing. Please provide all required information."
  const ConstraintFallbackMessage := "Data validation failed. Please check your input and try again."

  /** SQLite's primary result code for a constraint violation. */
  const SqliteConstraint := 19

  /** A null string interpolates as the empty string. */
  function Interpolated(s: Option<string>): string {
    if s.Some? then s.value else ""
  }

  /** A development-only detail. */
  function DevOnly(isDevelopment: bool, detail: Option<string>): (r: Option<string>)
    ensures !isDevelopment ==> r.None?
    ensures isDevelopment ==> r == detail
  {
    if isDevelopment then detail else None
  }

  /**
   * The friendly text for a SQLite constraint message, chosen by case-insensitive search
   * with priority FOREIGN KEY, then UNIQUE, then NOT NULL, then a generic fallback.
   */
  function ParseSqliteConstraintError(errorMessage: string): (r: string)
    ensures r == ForeignKeyMessage <==> ContainsIgnoreCase(errorMessage, "FOREIGN KEY constraint failed")
    ensures r == UniqueMessage <==>
              !ContainsIgnoreCase(errorMessage, "FOREIGN KEY constraint failed")
              && ContainsIgnoreCase(errorMessage, "UNIQUE constraint failed")
    ensures r == NotNullMessage <==>
              !ContainsIgnoreCase(errorMessage, "FOREIGN KEY constraint failed")
              && !ContainsIgnoreCase(errorMessage, "UNIQUE constraint failed")
              && ContainsIgnoreCase(errorMessage, "NOT NULL constraint failed")
    ensures r in {ForeignKeyMessage, UniqueMessage, NotNullMessage, ConstraintFallbackMessage}
  {
    if ContainsIgnoreCase(errorMessage, "FOREIGN KEY constraint failed") then ForeignKeyMessage
    else if ContainsIgnoreCase(errorMessage, "UNIQUE constraint failed") then UniqueMessage
    else if ContainsIgnoreCase(errorMessage, "NOT NULL constraint failed") then NotNullMessage
    else ConstraintFallbackMessage
  }

  /** The classification ignores the case of the message. */
  lemma ClassificationIgnoresCase(errorMessage: string)
    ensures ParseSqliteConstraintError(UpperAscii(errorMessage)) == ParseSqliteConstraintError(errorMessage)
  {
    ContainsIgnoreCaseOfUpper(errorMessage, "FOREIGN KEY constraint failed");
    ContainsIgnoreCaseOfUpper(errorMessage, "UNIQUE constraint failed");
    ContainsIgnoreCaseOfUpper(errorMessage, "NOT NULL constraint failed");
  }

  /** A message naming the foreign-key constraint anywhere is classified as such, whatever
      else it names. */
  lemma ForeignKeyWins(errorMessage: string, k: int)
    requires MatchesAt(errorMessage, "FOREIGN KEY constraint failed", k)
    ensures ParseSqliteConstraintError(errorMessage) == ForeignKeyMessage
  {
    ContainsIgnoreCaseIff(errorMessage, "FOREIGN KEY constraint failed");
  }

  /** The envelope for a `DbUpdateException`, decided by its inner exception. */
  function HandleDatabaseException(message: string, inner: InnerException, isDevelopment: bool): (r: ErrorResponse)
    ensures inner.Sqlite? && inner.errorCode == SqliteConstraint ==>
              r.statusCode == 400 && r.message == ParseSqliteConstraintError(inner.message)
    ensures inner.Sqlite? && inner.errorCode != SqliteConstraint ==>
              r.statusCode == 500 && r.message == DatabaseProcessingMessage
    ensures !inner.Sqlite? ==>
              r.statusCode == 500 && r.message == DatabaseSavingMessage && r.details == DevOnly(isDevelopment, Some(message))
    ensures inner.Sqlite? ==> r.details == DevOnly(isDevelopment, Some(inner.message))
    ensures r.errors.None?
  {
    match inner
    case Sqlite(code, sqliteMessage) =>
      if code == SqliteConstraint then
        ErrorResponse(ParseSqliteConstraintError(sqliteMessage), 400, DevOnly(isDevelopment, Some(sqliteMessage)), None)
      else
        ErrorResponse(DatabaseProcessingMessage, 500, DevOnly(isDevelopment, Some(sqliteMessage)), None)
    case _ =>
      ErrorResponse(DatabaseSavingMessage, 500, DevOnly(isDevelopment, Some(message)), None)
  }

  /** The envelope for any exception: the status, message and details of its arm. */
  function CreateErrorResponse(e: Exception, stackTrace: Option<string>, isDevelopment: bool): (r: ErrorResponse)
    ensures r.statusCode in {400, 401, 404, 500}
    ensures !isDevelopment ==> r.details.None?
    ensures r.errors.Some? ==> e.Validation?
    ensures e.Validation? ==> r.errors == e.errors && r.statusCode == 400 && r.message == ValidationFailureMessage
    ensures e.NotFound? ==> r.statusCode == 404 && r.message == e.message
    ensures e.BadRequest? ==> r.statusCode == 400 && r.message == e.message
    ensures e.UnauthorizedAccess? ==> r.statusCode == 401 && r.message == AccessDeniedMessage && r.details.None?
    ensures e.ArgumentNull? ==> r.statusCode == 400 && r.message == "Required parameter is missing: " + Interpolated(e.paramName)
                                && r.details == DevOnly(isDevelopment, Some(Message(e)))
    ensures e.Argument? ==> r.statusCode == 400 && r.message == Message(e)
    ensures e.NotImplemented? || e.Other? ==>
              r.statusCode == 500 && r.message == UnexpectedErrorMessage
              && r.details == DevOnly(isDevelopment, Some(Message(e) + "\n" + Interpolated(stackTrace)))
    ensures e.NotFound? || e.Validation? || e.BadRequest? || e.Argument? ==> r.details == DevOnly(isDevelopment, stackTrace)
    ensures e.DbUpdate? ==> r == HandleDatabaseException(e.message, e.inner, isDevelopment)
    ensures r.statusCode == 401 <==> e.UnauthorizedAccess?
    ensures r.statusCode == 404 <==> e.NotFound?
  {
    match e
    case NotFound(m) => ErrorResponse(m, 404, DevOnly(isDevelopment, stackTrace), None)
    case Validation(errors) => ErrorResponse(Message(e), 400, DevOnly(isDevelopment, stackTrace), errors)
    case BadRequest(m) => ErrorResponse(m, 400, DevOnly(isDevelopment, stackTrace), None)
    case DbUpdate(m, inner) => HandleDatabaseException(m, inner, isDevelopment)
    case UnauthorizedAccess(_) => ErrorResponse(AccessDeniedMessage, 401, None, None)
    case ArgumentNull(p) =>
      ErrorResponse("Required parameter is missing: " + Interpolated(p), 400, DevOnly(isDevelopment, Some(Message(e))), None)
    case Argument(_, _) => ErrorResponse(Message(e), 400, DevOnly(isDevelopment, stackTrace), None)
    case _ =>
      ErrorResponse(UnexpectedErrorMessage, 500, DevOnly(isDevelopment, Some(Message(e) + "\n" + Interpolated(stackTrace))), None)
  }

  /** What `TryHandleAsync` does: the status it writes, the body, and its answer. */
  datatype Handling = Handling(handled: bool, writtenStatus: int, body: ErrorResponse)

  function TryHandle(e: Exception, stackTrace: Option<string>, isDevelopment: bool): (r: Handling)
    ensures r.handled
    ensures r.writtenStatus == r.body.statusCode && r.writtenStatus in {400, 401, 404, 500}
    ensures r.body == CreateErrorResponse(e, stackTrace, isDevelopment)
  {
    var body := CreateErrorResponse(e, stackTrace, isDevelopment);
    Handling(true, body.statusCode, body)
  }

  // ---------------------------------------------------------------------------
  // What clients see for the handlers' own failures

  /** Every rejection of the product guard chain reaches the client as a 400, with the
      guard's message (or the missing-parameter text for a null request). */
  lemma ProductGuardFailuresAre400(request: Option<ProductRequest>, colours: seq<Colour>, productTypes: seq<ProductType>,
                                   stackTrace: Option<string>, isDevelopment: bool)
    requires ProductGuard(request, colours, productTypes).Some?
    ensures var e := ProductGuard(request, colours, productTypes).value;
            var r := CreateErrorResponse(e, stackTrace, isDevelopment);
            && r.statusCode == 400
            && r.errors.None?
            && (request.None? ==> r.message == "Required parameter is missing: request")
            && (request.Some? ==> e.BadRequest? && r.message == e.message)
  {
  }

  /** A blank colour name reaches the client as a 400 whose message names the field. */
  lemma BlankColourNameIs400(stackTrace: Option<string>, isDevelopment: bool)
    ensures CreateErrorResponse(Argument(ColourNameRequiredMessage, Some("ColourName")), stackTrace, isDevelopment).statusCode == 400
    ensures CreateErrorResponse(Argument(ColourNameRequiredMessage, Some("ColourName")), stackTrace, isDevelopment).message
            == ColourNameRequiredMessage + " (Parameter 'ColourName')"
  {
    var e := Argument(ColourNameRequiredMessage, Some("ColourName"));
    assert CreateErrorResponse(e, stackTrace, isDevelopment).message == Message(e);
    assert Message(e) == ColourNameRequiredMessage + ParameterSuffix(Some("ColourName"));
    assert ParameterSuffix(Some("ColourName")) == " (Parameter 'ColourName')";
  }

  /** A blank product type name reaches the client as a 400 whose message names the field. */
  lemma BlankProductTypeNameIs400(stackTrace: Option<string>, isDevelopment: bool)
    ensures CreateErrorResponse(Argument(ProductTypeNameRequiredMessage, Some("ProductTypeName")), stackTrace, isDevelopment).statusCode == 400
    ensures CreateErrorResponse(Argument(ProductTypeNameRequiredMessage, Some("ProductTypeName")), stackTrace, isDevelopment).message
            == ProductTypeNameRequiredMessage + " (Parameter 'ProductTypeName')"
  {
    var e := Argument(ProductTypeNameRequiredMessage, Some("ProductTypeName"));
    assert CreateErrorResponse(e, stackTrace, isDevelopment).message == Message(e);
    assert Message(e) == ProductTypeNameRequiredMessage + ParameterSuffix(Some("ProductTypeName"));
    assert ParameterSuffix(Some("ProductTypeName")) == " (Parameter 'ProductTypeName')";
  }

  /** A not-implemented operation falls through to the generic 500 arm; only development
      sees its message and the trace. */
  lemma NotImplementedIs500(stackTrace: Option<string>, isDevelopment: bool)
    ensures CreateErrorResponse(NotImplemented, stackTrace, isDevelopment).statusCode == 500
    ensures CreateErrorResponse(NotImplemented, stackTrace, isDevelopment).message == UnexpectedErrorMessage
    ensures isDevelopment ==> CreateErrorResponse(NotImplemented, stackTrace, isDevelopment).details
                              == Some("The method or operation is not implemented.\n" + Interpolated(stackTrace))
    ensures !isDevelopment ==> CreateErrorResponse(NotImplemented, stackTrace, isDevelopment).details.None?
  {
    assert Message(NotImplemented) + "\n" == "The method or operation is not implemented.\n";
  }
}
