/**
 * The exceptions that travel from the handlers to the global exception handler,
 * as values, and the three constructors of the service's `ValidationException`.
 */
module Exceptions {
  import opened Wrappers
  import opened Entities

  /** What a `DbUpdateException` wraps. */
  datatype InnerException =
    | NoInner
    | Sqlite(errorCode: int, message: string)
    | OtherInner(message: string)

  /**
   * One constructor per exception type the service distinguishes. `ArgumentNull` is a
   * subtype of `Argument` in .NET; `IsArgumentException` says which values an
   * `ArgumentException` pattern matches.
   */
  datatype Exception =
    | NotFound(message: string)
    | Validation(errors: Option<ErrorMap>)
    | BadRequest(message: string)
    | DbUpdate(message: string, inner: InnerException)
    | UnauthorizedAccess(message: string)
    | ArgumentNull(paramName: Option<string>)
    | Argument(baseMessage: string, paramName: Option<string>)
    | NotImplemented
    | Other(message: string)

  predicate IsArgumentException(e: Exception) {
    e.ArgumentNull? || e.Argument?
  }

  const ValidationFailureMessage := "One or more validation failures have occurred."

  /** The " (Parameter 'name')" suffix .NET appends to an argument exception's message. */
  function ParameterSuffix(paramName: Option<string>): string {
    if paramName.None? || paramName.value == "" then "" else " (Parameter '" + paramName.value + "')"
  }

  /** `Exception.Message`. */
  function Message(e: Exception): string {
    match e
    case NotFound(m) => m
    case Validation(_) => ValidationFailureMessage
    case BadRequest(m) => m
    case DbUpdate(m, _) => m
    case UnauthorizedAccess(m) => m
    case ArgumentNull(p) => "Value cannot be null." + ParameterSuffix(p)
    case Argument(m, p) => m + ParameterSuffix(p)
    case NotImplemented => "The method or operation is not implemented."
    case Other(m) => m
  }

  /** `new ValidationException()`: the fixed message and an empty error map. */
  function NewValidationException(): (e: Exception)
    ensures e.Validation? && Message(e) == ValidationFailureMessage
    ensures e.errors.Some? && |e.errors.value| == 0
  {
    Validation(Some(map[]))
  }

  /** `new ValidationException(errors)`: the fixed message and the given map (possibly null). */
  function ValidationExceptionOf(errors: Option<ErrorMap>): (e: Exception)
    ensures e.Validation? && Message(e) == ValidationFailureMessage
    ensures e.errors == errors
  {
    Validation(errors)
  }

  /**
   * `new ValidationException(field, error)`: the fixed message and a map with the single
   * key `field` bound to `[error]`. A null `field` makes the dictionary insertion throw.
   */
  function ValidationExceptionFor(field: Option<string>, error: string): (r: Result<Exception, Exception>)
    ensures field.None? ==> r == Err(ArgumentNull(Some("key")))
    ensures field.Some? ==> r.Ok? && r.value.Validation? && Message(r.value) == ValidationFailureMessage
    ensures field.Some? ==> r.value.errors.Some?
                            && r.value.errors.value.Keys == {field.value}
                            && r.value.errors.value[field.value] == [error]
  {
    match field
    case None => Err(ArgumentNull(Some("key")))
    case Some(f) =>
      var e := NewValidationException();
      Ok(Validation(Some(e.errors.value[f := [error]])))
  }
}
