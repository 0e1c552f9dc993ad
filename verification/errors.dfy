/**
 The failures the client can raise: the library's own exception classes
 (client_1c_timesheet/api.py and models.py) and the Python built-in exceptions
 that escape them on malformed input.
 */
module Errors {
  import opened JsonValue

  /** `APIErrorResponse(code, message)`: the decoded `odata.error` envelope. Both
      fields hold whatever JSON the server sent. */
  datatype ErrorResponse = ErrorResponse(code: Json, message: Json)

  /** Why an `APIResponseParseException` was raised. */
  datatype ParseFailure =
    | InvalidJson(text: string)   // the body is not JSON at all
    | MissingMessage              // no `message` / `message.value` in `odata.error`
    | MissingCode                 // no `code` in `odata.error`

  /** Python built-in exceptions that the code lets escape unlabelled. `NameError`
      is what a reference to a name the module never defines raises. */
  datatype Builtin = KeyError | TypeError | AttributeError | ValueError | NameError

  datatype Error =
    | ObjectParse(key: string)                           // ObjectParseException
    | ResponseParse(reason: ParseFailure)                // APIResponseParseException
    | ServerError(status: int, response: ErrorResponse)  // APIServerException
    | NotFound(status: int, response: ErrorResponse)     // APIServer404
    | Untyped(builtin: Builtin)                          // not a Client1CException

  /** A call either returns a value or raises. */
  datatype Result<+T> = Ok(value: T) | Err(error: Error) {
    predicate IsFailure() { Err? }

    function PropagateFailure<U>(): Result<U>
      requires Err?
    {
      Err(error)
    }

    function Extract(): T
      requires Ok?
    {
      value
    }
  }

  /** The library's exception classes. */
  datatype ExceptionClass =
    | Client1CException
    | ObjectParseException
    | APIException
    | APIResponseParseException
    | APIServerException
    | APIServer404

  /** The class a failure is raised as; built-in exceptions are outside the hierarchy. */
  function ClassOf(e: Error): Option<ExceptionClass>
  {
    match e
    case ObjectParse(_) => Some(ObjectParseException)
    case ResponseParse(_) => Some(APIResponseParseException)
    case ServerError(_, _) => Some(APIServerException)
    case NotFound(_, _) => Some(APIServer404)
    case Untyped(_) => None
  }

  /** Every class a class derives from, itself included. */
  function Bases(c: ExceptionClass): (r: set<ExceptionClass>)
    ensures c in r && Client1CException in r
  {
    match c
    case Client1CException => {Client1CException}
    case ObjectParseException => {ObjectParseException, Client1CException}
    case APIException => {APIException, Client1CException}
    case APIResponseParseException => {APIResponseParseException, APIException, Client1CException}
    case APIServerException => {APIServerException, APIException, Client1CException}
    case APIServer404 => {APIServer404, APIServerException, APIException, Client1CException}
  }

  /** `isinstance(e, c)`: what an `except c:` clause catches. */
  predicate IsInstance(e: Error, c: ExceptionClass)
  {
    ClassOf(e).Some? && c in Bases(ClassOf(e).value)
  }

  /** An `except APIServerException` handler catches exactly the server-reported
      failures, 404 included; only a 404 is an `APIServer404`. */
  lemma ServerExceptionHierarchy(e: Error)
    ensures IsInstance(e, APIServerException) <==> e.ServerError? || e.NotFound?
    ensures IsInstance(e, APIServer404) <==> e.NotFound?
    ensures IsInstance(e, Client1CException) <==> !e.Untyped?
  {
  }
}
