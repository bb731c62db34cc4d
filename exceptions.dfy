/** The domain exceptions: a common shape (message, code, HTTP status,
    optional cause) and the tables that classify Firestore and Postgres
    error codes. */
module Exceptions {
  import opened Wrappers
  import Text

  /** The ErrorCode values the exceptions use. */
  datatype ErrorCode = BadMessage | RepositoryError | PubSubError

  /** The StatusCode values the exceptions use. */
  datatype StatusCode = Ok | BadRequest | NotFound | RequestTimeout | Conflict | InternalError | ServiceUnavailable

  /** The HTTP status each StatusCode stands for. */
  function HttpStatus(s: StatusCode): int {
    match s
    case Ok => 200
    case BadRequest => 400
    case NotFound => 404
    case RequestTimeout => 408
    case Conflict => 409
    case InternalError => 500
    case ServiceUnavailable => 503
  }

  datatype Exception = Exception(
    isError: bool,
    message: string,
    code: ErrorCode,
    statusCode: StatusCode,
    cause: Option<string>)

  /** The base constructor: `isError` is always set, and an absent or empty
      cause is stored as null (`cause || null`). */
  function NewException(message: string, code: ErrorCode, statusCode: StatusCode, cause: Option<string>): (e: Exception)
    ensures e.isError
    ensures e.message == message && e.code == code && e.statusCode == statusCode
    ensures e.cause.None? <==> (cause.None? || cause == Some(""))
    ensures e.cause.Some? ==> e.cause == cause
  {
    var c := if cause == Some("") then None else cause;
    Exception(true, message, code, statusCode, c)
  }

  /** BadMessageException(cause, message): note the argument order, which is
      the reverse of the base constructor's. */
  function BadMessageException(cause: string, message: string): (e: Exception)
    ensures e.isError && e.code == BadMessage && e.statusCode == BadRequest
    ensures e.message == message
    ensures cause != "" ==> e.cause == Some(cause)
    ensures cause == "" ==> e.cause.None?
  {
    NewException(message, BadMessage, BadRequest, Some(cause))
  }

  const MENSAJE_REPOSITORIO: string := "Ocurrió un error al momento de guardar la guía"

  /** RepositoryException: a fixed message, no cause. */
  function RepositoryException(): (e: Exception)
    ensures e.isError && e.code == RepositoryError && e.statusCode == InternalError
    ensures e.message == MENSAJE_REPOSITORIO && e.cause.None?
  {
    NewException(MENSAJE_REPOSITORIO, RepositoryError, InternalError, None)
  }

  /** PubSubException(message, cause). */
  function PubSubException(message: string, cause: string): (e: Exception)
    ensures e.isError && e.code == PubSubError && e.statusCode == InternalError
    ensures e.message == message
    ensures e.cause == (if cause == "" then None else Some(cause))
  {
    NewException(message, PubSubError, InternalError, Some(cause))
  }

  /** What a service throws: one of the exceptions here, or an error the
      database driver raises and the service lets through. */
  datatype Falla = Excepcion(e: Exception) | ErrorConsulta(mensaje: string)

  // ---------------------------------------------------------------------
  // Firestore codes
  // ---------------------------------------------------------------------

  /** The code handed to FirestoreException: a number, a string or nothing. */
  datatype FirestoreCode = NumberCode(n: int) | StringCode(s: string) | NoCode

  /** Which `case` label of the switch a code meets (strict equality), or 0
      for the `default` branch. */
  function FirestoreCase(code: FirestoreCode): (k: nat)
    ensures k <= 9
  {
    match code
    case NumberCode(n) => if 1 <= n <= 9 then n else 0
    case StringCode(s) =>
      if s == "1" then 1 else if s == "2" then 2 else if s == "3" then 3
      else if s == "4" then 4 else if s == "5" then 5 else if s == "6" then 6
      else if s == "7" then 7 else if s == "8" then 8 else if s == "9" then 9
      else 0
    case NoCode => 0
  }

  const CAUSA_FIRESTORE_DESCONOCIDA: string := "Defaulted unkwnown fs error"

  /** The cause written for each switch branch. */
  function FirestoreCause(k: nat): string
    requires k <= 9
  {
    match k
    case 1 => "Firestore action cancelled"
    case 2 => "Firestore unknown error"
    case 3 => "Firestore invalid argument"
    case 4 => "Firestore deadline exceeded"
    case 5 => "Update nonexistent document"
    case 6 => "Firestore document already exists"
    case 7 => "Firestore permission denied"
    case 8 => "Firestore resource exhausted"
    case 9 => "Firestore precondition failed"
    case _ => CAUSA_FIRESTORE_DESCONOCIDA
  }

  /** FirestoreException: always a repository error; branches 3, 6 and 8
      carry status OK, every other branch (and the default) INTERNAL_ERROR. */
  function FirestoreException(code: FirestoreCode, message: string): (e: Exception)
    ensures e.isError && e.code == RepositoryError && e.message == message
    ensures e.statusCode == Ok <==> FirestoreCase(code) in {3, 6, 8}
    ensures e.statusCode != Ok ==> e.statusCode == InternalError
    ensures e.cause == Some(FirestoreCause(FirestoreCase(code)))
    ensures FirestoreCase(code) == 0 ==> e.cause == Some(CAUSA_FIRESTORE_DESCONOCIDA)
  {
    var k := FirestoreCase(code);
    var status := if k == 3 || k == 6 || k == 8 then Ok else InternalError;
    NewException(message, RepositoryError, status, Some(FirestoreCause(k)))
  }

  /** The number n and the string `String(n)` select the same branch, so
      they build the same exception. */
  lemma FirestoreNumeroYTextoIguales(n: int, message: string)
    ensures FirestoreException(NumberCode(n), message) == FirestoreException(StringCode(Text.IntString(n)), message)
  {
    var s := Text.IntString(n);
    if 1 <= n <= 9 {
      assert s == [Text.DigitChar(n)];
    } else if n >= 10 {
      assert |s| >= 2;
    } else if n == 0 {
      assert s == "0";
    } else {
      assert s[0] == '-';
    }
  }

  /** The unit test's cases: code 1 and an unknown code. */
  lemma EjemplosFirestore()
    ensures FirestoreException(NumberCode(1), "Error uno").cause == Some("Firestore action cancelled")
    ensures FirestoreException(NumberCode(999), "Error desconocido").cause == Some("Defaulted unkwnown fs error")
  {
  }

  // ---------------------------------------------------------------------
  // Postgres codes
  // ---------------------------------------------------------------------

  /** The PostgresErrorCode names the switch lists, and any other code. */
  datatype PgCode =
    | RaiseException | UniqueViolation | CheckViolation | NotNullViolation
    | UndefinedFunction | UndefinedTable | UndefinedParameter | UndefinedObject | UndefinedColumn
    | QueryCanceled | ConnectionRefused
    | OtherCode(raw: string)

  /** PostgresError(code, message, pgError = REPOSITORY_ERROR). Every listed
      code gets its own status and cause; every other code is an internal
      error with the cause 'Error desconocido'. */
  function PostgresError(code: PgCode, message: string, pgError: Option<ErrorCode>): (e: Exception)
    ensures e.isError && e.message == message && e.code == pgError.GetOr(RepositoryError)
    ensures e.statusCode == InternalError <==> code.OtherCode?
    ensures code.OtherCode? ==> e.cause == Some("Error desconocido")
    ensures code == UniqueViolation ==> e.statusCode == Conflict && HttpStatus(e.statusCode) == 409
    ensures e.cause.Some?
  {
    var c := pgError.GetOr(RepositoryError);
    match code
    case RaiseException => NewException(message, c, BadRequest, Some("Excepción lanzada desde una función PL/pgSQL"))
    case UniqueViolation => NewException(message, c, Conflict, Some("Intentando insertar llave única duplicada"))
    case CheckViolation => NewException(message, c, BadRequest, Some("Acción viola una restricción de la tabla"))
    case NotNullViolation => NewException(message, c, BadRequest, Some("Insertando una llave nula que no puede serlo"))
    case UndefinedFunction => NewException(message, c, NotFound, Some("llamado a funcion Inexistente"))
    case UndefinedTable => NewException(message, c, NotFound, Some("llamado a tabla Inexistente"))
    case UndefinedParameter => NewException(message, c, NotFound, Some("llamado a parametro Inexistente"))
    case UndefinedObject => NewException(message, c, NotFound, Some("llamado a objeto Inexistente"))
    case UndefinedColumn => NewException(message, c, NotFound, Some("llamado a columna Inexistente"))
    case QueryCanceled => NewException(message, c, RequestTimeout, Some("Query cancelled"))
    case ConnectionRefused => NewException(message, c, ServiceUnavailable, Some("Conexión con pg rechazada"))
    case OtherCode(_) => NewException(message, c, InternalError, Some("Error desconocido"))
  }
}
