/** Types shared by the query layer and the operations that use it: the
    failure-compatible Result and Option, the uniform GlobalError every
    operation returns, the database driver's own error, and UUIDs. */
module Common {

  datatype Option<+T> = None | Some(value: T)

  /** Rust's `Result<T, E>`; `GlobalResult<T>` fixes the error to GlobalError. */
  datatype Result<+T, +E> = Ok(value: T) | Err(error: E)

  type GlobalResult<T> = Result<T, GlobalError>

  /** A UUID, seen only as an opaque natural number. */
  datatype Uuid = Uuid(bits: nat)

  /** An error reported by the database driver (a constraint violation, a lost
      connection, a row that does not decode, ...), kept as its cause. */
  datatype DriverError = DriverError(cause: string)

  /** Error codes of the operations modelled here that a client may see. */
  datatype ErrorCode = CaptchaCaptchaFailed | CaptchaCaptchaOriginNotAllowed

  /** The uniform error type:
      - Internal: an `internal_unwrap!` of a missing value, an `internal_panic!`,
        or a failure reported by a collaborator (a remote operation, the
        secret store, serialization), carrying its message;
      - BadRequest: an `assert_with!` or `unwrap_with_owned!` with its code;
      - Database: a driver error converted by `Into<GlobalError>`. */
  datatype GlobalError =
    | Internal(message: string)
    | BadRequest(code: ErrorCode)
    | Database(cause: DriverError)

  /** `.map_err(Into::<GlobalError>::into)` and `?` on a driver result: the
      value passes through, the driver error is wrapped with its cause kept. */
  function IntoGlobal<T>(r: Result<T, DriverError>): (g: GlobalResult<T>)
    ensures g.Ok? <==> r.Ok?
    ensures g.Ok? ==> g.value == r.value
    ensures g.Err? ==> g.error.Database? && g.error.cause == r.error
  {
    match r
    case Ok(v) => Ok(v)
    case Err(e) => Err(Database(e))
  }

  /** The conversion never discards anything: distinct driver results stay
      distinct once converted. */
  lemma IntoGlobalInjective<T>(r1: Result<T, DriverError>, r2: Result<T, DriverError>)
    requires IntoGlobal(r1) == IntoGlobal(r2)
    ensures r1 == r2
  {
  }
}
