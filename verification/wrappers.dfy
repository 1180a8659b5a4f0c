/** Failure-compatible wrappers shared by every module of the model.

    `Option` stands for a JavaScript value that may be `undefined`/`null`;
    `Result` stands for an operation that either returns or throws. The
    thrown value is an `Error`: the three NestJS HTTP exceptions the core
    raises, or a plain `Error` carrying only its message text.
 */
module Wrappers {

  datatype Option<+T> = None | Some(value: T) {
    predicate IsFailure() { None? }

    function PropagateFailure<U>(): Option<U>
      requires None?
    {
      None
    }

    function Extract(): T
      requires Some?
    {
      value
    }

    function GetOr(default: T): T {
      match this
      case Some(v) => v
      case None => default
    }
  }

  /** What a service method throws. */
  datatype Error =
    | NotFound(message: string)     // NotFoundException, HTTP 404
    | BadRequest(message: string)   // BadRequestException, HTTP 400
    | Forbidden(message: string)    // ForbiddenException, HTTP 403
    | Failure(message: string)      // a plain `new Error(message)` or a runtime TypeError
  {
    predicate IsHttp() { !Failure? }
  }

  datatype Result<+T> = Ok(value: T) | Err(error: Error) {
    predicate IsFailure() { Err? }

    function PropagateFailure<U>(): Result<U>
      requires Err?
    {
      Err(error)
    }

    function Extract(): T
      requires Ok?
    {
      value
    }

    /** `try { … } catch { throw new Error(message) }`: any failure is
        replaced by one plain error with a fixed message. */
    function Rethrow(message: string): Result<T> {
      match this
      case Ok(v) => Ok(v)
      case Err(_) => Err(Failure(message))
    }
  }
}
