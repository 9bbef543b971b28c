/**
 * Optional values and results, standing in for `null`/`undefined` and the
 * error responses of the TypeScript handler `src/app/api/generate-week/route.ts`.
 */
module Options {

  datatype Option<+T> = None | Some(value: T) {
    /** The value, or `default` when absent (the handler's `x ?? default`). */
    function GetOr(default: T): T {
      match this
      case Some(v) => v
      case None => default
    }
  }

  datatype Result<+T, +E> = Success(value: T) | Failure(error: E)
}
