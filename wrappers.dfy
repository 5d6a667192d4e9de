/** Small failure-carrying datatypes shared by the whole model. */
module Wrappers {

  /** A value that may be absent (JavaScript `undefined` / `null`, a failed `find`). */
  datatype Option<+T> = None | Some(value: T) {
    function GetOr(default: T): T {
      match this
      case Some(v) => v
      case None => default
    }
  }

  /** What a remote call produced: the value it resolved to, or the error it threw. */
  datatype Outcome<+T> = Ok(value: T) | Err(error: string)

  /** A form submission: refused with the alert text, or turned into a store call. */
  datatype Submission<+T> = Rejected(message: string) | Add(payload: T) | Update(id: string, payload: T)
}
