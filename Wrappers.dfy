/** Small value types shared by every module of the model. */
module Wrappers {

  /** A value that may be absent (a TypeScript `undefined`/`null`). */
  datatype Option<T> = None | Some(value: T)
  {
    function GetOr(default: T): T
    {
      if Some? then value else default
    }
  }

  /** The outcome of an operation that can throw: `Err` carries the error's message. */
  datatype Result<T> = Ok(value: T) | Err(message: string)

  /** What `localStorage.getItem(key)` followed by `JSON.parse` yields for one key:
      no entry, the empty string (which the code treats as falsy before parsing),
      a non-empty text that `JSON.parse` rejects (with the message it throws),
      or a parsed object. */
  datatype Slot<T> = Absent | Blank | Malformed(parseError: string) | Json(value: T)
}
