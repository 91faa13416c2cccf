/** Optional values: JavaScript's `undefined` (and, for strings, the falsy empty string) become `None`. */
module Wrappers {

  datatype Option<+T> = None | Some(value: T) {

    /** The value, or `default` when there is none (JavaScript's `x ?? default`). */
    function GetOr(default: T): T {
      match this
      case Some(v) => v
      case None => default
    }
  }

  /** The outcome of a call into the hosted backend: it either returns a value or throws. */
  datatype Reply<+T> = Returned(value: T) | Threw(message: string) {
    predicate Ok() { Returned? }
  }
}
