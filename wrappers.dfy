/** Optional values: JavaScript's `null`/`undefined` alternatives and absent record fields. */
module Wrappers {

  datatype Option<+T> = None | Some(value: T) {

    /** The wrapped value, or `default` when there is none (JavaScript's `x ?? default`). */
    function GetOr(default: T): T {
      match this
      case Some(v) => v
      case None => default
    }
  }

  /** `after` is what a spread `{...before, ...patch}` leaves in one field: the patch's value when given. */
  predicate Overlaid<T(==)>(given: Option<T>, before: T, after: T) {
    if given.Some? then after == given.value else after == before
  }
}
