/** Optional values: the model's rendering of `undefined`, `null` and of the
    optional fields (`notes?`, `appliedDiscount?`, ...) of the storefront's records. */
module Wrappers {

  datatype Option<+T> = None | Some(value: T) {

    /** The value, or `default` when there is none (JavaScript's `x ?? default`). */
    function GetOr(default: T): T {
      match this
      case Some(v) => v
      case None => default
    }
  }
}
