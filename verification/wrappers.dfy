/** Optional values: the model's counterpart of a TypeScript `T | undefined` (or `T | null`). */
module Wrappers {

  datatype Option<+T> = None | Some(value: T) {

    /** TypeScript's `x ?? fallback`: the present value if there is one, the fallback otherwise. */
    function GetOr(default: T): T {
      match this
      case Some(v) => v
      case None => default
    }
  }

  /** Shallow-merge of one optional field: a present patch value wins, an absent one keeps the old value. */
  function Override<T>(current: T, patch: Option<T>): (r: T)
    ensures patch.Some? ==> r == patch.value
    ensures patch.None? ==> r == current
  {
    patch.GetOr(current)
  }
}
