/** Optional values, standing for the TypeScript `T | undefined` and `T | null`
    fields of the application's records, and the meaning of an object spread
    (`{ ...before, ...patch }`) on one field. */
module Wrappers {

  datatype Option<+T> = None | Some(value: T) {

    /** Reads an optional field, falling back to `default` when it is
        absent. */
    function GetOr(default: T): T {
      match this
      case Some(v) => v
      case None => default
    }
  }

  /** `after` is what one field holds once a partial record has been spread
      over a record holding `before` in that field: the patch's value when
      the patch supplies the field, the old value when it does not. */
  predicate Overlaid<T(==)>(patch: Option<T>, before: T, after: T) {
    && (patch.Some? ==> after == patch.value)
    && (patch.None? ==> after == before)
  }
}
