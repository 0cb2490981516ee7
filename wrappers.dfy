/** The optional values of the components: a `string | null` state, a missing
    lookup, a `number` that `parseInt` could not read. */
module Wrappers {
  datatype Option<+T> = None | Some(value: T)
}
