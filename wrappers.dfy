/** Optional values: the model's stand-in for a field the source may leave unassigned
    and for a pointer that may be null. */
module Wrappers {

  datatype Option<+T> = None | Some(value: T)
}
