/** Optional values: a missing field of a JSON record, or the miss of a search. */
module Wrappers {

  datatype Option<T> = None | Some(value: T)
}
