/** Optional values: a record field the catalog may leave out. */
module Wrappers {

  datatype Option<+T> = None | Some(value: T)
}
