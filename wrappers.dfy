/** Optional values, used where the source works with `undefined`, `find` results or an emit that may not happen. */
module Wrappers {

  datatype Option<T> = None | Some(value: T)
}
