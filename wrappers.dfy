/** Optional values, used wherever the source reads a value that may be absent
    (`find` that returns `undefined`, a map lookup, a form field). */
module Wrappers {

  datatype Option<+T> = None | Some(value: T)
}
