/** Optional values: a JavaScript `null` / missing field becomes `None`. */
module Wrappers {
  datatype Option<+T> = None | Some(value: T)
}
