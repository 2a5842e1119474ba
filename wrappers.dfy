/** Optional values: `None` stands for Python's `None` returned by a helper. */
module Wrappers {

  datatype Option<+T> = None | Some(value: T)

}
