/** Optional values: `None` stands for Python's `None`, including the `None`
    that a function returns after it has caught an exception. */
module Wrappers {

  datatype Option<+T> = None | Some(value: T)

}
