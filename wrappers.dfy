/** The "none yet" / "some value" wrapper used for Python's `None` and for the
    `float('inf')` sentinels of the optimizer. */
module Wrappers {

  datatype Option<+T> = None | Some(value: T)

}
