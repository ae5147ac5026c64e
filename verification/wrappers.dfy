/** The optional-value wrapper used for Python's `None` and for operations
    that raise on some inputs. */
module Wrappers {

  datatype Option<+T> = None | Some(value: T)
}
