/** The Some/None value that stands for a Java reference that may be null
    or for a double field that holds the NaN "unset" sentinel. */
module Wrappers {

  datatype Option<+T> = None | Some(value: T)
}
