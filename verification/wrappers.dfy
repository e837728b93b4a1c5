/** Optional values: a profile field that is absent from the stored record
    (or stored as null) is `None`. */
module Wrappers {

  datatype Option<+T> = None | Some(value: T)
}
