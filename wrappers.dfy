/** The optional value used for map lookups, oracles and cache reads. */
module Wrappers {

  datatype Option<+T> = None | Some(value: T)
}
