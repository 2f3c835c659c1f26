/** An optional value: what a ray pick or a name lookup yields when it may find nothing. */
module Wrappers {

  datatype Option<+T> = None | Some(value: T)
}
