/** Optional values, standing in for the NULL pointers of the C program. */
module Wrappers {

  datatype Option<+T> = None | Some(value: T)
}
