/** Optional values, used for keys that may be missing from an options object. */
module Wrappers {

  /** `None` stands for a key that the object does not have at all. */
  datatype Option<+T> = None | Some(value: T)
}
