/** Optional values, for the absent Python fields (`None`). */
module Wrappers {

  /** `None` stands for Python's `None`: a tombstone value, no delivery
      error, no delivery callback. */
  datatype Option<+T> = None | Some(value: T)
}
