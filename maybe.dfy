/** Optional values: Python's `None` next to a present value. */
module Maybe {
  datatype Option<+T> = None | Some(value: T)
}
