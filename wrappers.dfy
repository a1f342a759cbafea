/** Optional values: the game's `null` for a best statistic not recorded yet. */
module Wrappers {
  datatype Option<+T> = None | Some(value: T)
}
