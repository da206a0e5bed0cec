/** Optional values: `None` stands for an indicator line that is still NaN. */
module Wrappers {

  datatype Option<+T> = None | Some(value: T)
}
