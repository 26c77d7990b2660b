/** Optional values: a pandas cell that may hold NaN after a left join or a guarded division. */
module Wrappers {

  datatype Option<+T> = None | Some(value: T)
}
