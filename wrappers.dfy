/** Optional values: PHP's `false`/missing-key results and the model's failure results. */
module Wrappers {

  datatype Option<+T> = None | Some(value: T)
}
