/** Optional values: `None` stands for a Java `null` reference or an absent record field. */
module Wrappers {

  datatype Option<+T> = None | Some(value: T)
}
