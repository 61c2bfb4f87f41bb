/** Optional values: `None` stands for the `null` that Kotlin code returns or tests with `?.`. */
module Wrappers {

  datatype Option<+T> = None | Some(value: T)
}
