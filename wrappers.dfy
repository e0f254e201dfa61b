/** An optional value: `None` stands for a JavaScript property that is missing or falsy. */
module Wrappers {
  datatype Option<T> = None | Some(value: T)
}
