/** An optional value: `None` stands for JavaScript's null or undefined where the two behave alike. */
module Wrappers {
  datatype Option<+T> = None | Some(value: T)
}
