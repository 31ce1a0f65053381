/** An optional value: the model of TypeScript's `x?: T` (a value or `undefined`). */
module Wrappers {

  datatype Option<+T> = None | Some(value: T)
}
