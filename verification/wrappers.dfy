/** An optional value: the model's rendering of TypeScript's `T | null` / `undefined`. */
module Wrappers {

  datatype Option<+T> = None | Some(value: T)
}
