/** The usual optional value, standing for TypeScript's `undefined` and `null`. */
module Option {
  datatype Option<+T> = None | Some(value: T)
}
