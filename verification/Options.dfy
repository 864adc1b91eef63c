// A value that may be absent, as `undefined` and `null` are in TypeScript.
module Options {
  datatype Option<+T> = None | Some(value: T)
}
