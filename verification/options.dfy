/** An optional value: the model of a TypeScript `T | undefined` (or `T | null`). */
module Options {

  datatype Option<+T> = None | Some(value: T)
}
