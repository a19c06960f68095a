/** A value that may be absent (JavaScript's `undefined`/`null`). */
module Options {

  datatype Option<T> = None | Some(value: T)
}
