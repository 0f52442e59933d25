/** A value that may be absent: JavaScript's `undefined`/`null` next to a present value. */
module Options {

  datatype Option<+T> = None | Some(value: T)
}
