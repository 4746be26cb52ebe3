/** An optional value: JavaScript's `null` or `undefined` beside a present value. */
module Options {

  datatype Option<+T> = None | Some(value: T)
}
