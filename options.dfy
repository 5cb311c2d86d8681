/** The optional value of JavaScript's `undefined`/`null`-or-value results. */
module Options {

  datatype Option<T> = None | Some(value: T)
}
