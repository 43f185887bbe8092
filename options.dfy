/** The absent-or-present value used wherever the JavaScript code returns
    `undefined`/`null` or a value. */
module Options {
  datatype Option<+T> = None | Some(value: T)
}
