/** The absent-or-present value used throughout the model for JavaScript's
    `null` / `undefined` versus a defined value. */
module Options {

  datatype Option<+T> = None | Some(value: T)
}
