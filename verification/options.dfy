/** The optional-value wrapper used for TypeScript's `T | null` and `T | undefined`. */
module Options {

  /** `None` stands for `null` or `undefined`; `Some(v)` for a present value. */
  datatype Option<+T> = None | Some(value: T)
}
