/** The optional value used for JavaScript's `null`/`undefined` fields and for
    validator results (`None` is "no error"). */
module Wrappers {
  datatype Option<+T> = None | Some(value: T)
}
