/** Optional values and pass/fail outcomes, used wherever the launcher has `null`,
    `undefined` or a thrown exception. */
module Wrappers {

  datatype Option<+T> = None | Some(value: T)

  datatype Outcome<+E> = Pass | Fail(error: E)
}
