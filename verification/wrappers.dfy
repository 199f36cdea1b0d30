/** The optional value the checks return: `None` when a check passes,
    `Some(problem)` when it fails. */
module Wrappers {

  datatype Option<+T> = None | Some(value: T)
}
