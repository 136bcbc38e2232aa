/** The one failure-free container the model needs: a value or its absence. The
    kernel's sentinel identifiers (an invalid process, an unlocked mutex) are None. */
module Wrappers {
  datatype Option<+T> = None | Some(value: T)
}
