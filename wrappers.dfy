/** Small value wrappers shared by the dashboard and the loader models. */
module Wrappers {

  /** A value that may be absent: JavaScript `null`/`undefined`, Python `None`, a SQL `first()` with no row. */
  datatype Option<+T> = None | Some(value: T)
}
